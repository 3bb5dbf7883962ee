/**
 * The plan board while the roster changes (legacy/src/acp/lane-translator.ts:168-185): the key that it is
 * deduplicated by carries roles and statuses, and not which members they belong to.
 */
module ChangingRosters {
  import opened Basics
  import opened LaneEvents
  import opened LaneTranslator
  import opened BoardFreshness

  // ---------- what the key says ----------

  /** A role that does not contain the key's separators. */
  predicate PlainRole(role: string) {
    ':' !in role && '|' !in role
  }

  /** Board entries with plain roles. */
  ghost predicate PlainBoard(entries: seq<PlanEntry>) {
    forall i :: 0 <= i < |entries| ==>
      entries[i].content.Some? && PlainRole(entries[i].content.value) && IsStatusText(entries[i].status)
  }

  /** The same roles with the same statuses, in the same order. */
  ghost predicate SameShow(a: seq<PlanEntry>, b: seq<PlanEntry>) {
    |a| == |b| && forall i :: 0 <= i < |a| ==> a[i].content == b[i].content && a[i].status == b[i].status
  }

  lemma UpToColon(p: string, x: string, q: string, y: string)
    requires ':' !in p && ':' !in q && (p + ":") + x == (q + ":") + y
    ensures p == q && x == y
  {
    var whole := (p + ":") + x;
    assert whole[|p|] == ':' && whole[|q|] == ':';
    assert forall i :: 0 <= i < |p| ==> whole[i] == p[i] && p[i] in p;
    assert forall i :: 0 <= i < |q| ==> whole[i] == q[i] && q[i] in q;
    assert |p| == |q|;
    assert p == whole[..|p|] == q;
    BoardFreshness.Cancel(p + ":", x, y);
  }

  lemma {:induction false} SameShowSameKey(a: seq<PlanEntry>, b: seq<PlanEntry>)
    requires SameShow(a, b)
    ensures PlanKey(a) == PlanKey(b)
  {
    if a != [] {
      SameShowSameKey(a[1..], b[1..]);
    }
  }

  lemma TailsTell(a: seq<PlanEntry>, b: seq<PlanEntry>)
    requires a != [] && b != [] && KeyTail(a) == KeyTail(b)
    ensures |a| == 1 <==> |b| == 1
    ensures |a| > 1 ==> PlanKey(a[1..]) == PlanKey(b[1..])
  {
    if |a| > 1 && |b| > 1 { Cancel("|", PlanKey(a[1..]), PlanKey(b[1..])); }
  }

  lemma {:induction false} SameKeySameShow(a: seq<PlanEntry>, b: seq<PlanEntry>)
    requires PlainBoard(a) && PlainBoard(b) && PlanKey(a) == PlanKey(b)
    ensures SameShow(a, b)
  {
    if a != [] { KeyNotEmpty(a); }
    if b != [] { KeyNotEmpty(b); }
    if a != [] && b != [] {
      KeySplit(a);
      KeySplit(b);
      UpToColon(a[0].content.value, a[0].status.value + KeyTail(a), b[0].content.value, b[0].status.value + KeyTail(b));
      StatusHeads(a[0].status.value, KeyTail(a), b[0].status.value, KeyTail(b));
      TailsTell(a, b);
      if |a| > 1 {
        SameKeySameShow(a[1..], b[1..]);
        assert forall i :: 1 <= i < |a| ==> a[i] == a[1..][i - 1] && b[i] == b[1..][i - 1];
      }
    }
  }

  /** Without separators in the roles, the key is exactly the roles and statuses in order. */
  lemma KeyIsShow(a: seq<PlanEntry>, b: seq<PlanEntry>)
    requires PlainBoard(a) && PlainBoard(b)
    ensures PlanKey(a) == PlanKey(b) <==> SameShow(a, b)
  {
    if PlanKey(a) == PlanKey(b) { SameKeySameShow(a, b); }
    if SameShow(a, b) { SameShowSameKey(a, b); }
  }

  // ---------- any sequence of rosters ----------

  /** The key in force is that of the last plan, and no plan has its predecessor's. */
  ghost predicate KeyFollows(plans: seq<seq<PlanEntry>>, s: State) {
    && NoRepeats(plans)
    && s.lastPlanKey == if plans == [] then "" else PlanKey(Last(plans))
  }

  lemma PlanOutcomeFollows(plans: seq<seq<PlanEntry>>, s: State, s': State, roster: Option<Roster>)
    requires roster.Some? ==> roster.value.Valid()
    requires KeyFollows(plans, s) && s'.lastPlanKey == s.lastPlanKey
    ensures var o := PlanOutcome(roster, s'); KeyFollows(plans + Plans(o.sent), o.state)
    ensures roster.Some? && roster.value.order != [] ==>
              PlanOutcome(roster, s').state.lastPlanKey == PlanKey(Entries(roster.value, s'.memberStatus))
  {
    if PlanOutcome(roster, s').sent == [] {
      assert plans + Plans([]) == plans;
    } else {
      var entries := Entries(roster.value, s'.memberStatus);
      OnePlan(entries);
      NewPlanFollows(plans, entries, s);
    }
  }

  lemma NewPlanFollows(plans: seq<seq<PlanEntry>>, entries: seq<PlanEntry>, s: State)
    requires KeyFollows(plans, s) && PlanKey(entries) != s.lastPlanKey
    ensures KeyFollows(plans + [entries], s.(lastPlanKey := PlanKey(entries)))
  {
    assert plans != [] ==> Last(plans) != entries;
  }

  lemma OnePlan(entries: seq<PlanEntry>)
    ensures Plans([Plan(entries, None)]) == [entries]
  {
    assert Init([Plan(entries, None)]) == [];
  }

  /** An event after which the board is compared with what was last sent. */
  predicate Looks(s: State, t: Tick) {
    && t.roster.Some? && t.roster.value.order != []
    && if IsEngineType(t.event.kind) then IsEngine(t.event) && !t.event.kind.MessageStopType? && Changes(s, Some(t.event.agentId), InProgress)
       else IsPlanTrigger(t.event.kind)
  }

  lemma EngineFollows(c: Config, s: State, t: Tick, plans: seq<seq<PlanEntry>>)
    requires (t.roster.Some? ==> t.roster.value.Valid()) && KeyFollows(plans, s) && IsEngine(t.event)
    ensures var o := Handle(c, s, t);
            && KeyFollows(plans + Plans(o.sent), o.state)
            && (Looks(s, t) ==> o.state.lastPlanKey == PlanKey(Entries(t.roster.value, o.state.memberStatus)))
  {
    var spoken := Speak(c, s, t).state;
    PlansOfEngine(c, s, t);
    if t.event.kind.MessageStopType? || !Changes(spoken, Some(t.event.agentId), InProgress) {
      assert plans + Plans([]) == plans;
    } else {
      PlanOutcomeFollows(plans, s, WithStatus(spoken, Some(t.event.agentId), InProgress), t.roster);
    }
  }

  lemma StepFollows(c: Config, s: State, t: Tick, plans: seq<seq<PlanEntry>>)
    requires (t.roster.Some? ==> t.roster.value.Valid()) && KeyFollows(plans, s)
    ensures var o := Handle(c, s, t);
            && KeyFollows(plans + Plans(o.sent), o.state)
            && (Looks(s, t) ==> o.state.lastPlanKey == PlanKey(Entries(t.roster.value, o.state.memberStatus)))
  {
    if IsEngine(t.event) {
      EngineFollows(c, s, t, plans);
    } else if !IsEngineType(t.event.kind) && IsPlanTrigger(t.event.kind) {
      var status := LifecycleStatus(t.event);
      PlanOutcomeFollows(plans, s, if status.Some? then WithStatus(s, LifecycleChildId(t.event), status.value) else s, t.roster);
    } else {
      assert Handle(c, s, t) == Outcome(s, []);
      assert plans + Plans([]) == plans;
    }
  }

  /** The plans that a run sends. */
  function Sent(c: Config, ticks: seq<Tick>): seq<seq<PlanEntry>>
    requires ValidTicks(ticks)
  {
    Plans(Run(c, ticks).sent)
  }

  lemma SentStep(c: Config, ticks: seq<Tick>)
    requires ValidTicks(ticks) && ticks != []
    ensures Sent(c, ticks) == Sent(c, Init(ticks)) + Plans(Handle(c, Run(c, Init(ticks)).state, Last(ticks)).sent)
    ensures Run(c, ticks).state == Handle(c, Run(c, Init(ticks)).state, Last(ticks)).state
  {
    PlansAppend(Run(c, Init(ticks)).sent, Handle(c, Run(c, Init(ticks)).state, Last(ticks)).sent);
  }

  /** After a run whose last event looks at the board. */
  ghost predicate JustLooked(c: Config, ticks: seq<Tick>)
    requires ValidTicks(ticks)
  {
    ticks != [] && Looks(Run(c, Init(ticks)).state, Last(ticks))
  }

  /** The board that the client should have now. */
  function Current(c: Config, ticks: seq<Tick>): seq<PlanEntry>
    requires ValidTicks(ticks) && JustLooked(c, ticks)
  {
    Entries(Last(ticks).roster.value, Run(c, ticks).state.memberStatus)
  }

  /** On any sequence of rosters: no plan repeats, and after a look the last plan has the current board's key. */
  lemma {:induction false} LastPlanHasKey(c: Config, ticks: seq<Tick>)
    requires ValidTicks(ticks)
    ensures KeyFollows(Sent(c, ticks), Run(c, ticks).state)
    ensures JustLooked(c, ticks) ==> Sent(c, ticks) != [] && PlanKey(Last(Sent(c, ticks))) == PlanKey(Current(c, ticks))
  {
    if ticks != [] {
      LastPlanHasKey(c, Init(ticks));
      SentStep(c, ticks);
      StepFollows(c, Run(c, Init(ticks)).state, Last(ticks), Sent(c, Init(ticks)));
      if JustLooked(c, ticks) { KeyNotEmpty(Current(c, ticks)); }
    }
  }

  // ---------- rosters with plain roles ----------

  ghost predicate PlainRoster(roster: Roster) {
    roster.Valid() && forall id :: id in roster.members ==> PlainRole(roster.members[id].role)
  }

  /** Every roster of the stream is one of these. */
  ghost predicate Over(rosters: set<Roster>, ticks: seq<Tick>) {
    forall i :: 0 <= i < |ticks| && ticks[i].roster.Some? ==> ticks[i].roster.value in rosters
  }

  ghost predicate AllPlain(rosters: set<Roster>) {
    forall r :: r in rosters ==> PlainRoster(r)
  }

  ghost predicate AllValid(rosters: set<Roster>) {
    forall r :: r in rosters ==> r.Valid()
  }

  lemma OverValid(rosters: set<Roster>, ticks: seq<Tick>)
    requires AllValid(rosters) && Over(rosters, ticks)
    ensures ValidTicks(ticks)
    ensures ticks != [] ==> Over(rosters, Init(ticks))
  {
  }

  /** Statuses that signals can make: whoever has one is working or done. */
  ghost predicate Signalled(status: map<AgentId, PlanStatus>) {
    forall id :: id in status ==> status[id] != Pending
  }

  /** The board of one of the rosters, at some moment up to now: statuses are never taken back. */
  ghost predicate BoardSoFar(rosters: set<Roster>, now: map<AgentId, PlanStatus>, entries: seq<PlanEntry>) {
    exists r, status :: BoardOf(rosters, now, entries, r, status)
  }

  ghost predicate BoardOf(rosters: set<Roster>, now: map<AgentId, PlanStatus>, entries: seq<PlanEntry>,
                          r: Roster, status: map<AgentId, PlanStatus>) {
    r in rosters && r.Valid() && Signalled(status) && status.Keys <= now.Keys && entries == Entries(r, status)
  }

  ghost predicate AllSoFar(rosters: set<Roster>, now: map<AgentId, PlanStatus>, plans: seq<seq<PlanEntry>>) {
    forall plan :: plan in plans ==> BoardSoFar(rosters, now, plan)
  }

  lemma StillSoFar(rosters: set<Roster>, before: map<AgentId, PlanStatus>, now: map<AgentId, PlanStatus>, plans: seq<seq<PlanEntry>>)
    requires AllSoFar(rosters, before, plans) && before.Keys <= now.Keys
    ensures AllSoFar(rosters, now, plans)
  {
    forall plan | plan in plans ensures BoardSoFar(rosters, now, plan) {
      assert BoardSoFar(rosters, before, plan);
      var r, status :| BoardOf(rosters, before, plan, r, status);
      assert BoardOf(rosters, now, plan, r, status);
    }
  }

  lemma OutcomeBoards(s: State, roster: Option<Roster>, rosters: set<Roster>)
    requires (roster.Some? ==> roster.value in rosters && roster.value.Valid()) && Signalled(s.memberStatus)
    ensures AllSoFar(rosters, s.memberStatus, Plans(PlanOutcome(roster, s).sent))
    ensures PlanOutcome(roster, s).state.memberStatus == s.memberStatus
  {
    if PlanOutcome(roster, s).sent != [] {
      OnePlan(Entries(roster.value, s.memberStatus));
      assert BoardOf(rosters, s.memberStatus, Entries(roster.value, s.memberStatus), roster.value, s.memberStatus);
    }
  }

  /** The statuses that an event's board is drawn from. */
  function StatusAfter(s: State, e: LaneEvent): State {
    if IsEngine(e) then if e.kind.MessageStopType? then s else WithStatus(s, Some(e.agentId), InProgress)
    else if !IsEngineType(e.kind) && IsPlanTrigger(e.kind) && LifecycleStatus(e).Some? then WithStatus(s, LifecycleChildId(e), LifecycleStatus(e).value)
    else s
  }

  lemma SpeechBoards(c: Config, s: State, t: Tick, rosters: set<Roster>)
    requires (t.roster.Some? ==> t.roster.value in rosters && t.roster.value.Valid()) && Signalled(s.memberStatus) && IsEngine(t.event)
    ensures Handle(c, s, t).state.memberStatus == StatusAfter(s, t.event).memberStatus
    ensures AllSoFar(rosters, Handle(c, s, t).state.memberStatus, Plans(Handle(c, s, t).sent))
  {
    var spoken := Speak(c, s, t).state;
    PlansOfEngine(c, s, t);
    OutcomeBoards(WithStatus(spoken, Some(t.event.agentId), InProgress), t.roster, rosters);
    if !Changes(spoken, Some(t.event.agentId), InProgress) {
      assert s.memberStatus[t.event.agentId := InProgress] == s.memberStatus;
    }
  }

  lemma StepBoards(c: Config, s: State, t: Tick, rosters: set<Roster>)
    requires (t.roster.Some? ==> t.roster.value in rosters && t.roster.value.Valid()) && Signalled(s.memberStatus)
    ensures Handle(c, s, t).state.memberStatus == StatusAfter(s, t.event).memberStatus
    ensures AllSoFar(rosters, Handle(c, s, t).state.memberStatus, Plans(Handle(c, s, t).sent))
  {
    if IsEngine(t.event) {
      SpeechBoards(c, s, t, rosters);
    } else {
      OutcomeBoards(StatusAfter(s, t.event), t.roster, rosters);
    }
  }

  lemma {:induction false} SentBoards(c: Config, ticks: seq<Tick>, rosters: set<Roster>)
    requires AllValid(rosters) && Over(rosters, ticks)
    ensures ValidTicks(ticks) && Signalled(Run(c, ticks).state.memberStatus)
    ensures AllSoFar(rosters, Run(c, ticks).state.memberStatus, Sent(c, ticks))
  {
    OverValid(rosters, ticks);
    if ticks != [] {
      var before := Run(c, Init(ticks)).state;
      SentBoards(c, Init(ticks), rosters);
      SentStep(c, ticks);
      StepBoards(c, before, Last(ticks), rosters);
      StillSoFar(rosters, before.memberStatus, Run(c, ticks).state.memberStatus, Sent(c, Init(ticks)));
    }
  }

  lemma EntriesArePlain(r: Roster, status: map<AgentId, PlanStatus>)
    requires PlainRoster(r)
    ensures PlainBoard(Entries(r, status))
  {
    forall i | 0 <= i < |r.order|
      ensures PlainRole(r.members[r.order[i]].role) && IsStatusText(Entries(r, status)[i].status)
    {
      assert r.order[i] in r.members && Entries(r, status)[i] == EntryOf(r, status, r.order[i]);
    }
  }

  /** Who the entries of a board belong to. */
  function Refs(entries: seq<PlanEntry>): seq<Option<MemberRef>> {
    seq(|entries|, i requires 0 <= i < |entries| => entries[i].meta)
  }

  /** Two boards that show the same are equal exactly when they link to the same members. */
  lemma SameShowAndRefs(r: Roster, status: map<AgentId, PlanStatus>, q: Roster, status': map<AgentId, PlanStatus>)
    requires r.Valid() && q.Valid() && SameShow(Entries(r, status), Entries(q, status'))
    ensures Entries(r, status) == Entries(q, status') <==> Refs(Entries(r, status)) == Refs(Entries(q, status'))
  {
    var a, b := Entries(r, status), Entries(q, status');
    if Refs(a) == Refs(b) {
      forall i | 0 <= i < |a| ensures a[i] == b[i] {
        assert a[i].meta == Refs(a)[i] && b[i].meta == Refs(b)[i];
        assert a[i] == EntryOf(r, status, r.order[i]) && b[i] == EntryOf(q, status', q.order[i]);
      }
    }
  }

  /** The roster and the statuses that the last plan shows. */
  lemma DrawnFrom(c: Config, ticks: seq<Tick>, rosters: set<Roster>) returns (r: Roster, status: map<AgentId, PlanStatus>)
    requires AllValid(rosters) && Over(rosters, ticks) && ValidTicks(ticks) && Sent(c, ticks) != []
    ensures BoardOf(rosters, Run(c, ticks).state.memberStatus, Last(Sent(c, ticks)), r, status)
  {
    SentBoards(c, ticks, rosters);
    assert BoardSoFar(rosters, Run(c, ticks).state.memberStatus, Last(Sent(c, ticks)));
    r, status :| BoardOf(rosters, Run(c, ticks).state.memberStatus, Last(Sent(c, ticks)), r, status);
  }

  /**
   * Main result: on any sequence of rosters with plain roles, after every look the last plan sent shows exactly the
   * current roles and statuses, and it is the current board in full exactly when its links are the current ones.
   */
  lemma FreshUpToLinks(c: Config, ticks: seq<Tick>, rosters: set<Roster>)
    requires AllPlain(rosters) && Over(rosters, ticks)
    ensures ValidTicks(ticks)
    ensures JustLooked(c, ticks) ==>
              && Sent(c, ticks) != []
              && SameShow(Last(Sent(c, ticks)), Current(c, ticks))
              && (Last(Sent(c, ticks)) == Current(c, ticks) <==> Refs(Last(Sent(c, ticks))) == Refs(Current(c, ticks)))
  {
    assert AllValid(rosters) by { assert forall r :: r in rosters ==> PlainRoster(r); }
    SentBoards(c, ticks, rosters);
    if JustLooked(c, ticks) {
      LastPlanHasKey(c, ticks);
      var plan := Last(Sent(c, ticks));
      var r, status := DrawnFrom(c, ticks, rosters);
      var now := Last(ticks).roster.value;
      assert now in rosters;
      EntriesArePlain(r, status);
      EntriesArePlain(now, Run(c, ticks).state.memberStatus);
      KeyIsShow(plan, Current(c, ticks));
      SameShowAndRefs(r, status, now, Run(c, ticks).state.memberStatus);
    }
  }

  // ---------- exactly which rosters may follow each other ----------

  function RolesOf(r: Roster): seq<string>
    requires r.Valid()
  {
    seq(|r.order|, i requires 0 <= i < |r.order| => r.members[r.order[i]].role)
  }

  function MemberIdsOf(r: Roster): seq<string>
    requires r.Valid()
  {
    seq(|r.order|, i requires 0 <= i < |r.order| => r.members[r.order[i]].memberId)
  }

  /** Rosters with the same roles have the same members. */
  ghost predicate RolesTellMembers(rosters: set<Roster>) {
    forall r, q :: r in rosters && q in rosters && r.Valid() && q.Valid() && RolesOf(r) == RolesOf(q) ==> MemberIdsOf(r) == MemberIdsOf(q)
  }

  /** Whatever happens under these rosters, after every look the last plan sent is the current board. */
  ghost predicate AlwaysFresh(c: Config, rosters: set<Roster>) {
    forall ticks :: Over(rosters, ticks) && ValidTicks(ticks) && JustLooked(c, ticks) ==> FreshNow(c, ticks)
  }

  /** The last plan sent is the board that the client should have. */
  ghost predicate FreshNow(c: Config, ticks: seq<Tick>)
    requires ValidTicks(ticks) && JustLooked(c, ticks)
  {
    Sent(c, ticks) != [] && Last(Sent(c, ticks)) == Current(c, ticks)
  }

  lemma ShowIsRoles(r: Roster, status: map<AgentId, PlanStatus>, q: Roster, status': map<AgentId, PlanStatus>)
    requires r.Valid() && q.Valid() && SameShow(Entries(r, status), Entries(q, status'))
    ensures RolesOf(r) == RolesOf(q)
  {
    var a, b := Entries(r, status), Entries(q, status');
    forall i | 0 <= i < |r.order| ensures RolesOf(r)[i] == RolesOf(q)[i] {
      assert a[i] == EntryOf(r, status, r.order[i]) && b[i] == EntryOf(q, status', q.order[i]);
    }
  }

  lemma LinksAreMembers(r: Roster, status: map<AgentId, PlanStatus>, q: Roster, status': map<AgentId, PlanStatus>)
    requires r.Valid() && q.Valid() && RolesOf(r) == RolesOf(q)
    ensures Refs(Entries(r, status)) == Refs(Entries(q, status')) <==> MemberIdsOf(r) == MemberIdsOf(q)
  {
    var a, b := Entries(r, status), Entries(q, status');
    forall i | 0 <= i < |r.order|
      ensures Refs(a)[i] == Refs(b)[i] <==> MemberIdsOf(r)[i] == MemberIdsOf(q)[i]
    {
      assert a[i] == EntryOf(r, status, r.order[i]) && b[i] == EntryOf(q, status', q.order[i]);
      assert RolesOf(r)[i] == RolesOf(q)[i];
    }
    assert |Refs(a)| == |Refs(b)| == |MemberIdsOf(r)| == |MemberIdsOf(q)| by { assert |RolesOf(r)| == |RolesOf(q)|; }
  }

  // ---------- when the board goes stale ----------

  /** At some moment one roster's board has a key, and then, or later, another board has the same. */
  ghost predicate Collide(r: Roster, status: map<AgentId, PlanStatus>, q: Roster, status': map<AgentId, PlanStatus>) {
    && r.Valid() && q.Valid() && Signalled(status) && Signalled(status') && status.Keys <= status'.Keys
    && PlanKey(Entries(r, status)) == PlanKey(Entries(q, status')) && Entries(r, status) != Entries(q, status')
  }

  /** No two boards of these rosters share a key. */
  ghost predicate KeysTellBoards(rosters: set<Roster>) {
    forall r, status, q, status' :: r in rosters && q in rosters ==> !Collide(r, status, q, status')
  }

  lemma TellingIsEnough(c: Config, ticks: seq<Tick>, rosters: set<Roster>)
    requires AllValid(rosters) && Over(rosters, ticks) && KeysTellBoards(rosters) && ValidTicks(ticks) && JustLooked(c, ticks)
    ensures FreshNow(c, ticks)
  {
    LastPlanHasKey(c, ticks);
    SentBoards(c, ticks, rosters);
    var r, status := DrawnFrom(c, ticks, rosters);
    assert Last(ticks).roster.value in rosters;
    assert !Collide(r, status, Last(ticks).roster.value, Run(c, ticks).state.memberStatus);
  }

  function Event(kind: LaneType, id: AgentId): LaneEvent {
    LaneEvent(0.0, id, kind, Payload(None, None, None, None, None))
  }

  /** A signal for one member while no roster is known. */
  function SignalFor(id: AgentId, status: PlanStatus): Tick {
    Tick(Event(if status.InProgress? then WorkerReady else WorkerIdle, id), None)
  }

  lemma SignalOnly(c: Config, s: State, id: AgentId, status: PlanStatus)
    requires status != Pending
    ensures Handle(c, s, SignalFor(id, status)) == Outcome(s.(memberStatus := s.memberStatus[id := status]), [])
  {
  }

  /** A task event under a roster only looks at the board. */
  function LookUnder(r: Roster): Tick {
    Tick(Event(TaskCreated, "host"), Some(r))
  }

  lemma LookOnly(c: Config, s: State, r: Roster)
    requires r.Valid() && r.order != []
    ensures var entries := Entries(r, s.memberStatus);
            && Looks(s, LookUnder(r))
            && Handle(c, s, LookUnder(r)) == if PlanKey(entries) == s.lastPlanKey then Outcome(s, [])
                                             else Outcome(s.(lastPlanKey := PlanKey(entries)), [Plan(entries, None)])
  {
  }

  lemma RunOneMore(c: Config, ticks: seq<Tick>, t: Tick)
    requires ValidTicks(ticks) && (t.roster.Some? ==> t.roster.value.Valid())
    ensures ValidTicks(ticks + [t])
    ensures Init(ticks + [t]) == ticks && Last(ticks + [t]) == t
    ensures Run(c, ticks + [t]).state == Handle(c, Run(c, ticks).state, t).state
    ensures Run(c, ticks + [t]).sent == Run(c, ticks).sent + Handle(c, Run(c, ticks).state, t).sent
  {
    assert Init(ticks + [t]) == ticks;
  }

  lemma OneSignal(c: Config, ticks: seq<Tick>, id: AgentId, status: PlanStatus)
    requires ValidTicks(ticks) && status != Pending
    ensures ValidTicks(ticks + [SignalFor(id, status)])
    ensures var o := Run(c, ticks);
            Run(c, ticks + [SignalFor(id, status)]) == Outcome(o.state.(memberStatus := o.state.memberStatus[id := status]), o.sent)
  {
    SignalOnly(c, Run(c, ticks).state, id, status);
    RunOneMore(c, ticks, SignalFor(id, status));
    assert Run(c, ticks).sent + [] == Run(c, ticks).sent;
  }

  /** Signals alone bring the statuses on to any later ones, and nothing is sent. */
  lemma {:induction false} SignalsTo(c: Config, ticks: seq<Tick>, target: map<AgentId, PlanStatus>, todo: set<AgentId>, rosters: set<Roster>)
    returns (more: seq<Tick>)
    requires ValidTicks(ticks) && Over(rosters, ticks) && Signalled(target) && todo <= target.Keys
    requires Run(c, ticks).state.memberStatus.Keys <= target.Keys
    requires forall id :: id in target && id !in todo ==> id in Run(c, ticks).state.memberStatus && Run(c, ticks).state.memberStatus[id] == target[id]
    ensures ValidTicks(more) && Over(rosters, more)
    ensures Run(c, more) == Outcome(Run(c, ticks).state.(memberStatus := target), Run(c, ticks).sent)
    decreases |todo|
  {
    if todo == {} {
      more := ticks;
      assert Run(c, ticks).state.memberStatus == target;
    } else {
      var id :| id in todo;
      OneSignal(c, ticks, id, target[id]);
      more := SignalsTo(c, ticks + [SignalFor(id, target[id])], target, todo - {id}, rosters);
    }
  }

  lemma CollidingHaveMembers(r: Roster, status: map<AgentId, PlanStatus>, q: Roster, status': map<AgentId, PlanStatus>)
    requires Collide(r, status, q, status')
    ensures r.order != [] && q.order != []
  {
    var a, b := Entries(r, status), Entries(q, status');
    if a != [] { KeyNotEmpty(a); }
    if b != [] { KeyNotEmpty(b); }
    assert a == [] && b == [] ==> a == b;
  }

  /** The first board is sent, and then the other one is not. */
  lemma CollisionGoesStale(c: Config, r: Roster, status: map<AgentId, PlanStatus>, q: Roster, status': map<AgentId, PlanStatus>) returns (ticks: seq<Tick>)
    requires Collide(r, status, q, status')
    ensures ValidTicks(ticks) && Over({r, q}, ticks) && JustLooked(c, ticks)
    ensures Sent(c, ticks) == [Entries(r, status)] && Current(c, ticks) == Entries(q, status') && !FreshNow(c, ticks)
  {
    CollidingHaveMembers(r, status, q, status');
    var later := ShownThenSignals(c, r, status, status', {r, q});
    ticks := later + [LookUnder(q)];
    NoSecondBoard(c, later, q);
    OnePlan(Entries(r, status));
  }

  /** A stream that shows one board, and then only brings the statuses on. */
  lemma ShownThenSignals(c: Config, r: Roster, status: map<AgentId, PlanStatus>, status': map<AgentId, PlanStatus>, rosters: set<Roster>)
    returns (later: seq<Tick>)
    requires r in rosters && r.Valid() && r.order != []
    requires Signalled(status) && Signalled(status') && status.Keys <= status'.Keys
    ensures ValidTicks(later) && Over(rosters, later)
    ensures Run(c, later) == Outcome(InitialState.(memberStatus := status', lastPlanKey := PlanKey(Entries(r, status))),
                                     [Plan(Entries(r, status), None)])
  {
    var first := SignalsTo(c, [], status, status.Keys, rosters);
    var shown := FirstBoard(c, first, r, status);
    later := SignalsTo(c, shown, status', status'.Keys, rosters);
  }

  lemma NoSecondBoard(c: Config, later: seq<Tick>, q: Roster)
    requires q.Valid() && q.order != [] && ValidTicks(later)
    requires Run(c, later).state.lastPlanKey == PlanKey(Entries(q, Run(c, later).state.memberStatus))
    ensures var ticks := later + [LookUnder(q)];
            && ValidTicks(ticks) && JustLooked(c, ticks) && Sent(c, ticks) == Sent(c, later)
            && Current(c, ticks) == Entries(q, Run(c, later).state.memberStatus)
  {
    RunOneMore(c, later, LookUnder(q));
    LookOnly(c, Run(c, later).state, q);
    assert Run(c, later).sent + [] == Run(c, later).sent;
  }

  lemma FirstBoard(c: Config, first: seq<Tick>, r: Roster, status: map<AgentId, PlanStatus>) returns (shown: seq<Tick>)
    requires r.Valid() && r.order != [] && ValidTicks(first)
    requires Run(c, first) == Outcome(InitialState.(memberStatus := status), [])
    ensures shown == first + [LookUnder(r)] && ValidTicks(shown)
    ensures Run(c, shown).sent == [Plan(Entries(r, status), None)]
    ensures Run(c, shown).state == InitialState.(memberStatus := status, lastPlanKey := PlanKey(Entries(r, status)))
  {
    shown := first + [LookUnder(r)];
    RunOneMore(c, first, LookUnder(r));
    LookOnly(c, Run(c, first).state, r);
    KeyNotEmpty(Entries(r, status));
  }

  /**
   * Main result: while the roster changes among any rosters, the board is always fresh exactly when their keys tell their boards
   * apart, at every moment and later ones.
   */
  lemma KeysTellBoardsIff(c: Config, rosters: set<Roster>)
    requires AllValid(rosters)
    ensures AlwaysFresh(c, rosters) <==> KeysTellBoards(rosters)
  {
    if KeysTellBoards(rosters) {
      forall ticks | Over(rosters, ticks) && ValidTicks(ticks) && JustLooked(c, ticks) ensures FreshNow(c, ticks) {
        TellingIsEnough(c, ticks, rosters);
      }
    } else {
      var r, status, q, status' :| r in rosters && q in rosters && Collide(r, status, q, status');
      CollisionBreaks(c, rosters, r, status, q, status');
    }
  }

  lemma CollisionBreaks(c: Config, rosters: set<Roster>, r: Roster, status: map<AgentId, PlanStatus>, q: Roster, status': map<AgentId, PlanStatus>)
    requires r in rosters && q in rosters && Collide(r, status, q, status')
    ensures !AlwaysFresh(c, rosters)
  {
    var ticks := CollisionGoesStale(c, r, status, q, status');
    OverMore({r, q}, rosters, ticks);
    assert !(Over(rosters, ticks) && ValidTicks(ticks) && JustLooked(c, ticks) ==> FreshNow(c, ticks));
  }

  lemma OverMore(few: set<Roster>, rosters: set<Roster>, ticks: seq<Tick>)
    requires few <= rosters && Over(few, ticks)
    ensures Over(rosters, ticks)
  {
  }

  // ---------- plain roles ----------

  lemma PlainNoCollision(r: Roster, status: map<AgentId, PlanStatus>, q: Roster, status': map<AgentId, PlanStatus>)
    requires PlainRoster(r) && PlainRoster(q) && (RolesOf(r) == RolesOf(q) ==> MemberIdsOf(r) == MemberIdsOf(q))
    ensures !Collide(r, status, q, status')
  {
    if PlanKey(Entries(r, status)) == PlanKey(Entries(q, status')) {
      EntriesArePlain(r, status);
      EntriesArePlain(q, status');
      KeyIsShow(Entries(r, status), Entries(q, status'));
      ShowIsRoles(r, status, q, status');
      LinksAreMembers(r, status, q, status');
      SameShowAndRefs(r, status, q, status');
    }
  }

  function AllWorking(ids: seq<AgentId>): map<AgentId, PlanStatus> {
    map id | id in ids :: InProgress
  }

  /** When everyone is at work, rosters with the same roles show the same. */
  lemma WorkingShow(r: Roster, q: Roster)
    requires r.Valid() && q.Valid() && RolesOf(r) == RolesOf(q)
    ensures var status := AllWorking(r.order + q.order); SameShow(Entries(r, status), Entries(q, status))
  {
    var status := AllWorking(r.order + q.order);
    var a, b := Entries(r, status), Entries(q, status);
    assert |RolesOf(r)| == |RolesOf(q)|;
    forall i | 0 <= i < |a| ensures a[i].content == b[i].content && a[i].status == b[i].status {
      assert r.order[i] in r.order + q.order && q.order[i] in r.order + q.order;
      assert a[i] == EntryOf(r, status, r.order[i]) && b[i] == EntryOf(q, status, q.order[i]);
      assert RolesOf(r)[i] == RolesOf(q)[i];
    }
  }

  lemma SameRolesCollide(r: Roster, q: Roster)
    requires r.Valid() && q.Valid() && RolesOf(r) == RolesOf(q) && MemberIdsOf(r) != MemberIdsOf(q)
    ensures var status := AllWorking(r.order + q.order); Collide(r, status, q, status)
  {
    var status := AllWorking(r.order + q.order);
    WorkingShow(r, q);
    SameShowSameKey(Entries(r, status), Entries(q, status));
    LinksAreMembers(r, status, q, status);
    SameShowAndRefs(r, status, q, status);
  }

  /**
   * Main result: with plain roles the board is always fresh exactly when the roles of a roster tell its members:
   * replacing a member by another one of the same role is what makes it go stale.
   */
  lemma AlwaysFreshIff(c: Config, rosters: set<Roster>)
    requires AllPlain(rosters)
    ensures AlwaysFresh(c, rosters) <==> RolesTellMembers(rosters)
  {
    assert AllValid(rosters) by { assert forall r :: r in rosters ==> PlainRoster(r); }
    KeysTellBoardsIff(c, rosters);
    if RolesTellMembers(rosters) {
      forall r, status, q, status' | r in rosters && q in rosters ensures !Collide(r, status, q, status') {
        PlainNoCollision(r, status, q, status');
      }
    } else {
      var r, q :| r in rosters && q in rosters && r.Valid() && q.Valid() && RolesOf(r) == RolesOf(q) && MemberIdsOf(r) != MemberIdsOf(q);
      SameRolesCollide(r, q);
    }
  }

  /** Two rosters with one key: a worker is replaced by another worker. */
  lemma CollidingRosters() returns (one: Roster, two: Roster)
    ensures PlainRoster(one) && PlainRoster(two)
    ensures PlanKey(Entries(one, map[])) == PlanKey(Entries(two, map[]))
    ensures Entries(one, map[]) != Entries(two, map[]) && !RolesTellMembers({one, two})
  {
    one := Roster(["x"], map["x" := MemberInfo("m", "worker", Spawning)]);
    two := Roster(["y"], map["y" := MemberInfo("n", "worker", Spawning)]);
    var a, b := Entries(one, map[]), Entries(two, map[]);
    assert a[0] == EntryOf(one, map[], "x") && b[0] == EntryOf(two, map[], "y");
    SameShowSameKey(a, b);
    assert MemberIdsOf(one)[0] != MemberIdsOf(two)[0];
    assert RolesOf(one) == RolesOf(two);
  }

  /** So the fixed roster of the main freshness result is needed. */
  lemma ChangingRosterGoesStale(c: Config)
    ensures exists rosters :: AllPlain(rosters) && !AlwaysFresh(c, rosters)
  {
    var one, two := CollidingRosters();
    var rosters := {one, two};
    assert AllPlain(rosters);
    AlwaysFreshIff(c, rosters);
  }
}
