/**
 * The plan board never repeats itself and never goes stale
 * (legacy/src/acp/lane-translator.ts:155-185, 239-255).
 */
module BoardFreshness {
  import opened Basics
  import opened LaneEvents
  import opened LaneTranslator
  import RichView
  import RenderedRuns

  ghost predicate Fixed(roster: Roster, ticks: seq<Tick>) {
    forall i :: 0 <= i < |ticks| ==> ticks[i].roster == Some(roster)
  }

  /** The plans in a stream of updates. */
  function Plans(updates: seq<SessionUpdate>): seq<seq<PlanEntry>> {
    if updates == [] then []
    else Plans(Init(updates)) + if Last(updates).Plan? then [Last(updates).entries] else []
  }

  lemma {:induction false} PlansAppend(a: seq<SessionUpdate>, b: seq<SessionUpdate>)
    ensures Plans(a + b) == Plans(a) + Plans(b)
  {
    if b == [] {
      assert a + b == a;
    } else {
      PlansAppend(a, Init(b));
      assert Init(a + b) == a + Init(b);
    }
  }

  // ---------- the joined key is injective for fixed roles ----------

  ghost predicate IsStatusText(s: Option<string>) {
    s in {Some("pending"), Some("in_progress"), Some("completed")}
  }

  /** Two boards over the same roles; roles are arbitrary text, `:` and `|` included. */
  ghost predicate SameRoles(a: seq<PlanEntry>, b: seq<PlanEntry>) {
    && |a| == |b|
    && forall i :: 0 <= i < |a| ==>
         a[i].content == b[i].content && IsStatusText(a[i].status) && IsStatusText(b[i].status)
  }

  function KeyTail(entries: seq<PlanEntry>): string
    requires entries != []
  {
    if |entries| == 1 then "" else "|" + PlanKey(entries[1..])
  }

  lemma Cancel(p: string, x: string, y: string)
    requires p + x == p + y
    ensures x == y
  {
    assert x == (p + x)[|p|..] == (p + y)[|p|..] == y;
  }

  lemma StatusHeads(s: string, x: string, t: string, y: string)
    requires IsStatusText(Some(s)) && IsStatusText(Some(t))
    requires s + x == t + y
    ensures s == t && x == y
  {
    assert s[0] == (s + x)[0] == (t + y)[0] == t[0];
    Cancel(s, x, y);
  }

  lemma KeySplit(a: seq<PlanEntry>)
    requires a != []
    ensures PlanKey(a) == (a[0].content.GetOr("") + ":") + (a[0].status.GetOr("") + KeyTail(a))
  {
    Assoc(a[0].content.GetOr("") + ":", a[0].status.GetOr(""), KeyTail(a));
  }

  lemma {:induction false} KeyInjective(a: seq<PlanEntry>, b: seq<PlanEntry>)
    requires SameRoles(a, b)
    requires PlanKey(a) == PlanKey(b)
    ensures forall i :: 0 <= i < |a| ==> a[i].status == b[i].status
  {
    if a != [] {
      KeySplit(a);
      KeySplit(b);
      Cancel(a[0].content.GetOr("") + ":", a[0].status.value + KeyTail(a), b[0].status.value + KeyTail(b));
      StatusHeads(a[0].status.value, KeyTail(a), b[0].status.value, KeyTail(b));
      if |a| > 1 {
        Cancel("|", PlanKey(a[1..]), PlanKey(b[1..]));
        KeyInjective(a[1..], b[1..]);
        assert forall i :: 1 <= i < |a| ==> a[i] == a[1..][i - 1] && b[i] == b[1..][i - 1];
      }
    }
  }

  /** On one roster, equal keys mean equal plans, whatever the roles contain. */
  lemma EqualKeysEqualPlans(roster: Roster, s: map<AgentId, PlanStatus>, t: map<AgentId, PlanStatus>)
    requires roster.Valid()
    requires PlanKey(Entries(roster, s)) == PlanKey(Entries(roster, t))
    ensures Entries(roster, s) == Entries(roster, t)
  {
    var a, b := Entries(roster, s), Entries(roster, t);
    forall i | 0 <= i < |a|
      ensures a[i].content == b[i].content && a[i].priority == b[i].priority && a[i].meta == b[i].meta
           && IsStatusText(a[i].status) && IsStatusText(b[i].status)
    {
      assert a[i] == EntryOf(roster, s, roster.order[i]) && b[i] == EntryOf(roster, t, roster.order[i]);
    }
    KeyInjective(a, b);
  }

  lemma KeyNotEmpty(entries: seq<PlanEntry>)
    requires entries != []
    ensures PlanKey(entries) != ""
  {
    assert |EntryKey(entries[0])| > 0;
  }

  // ---------- freshness over whole runs ----------

  /** What an event says about a member's status. */
  function Signal(e: LaneEvent, id: AgentId): Option<PlanStatus> {
    if IsEngine(e) && e.agentId == id && !e.kind.MessageStopType? then Some(InProgress)
    else if IsPlanTrigger(e.kind) && LifecycleChildId(e) == Some(id) then LifecycleStatus(e)
    else None
  }

  /** The latest signal about a member. */
  function LastSignal(ticks: seq<Tick>, id: AgentId): Option<PlanStatus> {
    if ticks == [] then None
    else if Signal(Last(ticks).event, id).Some? then Signal(Last(ticks).event, id)
    else LastSignal(Init(ticks), id)
  }

  /** Events after which the board is looked at. */
  predicate Triggers(e: LaneEvent) {
    IsPlanTrigger(e.kind) || (IsEngine(e) && !e.kind.MessageStopType?)
  }

  function StatusIn(status: map<AgentId, PlanStatus>, id: AgentId): Option<PlanStatus> {
    if id in status then Some(status[id]) else None
  }

  ghost predicate StatusFollows(ticks: seq<Tick>, status: map<AgentId, PlanStatus>) {
    forall id :: StatusIn(status, id) == LastSignal(ticks, id)
  }

  lemma {:induction false} StatusIsLastSignal(c: Config, ticks: seq<Tick>)
    requires ValidTicks(ticks)
    ensures StatusFollows(ticks, Run(c, ticks).state.memberStatus)
  {
    if ticks != [] {
      StatusIsLastSignal(c, Init(ticks));
      StatusStep(c, Run(c, Init(ticks)).state, Last(ticks), Init(ticks));
      assert Init(ticks) + [Last(ticks)] == ticks;
    }
  }

  lemma StatusStep(c: Config, s: State, t: Tick, before: seq<Tick>)
    requires t.roster.Some? ==> t.roster.value.Valid()
    requires StatusFollows(before, s.memberStatus)
    ensures StatusFollows(before + [t], Handle(c, s, t).state.memberStatus)
  {
    assert Init(before + [t]) == before;
    forall id ensures StatusIn(Handle(c, s, t).state.memberStatus, id) == LastSignal(before + [t], id) {
      StatusMoves(c, s, t, id);
      assert StatusIn(s.memberStatus, id) == LastSignal(before, id);
    }
  }

  /** An event's signal about a member is its new status. */
  lemma StatusMoves(c: Config, s: State, t: Tick, id: AgentId)
    requires t.roster.Some? ==> t.roster.value.Valid()
    ensures StatusIn(Handle(c, s, t).state.memberStatus, id)
         == if Signal(t.event, id).Some? then Signal(t.event, id) else StatusIn(s.memberStatus, id)
  {
  }

  ghost predicate NoRepeats(plans: seq<seq<PlanEntry>>) {
    forall i :: 0 <= i < |plans| - 1 ==> plans[i] != plans[i + 1]
  }

  /** The board state agrees with what was last sent, and what was last sent with the statuses. */
  ghost predicate Fresh(roster: Roster, plans: seq<seq<PlanEntry>>, s: State)
    requires roster.Valid()
  {
    && NoRepeats(plans)
    && (plans == [] ==> s.lastPlanKey == "" && s.memberStatus == map[])
    && (plans != [] ==> Last(plans) == Entries(roster, s.memberStatus) && s.lastPlanKey == PlanKey(Last(plans)))
  }

  lemma PlanOutcomeFresh(roster: Roster, plans: seq<seq<PlanEntry>>, s: State, s': State)
    requires roster.Valid() && roster.order != []
    requires Fresh(roster, plans, s)
    requires s'.lastPlanKey == s.lastPlanKey
    ensures var o := PlanOutcome(Some(roster), s');
            Fresh(roster, plans + Plans(o.sent), o.state) && plans + Plans(o.sent) != []
  {
    var entries := Entries(roster, s'.memberStatus);
    KeyNotEmpty(entries);
    if PlanKey(entries) == s.lastPlanKey {
      EqualKeysEqualPlans(roster, s'.memberStatus, s.memberStatus);
      assert plans + Plans([]) == plans;
    } else {
      assert [Plan(entries, None)] == [] + [Plan(entries, None)];
      assert Plans([Plan(entries, None)]) == [entries];
    }
  }

  lemma EngineSendsNoPlan(c: Config, s: State, t: Tick)
    requires IsEngine(t.event)
    ensures Plans(Speak(c, s, t).sent) == []
  {
    var tag := RunLabel(c, s, t);
    var updates := NormalizedTranslate.Updates(c.p, s.open, t.event.payload.normalized.value, OptionsOf(c, s, t));
    assert |tag| <= 1 && |updates| <= 1;
    assert |tag| == 1 ==> Init(tag) == [];
    assert |updates| == 1 ==> Init(updates) == [];
    PlansAppend(tag, updates);
  }

  /** Speaking sends no plan, so an engine event's are those of its activity. */
  lemma PlansOfEngine(c: Config, s: State, t: Tick)
    requires (t.roster.Some? ==> t.roster.value.Valid()) && IsEngine(t.event)
    ensures Plans(HandleEngine(c, s, t).sent) == Plans(Activity(Speak(c, s, t).state, t).sent)
    ensures HandleEngine(c, s, t).state == Activity(Speak(c, s, t).state, t).state
  {
    EngineSendsNoPlan(c, s, t);
    PlansAppend(Speak(c, s, t).sent, Activity(Speak(c, s, t).state, t).sent);
  }

  lemma EngineStepFresh(c: Config, roster: Roster, plans: seq<seq<PlanEntry>>, s: State, t: Tick)
    requires roster.Valid() && roster.order != [] && t.roster == Some(roster)
    requires IsEngine(t.event)
    requires Fresh(roster, plans, s)
    ensures var o := HandleEngine(c, s, t);
            && Fresh(roster, plans + Plans(o.sent), o.state)
            && (plans + Plans(o.sent) != [] <==> plans != [] || !t.event.kind.MessageStopType?)
  {
    var s1 := Speak(c, s, t).state;
    PlansOfEngine(c, s, t);
    assert Fresh(roster, plans, s1);
    if t.event.kind.MessageStopType? || !Changes(s1, Some(t.event.agentId), InProgress) {
      assert plans + Plans([]) == plans;
    } else {
      PlanOutcomeFresh(roster, plans, s, WithStatus(s1, Some(t.event.agentId), InProgress));
    }
  }

  lemma StepFresh(c: Config, roster: Roster, plans: seq<seq<PlanEntry>>, s: State, t: Tick)
    requires roster.Valid() && roster.order != [] && t.roster == Some(roster)
    requires Fresh(roster, plans, s)
    ensures var o := Handle(c, s, t);
            && Fresh(roster, plans + Plans(o.sent), o.state)
            && (plans + Plans(o.sent) != [] <==> plans != [] || Triggers(t.event))
  {
    if IsEngine(t.event) {
      EngineStepFresh(c, roster, plans, s, t);
    } else if IsPlanTrigger(t.event.kind) {
      var status := LifecycleStatus(t.event);
      var s' := if status.Some? then WithStatus(s, LifecycleChildId(t.event), status.value) else s;
      PlanOutcomeFresh(roster, plans, s, s');
      assert Handle(c, s, t) == PlanOutcome(Some(roster), s');
    } else {
      assert Handle(c, s, t) == Outcome(s, []);
      assert plans + Plans([]) == plans;
    }
  }

  /**
   * Main result: on a fixed non-empty roster, after every event, no plan repeats its predecessor,
   * a plan has been sent exactly when some event called for one, and from then on the last
   * plan sent is the current projection.
   */
  lemma {:induction false} BoardIsFresh(c: Config, roster: Roster, ticks: seq<Tick>)
    requires roster.Valid() && roster.order != [] && Fixed(roster, ticks)
    ensures Fresh(roster, Plans(Run(c, ticks).sent), Run(c, ticks).state)
    ensures Plans(Run(c, ticks).sent) != [] <==> exists i :: 0 <= i < |ticks| && Triggers(ticks[i].event)
  {
    if ticks != [] {
      var before := Run(c, Init(ticks));
      BoardIsFresh(c, roster, Init(ticks));
      StepFresh(c, roster, Plans(before.sent), before.state, Last(ticks));
      PlansAppend(before.sent, Handle(c, before.state, Last(ticks)).sent);
      if Plans(Run(c, ticks).sent) != [] && !Triggers(Last(ticks).event) {
        var i :| 0 <= i < |Init(ticks)| && Triggers(Init(ticks)[i].event);
        assert Triggers(ticks[i].event);
      }
      if i :| 0 <= i < |ticks| && Triggers(ticks[i].event) {
        assert i < |ticks| - 1 ==> Triggers(Init(ticks)[i].event);
      }
    }
  }

  /** The rendered board is the last plan sent. */
  lemma {:induction false} RenderedBoard(updates: seq<SessionUpdate>)
    ensures RichView.Render(updates).board ==
            if Plans(updates) == [] then [] else RichView.BoardOf(Last(Plans(updates)))
  {
    if updates != [] {
      RenderedBoard(Init(updates));
      var v := RichView.Render(Init(updates));
      RenderedRuns.AppliedBoard(v, Last(updates));
      assert RichView.Render(updates) == RichView.Applied(v, Last(updates));
    }
  }

  /**
   * What the client's board shows for each member after any run: its role, its own id, and its
   * latest signal, or the roster's state when there has been none.
   */
  lemma ClientBoard(c: Config, roster: Roster, ticks: seq<Tick>, i: nat)
    requires roster.Valid() && Fixed(roster, ticks) && i < |roster.order|
    requires exists j :: 0 <= j < |ticks| && Triggers(ticks[j].event)
    ensures var board := RichView.Render(Run(c, ticks).sent).board;
            var id := roster.order[i];
            var m := roster.members[id];
            && |board| == |roster.order|
            && board[i] == RichView.BoardEntry(m.role, Some("medium"),
                             StatusText(LastSignal(ticks, id).GetOr(MapMemberState(m.state))), Some(m.memberId))
  {
    BoardIsFresh(c, roster, ticks);
    StatusIsLastSignal(c, ticks);
    RenderedBoard(Run(c, ticks).sent);
    var status := Run(c, ticks).state.memberStatus;
    var id := roster.order[i];
    assert id in roster.members;
    assert (if id in status then Some(status[id]) else None) == LastSignal(ticks, id);
  }
}
