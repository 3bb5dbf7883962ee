/**
 * Members do not interfere: a member's lane, after translating and rendering any interleaving,
 * is the lane its own events alone would give.
 */
module NonInterference {
  import opened Basics
  import opened LaneEvents
  import opened NormalizedTranslate
  import opened LaneTranslator
  import opened RichView
  import opened RenderedRuns
  import opened BoardFreshness

  /** The events that are about member a. */
  predicate Own(e: LaneEvent, a: AgentId) {
    if IsEngine(e) then e.agentId == a else IsPlanTrigger(e.kind) && LifecycleChildId(e) == Some(a)
  }

  function OwnTicks(ticks: seq<Tick>, a: AgentId): seq<Tick> {
    if ticks == [] then []
    else OwnTicks(Init(ticks), a) + if Own(Last(ticks).event, a) then [Last(ticks)] else []
  }

  /** The lane at key after a run, if there is one. */
  function LaneShown(c: Config, ticks: seq<Tick>, key: string): Option<Lane>
    requires ValidTicks(ticks)
  {
    var v := ViewAfter(c, ticks);
    if key in v.lanes then Some(v.lanes[key]) else None
  }

  predicate HasPrefix(a: AgentId, key: string) {
    (a + ":") <= key
  }

  /** No tool id of a can be spelled as a tool id of b. */
  predicate PrefixFree(a: AgentId, b: AgentId) {
    !HasPrefix(a, b + ":") && !HasPrefix(b, a + ":")
  }

  /** The lane that an agent's updates are filed under. */
  function LaneKeyOf(roster: Roster, b: AgentId): string {
    if b in roster.members then roster.members[b].memberId else ""
  }

  /** An agent whose events stay clear of member a's lane and tool ids. */
  predicate Apart(roster: Roster, a: AgentId, b: AgentId)
    requires a in roster.members
  {
    PrefixFree(a, b) && LaneKeyOf(roster, b) != roster.members[a].memberId
  }

  ghost predicate SameAt<T>(m: map<string, T>, n: map<string, T>, k: string) {
    (k in m <==> k in n) && (k in m ==> m[k] == n[k])
  }

  lemma CommonPrefix(p: string, q: string, k: string)
    requires p <= k && q <= k
    ensures p <= q || q <= p
  {
    if |p| <= |q| {
      assert p == k[..|p|] == q[..|p|];
    } else {
      assert q == k[..|q|] == p[..|q|];
    }
  }

  lemma KeysApart(a: AgentId, b: AgentId, id: string)
    requires PrefixFree(a, b)
    ensures !HasPrefix(a, b + ":" + id)
  {
    if HasPrefix(a, b + ":" + id) {
      CommonPrefix(a + ":", b + ":", b + ":" + id);
    }
  }

  /** An update a translator may send: a chunk, or a tool update with an id. */
  predicate Addressed(u: SessionUpdate) {
    u.AgentMessageChunk? || ((u.ToolCall? || u.ToolCallUpdate?) && u.toolCallId.Some?)
  }

  /** The update is filed in the member's lane exactly when its tool id is one of the member's. */
  predicate Sided(a: AgentId, lane: string, u: SessionUpdate, own: bool) {
    && Addressed(u)
    && (LaneKey(u.meta) == lane <==> own)
    && (!u.AgentMessageChunk? ==> (HasPrefix(a, u.toolCallId.value) <==> own))
  }

  /** The member's lane holds exactly the member's tools. */
  ghost predicate Fenced(a: AgentId, lane: string, v: View) {
    forall k :: k in v.slots ==> (v.slots[k].lane == lane <==> HasPrefix(a, k))
  }

  ghost predicate SameTools(a: AgentId, v: View, w: View) {
    forall k :: HasPrefix(a, k) ==> SameAt(v.slots, w.slots, k)
  }

  lemma FenceKept(a: AgentId, lane: string, v: View, u: SessionUpdate, own: bool)
    requires v.Valid() && Fenced(a, lane, v) && Sided(a, lane, u, own)
    ensures Fenced(a, lane, Applied(v, u))
    ensures Touched(v, u) == Some(lane) <==> own
  {
    AppliedSlots(v, u);
  }

  /** Someone else's update leaves the member's lane and tools alone. */
  lemma ForeignUpdate(a: AgentId, lane: string, v: View, u: SessionUpdate)
    requires v.Valid() && Fenced(a, lane, v) && Sided(a, lane, u, false)
    ensures SameTools(a, Applied(v, u), v)
    ensures SameAt(Applied(v, u).lanes, v.lanes, lane)
  {
    FenceKept(a, lane, v, u, false);
    AppliedElsewhere(v, u, lane);
    AppliedSlots(v, u);
  }

  /** The member's own update moves two agreeing views alike. */
  lemma OwnUpdate(a: AgentId, lane: string, v: View, w: View, u: SessionUpdate)
    requires v.Valid() && w.Valid() && Fenced(a, lane, v) && Fenced(a, lane, w) && Sided(a, lane, u, true)
    requires SameTools(a, v, w) && SameAt(v.lanes, w.lanes, lane)
    ensures SameTools(a, Applied(v, u), Applied(w, u))
    ensures SameAt(Applied(v, u).lanes, Applied(w, u).lanes, lane)
  {
    FenceKept(a, lane, v, u, true);
    FenceKept(a, lane, w, u, true);
    AppliedHere(v, u, lane);
    AppliedHere(w, u, lane);
    assert !u.AgentMessageChunk? ==> SameAt(v.slots, w.slots, u.toolCallId.value);
    OwnSlots(a, lane, v, w, u);
  }

  lemma OwnSlots(a: AgentId, lane: string, v: View, w: View, u: SessionUpdate)
    requires v.Valid() && w.Valid() && Sided(a, lane, u, true)
    requires SameTools(a, v, w) && SameAt(v.lanes, w.lanes, lane)
    ensures SameTools(a, Applied(v, u), Applied(w, u))
  {
    assert !u.AgentMessageChunk? ==> SameAt(v.slots, w.slots, u.toolCallId.value);
    AppliedSlots(v, u);
    AppliedSlots(w, u);
    assert LaneAt(v, lane) == LaneAt(w, lane);
    forall k | HasPrefix(a, k) ensures SameAt(Applied(v, u).slots, Applied(w, u).slots, k) {
      assert SameAt(v.slots, w.slots, k);
    }
  }

  // ---------- one event ----------

  ghost predicate SameOpen(a: AgentId, open: OpenCalls, open': OpenCalls) {
    forall k :: HasPrefix(a, k) ==> SameAt(open, open', k)
  }

  ghost predicate AllSided(a: AgentId, lane: string, updates: seq<SessionUpdate>, own: bool) {
    forall u :: u in updates ==> Sided(a, lane, u, own)
  }

  lemma OwnSpeech(c: Config, s: State, t: Tick, a: AgentId, roster: Roster)
    requires IsEngine(t.event) && t.roster == Some(roster) && t.event.agentId == a && a in roster.members
    ensures AllSided(a, roster.members[a].memberId, Speak(c, s, t).sent, true)
  {
    var ne := t.event.payload.normalized.value;
    assert forall id :: HasPrefix(a, a + ":" + id);
    assert forall u :: u in Updates(c.p, s.open, ne, OptionsOf(c, s, t)) ==> Sided(a, roster.members[a].memberId, u, true);
  }

  lemma ForeignSpeech(c: Config, s: State, t: Tick, a: AgentId, roster: Roster)
    requires IsEngine(t.event) && t.roster == Some(roster) && a in roster.members
    requires Apart(roster, a, t.event.agentId)
    ensures AllSided(a, roster.members[a].memberId, Speak(c, s, t).sent, false)
    ensures SameOpen(a, Speak(c, s, t).state.open, s.open)
  {
    var ne := t.event.payload.normalized.value;
    forall id ensures !HasPrefix(a, t.event.agentId + ":" + id) {
      KeysApart(a, t.event.agentId, id);
    }
    assert forall u :: u in Updates(c.p, s.open, ne, OptionsOf(c, s, t)) ==> Sided(a, roster.members[a].memberId, u, false);
  }

  /** What a member says depends on its own open calls only. */
  lemma SameSpeech(c: Config, s: State, s': State, t: Tick, a: AgentId, roster: Roster)
    requires IsEngine(t.event) && t.roster == Some(roster) && t.event.agentId == a && a in roster.members
    requires c.interleave ==> roster.members[a].role == "lead"
    requires SameOpen(a, s.open, s'.open)
    ensures Speak(c, s, t).sent == Speak(c, s', t).sent
    ensures SameOpen(a, Speak(c, s, t).state.open, Speak(c, s', t).state.open)
  {
    var ne := t.event.payload.normalized.value;
    assert OptionsOf(c, s, t) == OptionsOf(c, s', t);
    assert forall id :: HasPrefix(a, a + ":" + id);
    match ne {
      case ToolUseInput(id, _) => assert SameAt(s.open, s'.open, a + ":" + id);
      case ToolUseEnd(id, _) => assert SameAt(s.open, s'.open, a + ":" + id);
      case _ =>
    }
  }

  lemma {:induction false} ForeignAll(a: AgentId, lane: string, v: View, updates: seq<SessionUpdate>)
    requires v.Valid() && Fenced(a, lane, v) && AllSided(a, lane, updates, false)
    ensures Fenced(a, lane, ApplyAll(v, updates))
    ensures SameTools(a, ApplyAll(v, updates), v)
    ensures SameAt(ApplyAll(v, updates).lanes, v.lanes, lane)
  {
    if updates != [] {
      var mid := ApplyAll(v, Init(updates));
      ForeignAll(a, lane, v, Init(updates));
      FenceKept(a, lane, mid, Last(updates), false);
      ForeignUpdate(a, lane, mid, Last(updates));
      forall k | HasPrefix(a, k) ensures SameAt(ApplyAll(v, updates).slots, v.slots, k) {
        assert SameAt(mid.slots, v.slots, k);
      }
    }
  }

  lemma {:induction false} OwnAll(a: AgentId, lane: string, v: View, w: View, updates: seq<SessionUpdate>)
    requires v.Valid() && w.Valid() && Fenced(a, lane, v) && Fenced(a, lane, w) && AllSided(a, lane, updates, true)
    requires SameTools(a, v, w) && SameAt(v.lanes, w.lanes, lane)
    ensures Fenced(a, lane, ApplyAll(v, updates)) && Fenced(a, lane, ApplyAll(w, updates))
    ensures SameTools(a, ApplyAll(v, updates), ApplyAll(w, updates))
    ensures SameAt(ApplyAll(v, updates).lanes, ApplyAll(w, updates).lanes, lane)
  {
    if updates != [] {
      var v', w' := ApplyAll(v, Init(updates)), ApplyAll(w, Init(updates));
      OwnAll(a, lane, v, w, Init(updates));
      FenceKept(a, lane, v', Last(updates), true);
      FenceKept(a, lane, w', Last(updates), true);
      OwnUpdate(a, lane, v', w', Last(updates));
    }
  }

  // ---------- whole runs ----------

  lemma {:induction false} OwnTicksFixed(roster: Roster, ticks: seq<Tick>, a: AgentId)
    requires roster.Valid() && Fixed(roster, ticks)
    ensures Fixed(roster, OwnTicks(ticks, a)) && ValidTicks(OwnTicks(ticks, a)) && ValidTicks(ticks)
  {
    if ticks != [] {
      OwnTicksFixed(roster, Init(ticks), a);
    }
  }

  /** The full run and the member's own run agree on everything that belongs to the member. */
  ghost predicate Agree(a: AgentId, lane: string, open: OpenCalls, v: View, open': OpenCalls, w: View) {
    SameOpen(a, open, open') && SameTools(a, v, w) && SameAt(v.lanes, w.lanes, lane)
    && Fenced(a, lane, v) && Fenced(a, lane, w)
  }

  ghost predicate OthersApart(roster: Roster, ticks: seq<Tick>, a: AgentId)
    requires a in roster.members
  {
    forall i :: 0 <= i < |ticks| && IsEngine(ticks[i].event) && ticks[i].event.agentId != a ==>
      Apart(roster, a, ticks[i].event.agentId)
  }

  lemma AgreeOwn(c: Config, s: State, v: View, s': State, w: View, t: Tick, a: AgentId, roster: Roster)
    requires roster.Valid() && t.roster == Some(roster) && a in roster.members
    requires c.interleave ==> roster.members[a].role == "lead"
    requires IsEngine(t.event) && t.event.agentId == a
    requires v.Valid() && w.Valid() && Agree(a, roster.members[a].memberId, s.open, v, s'.open, w)
    ensures Agree(a, roster.members[a].memberId, Handle(c, s, t).state.open, ApplyAll(v, Handle(c, s, t).sent),
                  Handle(c, s', t).state.open, ApplyAll(w, Handle(c, s', t).sent))
  {
    OwnSpeech(c, s, t, a, roster);
    SameSpeech(c, s, s', t, a, roster);
    StateAfterEvent(c, s, t);
    StateAfterEvent(c, s', t);
    LanesAfterEngine(c, s, t, v);
    LanesAfterEngine(c, s', t, w);
    OwnAll(a, roster.members[a].memberId, v, w, Speak(c, s, t).sent);
  }

  lemma AgreeForeign(c: Config, s: State, v: View, s': State, w: View, t: Tick, a: AgentId, roster: Roster)
    requires roster.Valid() && t.roster == Some(roster) && a in roster.members
    requires IsEngine(t.event) ==> Apart(roster, a, t.event.agentId)
    requires v.Valid() && w.Valid() && Agree(a, roster.members[a].memberId, s.open, v, s'.open, w)
    ensures Agree(a, roster.members[a].memberId, Handle(c, s, t).state.open, ApplyAll(v, Handle(c, s, t).sent), s'.open, w)
  {
    StateAfterEvent(c, s, t);
    var lane := roster.members[a].memberId;
    if IsEngine(t.event) {
      ForeignSpeech(c, s, t, a, roster);
      LanesAfterEngine(c, s, t, v);
      ForeignAll(a, lane, v, Speak(c, s, t).sent);
      Chain(a, lane, Handle(c, s, t).state.open, ApplyAll(v, Speak(c, s, t).sent), s.open, v, s'.open, w);
    } else {
      LanesAfterOther(c, s, t, v);
    }
  }

  lemma Chain(a: AgentId, lane: string, open0: OpenCalls, u: View, open1: OpenCalls, v: View, open2: OpenCalls, w: View)
    requires SameOpen(a, open0, open1) && SameTools(a, u, v) && SameAt(u.lanes, v.lanes, lane) && Fenced(a, lane, u)
    requires Agree(a, lane, open1, v, open2, w)
    ensures Agree(a, lane, open0, u, open2, w)
  {
    forall k | HasPrefix(a, k) ensures SameAt(open0, open2, k) && SameAt(u.slots, w.slots, k) {
      assert SameAt(open0, open1, k) && SameAt(open1, open2, k) && SameAt(u.slots, v.slots, k) && SameAt(v.slots, w.slots, k);
    }
  }

  ghost predicate RunsAgree(c: Config, roster: Roster, ticks: seq<Tick>, own: seq<Tick>, a: AgentId)
    requires ValidTicks(ticks) && ValidTicks(own) && a in roster.members
  {
    Agree(a, roster.members[a].memberId, Run(c, ticks).state.open, ViewAfter(c, ticks),
          Run(c, own).state.open, ViewAfter(c, own))
  }

  lemma BothStep(c: Config, roster: Roster, ticks: seq<Tick>, own: seq<Tick>, a: AgentId)
    requires roster.Valid() && a in roster.members && ticks != [] && own != [] && Last(ticks) == Last(own)
    requires Last(ticks).roster == Some(roster) && Own(Last(ticks).event, a)
    requires c.interleave ==> roster.members[a].role == "lead"
    requires ValidTicks(ticks) && ValidTicks(own) && RunsAgree(c, roster, Init(ticks), Init(own), a)
    ensures RunsAgree(c, roster, ticks, own, a)
  {
    ViewStep(c, ticks);
    ViewStep(c, own);
    var t := Last(ticks);
    var s, s' := Run(c, Init(ticks)).state, Run(c, Init(own)).state;
    var v, w := ViewAfter(c, Init(ticks)), ViewAfter(c, Init(own));
    if IsEngine(t.event) {
      AgreeOwn(c, s, v, s', w, t, a, roster);
    } else {
      AgreeForeign(c, s, v, s', w, t, a, roster);
      StateAfterEvent(c, s', t);
      LanesAfterOther(c, s', t, w);
    }
  }

  lemma LoneStep(c: Config, roster: Roster, ticks: seq<Tick>, own: seq<Tick>, a: AgentId)
    requires roster.Valid() && a in roster.members && ticks != [] && Last(ticks).roster == Some(roster)
    requires IsEngine(Last(ticks).event) ==> Apart(roster, a, Last(ticks).event.agentId)
    requires ValidTicks(ticks) && ValidTicks(own) && RunsAgree(c, roster, Init(ticks), own, a)
    ensures RunsAgree(c, roster, ticks, own, a)
  {
    ViewStep(c, ticks);
    AgreeForeign(c, Run(c, Init(ticks)).state, ViewAfter(c, Init(ticks)), Run(c, own).state, ViewAfter(c, own),
                 Last(ticks), a, roster);
  }

  lemma OthersApartInit(roster: Roster, ticks: seq<Tick>, a: AgentId)
    requires a in roster.members && ticks != [] && OthersApart(roster, ticks, a)
    ensures OthersApart(roster, Init(ticks), a)
    ensures IsEngine(Last(ticks).event) && Last(ticks).event.agentId != a ==> Apart(roster, a, Last(ticks).event.agentId)
  {
  }

  lemma RunsAgreeAtStart(c: Config, roster: Roster, a: AgentId)
    requires a in roster.members
    ensures RunsAgree(c, roster, [], [], a)
  {
  }

  lemma {:induction false} AllRunsAgree(c: Config, roster: Roster, ticks: seq<Tick>, a: AgentId)
    requires roster.Valid() && Fixed(roster, ticks) && a in roster.members
    requires c.interleave ==> roster.members[a].role == "lead"
    requires OthersApart(roster, ticks, a)
    ensures ValidTicks(ticks) && ValidTicks(OwnTicks(ticks, a))
    ensures RunsAgree(c, roster, ticks, OwnTicks(ticks, a), a)
  {
    OwnTicksFixed(roster, ticks, a);
    if ticks == [] {
      RunsAgreeAtStart(c, roster, a);
    } else {
      OthersApartInit(roster, ticks, a);
      AllRunsAgree(c, roster, Init(ticks), a);
      if Own(Last(ticks).event, a) {
        assert Init(OwnTicks(ticks, a)) == OwnTicks(Init(ticks), a);
        BothStep(c, roster, ticks, OwnTicks(ticks, a), a);
      } else {
        assert OwnTicks(ticks, a) == OwnTicks(Init(ticks), a);
        LoneStep(c, roster, ticks, OwnTicks(ticks, a), a);
      }
    }
  }

  /**
   * Main result. On a fixed roster, in collapse mode (or for a lead, in either mode), the lane of a
   * member whose tool ids and lane no other speaker shares is the lane of its own events alone.
   */
  lemma MemberLaneIsItsOwn(c: Config, roster: Roster, ticks: seq<Tick>, a: AgentId)
    requires roster.Valid() && Fixed(roster, ticks) && a in roster.members
    requires c.interleave ==> roster.members[a].role == "lead"
    requires OthersApart(roster, ticks, a)
    ensures ValidTicks(ticks) && ValidTicks(OwnTicks(ticks, a))
    ensures LaneShown(c, ticks, roster.members[a].memberId) == LaneShown(c, OwnTicks(ticks, a), roster.members[a].memberId)
  {
    AllRunsAgree(c, roster, ticks, a);
  }

  // ---------- exactly which rosters keep their members apart ----------

  /** Every speaker in the stream is on the roster. */
  ghost predicate Staffed(roster: Roster, ticks: seq<Tick>) {
    Fixed(roster, ticks) && forall i :: 0 <= i < |ticks| && IsEngine(ticks[i].event) ==> ticks[i].event.agentId in roster.members
  }

  ghost predicate Unaffected(c: Config, roster: Roster, ticks: seq<Tick>, a: AgentId)
    requires a in roster.members
  {
    ValidTicks(ticks) && ValidTicks(OwnTicks(ticks, a)) ==>
      LaneShown(c, ticks, roster.members[a].memberId) == LaneShown(c, OwnTicks(ticks, a), roster.members[a].memberId)
  }

  ghost predicate NonInterfering(c: Config, roster: Roster) {
    forall ticks, a :: a in roster.members && Staffed(roster, ticks) ==> Unaffected(c, roster, ticks, a)
  }

  /** Distinct member ids, and no agent id that spells another one followed by a colon. */
  ghost predicate Separated(roster: Roster) {
    forall a, b :: a in roster.members && b in roster.members && a != b ==> Apart(roster, a, b)
  }

  /** Agent ids without a colon, and distinct member ids, are enough. */
  lemma NoColonSeparates(roster: Roster)
    requires forall a :: a in roster.members ==> ':' !in a
    requires forall a, b :: a in roster.members && b in roster.members && a != b ==>
               roster.members[a].memberId != roster.members[b].memberId
    ensures Separated(roster)
  {
    forall a, b | a in roster.members && b in roster.members && a != b
      ensures Apart(roster, a, b)
    {
      if HasPrefix(a, b + ":") { ColonEndsId(a, b); }
      if HasPrefix(b, a + ":") { ColonEndsId(b, a); }
    }
  }

  lemma ColonEndsId(a: AgentId, b: AgentId)
    requires HasPrefix(a, b + ":")
    ensures a == b || ':' in b
  {
    if |a| == |b| {
      assert a == (a + ":")[..|a|] == (b + ":")[..|a|];
    } else {
      assert b[|a|] == (b + ":")[|a|] == (a + ":")[|a|];
    }
  }

  function EngineTick(roster: Roster, a: AgentId, kind: LaneType, ne: NormalizedEvent): Tick {
    Tick(LaneEvent(0.0, a, kind, Payload(Some(ne), None, None, None, None)), Some(roster))
  }

  lemma LanesAfterTick(c: Config, ticks: seq<Tick>)
    requires ValidTicks(ticks) && ticks != [] && IsEngine(Last(ticks).event)
    ensures SameLanes(ViewAfter(c, ticks),
                      ApplyAll(ViewAfter(c, Init(ticks)), Speak(c, Run(c, Init(ticks)).state, Last(ticks)).sent))
  {
    ViewStep(c, ticks);
    LanesAfterEngine(c, Run(c, Init(ticks)).state, Last(ticks), ViewAfter(c, Init(ticks)));
  }

  /** After a member's first event, a tool start, its lane shows that one tool as pending. */
  lemma AfterStart(c: Config, roster: Roster, a: AgentId, id: string, name: string)
    requires roster.Valid() && a in roster.members
    ensures var ticks := [EngineTick(roster, a, ToolUseStartType, ToolUseStart(id, name))];
            var lane := roster.members[a].memberId;
            var v := ViewAfter(c, ticks);
            && v.slots == map[a + ":" + id := Slot(lane, 0)]
            && lane in v.lanes && |v.lanes[lane].tools| == 1 && v.lanes[lane].tools[0].status == "pending"
  {
    var t := EngineTick(roster, a, ToolUseStartType, ToolUseStart(id, name));
    assert Init([t]) == [];
    var u := StartUpdate(c, roster, a, id, name);
    LanesAfterTick(c, [t]);
    StartSpeech(c, roster, a, id, name);
    ApplyOne(EmptyView, u);
    FirstTool(u, a + ":" + id, roster.members[a].memberId);
  }

  /** What a member's tool start sends. */
  function StartUpdate(c: Config, roster: Roster, a: AgentId, id: string, name: string): SessionUpdate
    requires a in roster.members
  {
    ToolCall(Some(a + ":" + id), Some("[" + roster.members[a].role + "] " + c.p.title(Some(name), None)),
             Some(c.p.kind(name)), Some("pending"), None, Some(MetaOf(roster.members[a])))
  }

  lemma StartSpeech(c: Config, roster: Roster, a: AgentId, id: string, name: string)
    requires a in roster.members
    ensures Speak(c, InitialState, EngineTick(roster, a, ToolUseStartType, ToolUseStart(id, name))).sent
         == [StartUpdate(c, roster, a, id, name)]
  {
    var t := EngineTick(roster, a, ToolUseStartType, ToolUseStart(id, name));
    assert Speak(c, InitialState, t).sent == [] + [StartUpdate(c, roster, a, id, name)];
  }

  /** A tool start on an empty view. */
  lemma FirstTool(u: SessionUpdate, key: string, lane: string)
    requires u.ToolCall? && u.toolCallId == Some(key) && u.status == Some("pending") && LaneKey(u.meta) == lane
    ensures var v := Applied(EmptyView, u);
            && v.slots == map[key := Slot(lane, 0)]
            && lane in v.lanes && |v.lanes[lane].tools| == 1 && v.lanes[lane].tools[0].status == "pending"
  {
    AppliedSlots(EmptyView, u);
    AppliedHere(EmptyView, u, lane);
  }

  /** Two members with one member id: the other's tool call shows up in the member's lane. */
  lemma SharedLaneInterferes(c: Config, roster: Roster, a: AgentId, b: AgentId)
    requires roster.Valid() && a in roster.members && b in roster.members && a != b
    requires roster.members[a].memberId == roster.members[b].memberId
    ensures exists ticks :: Staffed(roster, ticks) && !Unaffected(c, roster, ticks, a)
  {
    var t := EngineTick(roster, b, ToolUseStartType, ToolUseStart("t", "bash"));
    AfterStart(c, roster, b, "t", "bash");
    assert OwnTicks([t], a) == [] by {
      assert Init([t]) == [] && Last([t]) == t && OwnTicks([], a) == [];
    }
    assert LaneShown(c, [], roster.members[a].memberId) == None;
    assert Staffed(roster, [t]) && !Unaffected(c, roster, [t], a);
  }

  /** A result for a tool id that is already filed completes that tool, whoever sends it. */
  lemma ResultCompletes(c: Config, roster: Roster, ticks: seq<Tick>, b: AgentId, slot: Slot)
    requires roster.Valid() && b in roster.members && ValidTicks(ticks) && ticks != []
    requires Last(ticks) == EngineTick(roster, b, ToolResultType, ToolResult("", "", false))
    requires var v := ViewAfter(c, Init(ticks)); b + ":" in v.slots && v.slots[b + ":"] == slot
    ensures var v := ViewAfter(c, ticks);
            slot.lane in v.lanes && slot.pos < |v.lanes[slot.lane].tools|
            && v.lanes[slot.lane].tools[slot.pos].status == "completed"
  {
    LanesAfterTick(c, ticks);
    ResultSpeech(c, Run(c, Init(ticks)).state, Last(ticks), roster, b);
    ApplyOne(ViewAfter(c, Init(ticks)), EmptyResult(roster, b));
    ResultApplied(ViewAfter(c, Init(ticks)), roster, b, slot);
  }

  lemma ResultApplied(v: View, roster: Roster, b: AgentId, slot: Slot)
    requires v.Valid() && b in roster.members && b + ":" in v.slots && v.slots[b + ":"] == slot
    ensures var w := Applied(v, EmptyResult(roster, b));
            slot.lane in w.lanes && slot.pos < |w.lanes[slot.lane].tools|
            && w.lanes[slot.lane].tools[slot.pos].status == "completed"
  {
    AppliedHere(v, EmptyResult(roster, b), slot.lane);
  }

  /** What a member's empty result for an empty tool id sends. */
  function EmptyResult(roster: Roster, b: AgentId): SessionUpdate
    requires b in roster.members
  {
    ToolCallUpdate(Some(b + ":"), None, None, Some("completed"), Some([TextContent("")]), None, Some(""), None,
                   Some(MetaOf(roster.members[b])))
  }

  lemma ResultSpeech(c: Config, s: State, t: Tick, roster: Roster, b: AgentId)
    requires b in roster.members && t == EngineTick(roster, b, ToolResultType, ToolResult("", "", false))
    ensures Speak(c, s, t).sent == [EmptyResult(roster, b)]
  {
    assert b + ":" + "" == b + ":";
    assert Speak(c, s, t).sent == [] + [EmptyResult(roster, b)];
  }

  /** One agent id spells another followed by a colon: the longer one completes the shorter one's tool. */
  lemma PrefixInterferes(c: Config, roster: Roster, a: AgentId, b: AgentId)
    requires roster.Valid() && a in roster.members && b in roster.members && a != b
    requires HasPrefix(a, b + ":")
    ensures exists ticks :: Staffed(roster, ticks) && !Unaffected(c, roster, ticks, a)
  {
    var id := (b + ":")[|a + ":"|..];
    assert a + ":" + id == b + ":";
    var start := EngineTick(roster, a, ToolUseStartType, ToolUseStart(id, "bash"));
    var result := EngineTick(roster, b, ToolResultType, ToolResult("", "", false));
    PairInterferes(c, roster, a, b, id, [start] + [result], start, result);
  }

  lemma PairInterferes(c: Config, roster: Roster, a: AgentId, b: AgentId, id: string, ticks: seq<Tick>, start: Tick, result: Tick)
    requires roster.Valid() && a in roster.members && b in roster.members && a != b && a + ":" + id == b + ":"
    requires start == EngineTick(roster, a, ToolUseStartType, ToolUseStart(id, "bash"))
    requires result == EngineTick(roster, b, ToolResultType, ToolResult("", "", false))
    requires ticks == [start] + [result]
    ensures Staffed(roster, ticks) && !Unaffected(c, roster, ticks, a)
  {
    OwnOfTwo(start, result, a);
    StaffedPair(roster, start, result);
    LaneDiffers(c, roster, a, b, id, ticks);
  }

  lemma StaffedPair(roster: Roster, first: Tick, second: Tick)
    requires roster.Valid() && first.roster == Some(roster) == second.roster
    requires first.event.agentId in roster.members && second.event.agentId in roster.members
    ensures Staffed(roster, [first] + [second]) && ValidTicks([first] + [second])
    ensures Init([first] + [second]) == [first] && Last([first] + [second]) == second
  {
  }

  lemma LaneDiffers(c: Config, roster: Roster, a: AgentId, b: AgentId, id: string, ticks: seq<Tick>)
    requires roster.Valid() && a in roster.members && b in roster.members && a + ":" + id == b + ":"
    requires ticks != [] && ValidTicks(ticks)
    requires Init(ticks) == [EngineTick(roster, a, ToolUseStartType, ToolUseStart(id, "bash"))]
    requires Last(ticks) == EngineTick(roster, b, ToolResultType, ToolResult("", "", false))
    ensures LaneShown(c, ticks, roster.members[a].memberId) != LaneShown(c, Init(ticks), roster.members[a].memberId)
  {
    AfterStart(c, roster, a, id, "bash");
    ResultCompletes(c, roster, ticks, b, Slot(roster.members[a].memberId, 0));
  }

  lemma OwnOfTwo(first: Tick, second: Tick, a: AgentId)
    requires Own(first.event, a) && !Own(second.event, a)
    ensures OwnTicks([first] + [second], a) == [first]
  {
    assert Init([first] + [second]) == [first] && Init([first]) == [];
    assert OwnTicks([first], a) == [] + [first];
  }

  /** A roster that is not separated does not keep its members apart, in either mode. */
  lemma NotSeparatedInterferes(c: Config, roster: Roster)
    requires roster.Valid() && !Separated(roster)
    ensures !NonInterfering(c, roster)
  {
    var a, b :| a in roster.members && b in roster.members && a != b && !Apart(roster, a, b);
    if roster.members[a].memberId == roster.members[b].memberId {
      SharedLaneInterferes(c, roster, a, b);
    } else if HasPrefix(a, b + ":") {
      PrefixInterferes(c, roster, a, b);
    } else {
      PrefixInterferes(c, roster, b, a);
    }
  }

  /**
   * Main result: in collapse mode a roster keeps every member's lane free of the others, on every
   * stream of its members' events, exactly when it is separated.
   */
  lemma NonInterferenceIffSeparated(c: Config, roster: Roster)
    requires roster.Valid() && !c.interleave
    ensures NonInterfering(c, roster) <==> Separated(roster)
  {
    if Separated(roster) {
      forall ticks, a | a in roster.members && Staffed(roster, ticks) ensures Unaffected(c, roster, ticks, a) {
        MemberLaneIsItsOwn(c, roster, ticks, a);
      }
    } else {
      NotSeparatedInterferes(c, roster);
    }
  }
}
