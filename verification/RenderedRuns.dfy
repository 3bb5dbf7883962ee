/** Rendering a translated run, event by event. */
module RenderedRuns {
  import opened Basics
  import opened LaneEvents
  import opened NormalizedTranslate
  import opened LaneTranslator
  import opened RichView

  function ApplyAll(v: View, updates: seq<SessionUpdate>): (r: View)
    requires v.Valid()
    ensures r.Valid()
  {
    if updates == [] then v
    else
      AppliedValid(ApplyAll(v, Init(updates)), Last(updates));
      Applied(ApplyAll(v, Init(updates)), Last(updates))
  }

  lemma ApplyLast(v: View, updates: seq<SessionUpdate>)
    requires v.Valid() && updates != []
    ensures ApplyAll(v, updates) == Applied(ApplyAll(v, Init(updates)), Last(updates))
  {
  }

  lemma {:induction false} ApplyAllAppend(v: View, a: seq<SessionUpdate>, b: seq<SessionUpdate>)
    requires v.Valid()
    ensures ApplyAll(v, a + b) == ApplyAll(ApplyAll(v, a), b)
  {
    if b == [] {
      assert a + b == a;
    } else {
      ApplyAllAppend(v, a, Init(b));
      AppendLast(a, b);
      ApplyLast(v, a + b);
      ApplyLast(ApplyAll(v, a), b);
    }
  }

  lemma {:induction false} RenderIsApplyAll(updates: seq<SessionUpdate>)
    ensures Render(updates) == ApplyAll(EmptyView, updates)
  {
    if updates != [] {
      RenderIsApplyAll(Init(updates));
    }
  }

  lemma ApplyOne(v: View, u: SessionUpdate)
    requires v.Valid()
    ensures ApplyAll(v, [u]) == Applied(v, u)
  {
    assert Init([u]) == [] && Last([u]) == u;
  }

  /** The client's view after a run. */
  function ViewAfter(c: Config, ticks: seq<Tick>): (v: View)
    requires ValidTicks(ticks)
    ensures v.Valid()
  {
    Render(Run(c, ticks).sent)
  }

  lemma ViewStep(c: Config, ticks: seq<Tick>)
    requires ValidTicks(ticks) && ticks != []
    ensures ViewAfter(c, ticks)
         == ApplyAll(ViewAfter(c, Init(ticks)), Handle(c, Run(c, Init(ticks)).state, Last(ticks)).sent)
  {
    var before := Run(c, Init(ticks));
    var step := Handle(c, before.state, Last(ticks));
    RenderIsApplyAll(before.sent);
    RenderIsApplyAll(Run(c, ticks).sent);
    ApplyAllAppend(EmptyView, before.sent, step.sent);
  }

  /** The lanes and tools of a view: everything but the board and the order. */
  predicate SameLanes(v: View, w: View) {
    v.lanes == w.lanes && v.slots == w.slots
  }

  lemma OnlyPlan(v: View, updates: seq<SessionUpdate>)
    requires v.Valid()
    requires updates == [] || (|updates| == 1 && updates[0].Plan?)
    ensures SameLanes(ApplyAll(v, updates), v)
  {
    if updates != [] {
      assert updates == [updates[0]];
      ApplyOne(v, updates[0]);
      PlanKeepsLanes(v, updates[0]);
    }
  }

  lemma PlanKeepsLanes(v: View, u: SessionUpdate)
    requires v.Valid() && u.Plan?
    ensures SameLanes(Applied(v, u), v)
  {
  }

  /** What an engine event does to the lanes is what its member's own updates do. */
  lemma LanesAfterEngine(c: Config, s: State, t: Tick, v: View)
    requires v.Valid() && (t.roster.Some? ==> t.roster.value.Valid()) && IsEngine(t.event)
    ensures SameLanes(ApplyAll(v, Handle(c, s, t).sent), ApplyAll(v, Speak(c, s, t).sent))
  {
    var spoken := Speak(c, s, t);
    var board := Activity(spoken.state, t).sent;
    assert Handle(c, s, t).sent == spoken.sent + board;
    ApplyAllAppend(v, spoken.sent, board);
    OnlyPlan(ApplyAll(v, spoken.sent), board);
  }

  /** Any other event leaves the lanes alone. */
  lemma LanesAfterOther(c: Config, s: State, t: Tick, v: View)
    requires v.Valid() && (t.roster.Some? ==> t.roster.value.Valid()) && !IsEngine(t.event)
    ensures SameLanes(ApplyAll(v, Handle(c, s, t).sent), v)
  {
    OnlyPlan(v, Handle(c, s, t).sent);
  }

  /** Only the emitter's part of a state moves with an engine event, apart from the board's. */
  lemma StateAfterEvent(c: Config, s: State, t: Tick)
    requires t.roster.Some? ==> t.roster.value.Valid()
    ensures var after := Handle(c, s, t).state;
            var moved := if IsEngine(t.event) then Speak(c, s, t).state else s;
            after.open == moved.open && after.firstSeen == moved.firstSeen && after.lastTextSpeaker == moved.lastTextSpeaker
  {
  }

  // ---------- where an update lands ----------

  /** The lane that an update writes, if it writes any. */
  function Touched(v: View, u: SessionUpdate): Option<string> {
    match u
    case AgentMessageChunk(_, meta) => Some(LaneKey(meta))
    case ToolCall(id, _, _, _, _, meta) => if id.Some? then Some(LaneKey(meta)) else None
    case ToolCallUpdate(id, _, _, _, _, _, _, _, meta) =>
      if id.None? then None
      else if id.value in v.slots then Some(v.slots[id.value].lane)
      else Some(LaneKey(meta))
    case _ => None
  }

  /** The tool id that an update files anew, if it files one. */
  function Filed(v: View, u: SessionUpdate): Option<string> {
    match u
    case ToolCall(id, _, _, _, _, _) => id
    case ToolCallUpdate(id, _, _, _, _, _, _, _, _) => if id.Some? && id.value in v.slots then None else id
    case _ => None
  }

  lemma AppliedElsewhere(v: View, u: SessionUpdate, k: string)
    requires v.Valid() && Touched(v, u) != Some(k)
    ensures k in Applied(v, u).lanes <==> k in v.lanes
    ensures k in v.lanes ==> Applied(v, u).lanes[k] == v.lanes[k]
  {
  }

  function FreshTool(u: SessionUpdate): Tool
    requires (u.ToolCall? || u.ToolCallUpdate?) && u.toolCallId.Some?
  {
    Tool(u.toolCallId.value, u.title.GetOr(""), u.kind,
         u.status.GetOr(if u.ToolCall? then "pending" else "in_progress"), DiffsOf(u.content))
  }

  /** What an update makes of the lane it touches. */
  function Written(l: Lane, at: Option<nat>, u: SessionUpdate): Lane
    requires at.Some? ==> u.ToolCallUpdate? && at.value < |l.tools|
    requires u.AgentMessageChunk? || ((u.ToolCall? || u.ToolCallUpdate?) && u.toolCallId.Some?)
  {
    if u.AgentMessageChunk? then
      var l' := Labelled(l, u.meta);
      l'.(text := l'.text + u.text.GetOr(""))
    else if at.Some? then l.(tools := l.tools[at.value := Merged(l.tools[at.value], u)])
    else
      var l' := Labelled(l, u.meta);
      l'.(tools := l'.tools + [FreshTool(u)])
  }

  /** The position that an update edits, if it edits one. */
  function Edited(v: View, u: SessionUpdate): Option<nat> {
    if u.ToolCallUpdate? && u.toolCallId.Some? && u.toolCallId.value in v.slots
    then Some(v.slots[u.toolCallId.value].pos) else None
  }

  lemma AppliedHere(v: View, u: SessionUpdate, k: string)
    requires v.Valid() && Touched(v, u) == Some(k)
    ensures k in Applied(v, u).lanes && Applied(v, u).lanes[k] == Written(LaneAt(v, k), Edited(v, u), u)
  {
  }

  lemma AppliedSlots(v: View, u: SessionUpdate)
    requires v.Valid()
    ensures Applied(v, u).slots ==
            if Filed(v, u).None? then v.slots
            else v.slots[Filed(v, u).value := Slot(LaneKey(u.meta), |LaneAt(v, LaneKey(u.meta)).tools|)]
  {
  }

  lemma AppliedBoard(v: View, u: SessionUpdate)
    requires v.Valid()
    ensures Applied(v, u).board == if u.Plan? then BoardOf(u.entries) else v.board
  {
  }
}
