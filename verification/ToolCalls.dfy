/**
 * What a client shows for one tool call, end to end: translation, rendering and any
 * interleaving with other calls and members.
 */
module ToolCalls {
  import opened Basics
  import opened LaneEvents
  import opened NormalizedTranslate
  import opened LaneTranslator
  import opened RichView
  import opened RenderedRuns
  import opened BoardFreshness

  /** The wire id that an engine event is about. */
  function CallKey(e: LaneEvent): Option<string> {
    if !IsEngine(e) then None
    else
      match e.payload.normalized.value
      case ToolUseStart(id, _) => Some(e.agentId + ":" + id)
      case ToolUseInput(id, _) => Some(e.agentId + ":" + id)
      case ToolUseEnd(id, _) => Some(e.agentId + ":" + id)
      case ToolResult(id, _, _) => Some(e.agentId + ":" + id)
      case _ => None
  }

  /** The engine events about one wire id, in order. */
  function CallEvents(ticks: seq<Tick>, key: string): seq<NormalizedEvent> {
    if ticks == [] then []
    else if CallKey(Last(ticks).event) == Some(key)
    then CallEvents(Init(ticks), key) + [Last(ticks).event.payload.normalized.value]
    else CallEvents(Init(ticks), key)
  }

  /** One call on its own: its buffered input and the tool on show. */
  datatype Call = Call(open: Option<OpenCall>, tool: Option<Tool>)

  function Ended(p: Presentation, titlePrefix: string, key: string, call: OpenCall, given: Option<Json>, tool: Option<Tool>): Tool {
    var input := if given.Some? then given.value else ParseToolInput(p, call.raw);
    var title := titlePrefix + p.title(call.name, Some(input));
    var diffs := DiffsOf(if IsEditTool(call.name) then p.diffs(call.name.value, input) else None);
    match tool
    case None => Tool(key, title, None, "in_progress", diffs)
    case Some(t) => Tool(key, title, t.kind, "in_progress", if diffs.Some? then diffs else t.diffs)
  }

  function CallStep(p: Presentation, titlePrefix: string, key: string, s: Call, ne: NormalizedEvent): Call {
    match ne
    case ToolUseStart(_, name) =>
      Call(Some(OpenCall(Some(name), "")),
           Some(Tool(key, titlePrefix + p.title(Some(name), None), Some(p.kind(name)), "pending", None)))
    case ToolUseInput(_, delta) =>
      s.(open := Some(if s.open.Some? then OpenCall(s.open.value.name, s.open.value.raw + delta) else OpenCall(None, delta)))
    case ToolUseEnd(_, given) =>
      if s.open.None? then s
      else Call(None, Some(Ended(p, titlePrefix, key, s.open.value, given, s.tool)))
    case ToolResult(_, _, isError) =>
      var status := if isError then "failed" else "completed";
      s.(tool := Some(if s.tool.Some? then s.tool.value.(status := status) else Tool(key, "", None, status, None)))
    case _ => s
  }

  function CallAlone(p: Presentation, titlePrefix: string, key: string, events: seq<NormalizedEvent>): Call {
    if events == [] then Call(None, None)
    else CallStep(p, titlePrefix, key, CallAlone(p, titlePrefix, key, Init(events)), Last(events))
  }

  /** The tool that a view shows for a wire id. */
  function ToolAt(v: View, key: string): Option<Tool>
    requires v.Valid()
  {
    if key in v.slots then Some(v.lanes[v.slots[key].lane].tools[v.slots[key].pos]) else None
  }

  /** Every indexed tool carries the id it is indexed by, so no two ids share a slot. */
  ghost predicate WellFiled(v: View)
    requires v.Valid()
  {
    forall id :: id in v.slots ==> v.lanes[v.slots[id].lane].tools[v.slots[id].pos].toolCallId == id
  }

  predicate About(u: SessionUpdate, key: string) {
    (u.ToolCall? || u.ToolCallUpdate?) && u.toolCallId == Some(key)
  }

  /** What one update does to the tool on show for a wire id. */
  function ToolAfter(t: Option<Tool>, u: SessionUpdate, key: string): Option<Tool> {
    if !About(u, key) then t
    else if u.ToolCallUpdate? && t.Some? then Some(Merged(t.value, u))
    else Some(FreshTool(u))
  }

  lemma OwnToolStep(v: View, u: SessionUpdate, key: string)
    requires v.Valid() && Applied(v, u).Valid() && About(u, key)
    ensures ToolAt(Applied(v, u), key) == ToolAfter(ToolAt(v, key), u, key)
  {
    AppliedSlots(v, u);
    AppliedHere(v, u, Touched(v, u).value);
  }

  lemma OtherToolStep(v: View, u: SessionUpdate, key: string)
    requires v.Valid() && WellFiled(v) && Applied(v, u).Valid() && !About(u, key)
    ensures ToolAt(Applied(v, u), key) == ToolAt(v, key)
  {
    AppliedSlots(v, u);
    if key in v.slots {
      var k := v.slots[key].lane;
      if Touched(v, u) == Some(k) {
        AppliedHere(v, u, k);
        assert Edited(v, u).Some? ==> v.slots[u.toolCallId.value] != v.slots[key];
      } else {
        AppliedElsewhere(v, u, k);
      }
    }
  }

  lemma ToolAtStep(v: View, u: SessionUpdate, key: string)
    requires v.Valid() && WellFiled(v) && Applied(v, u).Valid()
    ensures ToolAt(Applied(v, u), key) == ToolAfter(ToolAt(v, key), u, key)
  {
    if About(u, key) { OwnToolStep(v, u, key); } else { OtherToolStep(v, u, key); }
  }

  lemma WellFiledStep(v: View, u: SessionUpdate)
    requires v.Valid() && WellFiled(v) && Applied(v, u).Valid()
    ensures WellFiled(Applied(v, u))
  {
    AppliedSlots(v, u);
    forall id | id in Applied(v, u).slots
      ensures ToolAt(Applied(v, u), id).value.toolCallId == id
    {
      ToolAtStep(v, u, id);
    }
  }

  function ToolAfterAll(t: Option<Tool>, updates: seq<SessionUpdate>, key: string): Option<Tool> {
    if updates == [] then t else ToolAfter(ToolAfterAll(t, Init(updates), key), Last(updates), key)
  }

  lemma {:induction false} ToolAtAll(v: View, updates: seq<SessionUpdate>, key: string)
    requires v.Valid() && WellFiled(v)
    ensures WellFiled(ApplyAll(v, updates))
    ensures ToolAt(ApplyAll(v, updates), key) == ToolAfterAll(ToolAt(v, key), updates, key)
  {
    if updates != [] {
      var mid := ApplyAll(v, Init(updates));
      ToolAtAll(v, Init(updates), key);
      AppliedValid(mid, Last(updates));
      WellFiledStep(mid, Last(updates));
      ToolAtStep(mid, Last(updates), key);
      assert ApplyAll(v, updates) == Applied(mid, Last(updates));
    }
  }

  lemma {:induction false} SilentUpdates(t: Option<Tool>, updates: seq<SessionUpdate>, key: string)
    requires forall u :: u in updates ==> !About(u, key)
    ensures ToolAfterAll(t, updates, key) == t
  {
    if updates != [] {
      SilentUpdates(t, Init(updates), key);
    }
  }

  /** The title prefix of a member's tools. */
  function TitlePrefix(roster: Roster, a: AgentId): string {
    if a in roster.members then "[" + roster.members[a].role + "] " else ""
  }

  function OpenAt(open: OpenCalls, key: string): Option<OpenCall> {
    if key in open then Some(open[key]) else None
  }

  /** One event's effect on the buffered input and the tool of the wire id it is about. */
  function EmittedCall(p: Presentation, open: OpenCalls, ne: NormalizedEvent, o: EmitOptions, key: string, tool: Option<Tool>): Call {
    Call(OpenAt(OpenAfter(open, o.idPrefix, ne), key), ToolAfterAll(tool, Updates(p, open, ne, o), key))
  }

  lemma OneUpdate(tool: Option<Tool>, u: SessionUpdate, key: string)
    ensures ToolAfterAll(tool, [u], key) == ToolAfter(tool, u, key)
  {
    assert Init([u]) == [] && Last([u]) == u && ToolAfterAll(tool, [], key) == tool;
  }

  lemma EndStep(p: Presentation, open: OpenCalls, id: string, given: Option<Json>, o: EmitOptions, key: string, tool: Option<Tool>)
    requires key == o.idPrefix + id && (tool.Some? ==> tool.value.toolCallId == key)
    ensures EmittedCall(p, open, ToolUseEnd(id, given), o, key, tool)
         == CallStep(p, o.titlePrefix, key, Call(OpenAt(open, key), tool), ToolUseEnd(id, given))
  {
    if key in open {
      var u := EndUpdate(p, open[key], key, given, o);
      assert Updates(p, open, ToolUseEnd(id, given), o) == [u];
      OneUpdate(tool, u, key);
    } else {
      assert Updates(p, open, ToolUseEnd(id, given), o) == [];
    }
  }

  lemma EmittedStep(p: Presentation, open: OpenCalls, ne: NormalizedEvent, id: string, o: EmitOptions, key: string, tool: Option<Tool>)
    requires key == o.idPrefix + id && (tool.Some? ==> tool.value.toolCallId == key)
    requires match ne
             case ToolUseStart(i, _) => i == id
             case ToolUseInput(i, _) => i == id
             case ToolUseEnd(i, _) => i == id
             case ToolResult(i, _, _) => i == id
             case _ => false
    ensures EmittedCall(p, open, ne, o, key, tool) == CallStep(p, o.titlePrefix, key, Call(OpenAt(open, key), tool), ne)
  {
    match ne
    case ToolUseEnd(_, given) => EndStep(p, open, id, given, o, key, tool);
    case ToolUseStart(_, _) => OneUpdate(tool, Updates(p, open, ne, o)[0], key);
    case ToolResult(_, content, _) =>
      assert CollectDiffs([TextContent(content)]) == [] by { assert Init([TextContent(content)]) == []; }
      OneUpdate(tool, Updates(p, open, ne, o)[0], key);
    case ToolUseInput(_, _) => assert Updates(p, open, ne, o) == [];
  }

  /** Everything that the event says about the wire id is one step of the call on its own. */
  lemma CallEventStep(c: Config, s: State, t: Tick, roster: Roster, key: string, tool: Option<Tool>)
    requires t.roster == Some(roster) && CallKey(t.event) == Some(key)
    requires tool.Some? ==> tool.value.toolCallId == key
    ensures Call(OpenAt(Speak(c, s, t).state.open, key), ToolAfterAll(tool, Speak(c, s, t).sent, key))
         == CallStep(c.p, TitlePrefix(roster, t.event.agentId), key, Call(OpenAt(s.open, key), tool),
                     t.event.payload.normalized.value)
  {
    var ne, o := t.event.payload.normalized.value, OptionsOf(c, s, t);
    assert RunLabel(c, s, t) == [];
    assert Speak(c, s, t).sent == Updates(c.p, s.open, ne, o);
    var id := match ne
      case ToolUseStart(id, _) => id
      case ToolUseInput(id, _) => id
      case ToolUseEnd(id, _) => id
      case ToolResult(id, _, _) => id
      case _ => "";
    EmittedStep(c.p, s.open, ne, id, o, key, tool);
  }

  lemma SilentEvent(c: Config, s: State, t: Tick, key: string)
    requires IsEngine(t.event) && CallKey(t.event) != Some(key)
    ensures OpenAt(Speak(c, s, t).state.open, key) == OpenAt(s.open, key)
    ensures forall u :: u in Speak(c, s, t).sent ==> !About(u, key)
  {
    var sent := Updates(c.p, s.open, t.event.payload.normalized.value, OptionsOf(c, s, t));
    assert forall u :: u in sent ==> !About(u, key);
  }

  /** Only one agent's events carry the wire id. */
  ghost predicate Speaks(ticks: seq<Tick>, a: AgentId, key: string) {
    forall i :: 0 <= i < |ticks| && CallKey(ticks[i].event) == Some(key) ==> ticks[i].event.agentId == a
  }

  /** The call as the whole run leaves it: the buffered input and the tool on show. */
  function CallInRun(c: Config, ticks: seq<Tick>, key: string): Call
    requires ValidTicks(ticks)
  {
    Call(OpenAt(Run(c, ticks).state.open, key), ToolAt(ViewAfter(c, ticks), key))
  }

  lemma CallInRunStep(c: Config, roster: Roster, ticks: seq<Tick>, a: AgentId, key: string)
    requires roster.Valid() && ticks != [] && ValidTicks(ticks) && Last(ticks).roster == Some(roster)
    requires CallKey(Last(ticks).event) == Some(key) ==> Last(ticks).event.agentId == a
    requires WellFiled(ViewAfter(c, Init(ticks)))
    ensures WellFiled(ViewAfter(c, ticks))
    ensures CallInRun(c, ticks, key) ==
            if CallKey(Last(ticks).event) == Some(key)
            then CallStep(c.p, TitlePrefix(roster, a), key, CallInRun(c, Init(ticks), key), Last(ticks).event.payload.normalized.value)
            else CallInRun(c, Init(ticks), key)
  {
    var t, s, v := Last(ticks), Run(c, Init(ticks)).state, ViewAfter(c, Init(ticks));
    ViewStep(c, ticks);
    StateAfterEvent(c, s, t);
    ToolAtAll(v, Handle(c, s, t).sent, key);
    if IsEngine(t.event) {
      LanesAfterEngine(c, s, t, v);
      ToolAtAll(v, Speak(c, s, t).sent, key);
      if CallKey(t.event) == Some(key) {
        CallEventStep(c, s, t, roster, key, ToolAt(v, key));
      } else {
        SilentEvent(c, s, t, key);
        SilentUpdates(ToolAt(v, key), Speak(c, s, t).sent, key);
      }
    } else {
      LanesAfterOther(c, s, t, v);
    }
  }

  /**
   * Main result: whatever else the stream carries, in either text mode, a call is buffered and
   * shown exactly as its own events alone say.
   */
  lemma {:induction false} CallShownAlone(c: Config, roster: Roster, ticks: seq<Tick>, a: AgentId, key: string)
    requires roster.Valid() && Fixed(roster, ticks) && Speaks(ticks, a, key)
    ensures ValidTicks(ticks) && WellFiled(ViewAfter(c, ticks))
    ensures CallInRun(c, ticks, key) == CallAlone(c.p, TitlePrefix(roster, a), key, CallEvents(ticks, key))
  {
    if ticks != [] {
      CallShownAlone(c, roster, Init(ticks), a, key);
      CallInRunStep(c, roster, ticks, a, key);
      if CallKey(Last(ticks).event) == Some(key) {
        assert Init(CallEvents(ticks, key)) == CallEvents(Init(ticks), key);
      }
    }
  }

  // ---------- a finished call ----------

  function Inputs(id: string, deltas: seq<string>): seq<NormalizedEvent> {
    seq(|deltas|, i requires 0 <= i < |deltas| => ToolUseInput(id, deltas[i]))
  }

  lemma {:induction false} StartedCall(p: Presentation, titlePrefix: string, key: string, id: string, name: string, deltas: seq<string>)
    ensures CallAlone(p, titlePrefix, key, [ToolUseStart(id, name)] + Inputs(id, deltas))
         == Call(Some(OpenCall(Some(name), Concat(deltas))),
                 Some(Tool(key, titlePrefix + p.title(Some(name), None), Some(p.kind(name)), "pending", None)))
  {
    var events := [ToolUseStart(id, name)] + Inputs(id, deltas);
    if deltas == [] {
      assert Init(events) == [] && Last(events) == ToolUseStart(id, name);
    } else {
      assert Init(events) == [ToolUseStart(id, name)] + Inputs(id, Init(deltas));
      StartedCall(p, titlePrefix, key, id, name, Init(deltas));
    }
  }

  /** The input of a whole call: the recorded one, else the reassembled fragments, else the empty object. */
  function FinalInput(p: Presentation, deltas: seq<string>, given: Option<Json>): Json {
    if given.Some? then given.value
    else if p.parse(Concat(deltas)).Some? then p.parse(Concat(deltas)).value
    else JObject([])
  }

  /**
   * A call that started, streamed its input, ended and returned shows the member's role, the title of its whole input,
   * the outcome of its result, and, for the tools that edit, the old and new texts that the input's diffs
   * give; a text result wipes no diff.
   */
  lemma FinishedCall(c: Config, roster: Roster, ticks: seq<Tick>, a: AgentId, id: string, name: string,
                     deltas: seq<string>, given: Option<Json>, content: string, isError: bool)
    requires roster.Valid() && Fixed(roster, ticks) && Speaks(ticks, a, a + ":" + id)
    requires CallEvents(ticks, a + ":" + id)
          == [ToolUseStart(id, name)] + Inputs(id, deltas) + [ToolUseEnd(id, given)] + [ToolResult(id, content, isError)]
    ensures ValidTicks(ticks)
    ensures var input := FinalInput(c.p, deltas, given);
            var shown := ToolAt(ViewAfter(c, ticks), a + ":" + id);
            && shown.Some? && shown.value.toolCallId == a + ":" + id
            && shown.value.title == (if a in roster.members then "[" + roster.members[a].role + "] " else "")
                                    + c.p.title(Some(name), Some(input))
            && shown.value.kind == Some(c.p.kind(name))
            && shown.value.status == (if isError then "failed" else "completed")
            && ShowsDiffs(if name in ["edit_file", "write_file", "multi_edit", "apply_patch"] then c.p.diffs(name, input) else None,
                          shown.value.diffs)
  {
    CallShownAlone(c, roster, ticks, a, a + ":" + id);
    FinishedAlone(c.p, TitlePrefix(roster, a), a + ":" + id, id, name, deltas, given, content, isError);
    DiffsAreListed(if IsEditTool(Some(name)) then c.p.diffs(name, FinalInput(c.p, deltas, given)) else None);
  }

  lemma FinishedAlone(p: Presentation, titlePrefix: string, key: string, id: string, name: string,
                      deltas: seq<string>, given: Option<Json>, content: string, isError: bool)
    ensures var input := FinalInput(p, deltas, given);
            CallAlone(p, titlePrefix, key, [ToolUseStart(id, name)] + Inputs(id, deltas) + [ToolUseEnd(id, given)] + [ToolResult(id, content, isError)])
            == Call(None, Some(Tool(key, titlePrefix + p.title(Some(name), Some(input)), Some(p.kind(name)),
                                    if isError then "failed" else "completed",
                                    DiffsOf(if IsEditTool(Some(name)) then p.diffs(name, input) else None))))
  {
    var begun := [ToolUseStart(id, name)] + Inputs(id, deltas);
    var ended := begun + [ToolUseEnd(id, given)];
    StartedCall(p, titlePrefix, key, id, name, deltas);
    assert Init(ended) == begun;
    assert Init(ended + [ToolResult(id, content, isError)]) == ended;
  }
}
