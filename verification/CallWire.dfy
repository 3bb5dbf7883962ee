/**
 * What is sent about one tool call, field by field (legacy/src/acp/normalized-translate.ts:92-150,
 * legacy/src/acp/lane-translator.ts:187-237).
 */
module CallWire {
  import opened Basics
  import opened LaneEvents
  import opened NormalizedTranslate
  import opened LaneTranslator
  import opened RenderedRuns
  import opened BoardFreshness
  import opened ToolCalls

  function AboutKey(key: string): SessionUpdate -> bool {
    (u: SessionUpdate) => About(u, key)
  }

  /** The notifications about one wire id, in the order sent. */
  function SentAbout(c: Config, ticks: seq<Tick>, key: string): seq<SessionUpdate>
    requires ValidTicks(ticks)
  {
    Filter(Run(c, ticks).sent, AboutKey(key))
  }

  // ---------- a call's notifications depend on its own events ----------

  function OptionsFor(roster: Roster, a: AgentId): EmitOptions {
    EmitOptions(a + ":", TitlePrefix(roster, a), false, if a in roster.members then Some(MetaOf(roster.members[a])) else None)
  }

  function OpenOnly(key: string, call: Option<OpenCall>): OpenCalls {
    if call.Some? then map[key := call.value] else map[]
  }

  function WireStep(p: Presentation, o: EmitOptions, key: string, s: Call, ne: NormalizedEvent): seq<SessionUpdate> {
    Updates(p, OpenOnly(key, s.open), ne, o)
  }

  /** What a call's own events send. */
  function WireAlone(p: Presentation, o: EmitOptions, key: string, events: seq<NormalizedEvent>): seq<SessionUpdate> {
    if events == [] then []
    else WireAlone(p, o, key, Init(events)) + WireStep(p, o, key, CallAlone(p, o.titlePrefix, key, Init(events)), Last(events))
  }

  lemma OwnSpeech(c: Config, s: State, t: Tick, roster: Roster, key: string, call: Call)
    requires t.roster == Some(roster) && CallKey(t.event) == Some(key) && call.open == OpenAt(s.open, key)
    ensures Speak(c, s, t).sent == WireStep(c.p, OptionsFor(roster, t.event.agentId), key, call, t.event.payload.normalized.value)
    ensures forall u :: u in Speak(c, s, t).sent ==> AboutKey(key)(u)
  {
    assert RunLabel(c, s, t) == [];
    assert Speak(c, s, t).sent == Updates(c.p, s.open, t.event.payload.normalized.value, OptionsOf(c, s, t));
  }

  lemma BoardIsNotAbout(s: State, t: Tick, key: string)
    requires t.roster.Some? ==> t.roster.value.Valid()
    ensures Filter(Activity(s, t).sent, AboutKey(key)) == []
    ensures Filter(HandlePlanTrigger(s, t).sent, AboutKey(key)) == []
  {
    FilterNone(Activity(s, t).sent, AboutKey(key));
    FilterNone(HandlePlanTrigger(s, t).sent, AboutKey(key));
  }

  lemma SpeechAbout(c: Config, s: State, t: Tick, roster: Roster, a: AgentId, key: string, call: Call)
    requires t.roster == Some(roster) && IsEngine(t.event) && call.open == OpenAt(s.open, key)
    requires CallKey(t.event) == Some(key) ==> t.event.agentId == a
    ensures Filter(Speak(c, s, t).sent, AboutKey(key))
         == if CallKey(t.event) == Some(key) then WireStep(c.p, OptionsFor(roster, a), key, call, t.event.payload.normalized.value) else []
  {
    if CallKey(t.event) == Some(key) {
      OwnSpeech(c, s, t, roster, key, call);
      FilterAll(Speak(c, s, t).sent, AboutKey(key));
    } else {
      SilentEvent(c, s, t, key);
      FilterNone(Speak(c, s, t).sent, AboutKey(key));
    }
  }

  lemma HandledAbout(c: Config, s: State, t: Tick, roster: Roster, a: AgentId, key: string, call: Call)
    requires roster.Valid() && t.roster == Some(roster) && call.open == OpenAt(s.open, key)
    requires CallKey(t.event) == Some(key) ==> t.event.agentId == a
    ensures Filter(Handle(c, s, t).sent, AboutKey(key))
         == if CallKey(t.event) == Some(key) then WireStep(c.p, OptionsFor(roster, a), key, call, t.event.payload.normalized.value) else []
  {
    if IsEngine(t.event) {
      var spoken := Speak(c, s, t);
      SpeechAbout(c, s, t, roster, a, key, call);
      BoardIsNotAbout(spoken.state, t, key);
      FilterSplit(spoken.sent, Activity(spoken.state, t).sent, AboutKey(key));
    } else {
      BoardIsNotAbout(s, t, key);
    }
  }

  /** Main result: what is sent about a call is what its own events alone send, in either text mode. */
  lemma {:induction false} CallSentAlone(c: Config, roster: Roster, ticks: seq<Tick>, a: AgentId, key: string)
    requires roster.Valid() && Fixed(roster, ticks) && Speaks(ticks, a, key)
    ensures ValidTicks(ticks)
    ensures SentAbout(c, ticks, key) == WireAlone(c.p, OptionsFor(roster, a), key, CallEvents(ticks, key))
  {
    if ticks != [] {
      CallSentAlone(c, roster, Init(ticks), a, key);
      CallShownAlone(c, roster, Init(ticks), a, key);
      var before := Run(c, Init(ticks));
      FilterSplit(before.sent, Handle(c, before.state, Last(ticks)).sent, AboutKey(key));
      HandledAbout(c, before.state, Last(ticks), roster, a, key, CallAlone(c.p, TitlePrefix(roster, a), key, CallEvents(Init(ticks), key)));
      if CallKey(Last(ticks).event) == Some(key) {
        assert Init(CallEvents(ticks, key)) == CallEvents(Init(ticks), key);
      }
    }
  }

  // ---------- a finished call ----------

  /** Who a call is attributed to. */
  function Attribution(roster: Roster, a: AgentId): Option<MemberRef> {
    if a in roster.members
    then Some(MemberRef(Some(roster.members[a].memberId), Some(roster.members[a].role), Some(roster.members[a].role)))
    else None
  }

  lemma {:induction false} StartedWire(p: Presentation, o: EmitOptions, key: string, id: string, name: string, deltas: seq<string>)
    requires key == o.idPrefix + id
    ensures WireAlone(p, o, key, [ToolUseStart(id, name)] + Inputs(id, deltas))
         == [ToolCall(Some(key), Some(o.titlePrefix + p.title(Some(name), None)), Some(p.kind(name)), Some("pending"), None, o.meta)]
  {
    var events := [ToolUseStart(id, name)] + Inputs(id, deltas);
    if deltas == [] {
      assert Init(events) == [] && Last(events) == ToolUseStart(id, name);
    } else {
      assert Init(events) == [ToolUseStart(id, name)] + Inputs(id, Init(deltas));
      assert Last(events) == ToolUseInput(id, Last(deltas));
      StartedWire(p, o, key, id, name, Init(deltas));
    }
  }

  lemma FinishedWire(p: Presentation, o: EmitOptions, key: string, id: string, name: string,
                     deltas: seq<string>, given: Option<Json>, content: string, isError: bool)
    requires key == o.idPrefix + id
    ensures var input := FinalInput(p, deltas, given);
            WireAlone(p, o, key, [ToolUseStart(id, name)] + Inputs(id, deltas) + [ToolUseEnd(id, given)] + [ToolResult(id, content, isError)])
            == [ToolCall(Some(key), Some(o.titlePrefix + p.title(Some(name), None)), Some(p.kind(name)), Some("pending"), None, o.meta),
                ToolCallUpdate(Some(key), Some(o.titlePrefix + p.title(Some(name), Some(input))), None, Some("in_progress"),
                               if IsEditTool(Some(name)) then p.diffs(name, input) else None,
                               Some(input), None, p.locations(Some(name), input), o.meta),
                ToolCallUpdate(Some(key), None, None, Some(if isError then "failed" else "completed"),
                               Some([TextContent(content)]), None, Some(content), None, o.meta)]
  {
    var begun := [ToolUseStart(id, name)] + Inputs(id, deltas);
    var ended := begun + [ToolUseEnd(id, given)];
    StartedWire(p, o, key, id, name, deltas);
    StartedCall(p, o.titlePrefix, key, id, name, deltas);
    assert Init(ended) == begun && Init(ended + [ToolResult(id, content, isError)]) == ended;
  }

  /**
   * Main result: about a call that started, streamed its input, ended and returned, exactly three notifications are sent,
   * whatever else happens meanwhile: the pending call, its whole input, and its outcome with the result's text.
   */
  lemma FinishedCallSent(c: Config, roster: Roster, ticks: seq<Tick>, a: AgentId, id: string, name: string,
                         deltas: seq<string>, given: Option<Json>, content: string, isError: bool)
    requires roster.Valid() && Fixed(roster, ticks) && Speaks(ticks, a, a + ":" + id)
    requires CallEvents(ticks, a + ":" + id)
          == [ToolUseStart(id, name)] + Inputs(id, deltas) + [ToolUseEnd(id, given)] + [ToolResult(id, content, isError)]
    ensures ValidTicks(ticks)
    ensures var sent, meta, input := SentAbout(c, ticks, a + ":" + id), Attribution(roster, a), FinalInput(c.p, deltas, given);
            var prefix := if a in roster.members then "[" + roster.members[a].role + "] " else "";
            && |sent| == 3
            && sent[0] == ToolCall(Some(a + ":" + id), Some(prefix + c.p.title(Some(name), None)), Some(c.p.kind(name)),
                                   Some("pending"), None, meta)
            && sent[1] == ToolCallUpdate(Some(a + ":" + id), Some(prefix + c.p.title(Some(name), Some(input))), None,
                                         Some("in_progress"),
                                         if name in ["edit_file", "write_file", "multi_edit", "apply_patch"]
                                         then c.p.diffs(name, input) else None,
                                         Some(input), None, c.p.locations(Some(name), input), meta)
            && sent[2] == ToolCallUpdate(Some(a + ":" + id), None, None, Some(if isError then "failed" else "completed"),
                                         Some([TextContent(content)]), None, Some(content), None, meta)
  {
    CallSentAlone(c, roster, ticks, a, a + ":" + id);
    FinishedWire(c.p, OptionsFor(roster, a), a + ":" + id, id, name, deltas, given, content, isError);
  }
}
