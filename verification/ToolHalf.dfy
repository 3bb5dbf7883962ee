/**
 * The tool half of a translator: which tool notifications a run sends, and what they depend on
 * (legacy/src/acp/normalized-translate.ts:92-150, legacy/src/acp/lane-translator.ts:187-237).
 */
module ToolHalf {
  import opened Basics
  import opened LaneEvents
  import opened NormalizedTranslate
  import opened LaneTranslator
  import opened TeamHistory
  import MetaErasure
  import RenderedRuns

  // ---------- the tool updates of a run ----------

  predicate IsTool(e: LaneEvent) {
    IsEngine(e) && (e.payload.normalized.value.ToolUseStart? || e.payload.normalized.value.ToolUseInput?
                    || e.payload.normalized.value.ToolUseEnd? || e.payload.normalized.value.ToolResult?)
  }

  predicate IsToolUpdate(u: SessionUpdate) {
    u.ToolCall? || u.ToolCallUpdate?
  }

  /** The tool_call and tool_call_update notifications of a stream, in order, without `_meta`. */
  function ToolUpdates(updates: seq<SessionUpdate>): seq<SessionUpdate> {
    if updates == [] then []
    else ToolUpdates(Init(updates)) + if IsToolUpdate(Last(updates)) then [MetaErasure.Strip(Last(updates))] else []
  }

  lemma {:induction false} ToolUpdatesAppend(a: seq<SessionUpdate>, b: seq<SessionUpdate>)
    ensures ToolUpdates(a + b) == ToolUpdates(a) + ToolUpdates(b)
  {
    if b == [] {
      assert a + b == a;
    } else {
      ToolUpdatesAppend(a, Init(b));
      assert Init(a + b) == a + Init(b);
    }
  }

  lemma NoToolUpdates(updates: seq<SessionUpdate>)
    requires |updates| <= 1 && forall u :: u in updates ==> !IsToolUpdate(u)
    ensures ToolUpdates(updates) == []
  {
    if updates != [] { assert Init(updates) == []; }
  }

  lemma OneToolUpdate(u: SessionUpdate)
    requires IsToolUpdate(u)
    ensures ToolUpdates([u]) == [MetaErasure.Strip(u)]
  {
    assert Init([u]) == [];
  }

  /** An event with the role its agent has when it is handled. */
  datatype Roled = Roled(e: LaneEvent, role: Option<string>)

  function RoleOf(roster: Option<Roster>, id: AgentId): Option<string> {
    if MemberOf(roster, id).Some? then Some(MemberOf(roster, id).value.role) else None
  }

  /** What matters of the options to a tool: not the text policy, and not `_meta`. */
  function Bare(o: EmitOptions): EmitOptions {
    EmitOptions(o.idPrefix, o.titlePrefix, true, None)
  }

  function ToolOptions(x: Roled): EmitOptions {
    EmitOptions(x.e.agentId + ":", if x.role.Some? then "[" + x.role.value + "] " else "", true, None)
  }

  datatype ToolOutcome = ToolOutcome(open: OpenCalls, sent: seq<SessionUpdate>)

  /** The tool half of a translator: it sees tool events and roles only. */
  function ToolRun(p: Presentation, xs: seq<Roled>): ToolOutcome {
    if xs == [] then ToolOutcome(map[], [])
    else ToolStep(p, ToolRun(p, Init(xs)), Last(xs))
  }

  function ToolStep(p: Presentation, o: ToolOutcome, x: Roled): ToolOutcome {
    if !IsTool(x.e) then o
    else
      var ne := x.e.payload.normalized.value;
      ToolOutcome(OpenAfter(o.open, x.e.agentId + ":", ne), o.sent + Updates(p, o.open, ne, ToolOptions(x)))
  }

  lemma EmittedToolUpdates(p: Presentation, open: OpenCalls, ne: NormalizedEvent, o: EmitOptions)
    ensures ToolUpdates(Updates(p, open, ne, o)) == if ne.TextDelta? then [] else Updates(p, open, ne, Bare(o))
  {
    var sent := Updates(p, open, ne, o);
    if ne.TextDelta? || sent == [] {
      NoToolUpdates(sent);
    } else {
      assert sent == [sent[0]];
      OneToolUpdate(sent[0]);
    }
  }

  lemma SpokenToolUpdates(c: Config, s: State, t: Tick)
    requires IsEngine(t.event)
    ensures ToolUpdates(Speak(c, s, t).sent)
         == if t.event.payload.normalized.value.TextDelta? then []
            else Updates(c.p, s.open, t.event.payload.normalized.value, Bare(OptionsOf(c, s, t)))
  {
    var ne, o := t.event.payload.normalized.value, OptionsOf(c, s, t);
    NoToolUpdates(RunLabel(c, s, t));
    ToolUpdatesAppend(RunLabel(c, s, t), Updates(c.p, s.open, ne, o));
    EmittedToolUpdates(c.p, s.open, ne, o);
  }

  lemma EngineToolUpdates(c: Config, s: State, t: Tick)
    requires (t.roster.Some? ==> t.roster.value.Valid()) && IsEngine(t.event)
    ensures ToolUpdates(Handle(c, s, t).sent) == ToolUpdates(Speak(c, s, t).sent)
  {
    var board := Activity(Speak(c, s, t).state, t).sent;
    NoToolUpdates(board);
    ToolUpdatesAppend(Speak(c, s, t).sent, board);
    assert Handle(c, s, t).sent == Speak(c, s, t).sent + board;
  }

  lemma ToolEvent(c: Config, s: State, t: Tick, role: Option<string>)
    requires IsTool(t.event) && role == RoleOf(t.roster, t.event.agentId)
    ensures ToolUpdates(Speak(c, s, t).sent)
         == Updates(c.p, s.open, t.event.payload.normalized.value, ToolOptions(Roled(t.event, role)))
  {
    SpokenToolUpdates(c, s, t);
    assert Bare(OptionsOf(c, s, t)) == ToolOptions(Roled(t.event, role));
  }

  lemma OneEvent(c: Config, s: State, t: Tick, o: ToolOutcome)
    requires t.roster.Some? ==> t.roster.value.Valid()
    requires s.open == o.open
    ensures ToolStep(c.p, o, Roled(t.event, RoleOf(t.roster, t.event.agentId)))
         == ToolOutcome(Handle(c, s, t).state.open, o.sent + ToolUpdates(Handle(c, s, t).sent))
  {
    RenderedRuns.StateAfterEvent(c, s, t);
    if IsTool(t.event) {
      EngineToolUpdates(c, s, t);
      ToolEvent(c, s, t, RoleOf(t.roster, t.event.agentId));
    } else {
      OtherEvent(c, s, t);
    }
  }

  lemma OtherEvent(c: Config, s: State, t: Tick)
    requires (t.roster.Some? ==> t.roster.value.Valid()) && !IsTool(t.event)
    ensures ToolUpdates(Handle(c, s, t).sent) == []
    ensures Handle(c, s, t).state.open == s.open
  {
    RenderedRuns.StateAfterEvent(c, s, t);
    if IsEngine(t.event) {
      EngineToolUpdates(c, s, t);
      SpokenToolUpdates(c, s, t);
    } else {
      NoToolUpdates(Handle(c, s, t).sent);
    }
  }

  /** Every event with its role. */
  function Roles(ticks: seq<Tick>): seq<Roled> {
    seq(|ticks|, i requires 0 <= i < |ticks| => Roled(ticks[i].event, RoleOf(ticks[i].roster, ticks[i].event.agentId)))
  }

  /** In either text mode, whatever the board and the text do, the tool half decides the tool updates. */
  lemma {:induction false} RunTools(c: Config, ticks: seq<Tick>)
    requires ValidTicks(ticks)
    ensures ToolRun(c.p, Roles(ticks)) == ToolOutcome(Run(c, ticks).state.open, ToolUpdates(Run(c, ticks).sent))
  {
    if ticks != [] {
      var before := Run(c, Init(ticks));
      RunTools(c, Init(ticks));
      assert Init(Roles(ticks)) == Roles(Init(ticks));
      OneEvent(c, before.state, Last(ticks), ToolRun(c.p, Roles(Init(ticks))));
      ToolUpdatesAppend(before.sent, Handle(c, before.state, Last(ticks)).sent);
    }
  }

  /** The tool events under one roster. */
  function RoledTools(roster: Roster, events: seq<LaneEvent>): seq<Roled> {
    Roles(Under(roster, Filter(events, IsTool)))
  }

  lemma RolesAppend(roster: Roster, events: seq<LaneEvent>, e: LaneEvent)
    ensures Roles(Under(roster, events + [e])) == Roles(Under(roster, events)) + [Roled(e, RoleOf(Some(roster), e.agentId))]
  {
  }

  function EventsOf(ticks: seq<Tick>): seq<LaneEvent> {
    seq(|ticks|, i requires 0 <= i < |ticks| => ticks[i].event)
  }

  /** Whenever an agent used a tool, the roster gave it the role that it has in roster. */
  ghost predicate RolesAgree(ticks: seq<Tick>, roster: Roster) {
    forall i :: 0 <= i < |ticks| && IsTool(ticks[i].event) ==>
      RoleOf(ticks[i].roster, ticks[i].event.agentId) == RoleOf(Some(roster), ticks[i].event.agentId)
  }

  lemma {:induction false} OnlyToolsCount(p: Presentation, ticks: seq<Tick>, roster: Roster)
    requires RolesAgree(ticks, roster)
    ensures ToolRun(p, Roles(ticks)) == ToolRun(p, RoledTools(roster, EventsOf(ticks)))
  {
    if ticks != [] {
      var events := EventsOf(ticks);
      OnlyToolsCount(p, Init(ticks), roster);
      assert Init(Roles(ticks)) == Roles(Init(ticks)) && Init(events) == EventsOf(Init(ticks));
      var tools, e := Filter(Init(events), IsTool), Last(ticks).event;
      if IsTool(e) {
        RolesAppend(roster, tools, e);
        assert Filter(events, IsTool) == tools + [e];
        assert Init(RoledTools(roster, events)) == RoledTools(roster, Init(events));
      } else {
        assert Filter(events, IsTool) == tools;
      }
    }
  }
}
