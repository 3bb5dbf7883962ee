/**
 * Replay refines live: what a client is told about tools when a session is loaded from its spine
 * is what it was told when the session ran (legacy/src/acp/spine.ts:36-105,
 * legacy/src/acp/team-history.ts:76-123, legacy/src/acp/lane-translator.ts:187-237).
 */
module Replay {
  import opened Basics
  import opened LaneEvents
  import opened StableSort
  import opened LaneTranslator
  import opened TeamHistory
  import opened Reloading
  import opened ToolHalf
  import MetaErasure
  import RichView
  import ToolCalls
  import RenderedRuns

  /** The lane type that workers give an engine event. */
  function LaneTypeOf(ne: NormalizedEvent): Option<LaneType> {
    match ne
    case TextDelta(_) => Some(TextDeltaType)
    case ToolUseStart(_, _) => Some(ToolUseStartType)
    case ToolUseInput(_, _) => Some(ToolUseInputType)
    case ToolUseEnd(_, _) => Some(ToolUseEndType)
    case ToolResult(_, _, _) => Some(ToolResultType)
    case MessageStop => Some(MessageStopType)
    case EngineError => Some(ErrorType)
    case OtherNormalized => None
  }

  /** Engine events travel under their own type. */
  ghost predicate WellTyped(events: seq<LaneEvent>) {
    forall e :: e in events && IsEngine(e) ==> LaneTypeOf(e.payload.normalized.value) == Some(e.kind)
  }

  /** What a live stream says about tools is decided by its tool events and its spawns. */
  lemma LiveTools(c: Config, ticks: seq<Tick>, roster: Roster)
    requires ValidTicks(ticks) && RolesAgree(ticks, roster)
    ensures ToolUpdates(Run(c, ticks).sent) == ToolRun(c.p, RoledTools(roster, EventsOf(ticks))).sent
  {
    RunTools(c, ticks);
    OnlyToolsCount(c.p, ticks, roster);
  }

  lemma ReplayedTools(c: Config, roster: Roster, events: seq<LaneEvent>)
    requires roster.Valid()
    ensures ToolUpdates(Replayed(c, roster, events).sent) == ToolRun(c.p, RoledTools(roster, events)).sent
  {
    UnderValid(roster, events);
    assert EventsOf(Under(roster, events)) == events;
    LiveTools(c, Under(roster, events), roster);
  }

  lemma ReloadedTools(events: seq<LaneEvent>, lead: AgentId, prose: seq<string>)
    requires TsSorted(events) && WellTyped(events)
    ensures Filter(Reloaded(events, lead, prose), IsTool) == Filter(events, IsTool)
  {
    ReloadedKeeps(events, lead, prose, IsTool);
  }

  /**
   * Main result: record a live stream in timestamp order, read it back, weave in any prose and replay it. The
   * client gets the same tool notifications, in the same order, up to `_meta`, whatever the text
   * modes of the two, when agents had the roles live that their spawns give them.
   */
  lemma ReplayRefinesLive(live: Config, again: Config, ticks: seq<Tick>, lead: AgentId, prose: seq<string>)
    requires ValidTicks(ticks) && live.p == again.p
    requires TsSorted(EventsOf(ticks)) && WellTyped(EventsOf(ticks))
    requires RolesAgree(ticks, RosterOf(EventsOf(ticks)))
    ensures var merged := Reloaded(EventsOf(ticks), lead, prose);
            ToolUpdates(Replayed(again, RosterOf(merged), merged).sent) == ToolUpdates(Run(live, ticks).sent)
  {
    var events := EventsOf(ticks);
    var merged, roster := Reloaded(events, lead, prose), RosterOf(events);
    ReloadedRoster(events, lead, prose);
    ReloadedTools(events, lead, prose);
    LiveTools(live, ticks, roster);
    ReplayedTools(again, roster, merged);
  }

  // ---------- what the client shows ----------

  lemma ToolAfterStripped(t: Option<RichView.Tool>, u: SessionUpdate, key: string)
    ensures ToolCalls.ToolAfter(t, MetaErasure.Strip(u), key) == ToolCalls.ToolAfter(t, u, key)
  {
  }

  /** The tool on show for a wire id depends on the tool notifications alone. */
  lemma {:induction false} ShownFromToolUpdates(updates: seq<SessionUpdate>, key: string)
    ensures ToolCalls.ToolAfterAll(None, ToolUpdates(updates), key) == ToolCalls.ToolAfterAll(None, updates, key)
  {
    if updates != [] {
      var u, shown := Last(updates), ToolUpdates(Init(updates));
      ShownFromToolUpdates(Init(updates), key);
      if IsToolUpdate(u) {
        assert Init(ToolUpdates(updates)) == shown;
        ToolAfterStripped(ToolCalls.ToolAfterAll(None, shown, key), u, key);
      } else {
        assert ToolUpdates(updates) == shown;
      }
    }
  }

  lemma ShownTool(updates: seq<SessionUpdate>, key: string)
    ensures ToolCalls.ToolAt(RichView.Render(updates), key) == ToolCalls.ToolAfterAll(None, ToolUpdates(updates), key)
  {
    RenderedRuns.RenderIsApplyAll(updates);
    ToolCalls.ToolAtAll(RichView.EmptyView, updates, key);
    ShownFromToolUpdates(updates, key);
  }

  /** After a load the client shows every tool call as it stood: title, kind, status and diffs. */
  lemma ReplayShowsTheSameTools(live: Config, again: Config, ticks: seq<Tick>, lead: AgentId, prose: seq<string>, key: string)
    requires ValidTicks(ticks) && live.p == again.p
    requires TsSorted(EventsOf(ticks)) && WellTyped(EventsOf(ticks))
    requires RolesAgree(ticks, RosterOf(EventsOf(ticks)))
    ensures var merged := Reloaded(EventsOf(ticks), lead, prose);
            ToolCalls.ToolAt(RichView.Render(Replayed(again, RosterOf(merged), merged).sent), key)
            == ToolCalls.ToolAt(RichView.Render(Run(live, ticks).sent), key)
  {
    var merged := Reloaded(EventsOf(ticks), lead, prose);
    ReplayRefinesLive(live, again, ticks, lead, prose);
    ShownTool(Replayed(again, RosterOf(merged), merged).sent, key);
    ShownTool(Run(live, ticks).sent, key);
  }
}
