/**
 * What a member's entry on the client's board says, in terms of the events themselves
 * (legacy/src/acp/lane-translator.ts:28-51, 76-134, 168-256).
 */
module MemberStatus {
  import opened Basics
  import opened LaneEvents
  import opened LaneTranslator
  import opened BoardFreshness
  import RichView

  // ---------- the events, by name ----------

  /** A member's own engine activity, other than the end of a turn. */
  predicate IsActivity(e: LaneEvent) {
    && e.payload.normalized.Some?
    && e.kind in {TextDeltaType, ToolUseStartType, ToolUseInputType, ToolUseEndType, ToolResultType, ErrorType}
  }

  predicate ChangesTo(e: LaneEvent, names: set<string>) {
    e.kind == WorkerLifecycleChanged && e.payload.to.Some? && e.payload.to.value in names
  }

  /** The event says that the member is at work. */
  predicate SaysWorking(e: LaneEvent, id: AgentId) {
    || (IsActivity(e) && e.agentId == id)
    || (e.kind == WorkerSpawned && e.payload.childAgentId == Some(id))
    || (e.kind == WorkerReady && e.agentId == id)
    || (ChangesTo(e, {"prompt_accepted", "running", "blocked"}) && e.agentId == id)
  }

  /** The event says that it is done: it went idle, drained or crashed, or the host reports its exit, or it ended up in a final state. */
  predicate SaysDone(e: LaneEvent, id: AgentId) {
    || (e.kind in {WorkerIdle, WorkerDrained, WorkerCrashed} && e.agentId == id)
    || (e.kind == WorkerExited && e.payload.agentId == Some(id))
    || (ChangesTo(e, {"idle", "drained", "finished", "failed"}) && e.agentId == id)
  }

  /** The events that call for a look at the board. */
  predicate CallsForBoard(e: LaneEvent) {
    || IsActivity(e)
    || e.kind in {WorkerSpawned, WorkerReady, WorkerExited, WorkerCrashed, WorkerIdle, WorkerDrained, WorkerLifecycleChanged,
                  TaskCreated, TaskUpdated, TaskCompleted, TaskFailed, TaskStopped}
  }

  lemma SignalsByName(e: LaneEvent, id: AgentId)
    ensures Signal(e, id) == Some(InProgress) <==> SaysWorking(e, id)
    ensures Signal(e, id) == Some(Completed) <==> SaysDone(e, id)
    ensures Signal(e, id) != Some(Pending)
    ensures !(SaysWorking(e, id) && SaysDone(e, id))
  {
  }

  lemma BoardByName(e: LaneEvent)
    ensures Triggers(e) <==> CallsForBoard(e)
  {
  }

  // ---------- the last word about a member ----------

  predicate Speaks(e: LaneEvent, id: AgentId) {
    SaysWorking(e, id) || SaysDone(e, id)
  }

  ghost predicate SilentSince(ticks: seq<Tick>, id: AgentId, k: int) {
    forall j :: 0 <= j < |ticks| && k < j ==> !Speaks(ticks[j].event, id)
  }

  ghost predicate LastAt(ticks: seq<Tick>, id: AgentId, k: int) {
    0 <= k < |ticks| && Speaks(ticks[k].event, id) && SilentSince(ticks, id, k)
  }

  ghost predicate NothingSaid(ticks: seq<Tick>, id: AgentId) {
    SilentSince(ticks, id, -1)
  }

  ghost predicate LastSaysWorking(ticks: seq<Tick>, id: AgentId) {
    exists k :: LastAt(ticks, id, k) && SaysWorking(ticks[k].event, id)
  }

  ghost predicate LastSaysDone(ticks: seq<Tick>, id: AgentId) {
    exists k :: LastAt(ticks, id, k) && SaysDone(ticks[k].event, id)
  }

  lemma LastAtInit(ticks: seq<Tick>, id: AgentId, k: int)
    requires ticks != [] && !Speaks(Last(ticks).event, id)
    ensures LastAt(ticks, id, k) <==> LastAt(Init(ticks), id, k)
    ensures SilentSince(ticks, id, k) <==> SilentSince(Init(ticks), id, k)
  {
    InitLast(ticks);
  }

  lemma LastIsNow(ticks: seq<Tick>, id: AgentId)
    requires ticks != [] && Speaks(Last(ticks).event, id)
    ensures forall k :: LastAt(ticks, id, k) <==> k == |ticks| - 1
    ensures !NothingSaid(ticks, id)
  {
    assert ticks[|ticks| - 1] == Last(ticks);
  }

  lemma {:induction false} LastSignalByName(ticks: seq<Tick>, id: AgentId)
    ensures LastSignal(ticks, id) == Some(InProgress) <==> LastSaysWorking(ticks, id)
    ensures LastSignal(ticks, id) == Some(Completed) <==> LastSaysDone(ticks, id)
    ensures LastSignal(ticks, id) == None <==> NothingSaid(ticks, id)
    ensures LastSignal(ticks, id) != Some(Pending)
  {
    if ticks != [] {
      SignalsByName(Last(ticks).event, id);
      if Speaks(Last(ticks).event, id) {
        LastIsNow(ticks, id);
      } else {
        LastSignalByName(Init(ticks), id);
        forall k ensures LastAt(ticks, id, k) <==> LastAt(Init(ticks), id, k) { LastAtInit(ticks, id, k); }
        LastAtInit(ticks, id, -1);
      }
    }
  }

  /** What the texts of a status are. */
  lemma StatusByName(s: PlanStatus)
    ensures StatusText(s) == "pending" <==> s == Pending
    ensures StatusText(s) == "in_progress" <==> s == InProgress
    ensures StatusText(s) == "completed" <==> s == Completed
  {
    assert "pending"[0] == 'p' && "in_progress"[0] == 'i' && "completed"[0] == 'c';
  }

  /** The roster's word, when no event has said anything. */
  lemma StateByName(s: MemberState)
    ensures MapMemberState(s) == Pending <==> s == Spawning
    ensures MapMemberState(s) == InProgress <==> s == Running
    ensures MapMemberState(s) == Completed <==> s in {Idle, Finished, Failed}
  {
  }

  /**
   * Main result: after any run in which something called for the board, each member's entry shows its role and id, and reads
   * "completed" exactly when the last event about it says that it is done, or nothing was said and the roster has it
   * idle, finished or failed; and "in_progress" and "pending" exactly in the other cases.
   */
  lemma EntryByName(c: Config, roster: Roster, ticks: seq<Tick>, i: nat)
    requires roster.Valid() && Fixed(roster, ticks) && i < |roster.order|
    requires exists j :: 0 <= j < |ticks| && CallsForBoard(ticks[j].event)
    ensures ValidTicks(ticks)
    ensures var board, id := RichView.Render(Run(c, ticks).sent).board, roster.order[i];
            var m := roster.members[id];
            && |board| == |roster.order| && board[i].content == m.role && board[i].memberId == Some(m.memberId)
            && board[i].priority == Some("medium")
            && (board[i].status == "completed" <==>
                  LastSaysDone(ticks, id) || (NothingSaid(ticks, id) && m.state in {Idle, Finished, Failed}))
            && (board[i].status == "in_progress" <==>
                  LastSaysWorking(ticks, id) || (NothingSaid(ticks, id) && m.state == Running))
            && (board[i].status == "pending" <==> NothingSaid(ticks, id) && m.state == Spawning)
  {
    var j :| 0 <= j < |ticks| && CallsForBoard(ticks[j].event);
    BoardByName(ticks[j].event);
    ClientBoard(c, roster, ticks, i);
    var id := roster.order[i];
    LastSignalByName(ticks, id);
    StateByName(roster.members[id].state);
    StatusByName(LastSignal(ticks, id).GetOr(MapMemberState(roster.members[id].state)));
  }

  /** Before anything calls for the board there is none. */
  lemma NoBoardBefore(c: Config, roster: Roster, ticks: seq<Tick>)
    requires roster.Valid() && roster.order != [] && Fixed(roster, ticks)
    requires forall j :: 0 <= j < |ticks| ==> !CallsForBoard(ticks[j].event)
    ensures ValidTicks(ticks) && RichView.Render(Run(c, ticks).sent).board == []
  {
    forall j | 0 <= j < |ticks| ensures !Triggers(ticks[j].event) { BoardByName(ticks[j].event); }
    BoardIsFresh(c, roster, ticks);
    RenderedBoard(Run(c, ticks).sent);
  }
}
