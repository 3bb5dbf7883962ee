/**
 * The vocabulary shared by the team pipeline: lane events on the bus, the roster,
 * and the session/update notifications sent to an ACP client.
 */
module LaneEvents {
  import opened Basics

  type AgentId = string

  /** An engine event, as a worker forwards it. */
  datatype NormalizedEvent =
    | TextDelta(text: string)
    | ToolUseStart(id: string, name: string)
    | ToolUseInput(id: string, jsonDelta: string)
    | ToolUseEnd(id: string, input: Option<Json>)
    | ToolResult(toolUseId: string, content: string, isError: bool)
    | MessageStop
    | EngineError
    | OtherNormalized

  /** The type tag of a lane event. */
  datatype LaneType =
    | TextDeltaType | ToolUseStartType | ToolUseInputType | ToolUseEndType
    | ToolResultType | MessageStopType | ErrorType
    | WorkerSpawned | WorkerReady | WorkerExited | WorkerCrashed
    | WorkerIdle | WorkerDrained | WorkerLifecycleChanged
    | TaskCreated | TaskUpdated | TaskCompleted | TaskFailed | TaskStopped
    | Heartbeat
    | OtherType(name: string)

  /**
   * The payload is an untyped record. These are the fields the pipeline reads;
   * `normalized` is present exactly when the record has a string `type`.
   */
  datatype Payload = Payload(
    normalized: Option<NormalizedEvent>,
    childAgentId: Option<AgentId>,
    agentId: Option<AgentId>,
    role: Option<string>,
    to: Option<string>)

  datatype LaneEvent = LaneEvent(ts: real, agentId: AgentId, kind: LaneType, payload: Payload)

  datatype MemberState = Spawning | Running | Idle | Finished | Failed

  datatype MemberInfo = MemberInfo(memberId: string, role: string, state: MemberState)

  /** A roster is an insertion-ordered map from agent id to member. */
  datatype Roster = Roster(order: seq<AgentId>, members: map<AgentId, MemberInfo>) {
    ghost predicate Valid() {
      && (forall i, j :: 0 <= i < j < |order| ==> order[i] != order[j])
      && (forall id :: id in order <==> id in members)
    }
  }

  /** One event together with the roster in force when it is handled. */
  datatype Tick = Tick(event: LaneEvent, roster: Option<Roster>)

  function MemberOf(roster: Option<Roster>, id: AgentId): Option<MemberInfo> {
    if roster.Some? && id in roster.value.members then Some(roster.value.members[id]) else None
  }

  /** What a client reads from `_meta.swarm.member`. */
  datatype MemberRef = MemberRef(id: Option<string>, name: Option<string>, role: Option<string>)

  /** One entry of a tool call's content array. */
  datatype Content =
    | TextContent(text: string)
    | DiffContent(path: Option<string>, oldText: Option<string>, newText: Option<string>)
    | OtherContent

  datatype PlanStatus = Pending | InProgress | Completed

  datatype PlanEntry = PlanEntry(
    content: Option<string>, priority: Option<string>, status: Option<string>, meta: Option<MemberRef>)

  /** A session/update notification. Every field a client may find missing is optional. */
  datatype SessionUpdate =
    | AgentMessageChunk(text: Option<string>, meta: Option<MemberRef>)
    | ToolCall(toolCallId: Option<string>, title: Option<string>, kind: Option<string>,
               status: Option<string>, content: Option<seq<Content>>, meta: Option<MemberRef>)
    | ToolCallUpdate(toolCallId: Option<string>, title: Option<string>, kind: Option<string>,
                     status: Option<string>, content: Option<seq<Content>>,
                     rawInput: Option<Json>, rawOutput: Option<string>, locations: Option<seq<string>>,
                     meta: Option<MemberRef>)
    | Plan(entries: seq<PlanEntry>, meta: Option<MemberRef>)
    | OtherUpdate(meta: Option<MemberRef>)

  /** The client connection: what has been sent on it, in order. */
  class Connection {
    var sent: seq<SessionUpdate>

    constructor ()
      ensures sent == []
    {
      sent := [];
    }

    method Send(update: SessionUpdate)
      modifies this
      ensures sent == old(sent) + [update]
    {
      sent := sent + [update];
    }
  }
}
