/**
 * The team lane translator (legacy/src/acp/lane-translator.ts): the state machine that turns
 * the members' lane events into one stream of session updates.
 */
module LaneTranslator {
  import opened Basics
  import opened LaneEvents
  import opened NormalizedTranslate

  predicate IsEngineType(t: LaneType) {
    match t
    case TextDeltaType | ToolUseStartType | ToolUseInputType | ToolUseEndType
       | ToolResultType | MessageStopType | ErrorType => true
    case _ => false
  }

  predicate IsPlanTrigger(t: LaneType) {
    match t
    case WorkerSpawned | WorkerReady | WorkerExited | WorkerCrashed
       | WorkerIdle | WorkerDrained | WorkerLifecycleChanged => true
    case TaskCreated | TaskUpdated | TaskCompleted | TaskFailed | TaskStopped => true
    case _ => false
  }

  /** An engine event with a usable payload: the only kind that reaches the emitter. */
  predicate IsEngine(e: LaneEvent) {
    IsEngineType(e.kind) && e.payload.normalized.Some?
  }

  function MapMemberState(s: MemberState): PlanStatus {
    match s
    case Spawning => Pending
    case Running => InProgress
    case _ => Completed
  }

  /** Host-emitted lifecycle events carry the worker's id in the payload. */
  function LifecycleChildId(e: LaneEvent): Option<AgentId> {
    match e.kind
    case WorkerSpawned => e.payload.childAgentId
    case WorkerExited => e.payload.agentId
    case _ => Some(e.agentId)
  }

  function LifecycleStatus(e: LaneEvent): Option<PlanStatus> {
    match e.kind
    case WorkerSpawned | WorkerReady => Some(InProgress)
    case WorkerIdle | WorkerDrained | WorkerExited | WorkerCrashed => Some(Completed)
    case WorkerLifecycleChanged =>
      if e.payload.to.Some? && e.payload.to.value in ["prompt_accepted", "running", "blocked"] then Some(InProgress)
      else if e.payload.to.Some? && e.payload.to.value in ["idle", "drained", "finished", "failed"] then Some(Completed)
      else None
    case _ => None
  }

  function StatusText(s: PlanStatus): string {
    match s
    case Pending => "pending"
    case InProgress => "in_progress"
    case Completed => "completed"
  }

  function MetaOf(m: MemberInfo): MemberRef {
    MemberRef(Some(m.memberId), Some(m.role), Some(m.role))
  }

  datatype Config = Config(p: Presentation, interleave: bool)

  /** The closure state of one translator. */
  datatype State = State(
    open: OpenCalls,
    lastPlanKey: string,
    firstSeen: Option<AgentId>,
    lastTextSpeaker: Option<AgentId>,
    memberStatus: map<AgentId, PlanStatus>)

  const InitialState := State(map[], "", None, None, map[])

  /** A state and what was sent on the way to it. */
  datatype Outcome = Outcome(state: State, sent: seq<SessionUpdate>)

  // ---------- the plan board ----------

  function StatusOf(roster: Roster, status: map<AgentId, PlanStatus>, id: AgentId): PlanStatus
    requires id in roster.members
  {
    if id in status then status[id] else MapMemberState(roster.members[id].state)
  }

  function EntryOf(roster: Roster, status: map<AgentId, PlanStatus>, id: AgentId): PlanEntry
    requires id in roster.members
  {
    PlanEntry(Some(roster.members[id].role), Some("medium"), Some(StatusText(StatusOf(roster, status, id))),
              Some(MetaOf(roster.members[id])))
  }

  /** The current status projection: one entry per roster member, in roster order. */
  function Entries(roster: Roster, status: map<AgentId, PlanStatus>): seq<PlanEntry>
    requires forall id :: id in roster.order ==> id in roster.members
  {
    seq(|roster.order|, i requires 0 <= i < |roster.order| => EntryOf(roster, status, roster.order[i]))
  }

  /** `content:status` of each entry, joined with `|`. */
  function PlanKey(entries: seq<PlanEntry>): string {
    if entries == [] then ""
    else EntryKey(entries[0]) + if |entries| == 1 then "" else "|" + PlanKey(entries[1..])
  }

  function EntryKey(e: PlanEntry): string {
    e.content.GetOr("") + ":" + e.status.GetOr("")
  }

  function PlanOutcome(roster: Option<Roster>, s: State): Outcome
    requires roster.Some? ==> roster.value.Valid()
  {
    if roster.None? || roster.value.order == [] then Outcome(s, [])
    else
      var entries := Entries(roster.value, s.memberStatus);
      var key := PlanKey(entries);
      if key == s.lastPlanKey then Outcome(s, [])
      else Outcome(s.(lastPlanKey := key), [Plan(entries, None)])
  }

  // ---------- one event ----------

  function WithStatus(s: State, id: Option<AgentId>, status: PlanStatus): State {
    if id.None? then s else s.(memberStatus := s.memberStatus[id.value := status])
  }

  predicate Changes(s: State, id: Option<AgentId>, status: PlanStatus) {
    id.Some? && !(id.value in s.memberStatus && s.memberStatus[id.value] == status)
  }

  function FirstSeenAfter(s: State, id: AgentId): AgentId {
    s.firstSeen.GetOr(id)
  }

  /** The lead is the roster's when the speaker is rostered, else the first speaker. */
  predicate IsLead(s: State, t: Tick) {
    var member := MemberOf(t.roster, t.event.agentId);
    if member.Some? then member.value.role == "lead" else t.event.agentId == FirstSeenAfter(s, t.event.agentId)
  }

  function OptionsOf(c: Config, s: State, t: Tick): EmitOptions {
    var member := MemberOf(t.roster, t.event.agentId);
    EmitOptions(t.event.agentId + ":",
                if member.Some? then "[" + member.value.role + "] " else "",
                !IsLead(s, t) && !c.interleave,
                if member.Some? then Some(MetaOf(member.value)) else None)
  }

  function RolePrefix(role: string): string {
    "\n**[" + role + "]**: "
  }

  /** Interleave mode labels the first delta of a non-lead member's run. */
  function RunLabel(c: Config, s: State, t: Tick): seq<SessionUpdate>
    requires IsEngine(t.event)
  {
    var member := MemberOf(t.roster, t.event.agentId);
    if c.interleave && !IsLead(s, t) && member.Some? && t.event.payload.normalized.value.TextDelta?
       && s.lastTextSpeaker != Some(t.event.agentId)
    then [AgentMessageChunk(Some(RolePrefix(member.value.role)), Some(MetaOf(member.value)))]
    else []
  }

  /** The member's own part of an engine event: label, text and tool updates. */
  function Speak(c: Config, s: State, t: Tick): Outcome
    requires IsEngine(t.event)
  {
    var e := t.event;
    var ne := e.payload.normalized.value;
    var o := OptionsOf(c, s, t);
    var speaker := if ne.TextDelta? then Some(e.agentId) else if ne.MessageStop? then None else s.lastTextSpeaker;
    Outcome(s.(open := OpenAfter(s.open, o.idPrefix, ne),
               firstSeen := Some(FirstSeenAfter(s, e.agentId)),
               lastTextSpeaker := speaker),
            RunLabel(c, s, t) + Updates(c.p, s.open, ne, o))
  }

  /** Any engine activity but a message_stop marks the member as working. */
  function Activity(s: State, t: Tick): Outcome
    requires t.roster.Some? ==> t.roster.value.Valid()
  {
    if t.event.kind.MessageStopType? || !Changes(s, Some(t.event.agentId), InProgress) then Outcome(s, [])
    else PlanOutcome(t.roster, WithStatus(s, Some(t.event.agentId), InProgress))
  }

  function HandleEngine(c: Config, s: State, t: Tick): Outcome
    requires IsEngine(t.event)
    requires t.roster.Some? ==> t.roster.value.Valid()
  {
    var spoken := Speak(c, s, t);
    var board := Activity(spoken.state, t);
    Outcome(board.state, spoken.sent + board.sent)
  }

  function HandlePlanTrigger(s: State, t: Tick): Outcome
    requires t.roster.Some? ==> t.roster.value.Valid()
  {
    var status := LifecycleStatus(t.event);
    PlanOutcome(t.roster, if status.Some? then WithStatus(s, LifecycleChildId(t.event), status.value) else s)
  }

  function Handle(c: Config, s: State, t: Tick): Outcome
    requires t.roster.Some? ==> t.roster.value.Valid()
  {
    if IsEngineType(t.event.kind) then
      if t.event.payload.normalized.None? then Outcome(s, []) else HandleEngine(c, s, t)
    else if IsPlanTrigger(t.event.kind) then HandlePlanTrigger(s, t)
    else Outcome(s, [])
  }

  ghost predicate ValidTicks(ticks: seq<Tick>) {
    forall i :: 0 <= i < |ticks| && ticks[i].roster.Some? ==> ticks[i].roster.value.Valid()
  }

  /** A whole stream, from a fresh translator. */
  function Run(c: Config, ticks: seq<Tick>): Outcome
    requires ValidTicks(ticks)
  {
    if ticks == [] then Outcome(InitialState, [])
    else
      var before := Run(c, Init(ticks));
      var step := Handle(c, before.state, Last(ticks));
      Outcome(step.state, before.sent + step.sent)
  }

  // ---------- the translator object ----------

  class Translator {
    const c: Config
    const conn: Connection
    const open: ToolInputAccumulator
    var lastPlanKey: string
    var firstSeen: Option<AgentId>
    var lastTextSpeaker: Option<AgentId>
    var memberStatus: map<AgentId, PlanStatus>

    constructor (c: Config, conn: Connection)
      ensures this.c == c && this.conn == conn
      ensures fresh(open)
      ensures Abstract() == InitialState
    {
      this.c := c;
      this.conn := conn;
      open := new ToolInputAccumulator();
      lastPlanKey := "";
      firstSeen := None;
      lastTextSpeaker := None;
      memberStatus := map[];
    }

    ghost function Abstract(): State
      reads this, open
    {
      State(open.entries, lastPlanKey, firstSeen, lastTextSpeaker, memberStatus)
    }

    /** Sets a member's status and says whether it changed. */
    method ApplyStatus(id: Option<AgentId>, status: PlanStatus) returns (changed: bool)
      modifies this`memberStatus
      ensures changed == Changes(old(Abstract()), id, status)
      ensures Abstract() == WithStatus(old(Abstract()), id, status)
    {
      if id.None? { return false; }
      if id.value in memberStatus && memberStatus[id.value] == status {
        assert memberStatus[id.value := status] == memberStatus;
        return false;
      }
      memberStatus := memberStatus[id.value := status];
      return true;
    }

    method EmitPlan(roster: Option<Roster>)
      requires roster.Some? ==> roster.value.Valid()
      modifies this`lastPlanKey, conn
      ensures Outcome(Abstract(), conn.sent)
           == Outcome(PlanOutcome(roster, old(Abstract())).state,
                      old(conn.sent) + PlanOutcome(roster, old(Abstract())).sent)
    {
      if roster.None? || |roster.value.order| == 0 { return; }
      var entries := Entries(roster.value, memberStatus);
      var key := PlanKey(entries);
      if key == lastPlanKey { return; }
      lastPlanKey := key;
      conn.Send(Plan(entries, None));
    }

    /** Interleave mode: labels the first delta of a non-lead's run. */
    method SendLabel(e: LaneEvent, roster: Option<Roster>, isLead: bool)
      requires IsEngine(e) && isLead == IsLead(Abstract(), Tick(e, roster))
      modifies conn
      ensures conn.sent == old(conn.sent) + RunLabel(c, old(Abstract()), Tick(e, roster))
    {
      var member := MemberOf(roster, e.agentId);
      if c.interleave && !isLead && member.Some? && e.payload.normalized.value.TextDelta? && lastTextSpeaker != Some(e.agentId) {
        conn.Send(AgentMessageChunk(Some(RolePrefix(member.value.role)), Some(MetaOf(member.value))));
      }
    }

    method SpeakFor(e: LaneEvent, roster: Option<Roster>)
      requires IsEngine(e)
      modifies this, open, conn
      ensures Abstract() == Speak(c, old(Abstract()), Tick(e, roster)).state
      ensures conn.sent == old(conn.sent) + Speak(c, old(Abstract()), Tick(e, roster)).sent
    {
      var payload := e.payload.normalized.value;
      if firstSeen.None? { firstSeen := Some(e.agentId); }
      var member := MemberOf(roster, e.agentId);
      var isLead := if member.Some? then member.value.role == "lead" else Some(e.agentId) == firstSeen;
      SendLabel(e, roster, isLead);
      if payload.TextDelta? { lastTextSpeaker := Some(e.agentId); }
      EmitFor(e, roster, isLead, old(Abstract()));
      if payload.MessageStop? { lastTextSpeaker := None; }
    }

    /** Sends the event itself, under the member's prefixes and meta; s is the state before the event. */
    method EmitFor(e: LaneEvent, roster: Option<Roster>, isLead: bool, ghost s: State)
      requires IsEngine(e) && isLead == IsLead(s, Tick(e, roster))
      modifies open, conn
      ensures var o := OptionsOf(c, s, Tick(e, roster));
              && open.entries == OpenAfter(old(open.entries), o.idPrefix, e.payload.normalized.value)
              && conn.sent == old(conn.sent) + Updates(c.p, old(open.entries), e.payload.normalized.value, o)
    {
      var member := MemberOf(roster, e.agentId);
      var meta := if member.Some? then Some(MetaOf(member.value)) else None;
      var titlePrefix := if member.Some? then "[" + member.value.role + "] " else "";
      var o := EmitOptions(e.agentId + ":", titlePrefix, !isLead && !c.interleave, meta);
      EmitNormalizedEvent(c.p, e.payload.normalized.value, o, open, conn);
    }

    method MarkActive(e: LaneEvent, roster: Option<Roster>)
      requires roster.Some? ==> roster.value.Valid()
      modifies this, conn
      ensures Abstract() == Activity(old(Abstract()), Tick(e, roster)).state
      ensures conn.sent == old(conn.sent) + Activity(old(Abstract()), Tick(e, roster)).sent
    {
      if !e.kind.MessageStopType? {
        var changed := ApplyStatus(Some(e.agentId), InProgress);
        if changed { EmitPlan(roster); }
        else { assert old(memberStatus)[e.agentId := InProgress] == old(memberStatus); }
      }
    }

    /** Handles one event: the state and the connection move exactly as `Handle` says. */
    method OnLaneEvent(e: LaneEvent, roster: Option<Roster>)
      requires roster.Some? ==> roster.value.Valid()
      modifies this, open, conn
      ensures Abstract() == Handle(c, old(Abstract()), Tick(e, roster)).state
      ensures conn.sent == old(conn.sent) + Handle(c, old(Abstract()), Tick(e, roster)).sent
    {
      if IsEngineType(e.kind) {
        if e.payload.normalized.None? { return; }
        SpeakFor(e, roster);
        MarkActive(e, roster);
        return;
      }
      if IsPlanTrigger(e.kind) {
        var status := LifecycleStatus(e);
        if status.Some? {
          var _ := ApplyStatus(LifecycleChildId(e), status.value);
        }
        EmitPlan(roster);
      }
    }
  }
}
