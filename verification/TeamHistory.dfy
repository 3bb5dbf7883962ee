/**
 * The persisted spine and its replay (legacy/src/acp/spine.ts, legacy/src/acp/team-history.ts).
 */
module TeamHistory {
  import opened Basics
  import opened LaneEvents
  import opened StableSort
  import opened LaneTranslator

  // ---------- what is recorded ----------

  /** High-rate signals that wires leave out. */
  predicate IsLiveOnly(t: LaneType) {
    t.TextDeltaType? || t.ToolUseInputType? || t.Heartbeat?
  }

  predicate IsRecorded(e: LaneEvent) {
    !IsLiveOnly(e.kind)
  }

  /** The spine also keeps the argument fragments, so that replay rebuilds them. */
  predicate IsSpineEvent(e: LaneEvent) {
    IsRecorded(e) || e.kind.ToolUseInputType?
  }

  function Recorded(events: seq<LaneEvent>): seq<LaneEvent> {
    Filter(events, IsSpineEvent)
  }

  /** What the spine is for: everything but words and heartbeats. */
  function LastingEvent(): LaneEvent -> bool {
    (e: LaneEvent) => e.kind != TextDeltaType && e.kind != Heartbeat
  }

  lemma RecordedByName(events: seq<LaneEvent>)
    ensures Recorded(events) == Filter(events, LastingEvent())
  {
    FilterSame(events, IsSpineEvent, LastingEvent());
  }

  /** A line of events.jsonl, as far as the reader tells lines apart. */
  datatype Line = Blank | Unparsable | JsonNull | Metadata | NotAnEvent | Event(e: LaneEvent)

  function EventsIn(lines: seq<Line>): seq<LaneEvent> {
    if lines == [] then []
    else EventsIn(Init(lines)) + if Last(lines).Event? then [Last(lines).e] else []
  }

  lemma LastLine(lines: seq<Line>, e: LaneEvent)
    ensures EventsIn(lines + [Event(e)]) == EventsIn(lines) + [e]
  {
    assert Init(lines + [Event(e)]) == lines;
  }

  /**
   * One session's recorder. `start` is synchronous and opening the file is not, so writes queue
   * behind the pending open and run in registration order.
   */
  class SpineRecorder {
    var recording: bool
    var ready: bool
    var queued: seq<LaneEvent>
    var file: seq<Line>
    ghost var notified: seq<LaneEvent>

    /** File and queue together hold the spine events seen while recording, in emission order. */
    ghost predicate Valid()
      reads this
    {
      && EventsIn(file) + queued == Recorded(notified)
      && (ready ==> queued == [])
      && JsonNull !in file
    }

    constructor ()
      ensures Valid() && !recording && notified == []
    {
      recording, ready, queued, file, notified := false, false, [], [], [];
    }

    /** A second start is a no-op. */
    method Start()
      requires Valid()
      modifies this
      ensures Valid() && recording && notified == old(notified)
      ensures old(recording) ==> file == old(file) && queued == old(queued) && ready == old(ready)
      ensures !old(recording) ==> queued == old(queued) && file == if old(file) == [] then [Metadata] else old(file)
    {
      if recording { return; }
      recording := true;
      if file == [] {
        file := [Metadata];
        assert Init(file) == [];
      }
    }

    method OpenFinished()
      requires Valid()
      modifies this
      ensures Valid() && notified == old(notified) && ready
      ensures EventsIn(file) == Recorded(notified)
      ensures old(file) <= file && (old(queued) == [] ==> file == old(file))
    {
      while queued != []
        invariant EventsIn(file) + queued == Recorded(notified) && JsonNull !in file
        invariant old(file) <= file && (old(queued) == [] ==> queued == [] && file == old(file))
        invariant notified == old(notified)
        decreases |queued|
      {
        LastLine(file, queued[0]);
        Assoc(EventsIn(file), [queued[0]], queued[1..]);
        assert queued == [queued[0]] + queued[1..];
        file, queued := file + [Event(queued[0])], queued[1..];
      }
      ready := true;
    }

    /** Detaches and flushes: everything recorded is in the file, and the file can be read. */
    method Stop()
      requires Valid()
      modifies this
      ensures Valid() && !recording && notified == old(notified)
      ensures EventsIn(file) == Recorded(notified) && JsonNull !in file
      ensures EventsIn(file) == Filter(notified, LastingEvent()) && old(file) <= file
    {
      OpenFinished();
      RecordedByName(notified);
      recording, ready := false, false;
    }

    method Notify(e: LaneEvent)
      requires Valid()
      modifies this
      ensures Valid()
      ensures notified == old(notified) + if old(recording) then [e] else []
      ensures recording == old(recording) && ready == old(ready) && old(file) <= file
      ensures EventsIn(file) + queued == old(EventsIn(file) + queued)
                                         + if old(recording) && e.kind != TextDeltaType && e.kind != Heartbeat then [e] else []
    {
      if !recording { return; }
      FilterLast(notified, e, IsSpineEvent);
      notified := notified + [e];
      if !IsSpineEvent(e) { return; }
      if ready {
        LastLine(file, e);
        file := file + [Event(e)];
      } else {
        Assoc(EventsIn(file), queued, [e]);
        queued := queued + [e];
      }
    }
  }

  /** The reader: event lines only, by timestamp. A line that holds just `null` makes it throw. */
  method ReadSpine(lines: seq<Line>) returns (events: Option<seq<LaneEvent>>)
    ensures events == if JsonNull in lines then None else Some(SortByTs(EventsIn(lines)))
  {
    var found := [];
    for i := 0 to |lines|
      invariant JsonNull !in lines[..i] && found == EventsIn(lines[..i])
    {
      assert lines[..i + 1] == lines[..i] + [lines[i]] && Init(lines[..i + 1]) == lines[..i];
      if lines[i].JsonNull? { return None; }
      if lines[i].Event? {
        found := found + [lines[i].e];
      }
    }
    assert lines[..|lines|] == lines;
    events := Some(Untag(Sort(Items(found))));
  }

  // ---------- the roster of a spine ----------

  const EmptyRoster := Roster([], map[])

  function Joined(r: Roster, e: LaneEvent): Roster {
    if !e.kind.WorkerSpawned? || e.payload.childAgentId.None? || e.payload.childAgentId.value in r.members then r
    else
      var id := e.payload.childAgentId.value;
      Roster(r.order + [id], r.members[id := MemberInfo(id, e.payload.role.GetOr("worker"), Finished)])
  }

  function RosterOf(events: seq<LaneEvent>): (r: Roster)
    ensures r.Valid()
  {
    if events == [] then EmptyRoster else Joined(RosterOf(Init(events)), Last(events))
  }

  method RosterFromSpine(events: seq<LaneEvent>) returns (roster: Roster)
    ensures roster == RosterOf(events)
  {
    roster := EmptyRoster;
    for i := 0 to |events|
      invariant roster == RosterOf(events[..i])
    {
      assert Init(events[..i + 1]) == events[..i];
      var e := events[i];
      if !e.kind.WorkerSpawned? { continue; }
      var id := e.payload.childAgentId;
      if id.None? || id.value in roster.members { continue; }
      roster := Roster(roster.order + [id.value],
                       roster.members[id.value := MemberInfo(id.value, e.payload.role.GetOr("worker"), Finished)]);
    }
    assert events[..|events|] == events;
  }

  /** The spawn of an agent, as recorded. */
  predicate Spawns(e: LaneEvent, id: AgentId) {
    e.kind.WorkerSpawned? && e.payload.childAgentId == Some(id)
  }

  function MemberFrom(e: LaneEvent, id: AgentId): MemberInfo {
    MemberInfo(id, e.payload.role.GetOr("worker"), Finished)
  }

  /** One more event adds at most the agent it spawns, and never changes an entry. */
  lemma JoinedOne(r: Roster, e: LaneEvent, id: AgentId)
    ensures id in Joined(r, e).members <==> id in r.members || Spawns(e, id)
    ensures id in r.members ==> Joined(r, e).members[id] == r.members[id]
    ensures id !in r.members && Spawns(e, id) ==> Joined(r, e).members[id] == MemberFrom(e, id)
  {
  }

  ghost predicate SpawnedIn(events: seq<LaneEvent>, id: AgentId) {
    exists i :: 0 <= i < |events| && Spawns(events[i], id)
  }

  lemma SpawnedStep(events: seq<LaneEvent>, id: AgentId)
    requires events != []
    ensures SpawnedIn(events, id) <==> SpawnedIn(Init(events), id) || Spawns(Last(events), id)
  {
    if i :| 0 <= i < |events| && Spawns(events[i], id) {
      assert i < |events| - 1 ==> Spawns(Init(events)[i], id);
    }
    if i :| 0 <= i < |Init(events)| && Spawns(Init(events)[i], id) {
      assert Spawns(events[i], id);
    }
  }

  /** An agent is on the roster exactly when the spine spawns it. */
  lemma {:induction false} RosterIsSpawned(events: seq<LaneEvent>, id: AgentId)
    ensures id in RosterOf(events).members <==> SpawnedIn(events, id)
  {
    if events != [] {
      RosterIsSpawned(Init(events), id);
      JoinedOne(RosterOf(Init(events)), Last(events), id);
      SpawnedStep(events, id);
    }
  }

  /** The role on the roster is the one of the agent's first spawn. */
  lemma {:induction false} FirstSpawnWins(events: seq<LaneEvent>, id: AgentId, i: nat)
    requires i < |events| && Spawns(events[i], id)
    requires forall j :: 0 <= j < i ==> !Spawns(events[j], id)
    ensures id in RosterOf(events).members
    ensures RosterOf(events).members[id]
         == MemberInfo(id, if events[i].payload.role.Some? then events[i].payload.role.value else "worker", Finished)
  {
    JoinedOne(RosterOf(Init(events)), Last(events), id);
    if i < |events| - 1 {
      FirstSpawnWins(Init(events), id, i);
    } else {
      RosterIsSpawned(Init(events), id);
    }
  }

  /** When an agent is first spawned. */
  ghost function FirstSpawn(events: seq<LaneEvent>, id: AgentId): nat {
    if events == [] then 0
    else if SpawnedIn(Init(events), id) then FirstSpawn(Init(events), id)
    else |events| - 1
  }

  lemma {:induction false} FirstSpawnIsFirst(events: seq<LaneEvent>, id: AgentId)
    requires SpawnedIn(events, id)
    ensures FirstSpawn(events, id) < |events| && Spawns(events[FirstSpawn(events, id)], id)
    ensures forall j :: 0 <= j < FirstSpawn(events, id) ==> !Spawns(events[j], id)
  {
    SpawnedStep(events, id);
    if SpawnedIn(Init(events), id) {
      FirstSpawnIsFirst(Init(events), id);
    } else {
      assert forall j :: 0 <= j < |events| - 1 ==> Init(events)[j] == events[j];
    }
  }

  /** The roster lists its members in the order in which they were first spawned. */
  lemma {:induction false} ListedAsSpawned(events: seq<LaneEvent>)
    ensures var order := RosterOf(events).order;
            forall i, j :: 0 <= i < j < |order| ==> FirstSpawn(events, order[i]) < FirstSpawn(events, order[j])
  {
    if events != [] {
      var before := RosterOf(Init(events));
      ListedAsSpawned(Init(events));
      forall i | 0 <= i < |before.order|
        ensures FirstSpawn(events, before.order[i]) == FirstSpawn(Init(events), before.order[i]) < |events| - 1
      {
        RosterIsSpawned(Init(events), before.order[i]);
        FirstSpawnIsFirst(Init(events), before.order[i]);
      }
      if |RosterOf(events).order| > |before.order| {
        RosterIsSpawned(Init(events), Last(RosterOf(events).order));
      }
    }
  }

  /** The first member, in spawn order, whose role is lead. */
  method FindLeadAgentId(events: seq<LaneEvent>) returns (lead: Option<AgentId>)
    ensures var r := RosterOf(events);
            match lead
            case Some(id) => exists i :: 0 <= i < |r.order| && r.order[i] == id && r.members[id].role == "lead"
                               && forall j :: 0 <= j < i ==> r.members[r.order[j]].role != "lead"
            case None => forall id :: id in r.members ==> r.members[id].role != "lead"
  {
    var r := RosterFromSpine(events);
    for i := 0 to |r.order|
      invariant forall j :: 0 <= j < i ==> r.members[r.order[j]].role != "lead"
    {
      if r.members[r.order[i]].role == "lead" { return Some(r.order[i]); }
    }
    return None;
  }

  // ---------- weaving prose back in ----------

  predicate IsTurnEnd(e: LaneEvent, lead: AgentId) {
    e.agentId == lead && e.kind.MessageStopType?
  }

  /** Positions of the lead's turn ends in the spine. */
  function Boundaries(spine: seq<LaneEvent>, lead: AgentId): (b: seq<nat>)
    ensures forall i :: 0 <= i < |b| ==> b[i] < |spine|
  {
    if spine == [] then []
    else Boundaries(Init(spine), lead) + if IsTurnEnd(Last(spine), lead) then [|spine| - 1] else []
  }

  /** The i-th boundary, else the last one, else the first event, else zero. */
  function Anchor(spine: seq<LaneEvent>, lead: AgentId, i: nat): real {
    var b := Boundaries(spine, lead);
    if i < |b| then spine[b[i]].ts
    else if b != [] then spine[Last(b)].ts
    else if spine != [] then spine[0].ts else 0.0
  }

  function ProseEvent(spine: seq<LaneEvent>, lead: AgentId, i: nat, text: string): LaneEvent {
    LaneEvent(Anchor(spine, lead, i) - 1.0, lead, TextDeltaType, Payload(Some(TextDelta(text)), None, None, None, None))
  }

  function ProseEvents(spine: seq<LaneEvent>, lead: AgentId, prose: seq<string>): seq<LaneEvent> {
    seq(|prose|, i requires 0 <= i < |prose| => ProseEvent(spine, lead, i, prose[i]))
  }

  function MergeLeadProse(spine: seq<LaneEvent>, lead: AgentId, prose: seq<string>): seq<LaneEvent> {
    if prose == [] then spine
    else Untag(Sort(Items(spine + ProseEvents(spine, lead, prose))))
  }

  // ---------- replay ----------

  /** Every event under one roster. */
  function Under(roster: Roster, events: seq<LaneEvent>): seq<Tick> {
    seq(|events|, i requires 0 <= i < |events| => Tick(events[i], Some(roster)))
  }

  lemma UnderValid(roster: Roster, events: seq<LaneEvent>)
    requires roster.Valid()
    ensures ValidTicks(Under(roster, events))
  {
  }

  /** What a fresh translator does with the events under one roster. */
  function Replayed(c: Config, roster: Roster, events: seq<LaneEvent>): Outcome
    requires roster.Valid()
  {
    UnderValid(roster, events);
    Run(c, Under(roster, events))
  }

  function Then(c: Config, o: Outcome, t: Tick): Outcome
    requires t.roster.Some? ==> t.roster.value.Valid()
  {
    var step := Handle(c, o.state, t);
    Outcome(step.state, o.sent + step.sent)
  }

  lemma ReplayedStep(c: Config, roster: Roster, events: seq<LaneEvent>, i: nat)
    requires roster.Valid() && i < |events|
    ensures Replayed(c, roster, events[..i + 1]) == Then(c, Replayed(c, roster, events[..i]), Tick(events[i], Some(roster)))
  {
    assert Init(Under(roster, events[..i + 1])) == Under(roster, events[..i]);
  }

  /** One event, for a translator that has got as far as an outcome. */
  method Advance(translator: Translator, conn: Connection, t: Tick, ghost o: Outcome, ghost before: seq<SessionUpdate>)
    requires translator.conn == conn && (t.roster.Some? ==> t.roster.value.Valid())
    requires translator.Abstract() == o.state && conn.sent == before + o.sent
    modifies translator, translator.open, conn
    ensures translator.Abstract() == Then(translator.c, o, t).state
    ensures conn.sent == before + Then(translator.c, o, t).sent
  {
    ghost var was := conn.sent;
    translator.OnLaneEvent(t.event, t.roster);
    assert t == Tick(t.event, t.roster);
    Assoc(before, o.sent, Handle(translator.c, o.state, t).sent);
  }

  /** The replay sends what a fresh translator sends for the events under the spine's own roster. */
  method ReplayTeamSpine(c: Config, conn: Connection, events: seq<LaneEvent>)
    modifies conn
    ensures conn.sent == old(conn.sent) + Replayed(c, RosterOf(events), events).sent
  {
    if events == [] { return; }
    var roster := RosterFromSpine(events);
    var translator := new Translator(c, conn);
    assert events[..0] == [];
    for i := 0 to |events|
      invariant fresh(translator) && fresh(translator.open) && translator.c == c && translator.conn == conn
      invariant translator.Abstract() == Replayed(c, roster, events[..i]).state
      invariant conn.sent == old(conn.sent) + Replayed(c, roster, events[..i]).sent
    {
      ReplayedStep(c, roster, events, i);
      Advance(translator, conn, Tick(events[i], Some(roster)), Replayed(c, roster, events[..i]), old(conn.sent));
    }
    assert events[..|events|] == events;
  }
}
