/** What the reassembled trajectory says about its source. */
module TrajectoryLaws {
  import opened Basics
  import opened LaneTrajectory

  // ---------- ordinals ----------

  ghost predicate Ordinal(events: seq<TraceEvent>) {
    forall i :: 0 <= i < |events| ==> events[i].ts == i
  }

  ghost predicate ToolsPoint(s: State) {
    forall id :: id in s.tools ==> s.tools[id] < |s.events| && s.events[s.tools[id]].Tool?
  }

  lemma FlushKeepsOrdinal(blank: Blank, s: State, a: AgentId)
    requires Ordinal(s.events)
    ensures Ordinal(Flushed(blank, s, a).events)
  {
  }

  lemma {:induction false} RunIsOrdinal(blank: Blank, lines: seq<Line>)
    ensures Ordinal(Run(blank, lines).events)
  {
    if lines != [] {
      RunIsOrdinal(blank, Init(lines));
      var s, line := Run(blank, Init(lines)), Last(lines);
      if line.ToolUseStart? || line.MessageStop? { FlushKeepsOrdinal(blank, s, line.agent); }
    }
  }

  lemma {:induction false} FlushEachIsOrdinal(blank: Blank, s: State, agents: seq<AgentId>)
    requires Ordinal(s.events)
    ensures Ordinal(FlushEach(blank, s, agents).events)
  {
    if agents != [] {
      FlushEachIsOrdinal(blank, s, Init(agents));
      FlushKeepsOrdinal(blank, FlushEach(blank, s, Init(agents)), Last(agents));
    }
  }

  /** Every event's timestamp is its position. */
  lemma TsIsIndex(blank: Blank, lines: seq<Line>)
    ensures Ordinal(Trajectory(blank, lines))
  {
    RunIsOrdinal(blank, lines);
    FlushEachIsOrdinal(blank, Run(blank, lines), Run(blank, lines).order);
  }

  // ---------- what each agent says ----------

  /** An agent's tool starts and message stops end its current message. */
  predicate Cuts(line: Line, a: AgentId) {
    (line.ToolUseStart? || line.MessageStop?) && line.agent == a
  }

  /** An agent's text since its last cut. */
  function Open(lines: seq<Line>, a: AgentId): string {
    if lines == [] then ""
    else if Cuts(Last(lines), a) then ""
    else Open(Init(lines), a) + if Last(lines).TextDelta? && Last(lines).agent == a then Last(lines).text else ""
  }

  /** An agent's text between its cuts. */
  function Closed(lines: seq<Line>, a: AgentId): seq<string> {
    if lines == [] then []
    else Closed(Init(lines), a) + if Cuts(Last(lines), a) then [Open(Init(lines), a)] else []
  }

  function AllText(lines: seq<Line>, a: AgentId): string {
    if lines == [] then ""
    else AllText(Init(lines), a) + if Last(lines).TextDelta? && Last(lines).agent == a then Last(lines).text else ""
  }

  /** Cutting loses nothing: the pieces join up to all of the agent's text. */
  lemma {:induction false} PiecesJoin(lines: seq<Line>, a: AgentId)
    ensures Concat(Closed(lines, a)) + Open(lines, a) == AllText(lines, a)
  {
    if lines != [] {
      PiecesJoin(Init(lines), a);
      if Cuts(Last(lines), a) {
        assert Init(Closed(lines, a)) == Closed(Init(lines), a);
      } else {
        assert Closed(lines, a) == Closed(Init(lines), a);
      }
    }
  }

  function NonBlank(blank: Blank, s: string): seq<string> {
    if IsBlank(blank, s) then [] else [s]
  }

  /** What the trajectory should have an agent say: its non-blank pieces, and the messages that it sends directly. */
  function Says(blank: Blank, lines: seq<Line>, a: AgentId): seq<string> {
    if lines == [] then []
    else if Cuts(Last(lines), a) then Says(blank, Init(lines), a) + NonBlank(blank, Open(Init(lines), a))
    else Says(blank, Init(lines), a) + if Last(lines).Direct? && Last(lines).from == a then [Last(lines).content] else []
  }

  /** The contents of an agent's messages in a trajectory. */
  function Said(events: seq<TraceEvent>, a: AgentId): seq<string> {
    if events == [] then []
    else Said(Init(events), a) + if Last(events).Message? && Last(events).from == a then [Last(events).content] else []
  }

  lemma {:induction false} SaidAppend(xs: seq<TraceEvent>, ys: seq<TraceEvent>, a: AgentId)
    ensures Said(xs + ys, a) == Said(xs, a) + Said(ys, a)
  {
    if ys == [] {
      assert xs + ys == xs;
    } else {
      SaidAppend(xs, Init(ys), a);
      assert Init(xs + ys) == xs + Init(ys);
    }
  }

  lemma SaidOne(e: TraceEvent, a: AgentId)
    ensures Said([e], a) == if e.Message? && e.from == a then [e.content] else []
  {
    assert Init([e]) == [];
  }

  /** Folding a result into a tool event changes no message. */
  lemma {:induction false} SaidFolded(events: seq<TraceEvent>, i: nat, e: TraceEvent, a: AgentId)
    requires i < |events| && events[i].Tool? && e.Tool?
    ensures Said(events[i := e], a) == Said(events, a)
  {
    if i < |events| - 1 {
      SaidFolded(Init(events), i, e, a);
      assert Init(events[i := e]) == Init(events)[i := e];
    } else {
      assert Init(events[i := e]) == Init(events);
    }
  }

  /** The buffers hold exactly what is open. */
  ghost predicate Buffers(s: State, lines: seq<Line>) {
    && (forall a :: a in s.text <==> Open(lines, a) != "")
    && (forall a :: a in s.text ==> s.text[a] == Open(lines, a))
  }

  ghost predicate OrderOk(s: State) {
    && (forall a :: a in s.order <==> a in s.text)
    && (forall i, j :: 0 <= i < j < |s.order| ==> s.order[i] != s.order[j])
  }

  lemma {:induction false} RemoveDistinct(order: seq<AgentId>, a: AgentId)
    requires forall i, j :: 0 <= i < j < |order| ==> order[i] != order[j]
    ensures var r := Remove(order, a); forall i, j :: 0 <= i < j < |r| ==> r[i] != r[j]
  {
    if order != [] {
      RemoveDistinct(Init(order), a);
      RemoveMembers(Init(order), a);
      assert Last(order) !in Init(order) && Last(order) !in Remove(Init(order), a);
      assert order[|order| - 1] == Last(order);
    }
  }

  lemma FlushedOrder(blank: Blank, s: State, a: AgentId)
    requires OrderOk(s)
    ensures OrderOk(Flushed(blank, s, a))
  {
    RemoveMembers(s.order, a);
    RemoveDistinct(s.order, a);
  }

  lemma FlushedSays(blank: Blank, s: State, a: AgentId, b: AgentId)
    ensures Said(Flushed(blank, s, a).events, b)
         == Said(s.events, b) + if a == b && a in s.text then NonBlank(blank, s.text[a]) else []
  {
    var more := FlushEvents(blank, s, a);
    if a in s.text {
      SaidAppend(s.events, more, b);
      if more != [] { SaidOne(more[0], b); }
    }
  }

  /** One line: what is said, what is buffered and what is pointed at all keep up. */
  lemma BuffersStep(blank: Blank, s: State, lines: seq<Line>, line: Line)
    requires Buffers(s, lines)
    ensures Buffers(Step(blank, s, line), lines + [line])
  {
    assert Init(lines + [line]) == lines;
  }

  lemma OrderStep(blank: Blank, s: State, line: Line)
    requires OrderOk(s)
    ensures OrderOk(Step(blank, s, line))
  {
    match line
    case ToolUseStart(a, _, _) => FlushedOrder(blank, s, a);
    case MessageStop(a, _) => FlushedOrder(blank, s, a);
    case _ =>
  }

  lemma PointStep(blank: Blank, s: State, line: Line)
    requires ToolsPoint(s)
    ensures ToolsPoint(Step(blank, s, line))
  {
  }

  /** A cut says what was open, any other line only what it sends directly. */
  lemma SaysOne(blank: Blank, lines: seq<Line>, line: Line, a: AgentId)
    ensures Says(blank, lines + [line], a)
         == Says(blank, lines, a)
            + (if Cuts(line, a) then NonBlank(blank, Open(lines, a))
               else if line.Direct? && line.from == a then [line.content] else [])
  {
    assert Init(lines + [line]) == lines;
  }

  lemma CutStep(blank: Blank, s: State, lines: seq<Line>, line: Line, a: AgentId)
    requires line.ToolUseStart? || line.MessageStop?
    requires Buffers(s, lines)
    ensures Said(Step(blank, s, line).events, a)
         == Said(s.events, a) + if Cuts(line, a) then NonBlank(blank, Open(lines, a)) else []
  {
    var f := Flushed(blank, s, line.agent);
    var e := if line.ToolUseStart? then Tool(|f.events|, line.name, line.agent, None, false) else Llm(|f.events|, line.agent, line.usage);
    CutSays(blank, s, line.agent, a, e);
    assert Step(blank, s, line).events == f.events + [e];
    assert IsBlank(blank, "");
  }

  lemma OtherStep(blank: Blank, s: State, line: Line, a: AgentId)
    requires !line.ToolUseStart? && !line.MessageStop? && ToolsPoint(s)
    ensures Said(Step(blank, s, line).events, a)
         == Said(s.events, a) + if line.Direct? && line.from == a then [line.content] else []
  {
    match line
    case ToolResult(_, useId, output, isError) => ResultSays(s, useId, output, isError, a);
    case Direct(from, to, content) => DirectSays(s.events, Message(|s.events|, from, to, content), a);
    case _ =>
  }

  lemma SaysStep(blank: Blank, s: State, lines: seq<Line>, line: Line, a: AgentId)
    requires Buffers(s, lines) && ToolsPoint(s) && Said(s.events, a) == Says(blank, lines, a)
    ensures Said(Step(blank, s, line).events, a) == Says(blank, lines + [line], a)
  {
    SaysOne(blank, lines, line, a);
    if line.ToolUseStart? || line.MessageStop? {
      CutStep(blank, s, lines, line, a);
    } else {
      OtherStep(blank, s, line, a);
    }
  }

  lemma ResultSays(s: State, useId: Option<string>, output: Option<string>, isError: bool, a: AgentId)
    requires ToolsPoint(s)
    ensures Said(Answered(s, useId, output, isError).events, a) == Said(s.events, a)
  {
    if useId.Some? && useId.value in s.tools {
      var i := s.tools[useId.value];
      SaidFolded(s.events, i, Folded(s.events[i], output, isError), a);
    }
  }

  lemma DirectSays(events: seq<TraceEvent>, e: TraceEvent, a: AgentId)
    ensures Said(events + [e], a) == Said(events, a) + if e.Message? && e.from == a then [e.content] else []
  {
    SaidAppend(events, [e], a);
    SaidOne(e, a);
  }

  lemma CutSays(blank: Blank, s: State, b: AgentId, a: AgentId, e: TraceEvent)
    requires !e.Message?
    ensures Said(Flushed(blank, s, b).events + [e], a)
         == Said(s.events, a) + if a == b && a in s.text then NonBlank(blank, s.text[a]) else []
  {
    FlushedSays(blank, s, b, a);
    SaidAppend(Flushed(blank, s, b).events, [e], a);
    SaidOne(e, a);
  }

  lemma {:induction false} RunSays(blank: Blank, lines: seq<Line>, a: AgentId)
    ensures var s := Run(blank, lines);
            Buffers(s, lines) && ToolsPoint(s) && OrderOk(s) && Said(s.events, a) == Says(blank, lines, a)
  {
    if lines != [] {
      var s := Run(blank, Init(lines));
      RunSays(blank, Init(lines), a);
      assert Init(lines) + [Last(lines)] == lines;
      BuffersStep(blank, s, Init(lines), Last(lines));
      PointStep(blank, s, Last(lines));
      OrderStep(blank, s, Last(lines));
      SaysStep(blank, s, Init(lines), Last(lines), a);
    }
  }

  lemma {:induction false} TrailingSays(blank: Blank, s: State, agents: seq<AgentId>, a: AgentId)
    requires forall i, j :: 0 <= i < j < |agents| ==> agents[i] != agents[j]
    ensures var t := FlushEach(blank, s, agents);
            && Said(t.events, a) == Said(s.events, a) + (if a in agents && a in s.text then NonBlank(blank, s.text[a]) else [])
            && (a !in agents ==> (a in t.text <==> a in s.text) && (a in s.text ==> t.text[a] == s.text[a]))
  {
    if agents != [] {
      TrailingSays(blank, s, Init(agents), a);
      FlushedSays(blank, FlushEach(blank, s, Init(agents)), Last(agents), a);
      MemberOfInit(agents, a);
    }
  }

  lemma MemberOfInit(agents: seq<AgentId>, a: AgentId)
    requires agents != [] && forall i, j :: 0 <= i < j < |agents| ==> agents[i] != agents[j]
    ensures a in agents <==> a in Init(agents) || a == Last(agents)
    ensures Last(agents) !in Init(agents)
  {
    assert agents == Init(agents) + [Last(agents)];
  }

  /**
   * Main result: for every agent and every interleaving, its messages in the trajectory are its text cut exactly at its
   * own tool starts, message stops and the end, white-space pieces left out, with its direct messages in place.
   */
  lemma AgentSays(blank: Blank, lines: seq<Line>, a: AgentId)
    ensures Said(Trajectory(blank, lines), a) == Says(blank, lines, a) + NonBlank(blank, Open(lines, a))
  {
    var s := Run(blank, lines);
    RunSays(blank, lines, a);
    TrailingSays(blank, s, s.order, a);
    assert IsBlank(blank, "");
  }

  /** Without direct messages, what is said is the pieces, in order. */
  lemma {:induction false} SaysPieces(blank: Blank, lines: seq<Line>, a: AgentId)
    requires forall line :: line in lines ==> !(line.Direct? && line.from == a)
    ensures Says(blank, lines, a) == Filter(Closed(lines, a), (s: string) => !IsBlank(blank, s))
  {
    if lines != [] {
      SaysPieces(blank, Init(lines), a);
      assert Last(lines) in lines;
      if Cuts(Last(lines), a) {
        assert Init(Closed(lines, a)) == Closed(Init(lines), a);
      } else {
        assert Closed(lines, a) == Closed(Init(lines), a);
      }
    }
  }

  // ---------- where each result lands ----------

  /** The latest start of a tool-use id. */
  function LatestStart(lines: seq<Line>, id: string): Option<nat> {
    if lines == [] then None
    else if Last(lines).ToolUseStart? && Last(lines).id == Some(id) then Some(|lines| - 1)
    else LatestStart(Init(lines), id)
  }

  datatype Outcome = Outcome(output: Option<string>, isError: bool)

  /** A tool's outcome: the results for its id while it is the latest start of that id. */
  function OutcomeOf(lines: seq<Line>, k: nat): Outcome
    requires k < |lines| && lines[k].ToolUseStart?
  {
    if k == |lines| - 1 then Outcome(None, false)
    else
      var before, line := OutcomeOf(Init(lines), k), Last(lines);
      if line.ToolResult? && line.useId.Some? && line.useId == lines[k].id && LatestStart(Init(lines), line.useId.value) == Some(k)
      then Outcome(if line.output.Some? then line.output else before.output, before.isError || line.isError)
      else before
  }

  /** The position that the k-th line's tool event takes. */
  function Position(blank: Blank, lines: seq<Line>, k: nat): nat
    requires k < |lines| && lines[k].ToolUseStart?
  {
    |Flushed(blank, Run(blank, lines[..k]), lines[k].agent).events|
  }

  lemma StepGrows(blank: Blank, s: State, line: Line)
    ensures |s.events| <= |Step(blank, s, line).events|
  {
  }

  lemma {:induction false} EventsGrow(blank: Blank, lines: seq<Line>, k: nat)
    requires k <= |lines|
    ensures |Run(blank, lines[..k]).events| <= |Run(blank, lines).events|
  {
    if k < |lines| {
      EventsGrow(blank, Init(lines), k);
      StepGrows(blank, Run(blank, Init(lines)), Last(lines));
      assert Init(lines)[..k] == lines[..k];
    } else {
      assert lines[..k] == lines;
    }
  }

  lemma PositionInit(blank: Blank, lines: seq<Line>, k: nat)
    requires k < |lines| - 1 && lines[k].ToolUseStart?
    ensures Position(blank, Init(lines), k) == Position(blank, lines, k)
  {
    assert Init(lines)[..k] == lines[..k];
  }

  lemma PositionsRise(blank: Blank, lines: seq<Line>, k: nat, m: nat)
    requires k < m < |lines| && lines[k].ToolUseStart? && lines[m].ToolUseStart?
    ensures Position(blank, lines, k) < Position(blank, lines, m)
  {
    assert Init(lines[..k + 1]) == lines[..k] && Last(lines[..k + 1]) == lines[k];
    assert |Run(blank, lines[..k + 1]).events| == Position(blank, lines, k) + 1;
    EventsGrow(blank, lines[..m], k + 1);
    assert lines[..m][..k + 1] == lines[..k + 1];
  }

  lemma {:induction false} LatestIsStart(lines: seq<Line>, id: string)
    ensures LatestStart(lines, id).Some? ==>
              LatestStart(lines, id).value < |lines| && lines[LatestStart(lines, id).value].ToolUseStart?
              && lines[LatestStart(lines, id).value].id == Some(id)
  {
    if lines != [] {
      LatestIsStart(Init(lines), id);
    }
  }

  /** The index points at the latest start of each id. */
  ghost predicate Pointed(blank: Blank, lines: seq<Line>, id: string) {
    var tools, latest := Run(blank, lines).tools, LatestStart(lines, id);
    && (id in tools <==> latest.Some?)
    && (latest.Some? ==> latest.value < |lines| && lines[latest.value].ToolUseStart?
                         && tools[id] == Position(blank, lines, latest.value))
  }

  lemma {:induction false} AllPointed(blank: Blank, lines: seq<Line>, id: string)
    ensures Pointed(blank, lines, id)
  {
    if lines != [] {
      AllPointed(blank, Init(lines), id);
      LatestIsStart(Init(lines), id);
      var latest := LatestStart(Init(lines), id);
      if latest.Some? { PositionInit(blank, lines, latest.value); }
      assert lines[..|lines| - 1] == Init(lines);
    }
  }

  /** The event that the k-th line's tool start became, with its outcome. */
  function ToolEvent(blank: Blank, lines: seq<Line>, k: nat): TraceEvent
    requires k < |lines| && lines[k].ToolUseStart?
  {
    var at, o := Position(blank, lines, k), OutcomeOf(lines, k);
    Tool(at, lines[k].name, lines[k].agent, o.output, o.isError)
  }

  ghost predicate Landed(blank: Blank, lines: seq<Line>, k: nat)
    requires k < |lines| && lines[k].ToolUseStart?
  {
    var events, at := Run(blank, lines).events, Position(blank, lines, k);
    at < |events| && events[at] == ToolEvent(blank, lines, k)
  }

  lemma StartLands(blank: Blank, lines: seq<Line>)
    requires lines != [] && Last(lines).ToolUseStart?
    ensures Landed(blank, lines, |lines| - 1)
  {
    assert lines[..|lines| - 1] == Init(lines);
  }

  lemma ResultLands(blank: Blank, lines: seq<Line>, k: nat)
    requires k < |lines| - 1 && lines[k].ToolUseStart? && Last(lines).ToolResult?
    requires Landed(blank, Init(lines), k)
    ensures Landed(blank, lines, k)
  {
    var before, line := Init(lines), Last(lines);
    PositionInit(blank, lines, k);
    if line.useId.Some? {
      AllPointed(blank, before, line.useId.value);
      LatestIsStart(before, line.useId.value);
      var latest := LatestStart(before, line.useId.value);
      if latest.Some? {
        var m := latest.value;
        if m < k { PositionsRise(blank, before, m, k); }
        if k < m { PositionsRise(blank, before, k, m); }
      }
    }
  }

  lemma OthersKeep(blank: Blank, lines: seq<Line>, k: nat)
    requires k < |lines| - 1 && lines[k].ToolUseStart? && !Last(lines).ToolResult?
    requires Landed(blank, Init(lines), k)
    ensures Landed(blank, lines, k)
  {
    PositionInit(blank, lines, k);
    assert Run(blank, Init(lines)).events <= Run(blank, lines).events;
  }

  lemma {:induction false} RunLands(blank: Blank, lines: seq<Line>, k: nat)
    requires k < |lines| && lines[k].ToolUseStart?
    ensures Landed(blank, lines, k)
  {
    if k == |lines| - 1 {
      StartLands(blank, lines);
    } else {
      RunLands(blank, Init(lines), k);
      if Last(lines).ToolResult? { ResultLands(blank, lines, k); } else { OthersKeep(blank, lines, k); }
    }
  }

  lemma {:induction false} FlushEachAppends(blank: Blank, s: State, agents: seq<AgentId>)
    ensures s.events <= FlushEach(blank, s, agents).events
  {
    if agents != [] {
      FlushEachAppends(blank, s, Init(agents));
    }
  }

  /**
   * Main result: every tool start has its own event, and that event carries exactly the results for its id that arrive
   * while it is the latest start of that id.
   */
  lemma ResultsLandOnTheirTool(blank: Blank, lines: seq<Line>, k: nat)
    requires k < |lines| && lines[k].ToolUseStart?
    ensures var events, at := Trajectory(blank, lines), Position(blank, lines, k);
            at < |events| && events[at] == ToolEvent(blank, lines, k)
  {
    RunLands(blank, lines, k);
    FlushEachAppends(blank, Run(blank, lines), Run(blank, lines).order);
  }

  /** All the results for the k-th line's id after it. */
  function AllResults(lines: seq<Line>, k: nat): Outcome
    requires k < |lines| && lines[k].ToolUseStart?
  {
    if k == |lines| - 1 then Outcome(None, false)
    else
      var before, line := AllResults(Init(lines), k), Last(lines);
      if line.ToolResult? && line.useId.Some? && line.useId == lines[k].id
      then Outcome(if line.output.Some? then line.output else before.output, before.isError || line.isError)
      else before
  }

  lemma {:induction false} OnlyStart(lines: seq<Line>, k: nat, id: string)
    requires k < |lines| && lines[k].ToolUseStart? && lines[k].id == Some(id)
    requires forall j :: k < j < |lines| && lines[j].ToolUseStart? ==> lines[j].id != Some(id)
    ensures LatestStart(lines, id) == Some(k)
  {
    if k < |lines| - 1 {
      OnlyStart(Init(lines), k, id);
    }
  }

  /** With ids used once, a tool gets every result for its id. */
  lemma {:induction false} UniqueIdGetsAll(lines: seq<Line>, k: nat)
    requires k < |lines| && lines[k].ToolUseStart?
    requires forall j :: k < j < |lines| && lines[j].ToolUseStart? && lines[j].id.Some? ==> lines[j].id != lines[k].id
    ensures OutcomeOf(lines, k) == AllResults(lines, k)
  {
    if k < |lines| - 1 {
      UniqueIdGetsAll(Init(lines), k);
      if lines[k].id.Some? { OnlyStart(Init(lines), k, lines[k].id.value); }
    }
  }
}
