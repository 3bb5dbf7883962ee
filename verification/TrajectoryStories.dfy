/**
 * The order of a reassembled trajectory: each agent's own story, the order between agents, and the text that is left over
 * at the end (legacy/eval/harness/swarm-coordinator-adapter.ts:189-282).
 */
module TrajectoryStories {
  import opened Basics
  import opened LaneTrajectory
  import opened TrajectoryLaws

  // ---------- one agent's story ----------

  /** What an agent does, in its own words: it says something, uses a tool, or ends a turn at some cost. */
  datatype Deed = Say(to: Option<AgentId>, content: string) | Use(name: string) | Turn(usage: Usage)

  function ActorOf(e: TraceEvent): AgentId {
    match e
    case Message(_, from, _, _) => from
    case Tool(_, _, agentId, _, _) => agentId
    case Llm(_, model, _) => model
  }

  function DeedOf(e: TraceEvent): Deed {
    match e
    case Message(_, _, to, content) => Say(to, content)
    case Tool(_, name, _, _, _) => Use(name)
    case Llm(_, _, usage) => Turn(usage)
  }

  /** An agent's events in a trajectory. */
  function Deeds(events: seq<TraceEvent>, a: AgentId): seq<Deed> {
    if events == [] then []
    else Deeds(Init(events), a) + if ActorOf(Last(events)) == a then [DeedOf(Last(events))] else []
  }

  function Sayings(blank: Blank, text: string): seq<Deed> {
    if IsBlank(blank, text) then [] else [Say(None, text)]
  }

  /** What one line adds to an agent's story, given its text since its last cut. */
  function Chapter(blank: Blank, open: string, line: Line, a: AgentId): seq<Deed> {
    match line
    case ToolUseStart(b, name, _) => if b == a then Sayings(blank, open) + [Use(name)] else []
    case MessageStop(b, usage) => if b == a then Sayings(blank, open) + [Turn(usage)] else []
    case Direct(from, to, content) => if from == a then [Say(to, content)] else []
    case _ => []
  }

  /** The story that an agent's lines tell. */
  function Story(blank: Blank, lines: seq<Line>, a: AgentId): seq<Deed> {
    if lines == [] then [] else Story(blank, Init(lines), a) + Chapter(blank, Open(Init(lines), a), Last(lines), a)
  }

  lemma {:induction false} DeedsAppend(xs: seq<TraceEvent>, ys: seq<TraceEvent>, a: AgentId)
    ensures Deeds(xs + ys, a) == Deeds(xs, a) + Deeds(ys, a)
  {
    if ys == [] {
      assert xs + ys == xs;
    } else {
      DeedsAppend(xs, Init(ys), a);
      AppendLast(xs, ys);
    }
  }

  lemma DeedsOne(e: TraceEvent, a: AgentId)
    ensures Deeds([e], a) == if ActorOf(e) == a then [DeedOf(e)] else []
  {
    assert Init([e]) == [];
  }

  lemma {:induction false} DeedsFolded(events: seq<TraceEvent>, i: nat, e: TraceEvent, a: AgentId)
    requires i < |events| && ActorOf(events[i]) == ActorOf(e) && DeedOf(events[i]) == DeedOf(e)
    ensures Deeds(events[i := e], a) == Deeds(events, a)
  {
    if i < |events| - 1 {
      DeedsFolded(Init(events), i, e, a);
      assert Init(events[i := e]) == Init(events)[i := e];
    } else {
      assert Init(events[i := e]) == Init(events);
    }
  }

  lemma FlushedDeeds(blank: Blank, s: State, b: AgentId, a: AgentId)
    ensures Deeds(Flushed(blank, s, b).events, a)
         == Deeds(s.events, a) + if a == b && a in s.text then Sayings(blank, s.text[a]) else []
  {
    if b in s.text {
      var more := FlushEvents(blank, s, b);
      DeedsAppend(s.events, more, a);
      if more != [] { DeedsOne(more[0], a); }
    }
  }

  lemma PushedDeeds(blank: Blank, s: State, b: AgentId, e: TraceEvent, a: AgentId)
    requires ActorOf(e) == b
    ensures Deeds(Flushed(blank, s, b).events + [e], a)
         == Deeds(s.events, a) + if a == b then (if a in s.text then Sayings(blank, s.text[a]) else []) + [DeedOf(e)] else []
  {
    var held := if a == b && a in s.text then Sayings(blank, s.text[a]) else [];
    FlushedDeeds(blank, s, b, a);
    DirectDeeds(Flushed(blank, s, b).events, e, a);
    if a == b { Assoc(Deeds(s.events, a), held, [DeedOf(e)]); }
  }

  lemma AnsweredDeeds(s: State, useId: Option<string>, output: Option<string>, isError: bool, a: AgentId)
    requires ToolsPoint(s)
    ensures Deeds(Answered(s, useId, output, isError).events, a) == Deeds(s.events, a)
  {
    if useId.Some? && useId.value in s.tools {
      var i := s.tools[useId.value];
      DeedsFolded(s.events, i, Folded(s.events[i], output, isError), a);
    }
  }

  lemma OpenSayings(blank: Blank, s: State, lines: seq<Line>, a: AgentId)
    requires Buffers(s, lines)
    ensures (if a in s.text then Sayings(blank, s.text[a]) else []) == Sayings(blank, Open(lines, a))
  {
    assert IsBlank(blank, "");
  }

  lemma StepDeeds(blank: Blank, s: State, lines: seq<Line>, line: Line, a: AgentId)
    requires Buffers(s, lines) && ToolsPoint(s)
    ensures Deeds(Step(blank, s, line).events, a) == Deeds(s.events, a) + Chapter(blank, Open(lines, a), line, a)
  {
    if line.ToolUseStart? || line.MessageStop? {
      CutStepDeeds(blank, s, lines, line, a);
    } else if line.Direct? {
      DirectDeeds(s.events, Message(|s.events|, line.from, line.to, line.content), a);
    } else {
      QuietDeeds(blank, s, line, a);
    }
  }

  lemma CutStepDeeds(blank: Blank, s: State, lines: seq<Line>, line: Line, a: AgentId)
    requires Buffers(s, lines) && (line.ToolUseStart? || line.MessageStop?)
    ensures Deeds(Step(blank, s, line).events, a) == Deeds(s.events, a) + Chapter(blank, Open(lines, a), line, a)
  {
    var at := |Flushed(blank, s, line.agent).events|;
    var e := if line.ToolUseStart? then Tool(at, line.name, line.agent, None, false) else Llm(at, line.agent, line.usage);
    CutDeeds(blank, s, lines, line, e, a);
    assert Step(blank, s, line).events == Flushed(blank, s, line.agent).events + [e];
  }

  /** Text is held back, and a result only fills in what is there. */
  lemma QuietDeeds(blank: Blank, s: State, line: Line, a: AgentId)
    requires ToolsPoint(s) && (line.TextDelta? || line.ToolResult? || line.Other?)
    ensures Deeds(Step(blank, s, line).events, a) == Deeds(s.events, a) && Deeds(s.events, a) + [] == Deeds(s.events, a)
  {
    if line.ToolResult? { AnsweredDeeds(s, line.useId, line.output, line.isError, a); }
  }

  lemma DirectDeeds(events: seq<TraceEvent>, e: TraceEvent, a: AgentId)
    ensures Deeds(events + [e], a) == Deeds(events, a) + if ActorOf(e) == a then [DeedOf(e)] else []
  {
    DeedsAppend(events, [e], a);
    DeedsOne(e, a);
  }

  lemma CutDeeds(blank: Blank, s: State, lines: seq<Line>, line: Line, e: TraceEvent, a: AgentId)
    requires Buffers(s, lines) && (line.ToolUseStart? || line.MessageStop?)
    requires ActorOf(e) == line.agent && DeedOf(e) == (if line.ToolUseStart? then Use(line.name) else Turn(line.usage))
    ensures Deeds(Flushed(blank, s, line.agent).events + [e], a) == Deeds(s.events, a) + Chapter(blank, Open(lines, a), line, a)
  {
    OpenSayings(blank, s, lines, a);
    PushedDeeds(blank, s, line.agent, e, a);
  }

  lemma {:induction false} RunDeeds(blank: Blank, lines: seq<Line>, a: AgentId)
    ensures Deeds(Run(blank, lines).events, a) == Story(blank, lines, a)
  {
    if lines != [] {
      RunDeeds(blank, Init(lines), a);
      RunSays(blank, Init(lines), a);
      StepDeeds(blank, Run(blank, Init(lines)), Init(lines), Last(lines), a);
    }
  }

  lemma {:induction false} TrailingDeeds(blank: Blank, s: State, agents: seq<AgentId>, a: AgentId)
    requires forall i, j :: 0 <= i < j < |agents| ==> agents[i] != agents[j]
    ensures var t := FlushEach(blank, s, agents);
            && Deeds(t.events, a) == Deeds(s.events, a) + (if a in agents && a in s.text then Sayings(blank, s.text[a]) else [])
            && (a !in agents ==> (a in t.text <==> a in s.text) && (a in s.text ==> t.text[a] == s.text[a]))
  {
    if agents != [] {
      TrailingDeeds(blank, s, Init(agents), a);
      FlushedDeeds(blank, FlushEach(blank, s, Init(agents)), Last(agents), a);
      MemberOfInit(agents, a);
    }
  }

  /**
   * Main result: whatever the interleaving, an agent's events in the trajectory are its own story, in its own order: its text
   * before each tool it uses and each turn it ends, those tools and turns by name and cost, its direct messages with
   * their addressees, and what text is left at the end.
   */
  lemma AgentStory(blank: Blank, lines: seq<Line>, a: AgentId)
    ensures Deeds(Trajectory(blank, lines), a) == Story(blank, lines, a) + Sayings(blank, Open(lines, a))
  {
    var s := Run(blank, lines);
    RunDeeds(blank, lines, a);
    RunSays(blank, lines, a);
    TrailingDeeds(blank, s, s.order, a);
    OpenSayings(blank, s, lines, a);
  }

  // ---------- the order between agents ----------

  /** Events that a line makes at once, and not text that was held back. */
  function IsMark(): TraceEvent -> bool {
    (e: TraceEvent) => e.Tool? || e.Llm? || (e.Message? && e.to.Some?)
  }

  function MakesMark(): Line -> bool {
    (line: Line) => line.ToolUseStart? || line.MessageStop? || (line.Direct? && line.to.Some?)
  }

  /** The event is the line's. */
  predicate Marks(e: TraceEvent, line: Line) {
    match line
    case ToolUseStart(a, name, _) => e.Tool? && e.name == name && e.agentId == a
    case MessageStop(a, usage) => e.Llm? && e.model == a && e.usage == usage
    case Direct(from, to, content) => e.Message? && e.from == from && e.to == to && e.content == content
    case _ => false
  }

  ghost predicate AllMark(events: seq<TraceEvent>, lines: seq<Line>) {
    |events| == |lines| && forall k :: 0 <= k < |events| ==> Marks(events[k], lines[k])
  }

  lemma FlushedMarks(blank: Blank, s: State, a: AgentId)
    ensures Filter(Flushed(blank, s, a).events, IsMark()) == Filter(s.events, IsMark())
  {
    if a in s.text {
      var more := FlushEvents(blank, s, a);
      FilterSplit(s.events, more, IsMark());
      FilterNone(more, IsMark());
    }
  }

  lemma {:induction false} FoldedMarks(events: seq<TraceEvent>, i: nat, e: TraceEvent, lines: seq<Line>)
    requires i < |events| && events[i].Tool? && e.Tool? && e.name == events[i].name && e.agentId == events[i].agentId
    requires AllMark(Filter(events, IsMark()), lines)
    ensures AllMark(Filter(events[i := e], IsMark()), lines)
  {
    if i == |events| - 1 {
      assert Init(events[i := e]) == Init(events);
    } else {
      var kept := Filter(Init(events), IsMark());
      assert Init(events[i := e]) == Init(events)[i := e] && Last(events[i := e]) == Last(events);
      assert Filter(events, IsMark()) == kept + if IsMark()(Last(events)) then [Last(events)] else [];
      FoldedMarks(Init(events), i, e, lines[..|kept|]);
    }
  }

  lemma OneMark(events: seq<TraceEvent>, lines: seq<Line>, e: TraceEvent, line: Line)
    requires AllMark(Filter(events, IsMark()), Filter(lines, MakesMark())) && IsMark()(e) == MakesMark()(line)
    requires MakesMark()(line) ==> Marks(e, line)
    ensures AllMark(Filter(events + [e], IsMark()), Filter(lines + [line], MakesMark()))
  {
    FilterLast(events, e, IsMark());
    FilterLast(lines, line, MakesMark());
  }

  lemma StepMarks(blank: Blank, s: State, lines: seq<Line>, line: Line)
    requires ToolsPoint(s) && AllMark(Filter(s.events, IsMark()), Filter(lines, MakesMark()))
    ensures AllMark(Filter(Step(blank, s, line).events, IsMark()), Filter(lines + [line], MakesMark()))
  {
    match line
    case ToolUseStart(b, name, _) => CutMarks(blank, s, lines, line, Tool(|Flushed(blank, s, b).events|, name, b, None, false));
    case MessageStop(b, usage) => CutMarks(blank, s, lines, line, Llm(|Flushed(blank, s, b).events|, b, usage));
    case Direct(from, to, content) => OneMark(s.events, lines, Message(|s.events|, from, to, content), line);
    case ToolResult(_, useId, output, isError) =>
      FilterLast(lines, line, MakesMark());
      AnsweredMarks(s, Filter(lines, MakesMark()), useId, output, isError);
    case _ => FilterLast(lines, line, MakesMark());
  }

  lemma CutMarks(blank: Blank, s: State, lines: seq<Line>, line: Line, e: TraceEvent)
    requires AllMark(Filter(s.events, IsMark()), Filter(lines, MakesMark()))
    requires (line.ToolUseStart? || line.MessageStop?) && Marks(e, line)
    ensures AllMark(Filter(Flushed(blank, s, line.agent).events + [e], IsMark()), Filter(lines + [line], MakesMark()))
  {
    FlushedMarks(blank, s, line.agent);
    OneMark(Flushed(blank, s, line.agent).events, lines, e, line);
  }

  lemma AnsweredMarks(s: State, lines: seq<Line>, useId: Option<string>, output: Option<string>, isError: bool)
    requires ToolsPoint(s) && AllMark(Filter(s.events, IsMark()), lines)
    ensures AllMark(Filter(Answered(s, useId, output, isError).events, IsMark()), lines)
  {
    if useId.Some? && useId.value in s.tools {
      var i := s.tools[useId.value];
      FoldedMarks(s.events, i, Folded(s.events[i], output, isError), lines);
    }
  }

  lemma {:induction false} RunMarks(blank: Blank, lines: seq<Line>)
    ensures AllMark(Filter(Run(blank, lines).events, IsMark()), Filter(lines, MakesMark())) && ToolsPoint(Run(blank, lines))
  {
    if lines != [] {
      RunMarks(blank, Init(lines));
      StepMarks(blank, Run(blank, Init(lines)), Init(lines), Last(lines));
      PointStep(blank, Run(blank, Init(lines)), Last(lines));
      InitLast(lines);
    }
  }

  lemma {:induction false} TrailingMarks(blank: Blank, s: State, agents: seq<AgentId>)
    ensures Filter(FlushEach(blank, s, agents).events, IsMark()) == Filter(s.events, IsMark())
  {
    if agents != [] {
      TrailingMarks(blank, s, Init(agents));
      FlushedMarks(blank, FlushEach(blank, s, Init(agents)), Last(agents));
    }
  }

  /** Main result: the tools, turns and addressed messages of all agents stand in the order of their lines. */
  lemma MarksInOrder(blank: Blank, lines: seq<Line>)
    ensures AllMark(Filter(Trajectory(blank, lines), IsMark()), Filter(lines, MakesMark()))
  {
    RunMarks(blank, lines);
    TrailingMarks(blank, Run(blank, lines), Run(blank, lines).order);
  }

  // ---------- the text that is left at the end ----------

  /** When the text that an agent has open began. */
  function BeganAt(lines: seq<Line>, a: AgentId): nat {
    if lines == [] then 0
    else if Open(Init(lines), a) == "" then |lines| - 1
    else BeganAt(Init(lines), a)
  }

  /** The agents with open text, by when it began. */
  ghost predicate ByBeginning(lines: seq<Line>, order: seq<AgentId>) {
    forall i, j :: 0 <= i < j < |order| ==> BeganAt(lines, order[i]) < BeganAt(lines, order[j])
  }

  lemma {:induction false} BeganBefore(lines: seq<Line>, a: AgentId)
    requires Open(lines, a) != ""
    ensures BeganAt(lines, a) < |lines|
  {
    if Open(Init(lines), a) != "" { BeganBefore(Init(lines), a); }
  }

  lemma {:induction false} RemovedByBeginning(lines: seq<Line>, order: seq<AgentId>, a: AgentId)
    requires ByBeginning(lines, order)
    ensures ByBeginning(lines, Remove(order, a))
  {
    if order != [] {
      RemovedByBeginning(lines, Init(order), a);
      RemoveMembers(Init(order), a);
      assert forall x :: x in Init(order) ==> BeganAt(lines, x) < BeganAt(lines, Last(order));
    }
  }

  /** Agents whose text stays open keep their beginning. */
  lemma SameBeginning(lines: seq<Line>, line: Line, order: seq<AgentId>)
    requires ByBeginning(lines, order) && forall a :: a in order ==> Open(lines, a) != ""
    ensures ByBeginning(lines + [line], order)
  {
    assert Init(lines + [line]) == lines;
    assert forall a :: a in order ==> BeganAt(lines + [line], a) == BeganAt(lines, a);
  }

  lemma StepByBeginning(blank: Blank, s: State, lines: seq<Line>, line: Line)
    requires Buffers(s, lines) && OrderOk(s) && ByBeginning(lines, s.order)
    ensures ByBeginning(lines + [line], Step(blank, s, line).order)
  {
    SameBeginning(lines, line, s.order);
    assert Init(lines + [line]) == lines;
    match line
    case ToolUseStart(b, _, _) => RemovedByBeginning(lines + [line], s.order, b);
    case MessageStop(b, _) => RemovedByBeginning(lines + [line], s.order, b);
    case TextDelta(b, t) =>
      forall x | x in s.order ensures BeganAt(lines + [line], x) < |lines| { BeganBefore(lines, x); }
      assert b !in s.order ==> BeganAt(lines + [line], b) == |lines|;
    case _ =>
  }

  lemma {:induction false} RunByBeginning(blank: Blank, lines: seq<Line>)
    ensures ByBeginning(lines, Run(blank, lines).order)
  {
    if lines != [] {
      RunByBeginning(blank, Init(lines));
      RunSays(blank, Init(lines), "");
      StepByBeginning(blank, Run(blank, Init(lines)), Init(lines), Last(lines));
      InitLast(lines);
    }
  }

  /** The leftover texts of some agents, in order. */
  function Leftover(blank: Blank, lines: seq<Line>, agents: seq<AgentId>): seq<Deed> {
    if agents == [] then [] else Leftover(blank, lines, Init(agents)) + Sayings(blank, Open(lines, Last(agents)))
  }

  /** The deeds of everybody, in order. */
  function AllDeeds(events: seq<TraceEvent>): seq<Deed> {
    seq(|events|, i requires 0 <= i < |events| => DeedOf(events[i]))
  }

  lemma {:induction false} FlushedInTurn(blank: Blank, s: State, lines: seq<Line>, agents: seq<AgentId>)
    requires Buffers(s, lines) && forall i, j :: 0 <= i < j < |agents| ==> agents[i] != agents[j]
    ensures var t := FlushEach(blank, s, agents);
            && AllDeeds(t.events) == AllDeeds(s.events) + Leftover(blank, lines, agents)
            && forall a :: a !in agents ==> (a in t.text <==> a in s.text) && (a in s.text ==> t.text[a] == s.text[a])
  {
    if agents != [] {
      var t, a := FlushEach(blank, s, Init(agents)), Last(agents);
      FlushedInTurn(blank, s, lines, Init(agents));
      MemberOfInit(agents, a);
      OneInTurn(blank, s, t, lines, a);
      assert forall b :: b !in agents ==> b !in Init(agents) && b != a;
      Assoc(AllDeeds(s.events), Leftover(blank, lines, Init(agents)), Sayings(blank, Open(lines, a)));
    }
  }

  lemma OneInTurn(blank: Blank, s: State, t: State, lines: seq<Line>, a: AgentId)
    requires Buffers(s, lines) && (a in t.text <==> a in s.text) && (a in s.text ==> t.text[a] == s.text[a])
    ensures AllDeeds(Flushed(blank, t, a).events) == AllDeeds(t.events) + Sayings(blank, Open(lines, a))
  {
    OpenSayings(blank, s, lines, a);
  }

  /** Main result: the leftover texts close the trajectory, in the order in which they began. */
  lemma LeftoversCloseIt(blank: Blank, lines: seq<Line>) returns (order: seq<AgentId>)
    ensures ByBeginning(lines, order) && forall a :: a in order <==> Open(lines, a) != ""
    ensures AllDeeds(Trajectory(blank, lines)) == AllDeeds(Run(blank, lines).events) + Leftover(blank, lines, order)
  {
    var s := Run(blank, lines);
    order := s.order;
    RunByBeginning(blank, lines);
    RunSays(blank, lines, "");
    FlushedInTurn(blank, s, lines, order);
  }
}
