/**
 * Reassembling one trajectory from the lane events of many agents
 * (legacy/eval/harness/swarm-coordinator-adapter.ts:189-282).
 */
module LaneTrajectory {
  import opened Basics

  type AgentId = string

  datatype Usage = Usage(inputTokens: real, outputTokens: real, cacheReadTokens: real)

  /** A line of the trace, parsed; lines that are not events, and other event types, are `Other`. */
  datatype Line =
    | TextDelta(agent: AgentId, text: string)
    | ToolUseStart(agent: AgentId, name: string, id: Option<string>)
    | ToolResult(agent: AgentId, useId: Option<string>, output: Option<string>, isError: bool)
    | MessageStop(agent: AgentId, usage: Usage)
    | Direct(from: AgentId, to: Option<AgentId>, content: string)
    | Other

  datatype TraceEvent =
    | Message(ts: nat, from: AgentId, to: Option<AgentId>, content: string)
    | Tool(ts: nat, name: string, agentId: AgentId, output: Option<string>, isError: bool)
    | Llm(ts: nat, model: AgentId, usage: Usage)

  /** The reader's state: text buffers are an insertion-ordered map. */
  datatype State = State(events: seq<TraceEvent>, tools: map<string, nat>, order: seq<AgentId>, text: map<AgentId, string>)

  const Start := State([], map[], [], map[])

  type Blank = char -> bool

  predicate IsBlank(blank: Blank, s: string) {
    forall c :: c in s ==> blank(c)
  }

  function Remove(order: seq<AgentId>, a: AgentId): seq<AgentId> {
    Filter(order, (x: AgentId) => x != a)
  }

  /** A message for the buffered text, unless it is white space. */
  function FlushEvents(blank: Blank, s: State, a: AgentId): seq<TraceEvent> {
    if a in s.text && !IsBlank(blank, s.text[a]) then [Message(|s.events|, a, None, s.text[a])] else []
  }

  function Flushed(blank: Blank, s: State, a: AgentId): State {
    if a !in s.text then s
    else State(s.events + FlushEvents(blank, s, a), s.tools, Remove(s.order, a), s.text - {a})
  }

  function Buffered(s: State, a: AgentId, t: string): State {
    if t == "" then s
    else if a in s.text then s.(text := s.text[a := s.text[a] + t])
    else s.(order := s.order + [a], text := s.text[a := t])
  }

  function Folded(e: TraceEvent, content: Option<string>, isError: bool): TraceEvent {
    match e
    case Tool(ts, name, agent, output, err) => Tool(ts, name, agent, if content.Some? then content else output, err || isError)
    case _ => e
  }

  /** A result lands on the event that its tool-use id points at. */
  function Answered(s: State, useId: Option<string>, content: Option<string>, isError: bool): State {
    if useId.None? || useId.value !in s.tools || s.tools[useId.value] >= |s.events| then s
    else
      var i := s.tools[useId.value];
      s.(events := s.events[i := Folded(s.events[i], content, isError)])
  }

  function Step(blank: Blank, s: State, line: Line): State {
    match line
    case TextDelta(a, t) => Buffered(s, a, t)
    case ToolUseStart(a, name, id) =>
      var f := Flushed(blank, s, a);
      f.(events := f.events + [Tool(|f.events|, name, a, None, false)],
         tools := if id.Some? then f.tools[id.value := |f.events|] else f.tools)
    case ToolResult(_, useId, content, isError) => Answered(s, useId, content, isError)
    case MessageStop(a, usage) =>
      var f := Flushed(blank, s, a);
      f.(events := f.events + [Llm(|f.events|, a, usage)])
    case Direct(from, to, content) => s.(events := s.events + [Message(|s.events|, from, to, content)])
    case Other => s
  }

  function Run(blank: Blank, lines: seq<Line>): State {
    if lines == [] then Start else Step(blank, Run(blank, Init(lines)), Last(lines))
  }

  function FlushEach(blank: Blank, s: State, agents: seq<AgentId>): State {
    if agents == [] then s else Flushed(blank, FlushEach(blank, s, Init(agents)), Last(agents))
  }

  /** The whole trajectory, trailing buffers included. */
  function Trajectory(blank: Blank, lines: seq<Line>): seq<TraceEvent> {
    var s := Run(blank, lines);
    FlushEach(blank, s, s.order).events
  }

  // ---------- the reader ----------

  class Reader {
    const blank: Blank
    var events: seq<TraceEvent>
    var toolByUseId: map<string, nat>
    var agents: seq<AgentId>
    var textByAgent: map<AgentId, string>
    var ts: nat

    /** The counter is always the number of events. */
    ghost predicate Valid()
      reads this
    {
      && ts == |events|
      && (forall a :: a in textByAgent <==> a in agents)
      && (forall id :: id in toolByUseId ==> toolByUseId[id] < |events| && events[toolByUseId[id]].Tool?)
    }

    ghost function Abstract(): State
      reads this
    {
      State(events, toolByUseId, agents, textByAgent)
    }

    constructor (blank: Blank)
      ensures Valid() && Abstract() == Start && this.blank == blank
    {
      this.blank := blank;
      events, toolByUseId, agents, textByAgent, ts := [], map[], [], map[], 0;
    }

    method Push(e: TraceEvent)
      requires Valid() && e.ts == ts
      modifies this`events, this`ts
      ensures Valid() && events == old(events) + [e]
    {
      events := events + [e];
      ts := ts + 1;
    }

    method FlushText(a: AgentId)
      requires Valid()
      modifies this
      ensures Valid() && Abstract() == Flushed(blank, old(Abstract()), a)
    {
      if a !in textByAgent { return; }
      var buffered := textByAgent[a];
      if exists i :: 0 <= i < |buffered| && !blank(buffered[i]) {
        Push(Message(ts, a, None, buffered));
      }
      RemoveMembers(agents, a);
      agents := Remove(agents, a);
      textByAgent := textByAgent - {a};
    }

    method Append(a: AgentId, t: string)
      requires Valid()
      modifies this
      ensures Valid() && Abstract() == Buffered(old(Abstract()), a, t)
    {
      if t == "" { return; }
      if a in textByAgent {
        textByAgent := textByAgent[a := textByAgent[a] + t];
      } else {
        agents, textByAgent := agents + [a], textByAgent[a := t];
      }
    }

    method FoldResult(useId: Option<string>, content: Option<string>, isError: bool)
      requires Valid()
      modifies this
      ensures Valid() && Abstract() == Answered(old(Abstract()), useId, content, isError)
    {
      if useId.None? || useId.value !in toolByUseId { return; }
      var i := toolByUseId[useId.value];
      var e := events[i];
      events := events[i := Tool(e.ts, e.name, e.agentId, if content.Some? then content else e.output, e.isError || isError)];
    }

    method Read(line: Line)
      requires Valid()
      modifies this
      ensures Valid() && Abstract() == Step(blank, old(Abstract()), line)
    {
      match line
      case TextDelta(a, t) =>
        Append(a, t);
      case ToolUseStart(a, name, id) =>
        FlushText(a);
        var idx := |events|;
        Push(Tool(ts, name, a, None, false));
        if id.Some? { toolByUseId := toolByUseId[id.value := idx]; }
      case ToolResult(_, useId, content, isError) =>
        FoldResult(useId, content, isError);
      case MessageStop(a, usage) =>
        FlushText(a);
        Push(Llm(ts, a, usage));
      case Direct(from, to, content) =>
        Push(Message(ts, from, to, content));
      case Other =>
    }
  }

  method ReadLaneTrajectory(blank: Blank, lines: seq<Line>) returns (events: seq<TraceEvent>)
    ensures events == Trajectory(blank, lines)
  {
    var reader := new Reader(blank);
    for i := 0 to |lines|
      invariant fresh(reader) && reader.blank == blank && reader.Valid()
      invariant reader.Abstract() == Run(blank, lines[..i])
    {
      assert Init(lines[..i + 1]) == lines[..i];
      reader.Read(lines[i]);
    }
    assert lines[..|lines|] == lines;
    var trailing := reader.agents;
    for i := 0 to |trailing|
      invariant fresh(reader) && reader.blank == blank && reader.Valid()
      invariant reader.Abstract() == FlushEach(blank, Run(blank, lines), trailing[..i])
    {
      assert Init(trailing[..i + 1]) == trailing[..i];
      reader.FlushText(trailing[i]);
    }
    assert trailing[..|trailing|] == trailing;
    return reader.events;
  }

  lemma {:induction false} RemoveMembers(order: seq<AgentId>, a: AgentId)
    ensures forall x :: x in Remove(order, a) <==> x in order && x != a
  {
    if order != [] {
      RemoveMembers(Init(order), a);
      assert order == Init(order) + [Last(order)];
    }
  }
}
