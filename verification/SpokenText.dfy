/**
 * The text that is sent under any rosters, known or not yet known (legacy/src/acp/lane-translator.ts:187-241).
 */
module SpokenText {
  import opened Basics
  import opened LaneEvents
  import opened NormalizedTranslate
  import opened LaneTranslator
  import opened RenderedRuns
  import opened TextPolicy

  /** The first agent whose engine was heard. */
  function FirstVoice(ticks: seq<Tick>): Option<AgentId> {
    if ticks == [] then None
    else if FirstVoice(Init(ticks)).Some? then FirstVoice(Init(ticks))
    else if IsEngine(Last(ticks).event) then Some(Last(ticks).event.agentId) else None
  }

  /** A member leads by its role; an agent that the roster does not know leads when it was heard first. */
  predicate Leads(before: seq<Tick>, t: Tick) {
    var a := t.event.agentId;
    if t.roster.Some? && a in t.roster.value.members then t.roster.value.members[a].role == "lead"
    else FirstVoice(before).None? || FirstVoice(before) == Some(a)
  }

  /** Who a chunk is attributed to: the roster's member, or nobody. */
  function Attributed(t: Tick): Option<MemberRef> {
    var a := t.event.agentId;
    if t.roster.Some? && a in t.roster.value.members
    then
      var m := t.roster.value.members[a];
      Some(MemberRef(Some(m.memberId), Some(m.role), Some(m.role)))
    else None
  }

  /** The label before a delta, in interleave mode: at the start of a run of a known member that does not lead. */
  function LabelBefore(c: Config, before: seq<Tick>, t: Tick): seq<Chunk> {
    if c.interleave && !Leads(before, t) && Attributed(t).Some? && Speaker(before) != Some(t.event.agentId)
    then [Chunk("\n**[" + Attributed(t).value.role.GetOr("") + "]**: ", Attributed(t))] else []
  }

  /** The words of a delta: in collapse mode only who leads is heard. */
  function WordsOf(c: Config, before: seq<Tick>, t: Tick): seq<Chunk>
    requires IsDelta(t.event)
  {
    if c.interleave || Leads(before, t) then [Chunk(t.event.payload.normalized.value.text, Attributed(t))] else []
  }

  /** What one event adds to the text, after what came before. */
  function Uttered(c: Config, before: seq<Tick>, t: Tick): seq<Chunk> {
    if IsDelta(t.event) then LabelBefore(c, before, t) + WordsOf(c, before, t) else []
  }

  function AllUttered(c: Config, ticks: seq<Tick>): seq<Chunk> {
    if ticks == [] then [] else AllUttered(c, Init(ticks)) + Uttered(c, Init(ticks), Last(ticks))
  }

  lemma LabelUtters(c: Config, s: State, t: Tick, before: seq<Tick>)
    requires IsDelta(t.event) && s.lastTextSpeaker == Speaker(before) && s.firstSeen == FirstVoice(before)
    ensures Chunks(RunLabel(c, s, t)) == LabelBefore(c, before, t)
  {
    assert IsLead(s, t) == Leads(before, t);
    if RunLabel(c, s, t) != [] { ChunkOne(RunLabel(c, s, t)[0]); }
  }

  lemma WordsUtter(c: Config, s: State, t: Tick, before: seq<Tick>)
    requires IsDelta(t.event) && s.firstSeen == FirstVoice(before)
    ensures Chunks(Updates(c.p, s.open, t.event.payload.normalized.value, OptionsOf(c, s, t))) == WordsOf(c, before, t)
  {
    assert IsLead(s, t) == Leads(before, t);
    ChunkOne(AgentMessageChunk(Some(t.event.payload.normalized.value.text), OptionsOf(c, s, t).meta));
  }

  lemma SpeechUtters(c: Config, s: State, t: Tick, before: seq<Tick>)
    requires IsDelta(t.event) && s.lastTextSpeaker == Speaker(before) && s.firstSeen == FirstVoice(before)
    ensures Chunks(Speak(c, s, t).sent) == Uttered(c, before, t)
  {
    LabelUtters(c, s, t, before);
    WordsUtter(c, s, t, before);
    ChunksAppend(RunLabel(c, s, t), Updates(c.p, s.open, t.event.payload.normalized.value, OptionsOf(c, s, t)));
  }

  lemma HandledUtters(c: Config, s: State, t: Tick, before: seq<Tick>)
    requires t.roster.Some? ==> t.roster.value.Valid()
    requires s.lastTextSpeaker == Speaker(before) && s.firstSeen == FirstVoice(before)
    ensures Chunks(Handle(c, s, t).sent) == Uttered(c, before, t)
  {
    if IsEngine(t.event) {
      if IsDelta(t.event) { SpeechUtters(c, s, t, before); } else { SilentChunks(c, s, t); }
      var board := Activity(Speak(c, s, t).state, t).sent;
      ChunksAppend(Speak(c, s, t).sent, board);
      NoChunks(board);
    } else {
      NoChunks(Handle(c, s, t).sent);
    }
  }

  lemma HandledVoices(c: Config, s: State, t: Tick, before: seq<Tick>)
    requires t.roster.Some? ==> t.roster.value.Valid()
    requires s.lastTextSpeaker == Speaker(before) && s.firstSeen == FirstVoice(before)
    ensures Handle(c, s, t).state.lastTextSpeaker == Speaker(before + [t])
    ensures Handle(c, s, t).state.firstSeen == FirstVoice(before + [t])
  {
    StateAfterEvent(c, s, t);
    assert Init(before + [t]) == before;
    if IsEngine(t.event) { SpeakerStep(c, s, t, before); }
  }

  /**
   * Main result: under any rosters the text sent is each delta of a lead, or in interleave mode of anyone, attributed as the
   * roster of the moment says, with a label before the first delta of a known non-lead's run.
   */
  lemma {:induction false} TextIsUttered(c: Config, ticks: seq<Tick>)
    requires ValidTicks(ticks)
    ensures Chunks(Run(c, ticks).sent) == AllUttered(c, ticks)
    ensures Run(c, ticks).state.lastTextSpeaker == Speaker(ticks) && Run(c, ticks).state.firstSeen == FirstVoice(ticks)
  {
    if ticks != [] {
      var before := Run(c, Init(ticks));
      TextIsUttered(c, Init(ticks));
      HandledUtters(c, before.state, Last(ticks), Init(ticks));
      HandledVoices(c, before.state, Last(ticks), Init(ticks));
      ChunksAppend(before.sent, Handle(c, before.state, Last(ticks)).sent);
      InitLast(ticks);
    }
  }

  /** The deltas of one agent. */
  function DeltasOf(ticks: seq<Tick>, a: AgentId): seq<Chunk> {
    if ticks == [] then []
    else DeltasOf(Init(ticks), a)
         + if IsDelta(Last(ticks).event) && Last(ticks).event.agentId == a
           then [Chunk(Last(ticks).event.payload.normalized.value.text, None)] else []
  }

  ghost predicate Unrostered(ticks: seq<Tick>) {
    forall i :: 0 <= i < |ticks| ==> ticks[i].roster == None
  }

  /** The first voice, once heard, stays the first. */
  lemma {:induction false} FirstStays(ticks: seq<Tick>, n: nat)
    requires n <= |ticks| && FirstVoice(ticks[..n]).Some?
    ensures FirstVoice(ticks) == FirstVoice(ticks[..n])
  {
    if n < |ticks| {
      assert Init(ticks)[..n] == ticks[..n];
      FirstStays(Init(ticks), n);
    } else {
      assert ticks[..n] == ticks;
    }
  }

  /** Main result: before there is a roster, in collapse mode, exactly the agent that was heard first narrates, unattributed. */
  lemma {:induction false} FirstVoiceNarrates(c: Config, ticks: seq<Tick>, a: AgentId)
    requires Unrostered(ticks) && !c.interleave && (FirstVoice(ticks).Some? ==> FirstVoice(ticks) == Some(a))
    ensures AllUttered(c, ticks) == DeltasOf(ticks, a)
  {
    if ticks != [] {
      var before := Init(ticks);
      if FirstVoice(before).Some? { FirstStays(ticks, |before|); }
      FirstVoiceNarrates(c, before, a);
    }
  }
}
