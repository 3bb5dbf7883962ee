/**
 * Who is heard: the baseline text stream under both member-text policies
 * (legacy/src/acp/lane-translator.ts:187-241).
 */
module TextPolicy {
  import opened Basics
  import opened LaneEvents
  import opened NormalizedTranslate
  import opened LaneTranslator
  import opened RichView
  import opened RenderedRuns
  import opened BoardFreshness
  import opened NonInterference

  /** A message chunk as sent: its text and the member it is attributed to. */
  datatype Chunk = Chunk(text: string, meta: Option<MemberRef>)

  function ChunksOf(u: SessionUpdate): seq<Chunk> {
    if u.AgentMessageChunk? then [Chunk(u.text.GetOr(""), u.meta)] else []
  }

  function Chunks(updates: seq<SessionUpdate>): seq<Chunk> {
    if updates == [] then [] else Chunks(Init(updates)) + ChunksOf(Last(updates))
  }

  lemma {:induction false} ChunksAppend(a: seq<SessionUpdate>, b: seq<SessionUpdate>)
    ensures Chunks(a + b) == Chunks(a) + Chunks(b)
  {
    if b == [] {
      assert a + b == a;
    } else {
      ChunksAppend(a, Init(b));
      assert Init(a + b) == a + Init(b) && Last(a + b) == Last(b);
      Assoc(Chunks(a), Chunks(Init(b)), ChunksOf(Last(b)));
    }
  }

  predicate IsDelta(e: LaneEvent) {
    IsEngine(e) && e.payload.normalized.value.TextDelta?
  }

  /** The events that end a speaker's run: someone speaks, or a turn stops. */
  predicate IsCut(e: LaneEvent) {
    IsEngine(e) && (e.payload.normalized.value.TextDelta? || e.payload.normalized.value.MessageStop?)
  }

  /** One piece of the interleaved conversation: a run's label, or a delta. */
  datatype Piece = RunStart(a: AgentId) | Words(a: AgentId, text: string)

  function PieceChunk(roster: Roster, piece: Piece): Chunk
    requires piece.a in roster.members
  {
    var m := roster.members[piece.a];
    Chunk(if piece.RunStart? then "\n**[" + m.role + "]**: " else piece.text,
          Some(MemberRef(Some(m.memberId), Some(m.role), Some(m.role))))
  }

  /** Whose run is open after the stream, if anyone's. */
  function Speaker(ticks: seq<Tick>): Option<AgentId> {
    if ticks == [] then None
    else if IsDelta(Last(ticks).event) then Some(Last(ticks).event.agentId)
    else if IsCut(Last(ticks).event) then None
    else Speaker(Init(ticks))
  }

  predicate IsLeadRole(roster: Roster, a: AgentId) {
    a in roster.members && roster.members[a].role == "lead"
  }

  function Deltas(ticks: seq<Tick>): seq<Piece> {
    if ticks == [] then []
    else Deltas(Init(ticks)) + if IsDelta(Last(ticks).event) then [DeltaOf(Last(ticks).event)] else []
  }

  function DeltaOf(e: LaneEvent): Piece
    requires IsDelta(e)
  {
    Words(e.agentId, e.payload.normalized.value.text)
  }

  /** What one event adds to the conversation. */
  function Spoken(c: Config, roster: Roster, before: seq<Tick>, e: LaneEvent): seq<Piece> {
    if !IsDelta(e) || (!c.interleave && !IsLeadRole(roster, e.agentId)) then []
    else if IsLeadRole(roster, e.agentId) || Speaker(before) == Some(e.agentId) then [DeltaOf(e)]
    else [RunStart(e.agentId), DeltaOf(e)]
  }

  /** The conversation that the policy promises. */
  function Script(c: Config, roster: Roster, ticks: seq<Tick>): seq<Piece> {
    if ticks == [] then []
    else Script(c, roster, Init(ticks)) + Spoken(c, roster, Init(ticks), Last(ticks).event)
  }

  /** The event at j is a delta of a's, and no delta or message stop comes after it. */
  ghost predicate LastCutAt(ticks: seq<Tick>, a: AgentId, j: int) {
    && 0 <= j < |ticks| && IsDelta(ticks[j].event) && ticks[j].event.agentId == a
    && forall k :: j < k < |ticks| ==> !IsCut(ticks[k].event)
  }

  /** A run is open exactly when its speaker's last delta is the last cut in the stream. */
  lemma {:induction false} SpeakerIsLastCut(ticks: seq<Tick>, a: AgentId)
    ensures Speaker(ticks) == Some(a) <==> exists j :: LastCutAt(ticks, a, j)
  {
    if ticks != [] {
      var n := |ticks| - 1;
      if IsCut(ticks[n].event) {
        assert forall j :: LastCutAt(ticks, a, j) ==> j == n;
        assert IsDelta(ticks[n].event) && ticks[n].event.agentId == a ==> LastCutAt(ticks, a, n);
      } else {
        SpeakerIsLastCut(Init(ticks), a);
        forall j ensures LastCutAt(ticks, a, j) <==> LastCutAt(Init(ticks), a, j) { NoCutSince(ticks, a, j); }
      }
    }
  }

  lemma NoCutSince(ticks: seq<Tick>, a: AgentId, j: int)
    requires ticks != [] && !IsCut(Last(ticks).event)
    ensures LastCutAt(ticks, a, j) <==> LastCutAt(Init(ticks), a, j)
  {
    assert forall k :: 0 <= k < |ticks| - 1 ==> Init(ticks)[k] == ticks[k];
  }

  lemma SpeakerStep(c: Config, s: State, t: Tick, before: seq<Tick>)
    requires IsEngine(t.event) && s.lastTextSpeaker == Speaker(before)
    ensures Speak(c, s, t).state.lastTextSpeaker == Speaker(before + [t])
  {
    assert Init(before + [t]) == before;
  }

  lemma SilentChunks(c: Config, s: State, t: Tick)
    requires IsEngine(t.event) && !IsDelta(t.event)
    ensures Chunks(Speak(c, s, t).sent) == []
  {
    assert RunLabel(c, s, t) == [];
    EmitsNoChunk(c.p, s.open, t.event.payload.normalized.value, OptionsOf(c, s, t));
    assert Speak(c, s, t).sent == Updates(c.p, s.open, t.event.payload.normalized.value, OptionsOf(c, s, t));
  }

  lemma EmitsNoChunk(p: Presentation, open: OpenCalls, ne: NormalizedEvent, o: EmitOptions)
    requires !ne.TextDelta?
    ensures Chunks(Updates(p, open, ne, o)) == []
  {
    if Updates(p, open, ne, o) != [] { ChunkOne(Updates(p, open, ne, o)[0]); }
  }

  lemma DeltaChunks(c: Config, roster: Roster, s: State, t: Tick, before: seq<Tick>)
    requires IsDelta(t.event) && t.roster == Some(roster) && t.event.agentId in roster.members
    requires s.lastTextSpeaker == Speaker(before)
    ensures Chunks(Speak(c, s, t).sent) == ToChunks(roster, Spoken(c, roster, before, t.event))
  {
    var a, m := t.event.agentId, roster.members[t.event.agentId];
    var words := AgentMessageChunk(Some(t.event.payload.normalized.value.text), Some(MetaOf(m)));
    var tag := AgentMessageChunk(Some(RolePrefix(m.role)), Some(MetaOf(m)));
    ChunkOne(words);
    PieceOne(roster, DeltaOf(t.event));
    if !c.interleave && m.role != "lead" {
      assert Speak(c, s, t).sent == [];
    } else if m.role == "lead" || s.lastTextSpeaker == Some(a) {
      assert Speak(c, s, t).sent == [words];
    } else {
      ChunkOne(tag);
      PieceOne(roster, RunStart(a));
      ChunksAppend([tag], [words]);
      ToChunksAppend(roster, [RunStart(a)], [DeltaOf(t.event)]);
      assert Speak(c, s, t).sent == [tag] + [words];
      assert Spoken(c, roster, before, t.event) == [RunStart(a)] + [DeltaOf(t.event)];
    }
  }

  lemma ChunkOne(u: SessionUpdate)
    ensures Chunks([u]) == ChunksOf(u)
  {
    assert Init([u]) == [];
  }

  lemma PieceOne(roster: Roster, piece: Piece)
    requires piece.a in roster.members
    ensures ToChunks(roster, [piece]) == [PieceChunk(roster, piece)]
  {
    assert Init([piece]) == [];
  }

  /** The pieces as sent. */
  function ToChunks(roster: Roster, pieces: seq<Piece>): seq<Chunk> {
    if pieces == [] then []
    else ToChunks(roster, Init(pieces)) + if Last(pieces).a in roster.members then [PieceChunk(roster, Last(pieces))] else []
  }

  lemma {:induction false} ToChunksAppend(roster: Roster, a: seq<Piece>, b: seq<Piece>)
    ensures ToChunks(roster, a + b) == ToChunks(roster, a) + ToChunks(roster, b)
  {
    if b == [] {
      assert a + b == a;
    } else {
      ToChunksAppend(roster, a, Init(b));
      assert Init(a + b) == a + Init(b);
    }
  }

  lemma EventChunks(c: Config, roster: Roster, s: State, t: Tick, before: seq<Tick>)
    requires roster.Valid() && t.roster == Some(roster)
    requires IsEngine(t.event) ==> t.event.agentId in roster.members
    requires s.lastTextSpeaker == Speaker(before)
    ensures Chunks(Handle(c, s, t).sent) == ToChunks(roster, Spoken(c, roster, before, t.event))
    ensures Handle(c, s, t).state.lastTextSpeaker == Speaker(before + [t])
  {
    StateAfterEvent(c, s, t);
    assert Init(before + [t]) == before;
    if IsEngine(t.event) {
      SpeakerStep(c, s, t, before);
      if IsDelta(t.event) { DeltaChunks(c, roster, s, t, before); } else { SilentChunks(c, s, t); }
      var board := Activity(Speak(c, s, t).state, t).sent;
      ChunksAppend(Speak(c, s, t).sent, board);
      NoChunks(board);
    } else {
      NoChunks(Handle(c, s, t).sent);
    }
  }

  lemma NoChunks(updates: seq<SessionUpdate>)
    requires updates == [] || (|updates| == 1 && updates[0].Plan?)
    ensures Chunks(updates) == []
  {
    if updates != [] { assert Init(updates) == []; }
  }

  lemma StaffedInit(roster: Roster, ticks: seq<Tick>)
    requires roster.Valid() && Staffed(roster, ticks) && ticks != []
    ensures Staffed(roster, Init(ticks)) && ValidTicks(Init(ticks)) && ValidTicks(ticks)
    ensures Last(ticks).roster == Some(roster) && (IsEngine(Last(ticks).event) ==> Last(ticks).event.agentId in roster.members)
  {
  }

  /**
   * Main result: on a fully staffed roster the chunks sent are the script's: in collapse mode the
   * leads' deltas, in interleave mode everyone's with a label at the start of each non-lead run.
   */
  lemma {:induction false} TextFollowsScript(c: Config, roster: Roster, ticks: seq<Tick>)
    requires roster.Valid() && Staffed(roster, ticks)
    ensures ValidTicks(ticks)
    ensures Chunks(Run(c, ticks).sent) == ToChunks(roster, Script(c, roster, ticks))
    ensures Run(c, ticks).state.lastTextSpeaker == Speaker(ticks)
  {
    if ticks != [] {
      StaffedInit(roster, ticks);
      TextFollowsScript(c, roster, Init(ticks));
      ScriptStep(c, roster, ticks);
    }
  }

  lemma ScriptStep(c: Config, roster: Roster, ticks: seq<Tick>)
    requires roster.Valid() && Staffed(roster, ticks) && ticks != [] && ValidTicks(ticks)
    requires Chunks(Run(c, Init(ticks)).sent) == ToChunks(roster, Script(c, roster, Init(ticks)))
    requires Run(c, Init(ticks)).state.lastTextSpeaker == Speaker(Init(ticks))
    ensures Chunks(Run(c, ticks).sent) == ToChunks(roster, Script(c, roster, ticks))
    ensures Run(c, ticks).state.lastTextSpeaker == Speaker(ticks)
  {
    LastChunks(c, roster, Run(c, Init(ticks)).state, ticks);
    RunChunks(c, ticks);
    ScriptChunks(c, roster, ticks);
  }

  lemma LastChunks(c: Config, roster: Roster, s: State, ticks: seq<Tick>)
    requires roster.Valid() && Staffed(roster, ticks) && ticks != []
    requires s.lastTextSpeaker == Speaker(Init(ticks))
    ensures Chunks(Handle(c, s, Last(ticks)).sent) == ToChunks(roster, Spoken(c, roster, Init(ticks), Last(ticks).event))
    ensures Handle(c, s, Last(ticks)).state.lastTextSpeaker == Speaker(ticks)
  {
    StaffedInit(roster, ticks);
    EventChunks(c, roster, s, Last(ticks), Init(ticks));
    InitLast(ticks);
  }

  lemma RunChunks(c: Config, ticks: seq<Tick>)
    requires ValidTicks(ticks) && ticks != []
    ensures var before := Run(c, Init(ticks));
            && Chunks(Run(c, ticks).sent) == Chunks(before.sent) + Chunks(Handle(c, before.state, Last(ticks)).sent)
            && Run(c, ticks).state == Handle(c, before.state, Last(ticks)).state
  {
    ChunksAppend(Run(c, Init(ticks)).sent, Handle(c, Run(c, Init(ticks)).state, Last(ticks)).sent);
  }

  lemma ScriptChunks(c: Config, roster: Roster, ticks: seq<Tick>)
    requires ticks != []
    ensures ToChunks(roster, Script(c, roster, ticks))
         == ToChunks(roster, Script(c, roster, Init(ticks))) + ToChunks(roster, Spoken(c, roster, Init(ticks), Last(ticks).event))
  {
    ToChunksAppend(roster, Script(c, roster, Init(ticks)), Spoken(c, roster, Init(ticks), Last(ticks).event));
  }

  /** The pieces that are words, not labels. */
  function WordsOnly(pieces: seq<Piece>): seq<Piece> {
    if pieces == [] then [] else WordsOnly(Init(pieces)) + if Last(pieces).Words? then [Last(pieces)] else []
  }

  function LeadsOnly(roster: Roster, pieces: seq<Piece>): seq<Piece> {
    if pieces == [] then []
    else LeadsOnly(roster, Init(pieces)) + if IsLeadRole(roster, Last(pieces).a) then [Last(pieces)] else []
  }

  /** Collapse: exactly the leads' deltas, in order. */
  lemma {:induction false} CollapseIsLeadDeltas(c: Config, roster: Roster, ticks: seq<Tick>)
    requires !c.interleave
    ensures Script(c, roster, ticks) == LeadsOnly(roster, Deltas(ticks))
  {
    if ticks != [] {
      CollapseIsLeadDeltas(c, roster, Init(ticks));
      if IsDelta(Last(ticks).event) {
        assert Init(Deltas(ticks)) == Deltas(Init(ticks));
      } else {
        assert Deltas(ticks) == Deltas(Init(ticks));
      }
    }
  }

  /** Interleave: with the labels removed, every delta, in wire order. */
  lemma {:induction false} InterleaveKeepsEveryDelta(c: Config, roster: Roster, ticks: seq<Tick>)
    requires c.interleave
    ensures WordsOnly(Script(c, roster, ticks)) == Deltas(ticks)
  {
    if ticks != [] {
      InterleaveKeepsEveryDelta(c, roster, Init(ticks));
      var script, more := Script(c, roster, Init(ticks)), Spoken(c, roster, Init(ticks), Last(ticks).event);
      if more == [] {
        assert script + more == script;
      } else {
        assert Init(script + more) == script + Init(more);
        if |more| == 1 {
          assert script + Init(more) == script;
        } else {
          assert Init(script + Init(more)) == script;
          assert Init(more) == [more[0]];
        }
      }
    }
  }

  /**
   * Interleave: every label is followed by its own member's words, and a non-lead's words are
   * labelled exactly when no run of that member is open.
   */
  lemma {:induction false} LabelsMarkRuns(c: Config, roster: Roster, ticks: seq<Tick>)
    requires c.interleave
    ensures var script := Script(c, roster, ticks);
            && (script != [] ==> Last(script).Words?)
            && forall i :: 0 <= i < |script| && script[i].RunStart? ==>
                 i + 1 < |script| && script[i + 1].Words? && script[i + 1].a == script[i].a && !IsLeadRole(roster, script[i].a)
    ensures ticks != [] && IsDelta(Last(ticks).event) && !IsLeadRole(roster, Last(ticks).event.agentId) ==>
              (Speaker(Init(ticks)) != Some(Last(ticks).event.agentId) <==>
               Script(c, roster, ticks) == Script(c, roster, Init(ticks)) + [RunStart(Last(ticks).event.agentId), DeltaOf(Last(ticks).event)])
  {
    if ticks != [] {
      LabelsMarkRuns(c, roster, Init(ticks));
    }
  }

  // ---------- the text of a lane ----------

  /** The text of the chunks filed under one lane. */
  function TextFor(chunks: seq<Chunk>, lane: string): string {
    if chunks == [] then ""
    else TextFor(Init(chunks), lane) + if LaneKey(Last(chunks).meta) == lane then Last(chunks).text else ""
  }

  lemma LaneTextStep(v: View, u: SessionUpdate, lane: string)
    requires v.Valid()
    ensures LaneAt(Applied(v, u), lane).text
         == LaneAt(v, lane).text + if u.AgentMessageChunk? && LaneKey(u.meta) == lane then u.text.GetOr("") else ""
  {
    if Touched(v, u) == Some(lane) { AppliedHere(v, u, lane); } else { AppliedElsewhere(v, u, lane); }
  }

  /** A rendered lane's text is its chunks' text, in stream order. */
  lemma {:induction false} LaneText(updates: seq<SessionUpdate>, lane: string)
    ensures LaneAt(Render(updates), lane).text == TextFor(Chunks(updates), lane)
  {
    if updates != [] {
      LaneText(Init(updates), lane);
      LaneTextStep(Render(Init(updates)), Last(updates), lane);
      var u := Last(updates);
      if u.AgentMessageChunk? {
        assert Init(Chunks(updates)) == Chunks(Init(updates));
      } else {
        assert Chunks(updates) == Chunks(Init(updates));
      }
    }
  }

  // ---------- why non-interference is claimed for collapse mode only ----------

  function PieceLength(roster: Roster, piece: Piece, lane: string): nat {
    if piece.a in roster.members && roster.members[piece.a].memberId == lane then |PieceChunk(roster, piece).text| else 0
  }

  /** How much of the conversation is heard in one lane. */
  function Heard(roster: Roster, pieces: seq<Piece>, lane: string): nat {
    if pieces == [] then 0 else Heard(roster, Init(pieces), lane) + PieceLength(roster, Last(pieces), lane)
  }

  lemma {:induction false} HeardIsText(roster: Roster, pieces: seq<Piece>, lane: string)
    ensures |TextFor(ToChunks(roster, pieces), lane)| == Heard(roster, pieces, lane)
  {
    if pieces != [] {
      HeardIsText(roster, Init(pieces), lane);
      if Last(pieces).a in roster.members {
        assert Init(ToChunks(roster, pieces)) == ToChunks(roster, Init(pieces));
      } else {
        assert ToChunks(roster, pieces) == ToChunks(roster, Init(pieces));
      }
    }
  }

  lemma LaneLength(c: Config, roster: Roster, ticks: seq<Tick>, lane: string)
    requires roster.Valid() && Staffed(roster, ticks)
    ensures ValidTicks(ticks)
    ensures |LaneAt(ViewAfter(c, ticks), lane).text| == Heard(roster, Script(c, roster, ticks), lane)
  {
    TextFollowsScript(c, roster, ticks);
    LaneText(Run(c, ticks).sent, lane);
    HeardIsText(roster, Script(c, roster, ticks), lane);
  }

  /** One more delta adds its words, and its label if it opens a non-lead's run. */
  lemma HeardGrows(c: Config, roster: Roster, ticks: seq<Tick>, e: LaneEvent, lane: string)
    requires ticks != [] && e == Last(ticks).event && c.interleave && IsDelta(e) && e.agentId in roster.members
    ensures Heard(roster, Script(c, roster, ticks), lane)
         == Heard(roster, Script(c, roster, Init(ticks)), lane) + PieceLength(roster, DeltaOf(e), lane)
            + if IsLeadRole(roster, e.agentId) || Speaker(Init(ticks)) == Some(e.agentId) then 0
              else PieceLength(roster, RunStart(e.agentId), lane)
  {
    var script := Script(c, roster, Init(ticks));
    var opening := script + [RunStart(e.agentId)];
    assert Init(opening) == script && Init(opening + [DeltaOf(e)]) == opening && Init(script + [DeltaOf(e)]) == script;
    assert opening + [DeltaOf(e)] == script + [RunStart(e.agentId), DeltaOf(e)];
  }

  /** The label that the member's second words get when someone else has spoken, and not otherwise. */
  lemma LabelAgain(c: Config, roster: Roster, ta: Tick, tb: Tick, lane: string)
    requires c.interleave && IsDelta(ta.event) && IsDelta(tb.event)
    requires ta.event.agentId in roster.members && tb.event.agentId in roster.members && ta.event.agentId != tb.event.agentId
    requires roster.members[ta.event.agentId].memberId == lane && roster.members[ta.event.agentId].role != "lead"
    requires roster.members[tb.event.agentId].memberId != lane
    ensures Heard(roster, Script(c, roster, [ta, tb, ta]), lane) != Heard(roster, Script(c, roster, [ta, ta]), lane)
  {
    var one, two, three, own := [ta], [ta, tb], [ta, tb, ta], [ta, ta];
    assert Init(one) == [] && Init(two) == one && Init(three) == two && Init(own) == one;
    HeardGrows(c, roster, two, tb.event, lane);
    HeardGrows(c, roster, three, ta.event, lane);
    HeardGrows(c, roster, own, ta.event, lane);
  }

  /**
   * In interleave mode a non-lead is always open to interference by any other member: speaking in
   * between makes its label appear again in its own lane.
   */
  lemma InterleaveInterferes(c: Config, roster: Roster, a: AgentId, b: AgentId)
    requires roster.Valid() && c.interleave
    requires a in roster.members && b in roster.members && a != b
    requires roster.members[a].memberId != roster.members[b].memberId && roster.members[a].role != "lead"
    ensures exists ticks :: Staffed(roster, ticks) && !Unaffected(c, roster, ticks, a)
  {
    var ta := EngineTick(roster, a, TextDeltaType, TextDelta("x"));
    var tb := EngineTick(roster, b, TextDeltaType, TextDelta("y"));
    LabelAgain(c, roster, ta, tb, roster.members[a].memberId);
    LengthsTell(c, roster, [ta, tb, ta], [ta, ta], roster.members[a].memberId);
    OwnOfThree(ta, tb, a);
    assert Staffed(roster, [ta, tb, ta]) && !Unaffected(c, roster, [ta, tb, ta], a);
  }

  lemma LengthsTell(c: Config, roster: Roster, xs: seq<Tick>, ys: seq<Tick>, lane: string)
    requires roster.Valid() && Staffed(roster, xs) && Staffed(roster, ys)
    requires Heard(roster, Script(c, roster, xs), lane) != Heard(roster, Script(c, roster, ys), lane)
    ensures ValidTicks(xs) && ValidTicks(ys) && LaneShown(c, xs, lane) != LaneShown(c, ys, lane)
  {
    LaneLength(c, roster, xs, lane);
    LaneLength(c, roster, ys, lane);
  }

  lemma OwnOfThree(ta: Tick, tb: Tick, a: AgentId)
    requires Own(ta.event, a) && !Own(tb.event, a)
    ensures OwnTicks([ta, tb, ta], a) == [ta, ta]
  {
    assert Init([ta]) == [] && Init([ta, tb]) == [ta] && Init([ta, tb, ta]) == [ta, tb];
    assert OwnTicks([ta], a) == [] + [ta];
  }
}
