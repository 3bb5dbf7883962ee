/**
 * Which rosters keep their members apart in interleave mode, where labels are written into members' lanes
 * (legacy/src/acp/lane-translator.ts:203-241).
 */
module InterleavedLanes {
  import opened Basics
  import opened LaneEvents
  import opened NormalizedTranslate
  import opened LaneTranslator
  import opened RichView
  import opened RenderedRuns
  import opened NonInterference
  import BoardFreshness
  import TextPolicy

  // ---------- a member on its own ----------

  /** The translator states agree in all that speech depends on. */
  ghost predicate SameEmitter(s: State, s': State) {
    s.open == s'.open && s.firstSeen == s'.firstSeen && s.lastTextSpeaker == s'.lastTextSpeaker
  }

  lemma SameSpeechAll(c: Config, s: State, s': State, t: Tick)
    requires IsEngine(t.event) && SameEmitter(s, s')
    ensures Speak(c, s, t).sent == Speak(c, s', t).sent
    ensures SameEmitter(Speak(c, s, t).state, Speak(c, s', t).state)
  {
    assert OptionsOf(c, s, t) == OptionsOf(c, s', t);
    assert RunLabel(c, s, t) == RunLabel(c, s', t);
  }

  lemma SameLaneAt(v: View, w: View, u: SessionUpdate, k: string)
    requires v.Valid() && w.Valid() && SameLanes(v, w)
    ensures k in Applied(v, u).lanes <==> k in Applied(w, u).lanes
    ensures k in Applied(v, u).lanes && k in Applied(w, u).lanes ==> Applied(v, u).lanes[k] == Applied(w, u).lanes[k]
  {
    assert Touched(v, u) == Touched(w, u);
    if Touched(v, u) == Some(k) {
      AppliedHere(v, u, k);
      AppliedHere(w, u, k);
    } else {
      AppliedElsewhere(v, u, k);
      AppliedElsewhere(w, u, k);
    }
  }

  lemma SameLanesOne(v: View, w: View, u: SessionUpdate)
    requires v.Valid() && w.Valid() && SameLanes(v, w)
    ensures SameLanes(Applied(v, u), Applied(w, u))
  {
    AppliedSlots(v, u);
    AppliedSlots(w, u);
    forall k
      ensures k in Applied(v, u).lanes <==> k in Applied(w, u).lanes
      ensures k in Applied(v, u).lanes && k in Applied(w, u).lanes ==> Applied(v, u).lanes[k] == Applied(w, u).lanes[k]
    {
      SameLaneAt(v, w, u, k);
    }
  }

  lemma {:induction false} SameLanesAll(v: View, w: View, updates: seq<SessionUpdate>)
    requires v.Valid() && w.Valid() && SameLanes(v, w)
    ensures SameLanes(ApplyAll(v, updates), ApplyAll(w, updates))
  {
    if updates != [] {
      SameLanesAll(v, w, Init(updates));
      SameLanesOne(ApplyAll(v, Init(updates)), ApplyAll(w, Init(updates)), Last(updates));
    }
  }

  /** An engine event moves two runs that agree alike. */
  lemma SpeechTogether(c: Config, s: State, v: View, s': State, w: View, t: Tick)
    requires (t.roster.Some? ==> t.roster.value.Valid()) && IsEngine(t.event)
    requires v.Valid() && w.Valid() && SameEmitter(s, s') && SameLanes(v, w)
    ensures SameEmitter(Handle(c, s, t).state, Handle(c, s', t).state)
    ensures SameLanes(ApplyAll(v, Handle(c, s, t).sent), ApplyAll(w, Handle(c, s', t).sent))
  {
    StateAfterEvent(c, s, t);
    StateAfterEvent(c, s', t);
    SameSpeechAll(c, s, s', t);
    LanesAfterEngine(c, s, t, v);
    LanesAfterEngine(c, s', t, w);
    SameLanesAll(v, w, Speak(c, s, t).sent);
  }

  /** Two runs agree on lanes and speech. */
  ghost predicate Together(c: Config, ticks: seq<Tick>, own: seq<Tick>)
    requires ValidTicks(ticks) && ValidTicks(own)
  {
    SameEmitter(Run(c, ticks).state, Run(c, own).state) && SameLanes(ViewAfter(c, ticks), ViewAfter(c, own))
  }

  /** An event that is not an engine's moves neither. */
  lemma SilentKeeps(c: Config, ticks: seq<Tick>)
    requires ValidTicks(ticks) && ticks != [] && !IsEngine(Last(ticks).event)
    ensures SameEmitter(Run(c, ticks).state, Run(c, Init(ticks)).state)
    ensures SameLanes(ViewAfter(c, ticks), ViewAfter(c, Init(ticks)))
  {
    var s, t := Run(c, Init(ticks)).state, Last(ticks);
    ViewStep(c, ticks);
    StateAfterEvent(c, s, t);
    LanesAfterOther(c, s, t, ViewAfter(c, Init(ticks)));
  }

  lemma SpeechStep(c: Config, ticks: seq<Tick>, own: seq<Tick>)
    requires ValidTicks(ticks) && ValidTicks(own) && ticks != [] && own != []
    requires Last(ticks) == Last(own) && IsEngine(Last(ticks).event) && Together(c, Init(ticks), Init(own))
    ensures Together(c, ticks, own)
  {
    ViewStep(c, ticks);
    ViewStep(c, own);
    SpeechTogether(c, Run(c, Init(ticks)).state, ViewAfter(c, Init(ticks)), Run(c, Init(own)).state, ViewAfter(c, Init(own)), Last(ticks));
  }

  /** Only one member speaks: dropping everything that is not about it changes no lane, in either mode. */
  lemma {:induction false} LoneSpeaker(c: Config, roster: Roster, ticks: seq<Tick>, a: AgentId)
    requires roster.Valid() && BoardFreshness.Fixed(roster, ticks)
    requires forall i :: 0 <= i < |ticks| && IsEngine(ticks[i].event) ==> ticks[i].event.agentId == a
    ensures ValidTicks(ticks) && ValidTicks(OwnTicks(ticks, a)) && Together(c, ticks, OwnTicks(ticks, a))
  {
    OwnTicksFixed(roster, ticks, a);
    if ticks != [] {
      var own := OwnTicks(ticks, a);
      LoneSpeaker(c, roster, Init(ticks), a);
      if Own(Last(ticks).event, a) {
        assert Init(own) == OwnTicks(Init(ticks), a) && Last(own) == Last(ticks);
        if IsEngine(Last(ticks).event) {
          SpeechStep(c, ticks, own);
        } else {
          SilentKeeps(c, ticks);
          SilentKeeps(c, own);
        }
      } else {
        assert own == OwnTicks(Init(ticks), a);
        SilentKeeps(c, ticks);
      }
    }
  }

  lemma LoneMemberUnaffected(c: Config, roster: Roster, ticks: seq<Tick>, a: AgentId)
    requires roster.Valid() && Staffed(roster, ticks) && a in roster.members
    requires forall b :: b in roster.members ==> b == a
    ensures Unaffected(c, roster, ticks, a)
  {
    LoneSpeaker(c, roster, ticks, a);
  }

  // ---------- the exact condition ----------

  /** Nobody's text is labelled, or there is nobody else to be told from. */
  ghost predicate NoLabels(roster: Roster) {
    forall a :: a in roster.members ==> roster.members[a].role == "lead" || forall b :: b in roster.members ==> b == a
  }

  lemma EnoughForInterleave(c: Config, roster: Roster, ticks: seq<Tick>, a: AgentId)
    requires roster.Valid() && Separated(roster) && NoLabels(roster) && a in roster.members && Staffed(roster, ticks)
    ensures Unaffected(c, roster, ticks, a)
  {
    if roster.members[a].role == "lead" {
      MemberLaneIsItsOwn(c, roster, ticks, a);
    } else {
      LoneMemberUnaffected(c, roster, ticks, a);
    }
  }

  lemma NeededForInterleave(c: Config, roster: Roster)
    requires roster.Valid() && c.interleave && !(Separated(roster) && NoLabels(roster))
    ensures !NonInterfering(c, roster)
  {
    if !Separated(roster) {
      NotSeparatedInterferes(c, roster);
    } else {
      var a :| a in roster.members && roster.members[a].role != "lead" && !forall b :: b in roster.members ==> b == a;
      var b :| b in roster.members && b != a;
      assert Apart(roster, a, b);
      TextPolicy.InterleaveInterferes(c, roster, a, b);
    }
  }

  /**
   * Main result: in interleave mode a roster keeps every member's lane free of the others, on every stream of its
   * members' events, exactly when it is separated and every member is a lead or the only member.
   */
  lemma InterleavedIffUnlabelled(c: Config, roster: Roster)
    requires roster.Valid() && c.interleave
    ensures NonInterfering(c, roster) <==> Separated(roster) && NoLabels(roster)
  {
    if Separated(roster) && NoLabels(roster) {
      forall ticks, a | a in roster.members && Staffed(roster, ticks) ensures Unaffected(c, roster, ticks, a) {
        EnoughForInterleave(c, roster, ticks, a);
      }
    } else {
      NeededForInterleave(c, roster);
    }
  }
}
