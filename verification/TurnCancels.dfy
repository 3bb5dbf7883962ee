/**
 * A cancel that races a parked question (legacy/src/acp/team-agent.ts:247-263, 310-323): the cancelled run may be
 * stashed after the cancel has cleared the stash.
 */
module TurnCancels {
  import opened Basics
  import opened TeamTurns

  /** No prompt is served, and the run of one that was cancelled is stashed. */
  ghost predicate Stranded(s: State) {
    && s.turns == map[] && s.pending.Some? && s.replies != []
    && Last(s.replies).ParkedOn? && Last(s.replies).aborted && Last(s.replies).run == s.pending.value
  }

  /** The next prompt then starts no run: it waits for the cancelled one, and its text goes nowhere. */
  lemma NextPromptIsSwallowed(s: State, s': State, p: PromptId, r: RunId)
    requires Stranded(s) && Prompt(s, s', p, r)
    ensures s'.runs == s.runs && p in s'.turns && s'.turns[p] == Racing(Last(s.replies).run, false, false)
  {
  }

  /** A step that is not a prompt. */
  ghost predicate Settles(s: State, s': State) {
    || Park(s, s') || Cancel(s, s')
    || (exists r, result, lead :: Finish(s, s', r, result, lead))
    || (exists p :: StopOnPark(s, s', p) || StopOnRun(s, s', p) || Answer(s, s', p))
  }

  ghost predicate Settling(run: seq<State>) {
    run != [] && forall i :: 0 <= i < |run| - 1 ==> Settles(run[i], run[i + 1])
  }

  /** Nothing is stashed, and no turn can still be parked. */
  ghost predicate PastParking(s: State) {
    s.pending.None? && forall p :: p in s.turns ==> s.turns[p].Draining?
  }

  lemma {:induction false} StaysPastParking(run: seq<State>)
    requires Settling(run) && PastParking(run[0])
    ensures PastParking(Last(run))
  {
    if |run| > 1 {
      StaysPastParking(Init(run));
      assert Settles(run[|run| - 2], run[|run| - 1]);
      SettlesPastParking(Last(Init(run)), Last(run));
    }
  }

  lemma SettlesPastParking(s: State, s': State)
    requires Settles(s, s') && PastParking(s)
    ensures PastParking(s')
  {
  }

  /** A cancelled turn that still races can be parked. */
  lemma ParksAfterCancel(s: State, p: PromptId) returns (run: seq<State>)
    requires s.turns.Keys == {p} && s.turns[p].Racing? && s.turns[p].aborted && !s.parked
    ensures Settling(run) && run[0] == s && Stranded(Last(run))
  {
    var r := s.turns[p].run;
    var told := s.(parked := true, turns := map q | q in s.turns :: Signalled(s.turns[q]));
    var stashed := told.(pending := Some(r), turns := told.turns - {p}, replies := told.replies + [ParkedOn(p, r, true)]);
    assert Park(s, told);
    assert told.turns[p] == Racing(r, true, true);
    assert StopOnPark(told, stashed, p);
    assert stashed.turns == map[];
    run := [s, told, stashed];
  }

  /**
   * Main result: after a cancel of the prompt that is being served, its run can come to be stashed for the next prompt
   * exactly when the prompt was still racing its run against a question.
   */
  lemma CancelCanStrandIff(s: State, s': State, p: PromptId)
    requires Inv(s) && s.turns.Keys == {p} && Cancel(s, s')
    ensures (exists run :: Settling(run) && run[0] == s' && Stranded(Last(run))) <==> s.turns[p].Racing?
  {
    assert p in s.turns;
    assert s'.turns == s.turns[p := AbortTurn(s.turns[p])];
    assert s'.turns.Keys == {p};
    if s.turns[p].Racing? {
      var run := ParksAfterCancel(s', p);
    } else if run :| Settling(run) && run[0] == s' && Stranded(Last(run)) {
      StaysPastParking(run);
    }
  }
}
