/**
 * Prompts, runs and parked questions (legacy/src/acp/team-agent.ts:185-284, 310-386,
 * legacy/src/acp/team-permission.ts:114-174), step by step.
 */
module TeamTurns {
  import opened Basics

  type PromptId = nat

  type RunId = nat

  datatype StopReason = EndTurn | Cancelled | Refusal

  /** How a run ends: a first turn's team result, a steered turn's status, or a failure. */
  datatype Result = Team(cancelled: nat, failed: nat, timeout: nat) | More(status: string) | Rejected(aborted: bool) | Thrown

  function TeamResultStop(cancelled: nat, failed: nat, timeout: nat): StopReason {
    if cancelled > 0 then Cancelled else if failed > 0 || timeout > 0 then Refusal else EndTurn
  }

  function RunMoreStop(status: string): StopReason {
    if status == "success" then EndTurn else if status == "killed" then Cancelled else Refusal
  }

  /** The run's stop reason, unless it threw. */
  function StopOf(r: Result): Option<StopReason> {
    match r
    case Team(cancelled, failed, timeout) => Some(TeamResultStop(cancelled, failed, timeout))
    case More(status) => Some(RunMoreStop(status))
    case Rejected(aborted) => Some(if aborted then Cancelled else Refusal)
    case Thrown => None
  }

  /** A first turn runs the team; later ones steer its lead. */
  datatype Run = Run(steered: bool, result: Option<Result>)

  predicate Fits(run: Run, r: Result) {
    if run.steered then r.More? || r.Rejected? else r.Team? || r.Thrown?
  }

  /** A prompt being served: it races its run against a question being parked, then drains the run's peers. */
  datatype Turn = Racing(run: RunId, signalled: bool, aborted: bool) | Draining(run: RunId, aborted: bool)

  /** What a prompt told the client, and which run's outcome that was. */
  datatype Reply =
    | Delivered(p: PromptId, run: RunId, stop: Option<StopReason>)
    | ParkedOn(p: PromptId, run: RunId, aborted: bool)
    | Aborted(p: PromptId, run: RunId)

  datatype State = State(
    lead: bool,
    pending: Option<RunId>,
    latest: Option<PromptId>,
    parked: bool,
    turns: map<PromptId, Turn>,
    runs: map<RunId, Run>,
    replies: seq<Reply>,
    dropped: set<RunId>)

  const Start := State(false, None, None, false, map[], map[], [], {})

  /** A prompt answers the parked question and resumes its run, or starts a run. */
  predicate Prompt(s: State, s': State, p: PromptId, r: RunId) {
    && p !in s.turns && (forall i :: 0 <= i < |s.replies| ==> s.replies[i].p != p)
    && match s.pending
       case Some(run) => s' == s.(pending := None, parked := false, latest := Some(p), turns := s.turns[p := Racing(run, false, false)])
       case None =>
         r !in s.runs
         && s' == s.(latest := Some(p), turns := s.turns[p := Racing(r, s.parked, false)],
                     runs := s.runs[r := Run(s.lead, None)])
  }

  /** A member parks a question: every racing prompt is told. */
  predicate Park(s: State, s': State) {
    && !s.parked
    && s' == s.(parked := true, turns := map p | p in s.turns :: Signalled(s.turns[p]))
  }

  function Signalled(t: Turn): Turn {
    if t.Racing? then Racing(t.run, true, t.aborted) else t
  }

  predicate Finish(s: State, s': State, r: RunId, result: Result, lead: bool) {
    && r in s.runs && s.runs[r].result.None? && Fits(s.runs[r], result)
    && (s.runs[r].steered ==> lead == (s.lead && !result.Rejected? && result != More("killed")))
    && (result.Thrown? ==> lead == s.lead)
    && s' == s.(runs := s.runs[r := Run(s.runs[r].steered, Some(result))], lead := lead)
  }

  /** The question wins the race: the run is stashed for the next prompt. */
  predicate StopOnPark(s: State, s': State, p: PromptId) {
    && p in s.turns && s.turns[p].Racing? && s.turns[p].signalled
    && s' == s.(pending := Some(s.turns[p].run), turns := s.turns - {p},
                replies := s.replies + [ParkedOn(p, s.turns[p].run, s.turns[p].aborted)])
  }

  /** The run wins the race. */
  predicate StopOnRun(s: State, s': State, p: PromptId) {
    && p in s.turns && s.turns[p].Racing? && s.turns[p].run in s.runs && s.runs[s.turns[p].run].result.Some?
    && s' == s.(turns := s.turns[p := Draining(s.turns[p].run, s.turns[p].aborted)])
  }

  /** A cancelled turn says so; otherwise the run's outcome is returned. */
  predicate Answer(s: State, s': State, p: PromptId) {
    && p in s.turns && s.turns[p].Draining?
    && var Draining(r, aborted) := s.turns[p];
       r in s.runs && s.runs[r].result.Some?
       && s' == if aborted
                then s.(turns := s.turns - {p}, replies := s.replies + [Aborted(p, r)], dropped := s.dropped + {r})
                else s.(turns := s.turns - {p}, replies := s.replies + [Delivered(p, r, StopOf(s.runs[r].result.value))])
  }

  function AbortTurn(t: Turn): Turn {
    if t.Racing? then Racing(t.run, t.signalled, true) else Draining(t.run, true)
  }

  /** Aborts the latest prompt, releases the question, drops the stashed run and the lead. */
  predicate Cancel(s: State, s': State) {
    s' == s.(lead := false, pending := None, parked := false,
             turns := if s.latest.Some? && s.latest.value in s.turns
                      then s.turns[s.latest.value := AbortTurn(s.turns[s.latest.value])] else s.turns,
             dropped := if s.pending.Some? then s.dropped + {s.pending.value} else s.dropped)
  }

  /** A client that waits for each prompt's answer before the next, or one that does not. */
  ghost predicate Step(serial: bool, s: State, s': State) {
    || (exists p, r :: (serial ==> s.turns == map[]) && Prompt(s, s', p, r))
    || Park(s, s') || Cancel(s, s')
    || (exists r, result, lead :: Finish(s, s', r, result, lead))
    || (exists p :: StopOnPark(s, s', p) || StopOnRun(s, s', p) || Answer(s, s', p))
  }

  ghost predicate IsRun(serial: bool, run: seq<State>) {
    && run != [] && run[0] == Start
    && forall i :: 0 <= i < |run| - 1 ==> Step(serial, run[i], run[i + 1])
  }

  // ---------- where each run is ----------

  predicate IsDelivery(reply: Reply, r: RunId) {
    reply.Delivered? && reply.run == r
  }

  function Deliveries(replies: seq<Reply>, r: RunId): nat {
    if replies == [] then 0 else Deliveries(Init(replies), r) + if IsDelivery(Last(replies), r) then 1 else 0
  }

  ghost predicate Held(s: State, r: RunId) {
    exists p :: p in s.turns && s.turns[p].run == r
  }

  predicate Stashed(s: State, r: RunId) {
    s.pending == Some(r)
  }

  /** Started, and neither returned nor dropped. */
  ghost predicate Outstanding(s: State, r: RunId) {
    r in s.runs && Deliveries(s.replies, r) == 0 && r !in s.dropped
  }

  /** A run is outstanding exactly while it is served or stashed, and is never returned twice. */
  ghost predicate RunOk(s: State, r: RunId) {
    if r in s.runs then
      && Deliveries(s.replies, r) <= 1
      && !(Deliveries(s.replies, r) == 1 && r in s.dropped)
      && (Outstanding(s, r) <==> Held(s, r) || Stashed(s, r))
    else Deliveries(s.replies, r) == 0 && r !in s.dropped && !Held(s, r) && !Stashed(s, r)
  }

  ghost predicate Accounted(s: State) {
    forall r :: RunOk(s, r)
  }

  /** One prompt at a time, and no stash while it is served. */
  ghost predicate OneAtATime(s: State) {
    && (forall p, q :: p in s.turns && q in s.turns ==> p == q)
    && (s.pending.Some? ==> s.turns == map[])
    && (forall p :: p in s.turns ==> s.latest == Some(p))
  }

  ghost predicate Inv(s: State) {
    Accounted(s) && OneAtATime(s)
  }

  lemma DeliveriesAppend(replies: seq<Reply>, reply: Reply, r: RunId)
    ensures Deliveries(replies + [reply], r) == Deliveries(replies, r) + if IsDelivery(reply, r) then 1 else 0
  {
    assert Init(replies + [reply]) == replies;
  }

  /** Nothing about a run's place changed. */
  lemma SamePlace(s: State, s': State, r: RunId)
    requires RunOk(s, r) && (r in s.runs <==> r in s'.runs) && s'.replies == s.replies
    requires (r in s'.dropped <==> r in s.dropped) && (Held(s', r) <==> Held(s, r)) && (Stashed(s', r) <==> Stashed(s, r))
    ensures RunOk(s', r)
  {
  }

  lemma PromptKeeps(s: State, s': State, p: PromptId, q: RunId)
    requires Inv(s) && s.turns == map[] && Prompt(s, s', p, q)
    ensures Inv(s')
  {
    assert s'.turns[p].run == if s.pending.Some? then s.pending.value else q;
    forall r ensures RunOk(s', r) {
      assert RunOk(s, r) && RunOk(s, q);
      assert !Held(s, r);
      assert Held(s', r) <==> r == s'.turns[p].run;
    }
  }

  lemma ParkKeeps(s: State, s': State)
    requires Inv(s) && Park(s, s')
    ensures Inv(s')
  {
    forall r ensures RunOk(s', r) {
      assert RunOk(s, r);
      if Held(s, r) {
        var p :| p in s.turns && s.turns[p].run == r;
        assert s'.turns[p].run == r;
      }
      SamePlace(s, s', r);
    }
  }

  lemma FinishKeeps(s: State, s': State, q: RunId, result: Result, lead: bool)
    requires Inv(s) && Finish(s, s', q, result, lead)
    ensures Inv(s')
  {
    forall r ensures RunOk(s', r) {
      assert RunOk(s, r);
      assert Held(s', r) <==> Held(s, r);
      SamePlace(s, s', r);
    }
  }

  lemma StopOnRunKeeps(s: State, s': State, p: PromptId)
    requires Inv(s) && StopOnRun(s, s', p)
    ensures Inv(s')
  {
    forall r ensures RunOk(s', r) {
      assert RunOk(s, r);
      if Held(s, r) {
        var x :| x in s.turns && s.turns[x].run == r;
        assert s'.turns[x].run == r;
      }
      SamePlace(s, s', r);
    }
  }

  lemma StopOnParkKeeps(s: State, s': State, p: PromptId)
    requires Inv(s) && StopOnPark(s, s', p)
    ensures Inv(s')
  {
    var q := s.turns[p].run;
    assert forall x :: x in s.turns ==> x == p;
    assert s'.turns == map[];
    forall r ensures RunOk(s', r) {
      assert RunOk(s, r);
      DeliveriesAppend(s.replies, Last(s'.replies), r);
      assert Held(s, r) <==> r == q;
      assert !Held(s', r);
    }
  }

  lemma AnswerKeeps(s: State, s': State, p: PromptId)
    requires Inv(s) && Answer(s, s', p)
    ensures Inv(s')
  {
    var q := s.turns[p].run;
    assert forall x :: x in s.turns ==> x == p;
    assert s'.turns == map[];
    forall r ensures RunOk(s', r) {
      assert RunOk(s, r);
      DeliveriesAppend(s.replies, Last(s'.replies), r);
      assert Held(s, r) <==> r == q;
      assert !Held(s', r);
    }
  }

  lemma CancelKeeps(s: State, s': State)
    requires Inv(s) && Cancel(s, s')
    ensures Inv(s')
  {
    forall r ensures RunOk(s', r) {
      assert RunOk(s, r);
      if Held(s, r) {
        var x :| x in s.turns && s.turns[x].run == r;
        assert s'.turns[x].run == r;
      }
      assert Held(s', r) ==> Held(s, r);
    }
  }

  lemma StepKeeps(s: State, s': State)
    requires Inv(s) && Step(true, s, s')
    ensures Inv(s')
  {
    if p, r :| s.turns == map[] && Prompt(s, s', p, r) {
      PromptKeeps(s, s', p, r);
    } else if Park(s, s') {
      ParkKeeps(s, s');
    } else if Cancel(s, s') {
      CancelKeeps(s, s');
    } else if r, result, lead :| Finish(s, s', r, result, lead) {
      FinishKeeps(s, s', r, result, lead);
    } else {
      var p :| StopOnPark(s, s', p) || StopOnRun(s, s', p) || Answer(s, s', p);
      if StopOnPark(s, s', p) { StopOnParkKeeps(s, s', p); }
      else if StopOnRun(s, s', p) { StopOnRunKeeps(s, s', p); }
      else { AnswerKeeps(s, s', p); }
    }
  }

  lemma StartInv()
    ensures Inv(Start)
  {
  }

  lemma {:induction false} RunKeeps(run: seq<State>)
    requires IsRun(true, run)
    ensures Inv(Last(run))
  {
    if |run| == 1 {
      StartInv();
    } else {
      RunKeeps(Init(run));
      assert Step(true, run[|run| - 2], run[|run| - 1]);
      StepKeeps(Last(Init(run)), Last(run));
    }
  }

  // ---------- what a client that waits can rely on ----------

  /** Main result: at most one run is outstanding, and a prompt starts a run only when none is. */
  lemma OneOutstanding(run: seq<State>)
    requires IsRun(true, run)
    ensures forall q, r :: Outstanding(Last(run), q) && Outstanding(Last(run), r) ==> q == r
    ensures Last(run).turns == map[] && Last(run).pending.None? ==> forall r :: !Outstanding(Last(run), r)
  {
    RunKeeps(run);
    var s := Last(run);
    forall q, r | Outstanding(s, q) && Outstanding(s, r) ensures q == r {
      assert RunOk(s, q) && RunOk(s, r);
    }
    forall r ensures s.turns == map[] && s.pending.None? ==> !Outstanding(s, r) {
      assert RunOk(s, r);
    }
  }

  /**
   * Main result: whenever no prompt is being served, each run that was started has been returned by exactly one
   * prompt, or dropped, or is the one stashed by parking; and not two of these.
   */
  lemma ExactlyOnce(run: seq<State>, r: RunId)
    requires IsRun(true, run) && Last(run).turns == map[] && r in Last(run).runs
    ensures var s := Last(run);
            && Deliveries(s.replies, r) <= 1
            && (Deliveries(s.replies, r) == 1 || r in s.dropped || Stashed(s, r))
            && !(Deliveries(s.replies, r) == 1 && r in s.dropped)
            && !(Deliveries(s.replies, r) == 1 && Stashed(s, r))
            && !(r in s.dropped && Stashed(s, r))
  {
    RunKeeps(run);
    assert RunOk(Last(run), r) && !Held(Last(run), r);
  }

  /** Every returned stop reason is that of its finished run, and drained turns are over. */
  ghost predicate Faithful(s: State) {
    && (forall i :: 0 <= i < |s.replies| && s.replies[i].Delivered? ==>
          && s.replies[i].run in s.runs && s.runs[s.replies[i].run].result.Some?
          && s.replies[i].stop == StopOf(s.runs[s.replies[i].run].result.value))
    && (forall r :: r in s.runs && s.runs[r].result.Some? ==> Fits(s.runs[r], s.runs[r].result.value))
  }

  lemma FinishFaithful(s: State, s': State, r: RunId, result: Result, lead: bool)
    requires Faithful(s) && Finish(s, s', r, result, lead)
    ensures Faithful(s')
  {
    assert s'.runs.Keys == s.runs.Keys;
  }

  lemma ReplyFaithful(s: State, s': State, p: PromptId)
    requires Faithful(s) && (StopOnPark(s, s', p) || StopOnRun(s, s', p) || Answer(s, s', p))
    ensures Faithful(s')
  {
    assert s'.runs == s.runs && s.replies <= s'.replies;
  }

  lemma StepFaithful(serial: bool, s: State, s': State)
    requires Faithful(s) && Step(serial, s, s')
    ensures Faithful(s')
  {
    if r, result, lead :| Finish(s, s', r, result, lead) {
      FinishFaithful(s, s', r, result, lead);
    } else if p :| StopOnPark(s, s', p) || StopOnRun(s, s', p) || Answer(s, s', p) {
      ReplyFaithful(s, s', p);
    } else {
      assert s'.replies == s.replies;
    }
  }

  lemma {:induction false} RepliesAreFaithful(serial: bool, run: seq<State>)
    requires IsRun(serial, run)
    ensures Faithful(Last(run))
  {
    if |run| > 1 {
      RepliesAreFaithful(serial, Init(run));
      assert Step(serial, run[|run| - 2], run[|run| - 1]);
      StepFaithful(serial, Last(Init(run)), Last(run));
    }
  }

  /**
   * Main result: what the client is told is what happened: "end_turn" exactly for a team of which no member was cancelled, failed
   * or timed out, or a steered success; "cancelled" exactly when a member was, the lead was killed, or the run was
   * rejected after an abort; no reason exactly when the run threw; else "refusal".
   */
  lemma ReasonsByOutcome(serial: bool, run: seq<State>, i: nat)
    requires IsRun(serial, run) && i < |Last(run).replies| && Last(run).replies[i].Delivered?
    ensures Last(run).replies[i].run in Last(run).runs && Last(run).runs[Last(run).replies[i].run].result.Some?
    ensures var told := Last(run).replies[i].stop;
            var Run(steered, result) := Last(run).runs[Last(run).replies[i].run];
            var r := result.value;
            && (told == Some(EndTurn) <==> r == Team(0, 0, 0) || r == More("success"))
            && (told == Some(Cancelled) <==> (r.Team? && r.cancelled > 0) || r == More("killed") || r == Rejected(true))
            && (told == None <==> r == Thrown)
            && (told == Some(Refusal) <==> (r.Team? && r.cancelled == 0 && r.failed + r.timeout > 0) || r == Rejected(false)
                                           || (r.More? && r.status != "success" && r.status != "killed"))
            && (steered <==> r.More? || r.Rejected?)
  {
    RepliesAreFaithful(serial, run);
    assert "success"[0] == 's' && "killed"[0] == 'k';
  }

  /** A run outlives its prompt only by parking: when no prompt is served, an unfinished run is stashed or was dropped. */
  lemma OutlivesOnlyByParking(run: seq<State>, r: RunId)
    requires IsRun(true, run) && Last(run).turns == map[]
    requires r in Last(run).runs && Last(run).runs[r].result.None?
    ensures Stashed(Last(run), r) || r in Last(run).dropped
  {
    ExactlyOnce(run, r);
    RepliesAreFaithful(true, run);
    if Deliveries(Last(run).replies, r) > 0 { DeliveryIsReply(Last(run).replies, r); }
  }

  lemma {:induction false} DeliveryIsReply(replies: seq<Reply>, r: RunId)
    requires Deliveries(replies, r) > 0
    ensures exists i :: 0 <= i < |replies| && IsDelivery(replies[i], r)
  {
    if IsDelivery(Last(replies), r) {
      assert IsDelivery(replies[|replies| - 1], r);
    } else {
      DeliveryIsReply(Init(replies), r);
      var i :| 0 <= i < |Init(replies)| && IsDelivery(Init(replies)[i], r);
      assert IsDelivery(replies[i], r);
    }
  }

  // ---------- questions and leads ----------

  /** While a question is parked, every prompt that races a run has been told. */
  ghost predicate AllTold(s: State) {
    s.parked ==> forall p :: p in s.turns && s.turns[p].Racing? ==> s.turns[p].signalled
  }

  lemma StepTells(serial: bool, s: State, s': State)
    requires AllTold(s) && Step(serial, s, s')
    ensures AllTold(s')
  {
    if Park(s, s') {
      assert forall p :: p in s'.turns ==> s'.turns[p] == Signalled(s.turns[p]);
    }
  }

  /** Main result: no prompt waits on behind a parked question that it has not been told of. */
  lemma {:induction false} ParkedTellsAll(serial: bool, run: seq<State>)
    requires IsRun(serial, run)
    ensures AllTold(Last(run))
  {
    if |run| > 1 {
      ParkedTellsAll(serial, Init(run));
      assert Step(serial, run[|run| - 2], run[|run| - 1]);
      StepTells(serial, Last(Init(run)), Last(run));
    }
  }

  predicate Finished(s: State, s': State, r: RunId) {
    r in s.runs && s.runs[r].result.None? && r in s'.runs && s'.runs[r].result.Some?
  }

  /** A team's run finishes. */
  ghost predicate TeamFinishes(s: State, s': State) {
    exists r :: Finished(s, s', r) && s'.runs[r].result.value.Team?
  }

  /** A steered run finds that its lead was killed or is dead. */
  ghost predicate LeadLost(s: State, s': State) {
    exists r :: Finished(s, s', r) && (s'.runs[r].result.value == More("killed") || s'.runs[r].result.value.Rejected?)
  }

  /** A team finished at step j, and since then nothing was cancelled and no lead was lost. */
  ghost predicate LeadFrom(run: seq<State>, j: int) {
    && 0 <= j < |run| - 1 && TeamFinishes(run[j], run[j + 1])
    && forall k :: j < k < |run| - 1 ==> !Cancel(run[k], run[k + 1]) && !LeadLost(run[k], run[k + 1])
  }

  lemma LeadStep(serial: bool, s: State, s': State)
    requires Step(serial, s, s') && s'.lead
    ensures TeamFinishes(s, s') || (s.lead && !Cancel(s, s') && !LeadLost(s, s'))
  {
    if r, result, lead :| Finish(s, s', r, result, lead) {
      assert Finished(s, s', r);
      assert forall q :: Finished(s, s', q) ==> q == r;
    } else {
      assert forall q :: !Finished(s, s', q);
    }
  }

  /** Main result: a lead stands only from a team that finished, with no cancel since, and no steered run that was killed or rejected. */
  lemma {:induction false} LeadStands(serial: bool, run: seq<State>) returns (j: int)
    requires IsRun(serial, run) && Last(run).lead
    ensures LeadFrom(run, j)
  {
    var n := |run| - 2;
    assert Step(serial, run[n], run[n + 1]);
    LeadStep(serial, run[n], run[n + 1]);
    if TeamFinishes(run[n], run[n + 1]) {
      j := n;
    } else {
      j := LeadStands(serial, Init(run));
      LeadFromOn(run, j);
    }
  }

  lemma LeadFromOn(run: seq<State>, j: int)
    requires |run| > 1 && LeadFrom(Init(run), j)
    requires !Cancel(run[|run| - 2], run[|run| - 1]) && !LeadLost(run[|run| - 2], run[|run| - 1])
    ensures LeadFrom(run, j)
  {
    var before := Init(run);
    assert forall k :: 0 <= k < |before| ==> before[k] == run[k];
    forall k | j < k < |run| - 1 ensures !Cancel(run[k], run[k + 1]) && !LeadLost(run[k], run[k + 1]) {
      if k < |run| - 2 { assert !Cancel(before[k], before[k + 1]) && !LeadLost(before[k], before[k + 1]); }
    }
  }

  /** The run was started at step j. */
  predicate StartedAt(run: seq<State>, r: RunId, j: int) {
    0 <= j < |run| - 1 && r !in run[j].runs && r in run[j + 1].runs
  }

  /** A run steers a lead exactly when one stood at its start; else it is a new team's. */
  lemma {:induction false} SteersWhoStands(serial: bool, run: seq<State>, r: RunId) returns (j: int)
    requires IsRun(serial, run) && r in Last(run).runs
    ensures StartedAt(run, r, j) && (Last(run).runs[r].steered <==> run[j].lead)
  {
    var n := |run| - 2;
    assert Step(serial, run[n], run[n + 1]);
    if r in run[n].runs {
      j := SteersWhoStands(serial, Init(run), r);
      assert Init(run)[j] == run[j] && Init(run)[j + 1] == run[j + 1];
      SteeredStays(serial, run[n], run[n + 1], r);
    } else {
      j := n;
      StartSteers(serial, run[n], run[n + 1], r);
    }
  }

  lemma SteeredStays(serial: bool, s: State, s': State, r: RunId)
    requires Step(serial, s, s') && r in s.runs
    ensures r in s'.runs && s'.runs[r].steered == s.runs[r].steered
  {
  }

  lemma StartSteers(serial: bool, s: State, s': State, r: RunId)
    requires Step(serial, s, s') && r !in s.runs && r in s'.runs
    ensures s'.runs[r].steered == s.lead
  {
  }

  predicate IsAborted(t: Turn) {
    t.aborted
  }

  ghost predicate NothingDropped(s: State) {
    s.dropped == {} && forall p :: p in s.turns ==> !IsAborted(s.turns[p])
  }

  lemma StepDropsNothing(serial: bool, s: State, s': State)
    requires NothingDropped(s) && Step(serial, s, s') && !Cancel(s, s')
    ensures NothingDropped(s')
  {
  }

  /** Only a cancel drops a run. */
  lemma {:induction false} OnlyCancelDrops(serial: bool, run: seq<State>)
    requires IsRun(serial, run)
    requires forall i :: 0 <= i < |run| - 1 ==> !Cancel(run[i], run[i + 1])
    ensures NothingDropped(Last(run))
  {
    if |run| > 1 {
      OnlyCancelDrops(serial, Init(run));
      assert Step(serial, run[|run| - 2], run[|run| - 2 + 1]) && !Cancel(run[|run| - 2], run[|run| - 2 + 1]);
      StepDropsNothing(serial, Last(Init(run)), Last(run));
    }
  }

  /** A client that does not wait can have two runs at once. */
  lemma OverlappingPrompts() returns (run: seq<State>)
    ensures IsRun(false, run) && Outstanding(Last(run), 0) && Outstanding(Last(run), 1)
  {
    var s1 := Start.(latest := Some(0), turns := map[0 := Racing(0, false, false)], runs := map[0 := Run(false, None)]);
    var s2 := s1.(latest := Some(1), turns := s1.turns[1 := Racing(1, false, false)], runs := s1.runs[1 := Run(false, None)]);
    assert Prompt(Start, s1, 0, 0) && Prompt(s1, s2, 1, 1);
    run := [Start, s1, s2];
  }
}
