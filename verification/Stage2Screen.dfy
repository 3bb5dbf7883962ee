/**
 * The stage-2 screen (eval/pilot/stage2.py:165-253): a dispatcher that starts one thread per candidate,
 * and the threads, interleaved step by step.
 */
module Stage2Screen {
  import opened Basics

  type Task = string

  /** What the outside world answers: the reference check, and each seed's reward if the cell ran. */
  datatype Oracle = Oracle(gold: Task -> bool, reward: (Task, nat) -> Option<real>)

  datatype Verdict = Qualifies | TooEasy | ReferenceFails | StoppedAtCap | CellFailed

  const Wanted := 8
  const Slots := 4

  /** Seed 1 alone rules a task out. */
  predicate SeedOneRulesOut(o: Oracle, t: Task) {
    o.reward(t, 1).Some? && o.reward(t, 1).value > 0.90
  }

  /** The verdict from the rewards there are. */
  function Judged(o: Oracle, t: Task, both: bool): Verdict {
    if o.reward(t, 1).None? || (both && o.reward(t, 2).None?) then CellFailed
    else if both && (o.reward(t, 1).value + o.reward(t, 2).value) / 2.0 <= 0.45 then Qualifies
    else TooEasy
  }

  /** Where a live thread is. `Closing` is past its verdict but still alive. */
  datatype Phase = AtGold | AtAdmit(seed: nat) | InCell(seed: nat) | AtVerdict(both: bool) | Closing

  datatype Ending = Exhausted | Full | Cut

  /** Where the dispatcher is: each look at the shared state is a step of its own. */
  datatype Place = Considering | Pruning | CheckingFull | CheckingRoom | Deciding | Joining(why: Ending) | Done(end: Ending)

  datatype State = State(
    place: Place,
    next: nat,
    running: set<Task>,
    live: map<Task, Phase>,
    verdicts: map<Task, Verdict>)

  const Start := State(Considering, 0, {}, map[], map[])

  function QualifiedIn(verdicts: map<Task, Verdict>): set<Task> {
    set t | t in verdicts && verdicts[t] == Qualifies
  }

  function Qualified(s: State): set<Task> {
    QualifiedIn(s.verdicts)
  }

  function IsQualified(s: State): Task -> bool {
    t => t in s.verdicts && s.verdicts[t] == Qualifies
  }

  function QualifiedInOrder(candidates: seq<Task>, s: State): seq<Task> {
    Filter(candidates, IsQualified(s))
  }

  function FirstWanted(tasks: seq<Task>): seq<Task> {
    if |tasks| <= Wanted then tasks else tasks[..Wanted]
  }

  predicate IsFinal(v: Verdict) {
    v.Qualifies? || v.TooEasy? || v.ReferenceFails?
  }

  // ---------- the threads ----------

  function Close(s: State, t: Task, v: Verdict): State {
    s.(live := s.live[t := Closing], verdicts := s.verdicts[t := v])
  }

  function Move(s: State, t: Task, p: Phase): State {
    s.(live := s.live[t := p])
  }

  /** A thread's next step; admission may be refused, and any step may raise and end the thread. */
  predicate ThreadStep(o: Oracle, t: Task, s: State, s': State) {
    t in s.live
    && (s' == s.(live := s.live - {t})
        || match s.live[t]
           case AtGold => s' == if o.gold(t) then Move(s, t, AtAdmit(1)) else Close(s, t, ReferenceFails)
           case AtAdmit(k) =>
             if k == 2 && SeedOneRulesOut(o, t) then s' == Move(s, t, AtVerdict(false))
             else s' == Move(s, t, InCell(k)) || s' == Close(s, t, StoppedAtCap)
           case InCell(k) => s' == Move(s, t, if k == 1 then AtAdmit(2) else AtVerdict(true))
           case AtVerdict(both) => s' == Close(s, t, Judged(o, t, both))
           case Closing => false)
  }

  // ---------- the dispatcher ----------

  predicate DispatcherStep(candidates: seq<Task>, s: State, s': State) {
    match s.place
    case Considering =>
      if s.next >= |candidates| then s' == s.(place := Joining(Exhausted))
      else if candidates[s.next] in s.verdicts && IsFinal(s.verdicts[candidates[s.next]]) then s' == s.(next := s.next + 1)
      else s' == s.(place := Pruning)
    case Pruning => s' == s.(running := s.running * s.live.Keys, place := CheckingFull)
    case CheckingFull => s' == s.(place := if |Qualified(s)| >= Wanted then Deciding else CheckingRoom)
    case CheckingRoom =>
      s' == s.(place := if |s.running| < Slots && |Qualified(s)| + |s.running| < Wanted then Deciding else Pruning)
    case Deciding =>
      if |Qualified(s)| >= Wanted then s' == s.(place := Joining(Full))
      else s' == s.(place := Joining(Cut)) || Starts(candidates, s, s')
    case Joining(why) => s.live == map[] && s' == s.(place := Done(why))
    case Done(_) => false
  }

  /** Starting a thread fills a slot and moves to the next candidate. */
  predicate Starts(candidates: seq<Task>, s: State, s': State) {
    && s.next < |candidates|
    && var t := candidates[s.next];
       s' == State(Considering, s.next + 1, s.running + {t}, s.live[t := AtGold], s.verdicts)
  }

  ghost predicate Step(candidates: seq<Task>, o: Oracle, s: State, s': State) {
    DispatcherStep(candidates, s, s') || exists t :: ThreadStep(o, t, s, s')
  }

  /** Any interleaving, from a fresh state. */
  ghost predicate IsRun(candidates: seq<Task>, o: Oracle, run: seq<State>) {
    && run != [] && run[0] == Start
    && forall i :: 0 <= i < |run| - 1 ==> Step(candidates, o, run[i], run[i + 1])
  }

  ghost predicate Distinct(candidates: seq<Task>) {
    forall i, j :: 0 <= i < j < |candidates| ==> candidates[i] != candidates[j]
  }

  // ---------- what every step keeps ----------

  /** What a live thread knows, and what it has not yet said. */
  ghost predicate PhaseKnows(o: Oracle, t: Task, p: Phase, verdicts: map<Task, Verdict>) {
    match p
    case AtGold => t !in verdicts
    case AtAdmit(k) => t !in verdicts && o.gold(t) && 1 <= k <= 2
    case InCell(k) => t !in verdicts && o.gold(t) && 1 <= k <= 2 && (k == 2 ==> !SeedOneRulesOut(o, t))
    case AtVerdict(both) => t !in verdicts && o.gold(t) && (both <==> !SeedOneRulesOut(o, t))
    case Closing => t in verdicts
  }

  /** The verdict a task gets when nothing goes wrong. */
  function TrueVerdict(o: Oracle, t: Task): Verdict {
    if !o.gold(t) then ReferenceFails else Judged(o, t, !SeedOneRulesOut(o, t))
  }

  ghost predicate Truthful(o: Oracle, s: State) {
    forall t :: t in s.verdicts && s.verdicts[t] != StoppedAtCap ==> s.verdicts[t] == TrueVerdict(o, t)
  }

  /** Qualified, or still able to be. */
  function Counted(s: State): set<Task> {
    Qualified(s) + s.running
  }

  ghost predicate Begun(candidates: seq<Task>, s: State, t: Task) {
    exists i :: 0 <= i < s.next <= |candidates| && candidates[i] == t
  }

  /** The bounds, given how many run, have qualified, and are counted. */
  predicate BoundedAt(place: Place, running: nat, qualified: nat, counted: nat) {
    && running <= Slots && counted <= Wanted
    && (place.Deciding? ==> qualified >= Wanted || (running < Slots && counted < Wanted))
    && (place == Joining(Full) || place == Done(Full) ==> qualified >= Wanted)
  }

  ghost predicate Bounded(s: State) {
    BoundedAt(s.place, |s.running|, |Qualified(s)|, |Counted(s)|)
  }

  ghost predicate Tracked(candidates: seq<Task>, s: State) {
    && s.next <= |candidates|
    && (forall t :: t in s.live ==> t in s.running)
    && (forall t :: t in s.running || t in s.verdicts ==> Begun(candidates, s, t))
    && (s.place in {Pruning, CheckingFull, CheckingRoom, Deciding} ==> s.next < |candidates|)
    && (s.place in {Joining(Exhausted), Done(Exhausted)} ==> s.next == |candidates|)
    && (s.place.Done? ==> s.live == map[])
  }

  ghost predicate Inv(candidates: seq<Task>, o: Oracle, s: State) {
    && Tracked(candidates, s)
    && Bounded(s)
    && Truthful(o, s)
    && forall t :: t in s.live ==> PhaseKnows(o, t, s.live[t], s.verdicts)
  }

  lemma UnionCard<T>(a: set<T>, b: set<T>)
    ensures |a + b| <= |a| + |b|
  {
  }

  lemma ThreadKnows(candidates: seq<Task>, o: Oracle, t: Task, s: State, s': State)
    requires Inv(candidates, o, s) && ThreadStep(o, t, s, s')
    ensures Truthful(o, s')
    ensures forall u :: u in s'.live ==> PhaseKnows(o, u, s'.live[u], s'.verdicts)
  {
    assert PhaseKnows(o, t, s.live[t], s.verdicts);
    OwnPhase(o, t, s, s');
    forall u | u in s'.live ensures PhaseKnows(o, u, s'.live[u], s'.verdicts) {
      if u != t { assert PhaseKnows(o, u, s.live[u], s.verdicts); }
    }
  }

  /** A thread's own step. */
  lemma OwnPhase(o: Oracle, t: Task, s: State, s': State)
    requires ThreadStep(o, t, s, s') && PhaseKnows(o, t, s.live[t], s.verdicts)
    ensures t in s'.live ==> PhaseKnows(o, t, s'.live[t], s'.verdicts)
    ensures forall u :: u != t ==> (u in s'.live <==> u in s.live) && (u in s.live ==> s'.live[u] == s.live[u])
    ensures forall u :: u != t ==> (u in s'.verdicts <==> u in s.verdicts) && (u in s.verdicts ==> s'.verdicts[u] == s.verdicts[u])
    ensures t in s'.verdicts && s'.verdicts[t] != StoppedAtCap ==>
              s'.verdicts[t] == TrueVerdict(o, t) || (t in s.verdicts && s'.verdicts[t] == s.verdicts[t])
  {
  }

  /** A verdict on a running task is already counted. */
  lemma VerdictCounted(verdicts: map<Task, Verdict>, running: set<Task>, t: Task, v: Verdict)
    requires t !in verdicts && t in running
    ensures QualifiedIn(verdicts) <= QualifiedIn(verdicts[t := v])
    ensures QualifiedIn(verdicts[t := v]) + running == QualifiedIn(verdicts) + running
  {
  }

  lemma BoundedKept(s: State, s': State)
    requires Bounded(s) && s'.place == s.place && s'.running == s.running
    requires Qualified(s) <= Qualified(s') && Counted(s') == Counted(s)
    ensures Bounded(s')
  {
    SubsetCard(Qualified(s), Qualified(s'));
  }

  /** A thread's step writes no verdict, or its own first one. */
  lemma ThreadVerdict(o: Oracle, t: Task, s: State, s': State)
    requires ThreadStep(o, t, s, s') && PhaseKnows(o, t, s.live[t], s.verdicts)
    ensures s'.place == s.place && s'.running == s.running
    ensures s'.verdicts == s.verdicts
         || (t !in s.verdicts && t in s'.verdicts && s'.verdicts == s.verdicts[t := s'.verdicts[t]])
  {
  }

  lemma ThreadBounded(o: Oracle, t: Task, s: State, s': State)
    requires Bounded(s) && ThreadStep(o, t, s, s') && t in s.running && PhaseKnows(o, t, s.live[t], s.verdicts)
    ensures Bounded(s')
  {
    ThreadVerdict(o, t, s, s');
    if s'.verdicts != s.verdicts {
      VerdictCounted(s.verdicts, s.running, t, s'.verdicts[t]);
    }
    BoundedKept(s, s');
  }

  lemma ThreadTracked(candidates: seq<Task>, o: Oracle, t: Task, s: State, s': State)
    requires Inv(candidates, o, s) && ThreadStep(o, t, s, s')
    ensures Tracked(candidates, s')
  {
    assert Begun(candidates, s, t);
    forall u | u in s'.running || u in s'.verdicts ensures Begun(candidates, s', u) {
      assert Begun(candidates, s, u);
    }
  }

  lemma DispatchTracked(candidates: seq<Task>, s: State, s': State)
    requires Tracked(candidates, s) && DispatcherStep(candidates, s, s')
    ensures Tracked(candidates, s')
  {
    forall u | u in s'.running || u in s'.verdicts ensures Begun(candidates, s', u) {
      if u in s.running || u in s.verdicts {
        var i :| 0 <= i < s.next <= |candidates| && candidates[i] == u;
      } else {
        assert candidates[s.next] == u;
      }
    }
  }

  lemma PruneBounded(s: State, s': State)
    requires Bounded(s) && s.place.Pruning? && DispatcherStep([], s, s')
    ensures Bounded(s')
  {
    SubsetCard(s'.running, s.running);
    SubsetCard(Counted(s'), Counted(s));
  }

  lemma RoomBounded(s: State, s': State)
    requires Bounded(s) && s.place.CheckingRoom? && DispatcherStep([], s, s')
    ensures Bounded(s')
  {
    UnionCard(Qualified(s), s.running);
    assert Counted(s') == Counted(s) && Qualified(s') == Qualified(s);
  }

  lemma StartBounded(candidates: seq<Task>, s: State, s': State)
    requires Bounded(s) && s.place.Deciding? && |Qualified(s)| < Wanted && Starts(candidates, s, s')
    ensures Bounded(s')
  {
    var t := candidates[s.next];
    assert Counted(s') == Counted(s) + {t};
    UnionCard(Counted(s), {t});
    UnionCard(s.running, {t});
  }

  lemma QuietBounded(s: State, s': State)
    requires Bounded(s) && s'.running == s.running && s'.verdicts == s.verdicts
    requires s'.place.Deciding? || s'.place == Joining(Full) || s'.place == Done(Full) ==> |Qualified(s)| >= Wanted
    ensures Bounded(s')
  {
    assert Counted(s') == Counted(s) && Qualified(s') == Qualified(s);
  }

  lemma DispatchBounded(candidates: seq<Task>, s: State, s': State)
    requires Bounded(s) && DispatcherStep(candidates, s, s')
    ensures Bounded(s')
  {
    match s.place
    case Pruning => PruneBounded(s, s');
    case CheckingRoom => RoomBounded(s, s');
    case Deciding => if s'.place.Considering? { StartBounded(candidates, s, s'); } else { QuietBounded(s, s'); }
    case _ => QuietBounded(s, s');
  }

  /** A started task is new: the candidates are distinct. */
  lemma DispatchKnows(candidates: seq<Task>, o: Oracle, s: State, s': State)
    requires Distinct(candidates) && Inv(candidates, o, s) && DispatcherStep(candidates, s, s')
    ensures forall u :: u in s'.live ==> PhaseKnows(o, u, s'.live[u], s'.verdicts)
  {
    if s.place.Deciding? && s'.place.Considering? {
      NextIsNew(candidates, s);
      StartKnows(candidates, o, s, s');
    }
  }

  lemma NextIsNew(candidates: seq<Task>, s: State)
    requires Distinct(candidates) && Tracked(candidates, s) && s.next < |candidates|
    ensures candidates[s.next] !in s.verdicts
  {
    assert !Begun(candidates, s, candidates[s.next]);
  }

  lemma StartKnows(candidates: seq<Task>, o: Oracle, s: State, s': State)
    requires Starts(candidates, s, s') && candidates[s.next] !in s.verdicts
    requires forall u :: u in s.live ==> PhaseKnows(o, u, s.live[u], s.verdicts)
    ensures forall u :: u in s'.live ==> PhaseKnows(o, u, s'.live[u], s'.verdicts)
  {
  }

  lemma {:induction false} InvHolds(candidates: seq<Task>, o: Oracle, run: seq<State>)
    requires Distinct(candidates) && IsRun(candidates, o, run)
    ensures Inv(candidates, o, Last(run))
  {
    if |run| > 1 {
      var s, s' := Last(Init(run)), Last(run);
      InvHolds(candidates, o, Init(run));
      assert s == run[|run| - 2] && Step(candidates, o, run[|run| - 2], run[|run| - 1]);
      StepKeepsInv(candidates, o, s, s');
    }
  }

  lemma DispatchKeepsInv(candidates: seq<Task>, o: Oracle, s: State, s': State)
    requires Distinct(candidates) && Inv(candidates, o, s) && DispatcherStep(candidates, s, s')
    ensures Inv(candidates, o, s')
  {
    DispatchTracked(candidates, s, s');
    DispatchBounded(candidates, s, s');
    DispatchKnows(candidates, o, s, s');
    assert s'.verdicts == s.verdicts;
  }

  lemma ThreadKeepsInv(candidates: seq<Task>, o: Oracle, t: Task, s: State, s': State)
    requires Inv(candidates, o, s) && ThreadStep(o, t, s, s')
    ensures Inv(candidates, o, s')
  {
    ThreadTracked(candidates, o, t, s, s');
    ThreadBounded(o, t, s, s');
    ThreadKnows(candidates, o, t, s, s');
  }

  lemma StepKeepsInv(candidates: seq<Task>, o: Oracle, s: State, s': State)
    requires Distinct(candidates) && Inv(candidates, o, s) && Step(candidates, o, s, s')
    ensures Inv(candidates, o, s')
  {
    if DispatcherStep(candidates, s, s') {
      DispatchKeepsInv(candidates, o, s, s');
    } else {
      var t :| ThreadStep(o, t, s, s');
      ThreadKeepsInv(candidates, o, t, s, s');
    }
  }

  /** Main result: at every moment of every interleaving, at most four tasks run and at most eight qualify. */
  lemma FourRunEightQualify(candidates: seq<Task>, o: Oracle, run: seq<State>)
    requires Distinct(candidates) && IsRun(candidates, o, run)
    ensures |Last(run).live.Keys| <= 4
    ensures |Qualified(Last(run))| <= 8
    ensures |Qualified(Last(run)) + Last(run).live.Keys| <= 8
  {
    InvHolds(candidates, o, run);
    var s := Last(run);
    SubsetCard(s.live.Keys, s.running);
    SubsetCard(Qualified(s), Counted(s));
    SubsetCard(Qualified(s) + s.live.Keys, Counted(s));
  }

  /**
   * Main result: whatever the interleaving, every verdict is what the reference check and the rewards say, unless the budget stopped
   * the task first: the reference fails; a reward is missing; it is too easy by seed 1 alone or by the mean; or it qualifies.
   */
  lemma VerdictsByReward(candidates: seq<Task>, o: Oracle, run: seq<State>, t: Task)
    requires Distinct(candidates) && IsRun(candidates, o, run) && t in Last(run).verdicts
    ensures var v, one, two := Last(run).verdicts[t], o.reward(t, 1), o.reward(t, 2);
            && (v == ReferenceFails ==> !o.gold(t))
            && (v == CellFailed ==> o.gold(t) && (one.None? || (one.value <= 0.90 && two.None?)))
            && (v == TooEasy ==> o.gold(t) && one.Some?
                                 && (one.value > 0.90 || (two.Some? && (one.value + two.value) / 2.0 > 0.45)))
            && (v == Qualifies ==> o.gold(t) && one.Some? && two.Some? && one.value <= 0.90
                                   && (one.value + two.value) / 2.0 <= 0.45)
  {
    InvHolds(candidates, o, run);
  }

  /** A candidate is passed over exactly when it has a verdict that stands: it qualified, was too easy, or its reference failed. */
  lemma PassedOverIffDecided(candidates: seq<Task>, s: State, s': State)
    requires s.place.Considering? && s.next < |candidates| && DispatcherStep(candidates, s, s')
    ensures var t := candidates[s.next];
            if t in s.verdicts && s.verdicts[t] in {Qualifies, TooEasy, ReferenceFails} then s' == s.(next := s.next + 1)
            else s' == s.(place := Pruning)
  {
  }

  /** Seed 2 is only ever run after a reference that passes, and when seed 1 does not rule the task out by itself. */
  lemma SeedTwoOnlyIfNeeded(candidates: seq<Task>, o: Oracle, run: seq<State>, t: Task)
    requires Distinct(candidates) && IsRun(candidates, o, run) && t in Last(run).live && Last(run).live[t] == InCell(2)
    ensures o.gold(t) && (o.reward(t, 1).Some? ==> o.reward(t, 1).value <= 0.90)
  {
    InvHolds(candidates, o, run);
    assert PhaseKnows(o, t, Last(run).live[t], Last(run).verdicts);
  }

  // ---------- four do run at once ----------

  function Firsts(candidates: seq<Task>, n: nat): set<Task>
    requires n <= |candidates|
  {
    set i | 0 <= i < n :: candidates[i]
  }

  function AllAtGold(tasks: set<Task>): map<Task, Phase> {
    map t | t in tasks :: AtGold
  }

  lemma {:induction false} FirstsCard(candidates: seq<Task>, n: nat)
    requires n <= |candidates| && Distinct(candidates)
    ensures |Firsts(candidates, n)| == n
  {
    if n > 0 {
      FirstsCard(candidates, n - 1);
      assert Firsts(candidates, n) == Firsts(candidates, n - 1) + {candidates[n - 1]};
      assert candidates[n - 1] !in Firsts(candidates, n - 1);
    }
  }

  /** One round of the dispatcher, from a place where a thread may start to the start of the next. */
  lemma OneRound(candidates: seq<Task>, o: Oracle, s: State) returns (round: seq<State>)
    requires s.place.Considering? && s.next < |candidates| && s.verdicts == map[] && s.running == s.live.Keys && |s.running| < 4
    ensures |round| == 6 && round[0] == s && Starts(candidates, s, round[5])
    ensures forall i :: 0 <= i < 5 ==> Step(candidates, o, round[i], round[i + 1])
  {
    var t := candidates[s.next];
    assert s.running * s.live.Keys == s.running;
    assert Qualified(s) == {};
    round := [s, s.(place := Pruning), s.(place := CheckingFull), s.(place := CheckingRoom), s.(place := Deciding),
              State(Considering, s.next + 1, s.running + {t}, s.live[t := AtGold], s.verdicts)];
    assert Qualified(round[2]) == {} && Qualified(round[3]) == {} && Qualified(round[4]) == {};
  }

  lemma Continued(candidates: seq<Task>, o: Oracle, run: seq<State>, round: seq<State>) returns (longer: seq<State>)
    requires IsRun(candidates, o, run) && round != [] && round[0] == Last(run)
    requires forall i :: 0 <= i < |round| - 1 ==> Step(candidates, o, round[i], round[i + 1])
    ensures IsRun(candidates, o, longer) && Last(longer) == Last(round)
  {
    longer := Init(run) + round;
    forall i | 0 <= i < |longer| - 1 ensures Step(candidates, o, longer[i], longer[i + 1]) {
      if i < |run| - 1 {
        assert longer[i] == run[i] && longer[i + 1] == run[i + 1];
      } else {
        assert longer[i] == round[i - (|run| - 1)] && longer[i + 1] == round[i + 1 - (|run| - 1)];
      }
    }
  }

  lemma {:induction false} StartMany(candidates: seq<Task>, o: Oracle, n: nat) returns (run: seq<State>)
    requires Distinct(candidates) && n <= 4 && n <= |candidates|
    ensures IsRun(candidates, o, run) && Last(run) == WithFirsts(candidates, n)
  {
    if n == 0 {
      run := [Start];
      NoFirsts(candidates);
    } else {
      var before := StartMany(candidates, o, n - 1);
      FirstsCard(candidates, n - 1);
      var round := OneRound(candidates, o, WithFirsts(candidates, n - 1));
      OneMoreFirst(candidates, n, round[5]);
      run := Continued(candidates, o, before, round);
    }
  }

  /** The first n candidates have been started, and nothing else has happened. */
  function WithFirsts(candidates: seq<Task>, n: nat): State
    requires n <= |candidates|
  {
    State(Considering, n, Firsts(candidates, n), AllAtGold(Firsts(candidates, n)), map[])
  }

  lemma NoFirsts(candidates: seq<Task>)
    ensures WithFirsts(candidates, 0) == Start
  {
  }

  lemma OneMoreFirst(candidates: seq<Task>, n: nat, s: State)
    requires 0 < n <= |candidates| && Starts(candidates, WithFirsts(candidates, n - 1), s)
    ensures s == WithFirsts(candidates, n)
  {
    assert Firsts(candidates, n) == Firsts(candidates, n - 1) + {candidates[n - 1]};
  }

  /** With four candidates or more, some run has four of them running at once. */
  lemma FourDoRun(candidates: seq<Task>, o: Oracle) returns (run: seq<State>)
    requires Distinct(candidates) && |candidates| >= 4
    ensures IsRun(candidates, o, run) && |Last(run).live.Keys| == 4
  {
    run := StartMany(candidates, o, 4);
    FirstsCard(candidates, 4);
    assert Last(run).live.Keys == Firsts(candidates, 4);
  }

  // ---------- the sequential rule ----------

  /** The rule as pre-registered: the reference passes and both seeds' mean is at most 0.45. */
  predicate TwoSeedRule(o: Oracle, t: Task) {
    && o.gold(t) && o.reward(t, 1).Some? && o.reward(t, 2).Some?
    && (o.reward(t, 1).value + o.reward(t, 2).value) / 2.0 <= 0.45
  }

  /** Skipping seed 2 cannot change the answer. */
  predicate SkipIsSafe(o: Oracle, t: Task) {
    o.gold(t) && SeedOneRulesOut(o, t) && o.reward(t, 2).Some? ==> o.reward(t, 1).value + o.reward(t, 2).value > 0.90
  }

  lemma NonNegativeIsSafe(o: Oracle, t: Task)
    requires o.reward(t, 2).Some? ==> o.reward(t, 2).value >= 0.0
    ensures SkipIsSafe(o, t)
  {
  }

  /** One task: its verdict is the two-seed rule's exactly when the skip is safe. */
  lemma VerdictIsRule(o: Oracle, t: Task)
    ensures (TrueVerdict(o, t) == Qualifies <==> TwoSeedRule(o, t)) <==> SkipIsSafe(o, t)
  {
  }

  /** Distinct tasks: listing is counting. */
  lemma {:induction false} FilterCard(tasks: seq<Task>, f: Task -> bool)
    requires Distinct(tasks)
    ensures |Filter(tasks, f)| == |set t | t in tasks && f(t)|
  {
    var chosen := set t | t in tasks && f(t);
    if tasks == [] {
      assert chosen == {};
    } else {
      FilterCard(Init(tasks), f);
      var before := set t | t in Init(tasks) && f(t);
      assert forall t :: t in tasks <==> t in Init(tasks) || t == Last(tasks);
      if f(Last(tasks)) {
        assert chosen == before + {Last(tasks)};
      } else {
        assert chosen == before;
      }
    }
  }

  /** Nothing went wrong: every started task has a final verdict. */
  ghost predicate Conclusive(candidates: seq<Task>, s: State) {
    forall i :: 0 <= i < s.next <= |candidates| ==> candidates[i] in s.verdicts && s.verdicts[candidates[i]] in {Qualifies, TooEasy, ReferenceFails}
  }

  lemma QualifiedAreStarted(candidates: seq<Task>, s: State)
    requires Distinct(candidates) && Tracked(candidates, s)
    ensures QualifiedInOrder(candidates, s) == Filter(candidates[..s.next], IsQualified(s))
  {
    var f, prefix, rest := IsQualified(s), candidates[..s.next], candidates[s.next..];
    assert prefix + rest == candidates;
    FilterSplit(prefix, rest, f);
    forall i | s.next <= i < |candidates| ensures !f(candidates[i]) {
      assert !Begun(candidates, s, candidates[i]);
    }
    FilterNone(rest, f);
  }

  lemma QualifiedCard(candidates: seq<Task>, s: State)
    requires Distinct(candidates) && Tracked(candidates, s)
    ensures |QualifiedInOrder(candidates, s)| == |Qualified(s)|
  {
    var f := IsQualified(s);
    FilterCard(candidates, f);
    forall t | t in s.verdicts ensures t in candidates { assert Begun(candidates, s, t); }
    assert Qualified(s) == set t | t in candidates && f(t);
  }

  function Rule(o: Oracle): Task -> bool {
    t => TwoSeedRule(o, t)
  }

  /** The rule as the screen applies it. */
  function Applied(o: Oracle): Task -> bool {
    t => TrueVerdict(o, t) == Qualifies
  }

  lemma PrefixByVerdict(candidates: seq<Task>, o: Oracle, s: State)
    requires Inv(candidates, o, s) && Conclusive(candidates, s)
    ensures Filter(candidates[..s.next], IsQualified(s)) == Filter(candidates[..s.next], Applied(o))
  {
    FilterSame(candidates[..s.next], IsQualified(s), Applied(o));
  }

  /** What a prefix decides, when it is everything or has enough. */
  lemma PrefixDecides(prefix: seq<Task>, rest: seq<Task>, f: Task -> bool)
    requires |Filter(prefix, f)| <= Wanted && (rest == [] || |Filter(prefix, f)| == Wanted)
    ensures FirstWanted(Filter(prefix + rest, f)) == Filter(prefix, f)
  {
    FilterSplit(prefix, rest, f);
  }

  /** What the screen freezes. */
  function Frozen(candidates: seq<Task>, s: State): seq<Task> {
    FirstWanted(QualifiedInOrder(candidates, s))
  }

  /** The qualified are the prefix's, and they are few enough; a full stop has all that is wanted. */
  lemma QualifiedAtEnd(candidates: seq<Task>, o: Oracle, s: State)
    requires Distinct(candidates) && Inv(candidates, o, s) && s.place.Done? && !s.place.end.Cut?
    ensures Frozen(candidates, s) == Filter(candidates[..s.next], IsQualified(s))
    ensures |Filter(candidates[..s.next], IsQualified(s))| <= Wanted
    ensures candidates[s.next..] == [] || |Filter(candidates[..s.next], IsQualified(s))| == Wanted
  {
    QualifiedAreStarted(candidates, s);
    QualifiedCard(candidates, s);
    SubsetCard(Qualified(s), Counted(s));
  }

  /** A run that ends without being cut, and in which every started task got a final verdict. */
  ghost predicate Screened(candidates: seq<Task>, o: Oracle, run: seq<State>) {
    && Distinct(candidates) && IsRun(candidates, o, run) && Conclusive(candidates, Last(run))
    && Last(run).place.Done? && !Last(run).place.end.Cut?
  }

  /** Whatever the interleaving, such a run freezes the first eight candidates, in order, that the verdicts take. */
  lemma ScreenIsDetermined(candidates: seq<Task>, o: Oracle, run: seq<State>)
    requires Screened(candidates, o, run)
    ensures Frozen(candidates, Last(run)) == FirstWanted(Filter(candidates, Applied(o)))
    ensures var taken := Filter(candidates, Applied(o));
            Frozen(candidates, Last(run)) == if |taken| <= 8 then taken else taken[..8]
  {
    var s := Last(run);
    InvHolds(candidates, o, run);
    QualifiedAtEnd(candidates, o, s);
    PrefixByVerdict(candidates, o, s);
    WholeFromPrefix(candidates, s.next, Filter(candidates[..s.next], IsQualified(s)), Applied(o));
  }

  /** Of two rules, one stricter than the other, the first eight are the same exactly when the stricter one takes them. */
  lemma SameFirst(tasks: seq<Task>, f: Task -> bool, g: Task -> bool)
    requires forall t :: f(t) ==> g(t)
    ensures FirstWanted(Filter(tasks, f)) == FirstWanted(Filter(tasks, g)) <==> forall t :: t in FirstWanted(Filter(tasks, g)) ==> f(t)
  {
    var taken := Filter(tasks, g);
    var first := FirstWanted(taken);
    FilterTwice(tasks, g, f);
    FilterMembers(tasks, f);
    if forall t :: t in first ==> f(t) {
      var rest := taken[|first|..];
      assert first + rest == taken;
      FilterSplit(first, rest, f);
      FilterAll(first, f);
      assert rest == [] ==> Filter(rest, f) == [];
    }
  }

  /**
   * Main result: such a run freezes exactly the first eight candidates, in order, that the two-seed rule takes, if and only if
   * skipping seed 2 is safe for each of those eight.
   */
  lemma ScreenIsRuleIff(candidates: seq<Task>, o: Oracle, run: seq<State>)
    requires Screened(candidates, o, run)
    ensures Frozen(candidates, Last(run)) == FirstWanted(Filter(candidates, Rule(o)))
       <==> forall t :: t in FirstWanted(Filter(candidates, Rule(o))) ==> SkipIsSafe(o, t)
  {
    ScreenIsDetermined(candidates, o, run);
    SameFirst(candidates, Applied(o), Rule(o));
    FilterMembers(candidates, Rule(o));
    forall t | t in FirstWanted(Filter(candidates, Rule(o))) ensures Applied(o)(t) <==> SkipIsSafe(o, t) {
      assert t in Filter(candidates, Rule(o));
      VerdictIsRule(o, t);
    }
  }

  /** In particular it does when the skip is safe for every candidate. */
  lemma ScreenIsSequential(candidates: seq<Task>, o: Oracle, run: seq<State>)
    requires Screened(candidates, o, run)
    requires forall t :: t in candidates ==> SkipIsSafe(o, t)
    ensures Frozen(candidates, Last(run)) == FirstWanted(Filter(candidates, Rule(o)))
  {
    ScreenIsRuleIff(candidates, o, run);
    FilterMembers(candidates, Rule(o));
    forall t | t in FirstWanted(Filter(candidates, Rule(o))) ensures t in candidates {
      assert t in Filter(candidates, Rule(o));
    }
  }

  lemma WholeFromPrefix(candidates: seq<Task>, n: nat, chosen: seq<Task>, f: Task -> bool)
    requires n <= |candidates| && chosen == Filter(candidates[..n], f)
    requires |chosen| <= Wanted && (candidates[n..] == [] || |chosen| == Wanted)
    ensures FirstWanted(Filter(candidates, f)) == chosen
  {
    PrefixDecides(candidates[..n], candidates[n..], f);
    assert candidates[..n] + candidates[n..] == candidates;
  }
}
