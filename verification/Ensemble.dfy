/** Coverage of an ensemble of attempts, by union (legacy/eval/experiments/fixit.ts:308-353). */
module Ensemble {
  import opened Basics
  import Sums

  type Checkpoint = string

  /** One attempt at a task: which of its checkpoints passed. */
  type Attempt = map<Checkpoint, bool>

  /** Checkpoints that any of the attempts reports. */
  function Reported(attempts: seq<Attempt>): set<Checkpoint> {
    if attempts == [] then {} else Reported(Init(attempts)) + Last(attempts).Keys
  }

  function Passed(a: Attempt): set<Checkpoint> {
    set id | id in a && a[id]
  }

  /** Checkpoints that any of the attempts passes. */
  function Union(attempts: seq<Attempt>): set<Checkpoint> {
    if attempts == [] then {} else Union(Init(attempts)) + Passed(Last(attempts))
  }

  function FirstK(attempts: seq<Attempt>, k: nat): seq<Attempt> {
    if k <= |attempts| then attempts[..k] else attempts
  }

  datatype Coverage = Coverage(solved: nat, modules: nat)

  function TaskCoverage(attempts: seq<Attempt>, k: nat): Coverage {
    Coverage(|Union(FirstK(attempts, k))|, |Reported(FirstK(attempts, k))|)
  }

  /** All tasks together. */
  function EnsembleCoverage(byTask: seq<seq<Attempt>>, k: nat): Coverage {
    if byTask == [] then Coverage(0, 0)
    else
      var before, last := EnsembleCoverage(Init(byTask), k), TaskCoverage(Last(byTask), k);
      Coverage(before.solved + last.solved, before.modules + last.modules)
  }

  function Ratio(c: Coverage): real {
    if c.modules == 0 then 0.0 else c.solved as real / c.modules as real
  }

  method TaskUnion(included: seq<Attempt>) returns (union: set<Checkpoint>, ids: set<Checkpoint>)
    ensures union == Union(included) && ids == Reported(included)
  {
    union, ids := {}, {};
    for n := 0 to |included|
      invariant union == Union(included[..n]) && ids == Reported(included[..n])
    {
      assert Init(included[..n + 1]) == included[..n];
      union, ids := union + Passed(included[n]), ids + included[n].Keys;
    }
    assert included[..|included|] == included;
  }

  method EnsembleAtK(byTask: seq<seq<Attempt>>, k: nat) returns (coverage: real, modules: nat)
    ensures coverage == Ratio(EnsembleCoverage(byTask, k)) && modules == EnsembleCoverage(byTask, k).modules
  {
    var c := Coverage(0, 0);
    for i := 0 to |byTask|
      invariant c == EnsembleCoverage(byTask[..i], k)
    {
      assert Init(byTask[..i + 1]) == byTask[..i];
      var union, ids := TaskUnion(FirstK(byTask[i], k));
      c := Coverage(c.solved + |union|, c.modules + |ids|);
    }
    assert byTask[..|byTask|] == byTask;
    modules := c.modules;
    coverage := if modules > 0 then c.solved as real / modules as real else 0.0;
  }

  // ---------- more attempts ----------

  lemma {:induction false} PrefixGrows(attempts: seq<Attempt>, j: nat, k: nat)
    requires j <= k <= |attempts|
    ensures Union(attempts[..j]) <= Union(attempts[..k]) && Reported(attempts[..j]) <= Reported(attempts[..k])
  {
    if j < k {
      PrefixGrows(attempts, j, k - 1);
      assert Init(attempts[..k]) == attempts[..k - 1];
    }
  }

  lemma {:induction false} UnionWithin(attempts: seq<Attempt>)
    ensures Union(attempts) <= Reported(attempts)
  {
    if attempts != [] {
      UnionWithin(Init(attempts));
    }
  }

  /** The checkpoints that the first k attempts at a task report. */
  function ReportedBy(attempts: seq<Attempt>, k: nat): set<Checkpoint> {
    Reported(FirstK(attempts, k))
  }

  lemma SameCard(a: set<Checkpoint>, b: set<Checkpoint>)
    requires a <= b
    ensures |a| <= |b| && (|a| == |b| <==> b <= a)
  {
    assert b == a + (b - a);
  }

  lemma TaskGrows(attempts: seq<Attempt>, j: nat, k: nat)
    requires j <= k
    ensures TaskCoverage(attempts, j).solved <= TaskCoverage(attempts, k).solved
    ensures TaskCoverage(attempts, j).modules <= TaskCoverage(attempts, k).modules
    ensures TaskCoverage(attempts, k).solved <= TaskCoverage(attempts, k).modules
    ensures TaskCoverage(attempts, j).modules == TaskCoverage(attempts, k).modules <==> ReportedBy(attempts, k) <= ReportedBy(attempts, j)
  {
    var low, high := FirstK(attempts, j), FirstK(attempts, k);
    assert low == attempts[..|low|] && high == attempts[..|high|];
    PrefixGrows(attempts, |low|, |high|);
    UnionWithin(high);
    SameCard(Union(low), Union(high));
    SameCard(Reported(low), Reported(high));
    SameCard(Union(high), Reported(high));
  }

  /** Attempts j to k report nothing that the first j did not. */
  ghost predicate NothingNew(byTask: seq<seq<Attempt>>, j: nat, k: nat) {
    forall i :: 0 <= i < |byTask| ==> ReportedBy(byTask[i], k) <= ReportedBy(byTask[i], j)
  }

  ghost predicate NothingReported(byTask: seq<seq<Attempt>>, j: nat) {
    forall i :: 0 <= i < |byTask| ==> ReportedBy(byTask[i], j) == {}
  }

  lemma LastTask(byTask: seq<seq<Attempt>>, j: nat, k: nat)
    requires byTask != []
    ensures NothingNew(byTask, j, k) <==> NothingNew(Init(byTask), j, k) && ReportedBy(Last(byTask), k) <= ReportedBy(Last(byTask), j)
    ensures NothingReported(byTask, j) <==> NothingReported(Init(byTask), j) && ReportedBy(Last(byTask), j) == {}
  {
    assert byTask == Init(byTask) + [Last(byTask)];
  }

  lemma {:induction false} EnsembleGrows(byTask: seq<seq<Attempt>>, j: nat, k: nat)
    requires j <= k
    ensures var low, high := EnsembleCoverage(byTask, j), EnsembleCoverage(byTask, k);
            && low.solved <= high.solved && low.modules <= high.modules && high.solved <= high.modules
            && (low.modules == high.modules <==> NothingNew(byTask, j, k))
            && (low.modules == 0 <==> NothingReported(byTask, j))
  {
    if byTask != [] {
      EnsembleGrows(Init(byTask), j, k);
      TaskGrows(Last(byTask), j, k);
      LastTask(byTask, j, k);
    }
  }

  lemma RatioOrder(c: Coverage, d: Coverage)
    requires c.solved <= d.solved && c.solved <= c.modules && (c.modules == d.modules || c.modules == 0)
    ensures Ratio(c) <= Ratio(d)
  {
    if d.modules > 0 {
      Sums.DivCompares(d.solved as real, c.solved as real, d.modules as real);
      assert c.solved as real <= d.solved as real;
      assert d.solved as real / d.modules as real >= 0.0 by {
        Sums.DivCompares(d.solved as real, 0.0, d.modules as real);
      }
    }
  }

  /** Attempts with the same checkpoints, and any outcomes. */
  ghost predicate SameKeys(a: seq<seq<Attempt>>, b: seq<seq<Attempt>>) {
    |a| == |b| && forall i :: 0 <= i < |a| ==> SameKeysIn(a[i], b[i])
  }

  ghost predicate SameKeysIn(a: seq<Attempt>, b: seq<Attempt>) {
    |a| == |b| && forall j :: 0 <= j < |a| ==> a[j].Keys == b[j].Keys
  }

  lemma {:induction false} SameReported(a: seq<Attempt>, b: seq<Attempt>)
    requires SameKeysIn(a, b)
    ensures Reported(a) == Reported(b)
  {
    if a != [] {
      SameReported(Init(a), Init(b));
    }
  }

  lemma SameConditions(a: seq<seq<Attempt>>, b: seq<seq<Attempt>>, j: nat, k: nat)
    requires SameKeys(a, b)
    ensures NothingNew(a, j, k) <==> NothingNew(b, j, k)
    ensures NothingReported(a, j) <==> NothingReported(b, j)
  {
    forall i, m: nat | 0 <= i < |a| ensures ReportedBy(a[i], m) == ReportedBy(b[i], m) {
      SameReported(FirstK(a[i], m), FirstK(b[i], m));
    }
  }

  // ---------- the outcome that shows a drop ----------

  /** The first j attempts pass everything, later ones nothing. */
  function EarlyOnly(attempts: seq<Attempt>, j: nat): seq<Attempt> {
    seq(|attempts|, i requires 0 <= i < |attempts| => map id | id in attempts[i] :: i < j)
  }

  function EarlyOnlyAll(byTask: seq<seq<Attempt>>, j: nat): seq<seq<Attempt>> {
    seq(|byTask|, i requires 0 <= i < |byTask| => EarlyOnly(byTask[i], j))
  }

  lemma {:induction false} EarlyUnion(attempts: seq<Attempt>, j: nat, m: nat)
    requires m <= |attempts|
    ensures Union(EarlyOnly(attempts, j)[..m]) == ReportedBy(attempts[..m], j)
  {
    if m > 0 {
      var early := EarlyOnly(attempts, j);
      EarlyUnion(attempts, j, m - 1);
      assert Init(early[..m]) == early[..m - 1] && Last(early[..m]) == early[m - 1];
      if m - 1 < j {
        assert Passed(early[m - 1]) == attempts[m - 1].Keys;
        assert FirstK(attempts[..m], j) == attempts[..m] && FirstK(attempts[..m - 1], j) == attempts[..m - 1];
        assert Init(attempts[..m]) == attempts[..m - 1];
      } else {
        assert Passed(early[m - 1]) == {};
        assert FirstK(attempts[..m], j) == attempts[..j] == FirstK(attempts[..m - 1], j);
      }
    }
  }

  lemma EarlyTask(attempts: seq<Attempt>, j: nat, k: nat)
    requires j <= k
    ensures TaskCoverage(EarlyOnly(attempts, j), k) == Coverage(|ReportedBy(attempts, j)|, |ReportedBy(attempts, k)|)
  {
    var m := |FirstK(attempts, k)|;
    EarlyUnion(attempts, j, m);
    SameReported(FirstK(EarlyOnly(attempts, j), k), FirstK(attempts, k));
    assert FirstK(EarlyOnly(attempts, j), k) == EarlyOnly(attempts, j)[..m];
    assert FirstK(attempts[..m], j) == FirstK(attempts, j);
  }

  lemma {:induction false} EarlyAll(byTask: seq<seq<Attempt>>, j: nat, k: nat)
    requires j <= k
    ensures EnsembleCoverage(EarlyOnlyAll(byTask, j), k) == Coverage(EnsembleCoverage(byTask, j).modules, EnsembleCoverage(byTask, k).modules)
  {
    if byTask != [] {
      EarlyAll(Init(byTask), j, k);
      EarlyTask(Last(byTask), j, k);
      assert Init(EarlyOnlyAll(byTask, j)) == EarlyOnlyAll(Init(byTask), j);
    }
  }

  lemma LessThanWhole(m: nat, n: nat)
    requires 0 < m < n
    ensures Ratio(Coverage(m, n)) < Ratio(Coverage(m, m))
  {
    Sums.DivCompares(m as real, n as real, n as real);
  }

  /** Going from j attempts to k never lowers the coverage, whatever passes and fails. */
  ghost predicate NeverLowers(byTask: seq<seq<Attempt>>, j: nat, k: nat) {
    forall outcome :: SameKeys(byTask, outcome) ==> Ratio(EnsembleCoverage(outcome, j)) <= Ratio(EnsembleCoverage(outcome, k))
  }

  /** When the later attempts report nothing new, or the earlier ones nothing at all, coverage does not fall. */
  lemma MoreAttemptsCoverMore(byTask: seq<seq<Attempt>>, j: nat, k: nat)
    requires j <= k && (NothingNew(byTask, j, k) || NothingReported(byTask, j))
    ensures Ratio(EnsembleCoverage(byTask, j)) <= Ratio(EnsembleCoverage(byTask, k))
  {
    EnsembleGrows(byTask, j, k);
    EnsembleGrows(byTask, j, j);
    RatioOrder(EnsembleCoverage(byTask, j), EnsembleCoverage(byTask, k));
  }

  /** Otherwise there is an outcome that makes it fall: everything early passes, everything new fails. */
  lemma CoverageCanDrop(byTask: seq<seq<Attempt>>, j: nat, k: nat)
    requires j <= k && !NothingNew(byTask, j, k) && !NothingReported(byTask, j)
    ensures exists outcome :: SameKeys(byTask, outcome) && Ratio(EnsembleCoverage(outcome, k)) < Ratio(EnsembleCoverage(outcome, j))
  {
    EnsembleGrows(byTask, j, k);
    EarlyAll(byTask, j, k);
    EarlyAll(byTask, j, j);
    LessThanWhole(EnsembleCoverage(byTask, j).modules, EnsembleCoverage(byTask, k).modules);
    EarlyKeys(byTask, j);
  }

  lemma EarlyKeys(byTask: seq<seq<Attempt>>, j: nat)
    ensures SameKeys(byTask, EarlyOnlyAll(byTask, j))
  {
    forall i | 0 <= i < |byTask| ensures SameKeysIn(byTask[i], EarlyOnlyAll(byTask, j)[i]) {
      assert EarlyOnlyAll(byTask, j)[i] == EarlyOnly(byTask[i], j);
    }
  }

  /**
   * Main result: for given checkpoints, and over every outcome, more attempts never lower the coverage exactly when they
   * report no checkpoint that is new for its task, or nothing was reported before.
   */
  lemma NeverLowersIff(byTask: seq<seq<Attempt>>, j: nat, k: nat)
    requires j <= k
    ensures NeverLowers(byTask, j, k) <==> NothingNew(byTask, j, k) || NothingReported(byTask, j)
  {
    if NothingNew(byTask, j, k) || NothingReported(byTask, j) {
      forall outcome | SameKeys(byTask, outcome) ensures Ratio(EnsembleCoverage(outcome, j)) <= Ratio(EnsembleCoverage(outcome, k)) {
        SameConditions(byTask, outcome, j, k);
        MoreAttemptsCoverMore(outcome, j, k);
      }
    } else {
      CoverageCanDrop(byTask, j, k);
    }
  }

  // ---------- one attempt of each task ----------

  /** An included attempt for every task. */
  ghost predicate Picks(byTask: seq<seq<Attempt>>, k: nat, pick: seq<nat>) {
    |pick| == |byTask| && forall i :: 0 <= i < |byTask| ==> pick[i] < k && pick[i] < |byTask[i]|
  }

  function PickedCoverage(byTask: seq<seq<Attempt>>, pick: seq<nat>): Coverage
    requires |pick| == |byTask| && forall i :: 0 <= i < |byTask| ==> pick[i] < |byTask[i]|
  {
    if byTask == [] then Coverage(0, 0)
    else
      var before, a := PickedCoverage(Init(byTask), Init(pick)), Last(byTask)[Last(pick)];
      Coverage(before.solved + |Passed(a)|, before.modules + |a.Keys|)
  }

  /** The picked attempts report all that the included ones do. */
  ghost predicate PicksReportAll(byTask: seq<seq<Attempt>>, k: nat, pick: seq<nat>)
    requires Picks(byTask, k, pick)
  {
    forall i :: 0 <= i < |byTask| ==> ReportedBy(byTask[i], k) <= byTask[i][pick[i]].Keys
  }

  lemma {:induction false} HasEach(attempts: seq<Attempt>, i: nat)
    requires i < |attempts|
    ensures Passed(attempts[i]) <= Union(attempts) && attempts[i].Keys <= Reported(attempts)
  {
    if i < |attempts| - 1 {
      HasEach(Init(attempts), i);
    }
  }

  lemma PickedTask(attempts: seq<Attempt>, k: nat, i: nat)
    requires i < k && i < |attempts| && ReportedBy(attempts, k) <= attempts[i].Keys
    ensures |Passed(attempts[i])| <= TaskCoverage(attempts, k).solved && |attempts[i].Keys| == TaskCoverage(attempts, k).modules
    ensures |Passed(attempts[i])| <= |attempts[i].Keys|
  {
    SubsetCard(Passed(attempts[i]), attempts[i].Keys);
    HasEach(FirstK(attempts, k), i);
    SubsetCard(Passed(attempts[i]), Union(FirstK(attempts, k)));
    assert attempts[i].Keys == ReportedBy(attempts, k);
  }

  lemma {:induction false} PickedAll(byTask: seq<seq<Attempt>>, k: nat, pick: seq<nat>)
    requires Picks(byTask, k, pick) && PicksReportAll(byTask, k, pick)
    ensures PickedCoverage(byTask, pick).solved <= EnsembleCoverage(byTask, k).solved
    ensures PickedCoverage(byTask, pick).solved <= PickedCoverage(byTask, pick).modules == EnsembleCoverage(byTask, k).modules
  {
    if byTask != [] {
      PickedAll(Init(byTask), k, Init(pick));
      PickedTask(Last(byTask), k, Last(pick));
    }
  }

  /** The ensemble covers at least what any choice of one included attempt for each task covers. */
  lemma EnsembleBeatsEachAttempt(byTask: seq<seq<Attempt>>, k: nat, pick: seq<nat>)
    requires Picks(byTask, k, pick) && PicksReportAll(byTask, k, pick)
    ensures Ratio(PickedCoverage(byTask, pick)) <= Ratio(EnsembleCoverage(byTask, k))
  {
    PickedAll(byTask, k, pick);
    RatioOrder(PickedCoverage(byTask, pick), EnsembleCoverage(byTask, k));
  }

  // ---------- attempts that share their checkpoints ----------

  /** Every task was attempted, and its attempts report the same checkpoints. */
  ghost predicate Shared(byTask: seq<seq<Attempt>>) {
    forall i :: 0 <= i < |byTask| ==> byTask[i] != [] && SameCheckpoints(byTask[i], byTask[i][0].Keys)
  }

  ghost predicate SameCheckpoints(attempts: seq<Attempt>, ids: set<Checkpoint>) {
    forall i :: 0 <= i < |attempts| ==> attempts[i].Keys == ids
  }

  lemma {:induction false} ReportedSame(attempts: seq<Attempt>, ids: set<Checkpoint>)
    requires SameCheckpoints(attempts, ids) && attempts != []
    ensures Reported(attempts) == ids
  {
    if |attempts| > 1 {
      ReportedSame(Init(attempts), ids);
    } else {
      assert Reported(Init(attempts)) == {};
    }
  }

  /** Shared checkpoints meet both conditions: nothing is new after the first attempt, and each attempt reports all. */
  lemma SharedIsEnough(byTask: seq<seq<Attempt>>, j: nat, k: nat)
    requires Shared(byTask) && 0 < j <= k
    ensures NothingNew(byTask, j, k)
    ensures forall pick :: Picks(byTask, k, pick) ==> PicksReportAll(byTask, k, pick)
  {
    forall i, m: nat | 0 <= i < |byTask| && 0 < m ensures ReportedBy(byTask[i], m) == byTask[i][0].Keys {
      ReportedSame(FirstK(byTask[i], m), byTask[i][0].Keys);
    }
  }
}
