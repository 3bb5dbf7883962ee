/**
 * The stage-2 budget (eval/pilot/stage2.py:60-83, 209-215): a reserve-based admission check under a
 * lock, with a spend scan that reads the recorded cells one by one while others are being recorded.
 */
module Stage2Budget {
  import opened Basics

  type Cell = string

  const Ceiling := 7000.0

  // ---------- the object ----------

  function Total(costs: seq<real>): real {
    if costs == [] then 0.0 else Total(Init(costs)) + Last(costs)
  }

  method Spend(costs: seq<real>) returns (spent: real)
    ensures spent == Total(costs)
  {
    spent := 0.0;
    for i := 0 to |costs|
      invariant spent == Total(costs[..i])
    {
      assert Init(costs[..i + 1]) == costs[..i];
      spent := spent + costs[i];
    }
    assert costs[..|costs|] == costs;
  }

  predicate Fits(cap: real, reserve: real, spent: real, running: int) {
    spent + reserve * (running + 1) as real <= cap
  }

  /** The admission counter; its methods run under the lock. */
  class Budget {
    const cap: real
    const reserve: real
    var running: int

    constructor (cap: real, reserve: real)
      ensures this.cap == (if cap <= 7000.0 then cap else 7000.0) && this.reserve == reserve && running == 0
    {
      this.cap := if cap <= Ceiling then cap else Ceiling;
      this.reserve := reserve;
      running := 0;
    }

    method Admit(costs: seq<real>) returns (ok: bool)
      modifies this
      ensures ok == Fits(cap, reserve, Total(costs), old(running))
      ensures running == old(running) + if ok then 1 else 0
    {
      var spent := Spend(costs);
      if spent + reserve * (running + 1) as real > cap { return false; }
      running := running + 1;
      return true;
    }

    method Done()
      modifies this
      ensures running == old(running) - 1
    {
      running := running - 1;
    }
  }

  // ---------- sums over sets of cells ----------

  type Amount = Cell -> real

  ghost function Sum(f: Amount, cells: set<Cell>): real {
    if cells == {} then 0.0
    else
      var c :| c in cells;
      f(c) + Sum(f, cells - {c})
  }

  lemma {:induction false} SumRemove(f: Amount, cells: set<Cell>, c: Cell)
    requires c in cells
    ensures Sum(f, cells) == f(c) + Sum(f, cells - {c})
    decreases |cells|
  {
    var d :| d in cells && Sum(f, cells) == f(d) + Sum(f, cells - {d});
    if d != c {
      SumRemove(f, cells - {d}, c);
      SumRemove(f, cells - {c}, d);
      assert cells - {d} - {c} == cells - {c} - {d};
    }
  }

  lemma SumAdd(f: Amount, cells: set<Cell>, c: Cell)
    requires c !in cells
    ensures Sum(f, cells + {c}) == Sum(f, cells) + f(c)
  {
    SumRemove(f, cells + {c}, c);
    assert cells + {c} - {c} == cells;
  }

  lemma {:induction false} SumSplit(f: Amount, a: set<Cell>, b: set<Cell>)
    requires a !! b
    ensures Sum(f, a + b) == Sum(f, a) + Sum(f, b)
    decreases |b|
  {
    if b == {} {
      assert a + b == a;
    } else {
      var c :| c in b;
      SumSplit(f, a, b - {c});
      SumRemove(f, b, c);
      SumAdd(f, a + (b - {c}), c);
      assert a + (b - {c}) + {c} == a + b;
    }
  }

  ghost predicate NonNegative(f: Amount) {
    forall c :: f(c) >= 0.0
  }

  lemma {:induction false} SumNonNegative(f: Amount, cells: set<Cell>)
    requires NonNegative(f)
    ensures Sum(f, cells) >= 0.0
  {
    if cells != {} {
      var c :| c in cells && Sum(f, cells) == f(c) + Sum(f, cells - {c});
      SumNonNegative(f, cells - {c});
    }
  }

  lemma SumMonotone(f: Amount, a: set<Cell>, b: set<Cell>)
    requires NonNegative(f) && a <= b
    ensures Sum(f, a) <= Sum(f, b)
  {
    SumSplit(f, a, b - a);
    SumNonNegative(f, b - a);
    assert a + (b - a) == b;
  }

  // ---------- the protocol ----------

  /** cost is what each cell will have used; spent is what was on record when the driver started. */
  datatype Config = Config(cap: real, reserve: real, spent: real, cost: Amount)

  /** Who holds the lock: an admission check, which must read what was recorded when it began. */
  datatype Holder = Admitting(c: Cell, must: set<Cell>, seen: set<Cell>)

  datatype State = State(holder: Option<Holder>, running: int, admitted: set<Cell>, recorded: set<Cell>, released: set<Cell>)

  const Start := State(None, 0, {}, {}, {})

  /** Takes the lock for an admission check. */
  predicate Acquire(s: State, s': State, c: Cell) {
    s.holder.None? && c !in s.admitted && s' == s.(holder := Some(Admitting(c, s.recorded, {})))
  }

  /** The scan reads one more record, perhaps one that was not there when it began. */
  predicate Read(s: State, s': State, c: Cell) {
    s.holder.Some? && c in s.recorded && s' == s.(holder := Some(s.holder.value.(seen := s.holder.value.seen + {c})))
  }

  /** The scan has read all that it must: the check decides and drops the lock. */
  ghost predicate Decide(k: Config, s: State, s': State) {
    && s.holder.Some? && s.holder.value.must <= s.holder.value.seen
    && s' == if Fits(k.cap, k.reserve, k.spent + Sum(k.cost, s.holder.value.seen), s.running)
             then s.(holder := None, running := s.running + 1, admitted := s.admitted + {s.holder.value.c})
             else s.(holder := None)
  }

  /** The runner writes a cell's record, whoever holds the lock. */
  predicate Record(s: State, s': State, c: Cell) {
    c in s.admitted - s.released - s.recorded && s' == s.(recorded := s.recorded + {c})
  }

  /** A cell is over, recorded or failed. */
  predicate Release(s: State, s': State, c: Cell) {
    s.holder.None? && c in s.admitted - s.released && s' == s.(running := s.running - 1, released := s.released + {c})
  }

  ghost predicate Step(k: Config, s: State, s': State) {
    Decide(k, s, s') || exists c :: Acquire(s, s', c) || Read(s, s', c) || Record(s, s', c) || Release(s, s', c)
  }

  ghost predicate IsRun(k: Config, run: seq<State>) {
    && run != [] && run[0] == Start
    && forall i :: 0 <= i < |run| - 1 ==> Step(k, run[i], run[i + 1])
  }

  /** What a cell costs above the reserve that was held for it. */
  function Over(k: Config): Amount {
    c => if k.cost(c) > k.reserve then k.cost(c) - k.reserve else 0.0
  }

  /** n reserves. */
  function Held(reserve: real, n: nat): real {
    if n == 0 then 0.0 else Held(reserve, n - 1) + reserve
  }

  lemma {:induction false} HeldIsProduct(reserve: real, n: nat)
    ensures Held(reserve, n) == reserve * n as real
  {
    if n > 0 {
      HeldIsProduct(reserve, n - 1);
      assert reserve * n as real == reserve * (n - 1) as real + reserve;
    }
  }

  lemma FitsHeld(cap: real, reserve: real, spent: real, n: nat)
    ensures Fits(cap, reserve, spent, n) <==> spent + Held(reserve, n + 1) <= cap
  {
    HeldIsProduct(reserve, n + 1);
  }

  ghost function Settled(k: Config, s: State): real {
    k.spent + Sum(k.cost, s.released * s.recorded)
  }

  ghost predicate Shape(s: State) {
    && s.released <= s.admitted && s.recorded <= s.admitted
    && s.running == |s.admitted - s.released|
    && (s.holder.Some? ==>
          && s.holder.value.c !in s.admitted
          && s.released * s.recorded <= s.holder.value.must
          && s.holder.value.seen <= s.recorded)
  }

  /** What is settled, plus a reserve for every cell still out, is covered. */
  ghost predicate Covered(k: Config, s: State)
    requires Shape(s)
  {
    s.admitted != {} ==>
      Settled(k, s) + Held(k.reserve, s.running) <= k.cap + Sum(Over(k), s.released)
  }

  lemma DecideShape(k: Config, s: State, s': State)
    requires Shape(s) && Decide(k, s, s')
    ensures Shape(s')
  {
    var c := s.holder.value.c;
    assert (s.admitted + {c}) - s.released == (s.admitted - s.released) + {c};
  }

  lemma ReleaseShape(s: State, s': State, c: Cell)
    requires Shape(s) && Release(s, s', c)
    ensures Shape(s')
  {
    assert s.admitted - s'.released == (s.admitted - s.released) - {c};
  }

  lemma ShapeKept(k: Config, s: State, s': State)
    requires Shape(s) && Step(k, s, s')
    ensures Shape(s')
  {
    if Decide(k, s, s') {
      DecideShape(k, s, s');
    } else {
      var c :| Acquire(s, s', c) || Read(s, s', c) || Record(s, s', c) || Release(s, s', c);
      if Release(s, s', c) { ReleaseShape(s, s', c); }
    }
  }

  /** An admission looked at everything settled, so the new reserve is covered too. */
  lemma DecideCovered(k: Config, s: State, s': State)
    requires NonNegative(k.cost) && Shape(s) && Shape(s') && Covered(k, s) && Decide(k, s, s')
    ensures Covered(k, s')
  {
    SumMonotone(k.cost, s.released * s.recorded, s.holder.value.seen);
    SumNonNegative(Over(k), s.released);
    FitsHeld(k.cap, k.reserve, k.spent + Sum(k.cost, s.holder.value.seen), s.running);
  }

  /** What settles with a cell is at most its reserve and its excess. */
  lemma SettledGrows(k: Config, s: State, s': State, c: Cell)
    requires NonNegative(k.cost) && Release(s, s', c)
    ensures Settled(k, s') <= Settled(k, s) + k.reserve + Over(k)(c)
  {
    if c in s.recorded {
      assert s'.released * s'.recorded == s.released * s.recorded + {c};
      SumAdd(k.cost, s.released * s.recorded, c);
    } else {
      assert s'.released * s'.recorded == s.released * s.recorded;
      assert k.cost(c) >= 0.0;
    }
  }

  /** Settling a cell frees its reserve; what it cost beyond that is counted. */
  lemma ReleaseCovered(k: Config, s: State, s': State, c: Cell)
    requires NonNegative(k.cost) && Shape(s) && Shape(s') && Covered(k, s) && Release(s, s', c)
    ensures Covered(k, s')
  {
    SumAdd(Over(k), s.released, c);
    SettledGrows(k, s, s', c);
  }

  lemma QuietCovered(k: Config, s: State, s': State, c: Cell)
    requires Shape(s) && Shape(s') && Covered(k, s) && (Acquire(s, s', c) || Read(s, s', c) || Record(s, s', c))
    ensures Covered(k, s')
  {
    assert s'.released * s'.recorded == s.released * s.recorded;
  }

  lemma CoveredKept(k: Config, s: State, s': State)
    requires NonNegative(k.cost) && Shape(s) && Shape(s') && Covered(k, s) && Step(k, s, s')
    ensures Covered(k, s')
  {
    if Decide(k, s, s') {
      DecideCovered(k, s, s');
    } else {
      var c :| Acquire(s, s', c) || Read(s, s', c) || Record(s, s', c) || Release(s, s', c);
      if Release(s, s', c) { ReleaseCovered(k, s, s', c); } else { QuietCovered(k, s, s', c); }
    }
  }

  lemma {:induction false} RunCovered(k: Config, run: seq<State>)
    requires NonNegative(k.cost) && IsRun(k, run)
    ensures Shape(Last(run)) && Covered(k, Last(run))
  {
    if |run| > 1 {
      RunCovered(k, Init(run));
      assert Step(k, run[|run| - 2], run[|run| - 1]);
      ShapeKept(k, Last(Init(run)), Last(run));
      CoveredKept(k, Last(Init(run)), Last(run));
    }
  }

  lemma {:induction false} CostWithinReserve(k: Config, cells: set<Cell>)
    ensures Sum(k.cost, cells) <= Held(k.reserve, |cells|) + Sum(Over(k), cells)
  {
    if cells != {} {
      var c :| c in cells;
      CostWithinReserve(k, cells - {c});
      SumRemove(k.cost, cells, c);
      SumRemove(Over(k), cells, c);
    }
  }

  /** What the next scan could find. */
  ghost function Spent(k: Config, s: State): real {
    k.spent + Sum(k.cost, s.recorded)
  }

  /**
   * Main result: over every interleaving of scans, recordings and releases, once anything has been
   * admitted the recorded spend exceeds the cap by at most what the admitted cells cost above their reserve.
   */
  lemma SpendIsBounded(k: Config, run: seq<State>)
    requires NonNegative(k.cost) && IsRun(k, run)
    ensures Last(run).admitted == {} ==> Spent(k, Last(run)) == k.spent
    ensures Last(run).admitted != {} ==> Spent(k, Last(run)) <= k.cap + Sum(Over(k), Last(run).admitted)
  {
    RunCovered(k, run);
    var s := Last(run);
    SpentIsSettledOrOut(k, s);
    CostWithinReserve(k, s.admitted - s.released);
    SumSplit(Over(k), s.released, s.admitted - s.released);
    assert s.released + (s.admitted - s.released) == s.admitted;
  }

  lemma SpentIsSettledOrOut(k: Config, s: State)
    requires NonNegative(k.cost) && Shape(s)
    ensures Spent(k, s) <= Settled(k, s) + Sum(k.cost, s.admitted - s.released)
  {
    var settled, out := s.released * s.recorded, s.admitted - s.released;
    SumMonotone(k.cost, s.recorded, settled + out);
    SumSplit(k.cost, settled, out);
  }

  lemma {:induction false} NothingOver(k: Config, cells: set<Cell>)
    requires forall c :: c in cells ==> k.cost(c) <= k.reserve
    ensures Sum(Over(k), cells) == 0.0
  {
    if cells != {} {
      var c :| c in cells;
      NothingOver(k, cells - {c});
      SumRemove(Over(k), cells, c);
    }
  }

  /** When every cell stays within its reserve, the cap holds. */
  lemma CapHolds(k: Config, run: seq<State>)
    requires NonNegative(k.cost) && IsRun(k, run)
    requires forall c :: c in Last(run).admitted ==> k.cost(c) <= k.reserve
    ensures Last(run).admitted != {} ==> Spent(k, Last(run)) <= k.cap
  {
    SpendIsBounded(k, run);
    NothingOver(k, Last(run).admitted);
  }

  /** The bound is reached: with room for exactly one reserve, one expensive cell spends its whole excess. */
  lemma BoundIsReached(k: Config, c: Cell)
    requires k.cost(c) > k.reserve && k.spent == k.cap - k.reserve
    ensures exists run :: IsRun(k, run) && Last(run).admitted == {c}
                          && Spent(k, Last(run)) == k.cap + Sum(Over(k), {c}) && Spent(k, Last(run)) > k.cap
  {
    var s1 := Start.(holder := Some(Admitting(c, {}, {})));
    var s2 := State(None, 1, {c}, {}, {});
    var s3 := s2.(recorded := {c});
    var run := [Start, s1, s2, s3];
    assert {} + {c} == {c};
    assert Acquire(Start, s1, c) && Decide(k, s1, s2) && Record(s2, s3, c);
    assert forall i :: 0 <= i < |run| - 1 ==> Step(k, run[i], run[i + 1]);
    SumAdd(k.cost, {}, c);
    SumAdd(Over(k), {}, c);
    assert IsRun(k, run);
  }

  /** Whatever the cap and the prior spend, and in every run, the recorded spend stays within the cap once anything is admitted. */
  ghost predicate CapAlwaysHolds(reserve: real, cost: Amount) {
    forall cap, spent, run :: spent >= 0.0 && IsRun(Config(cap, reserve, spent, cost), run) && Last(run).admitted != {} ==>
      Spent(Config(cap, reserve, spent, cost), Last(run)) <= cap
  }

  /** Main result: the cap always holds exactly when no cell costs more than its reserve. */
  lemma CapAlwaysHoldsIff(reserve: real, cost: Amount)
    requires NonNegative(cost)
    ensures CapAlwaysHolds(reserve, cost) <==> forall c :: cost(c) <= reserve
  {
    if forall c :: cost(c) <= reserve {
      forall cap, spent, run | spent >= 0.0 && IsRun(Config(cap, reserve, spent, cost), run) && Last(run).admitted != {}
        ensures Spent(Config(cap, reserve, spent, cost), Last(run)) <= cap
      {
        CapHolds(Config(cap, reserve, spent, cost), run);
      }
    } else {
      var c :| cost(c) > reserve;
      var k := Config(reserve, reserve, 0.0, cost);
      BoundIsReached(k, c);
      var run :| IsRun(k, run) && Last(run).admitted == {c} && Spent(k, Last(run)) > k.cap;
    }
  }
}
