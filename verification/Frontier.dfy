/**
 * The cascade frontier (legacy/eval/analysis/offline-frontier.ts:84-157,
 * legacy/eval/analysis/humaneval-frontier.ts:98-161), over exact reals.
 */
module Frontier {
  import opened Basics
  import opened Sums

  /** A model's statistics on one instance. */
  datatype ModelStat = ModelStat(p: real, freshTokens: real, totalTokens: real)

  /** The cheap and the strong model on one instance. */
  datatype Obs = Obs(small: ModelStat, large: ModelStat)

  datatype Axis = Fresh | Total

  function CostOf(s: ModelStat, a: Axis): real {
    if a.Fresh? then s.freshTokens else s.totalTokens
  }

  function SmallP(): Obs -> real {
    (o: Obs) => o.small.p
  }

  function LargeP(): Obs -> real {
    (o: Obs) => o.large.p
  }

  /** Accept the cheap model when it is right, else escalate. */
  function OracleP(): Obs -> real {
    (o: Obs) => o.small.p + (1.0 - o.small.p) * o.large.p
  }

  function SmallCost(a: Axis): Obs -> real {
    (o: Obs) => CostOf(o.small, a)
  }

  function LargeCost(a: Axis): Obs -> real {
    (o: Obs) => CostOf(o.large, a)
  }

  /** Always pay the cheap model, and the strong one on the escalated fraction. */
  function OracleCost(a: Axis): Obs -> real {
    (o: Obs) => CostOf(o.small, a) + (1.0 - o.small.p) * CostOf(o.large, a)
  }

  // ---------- the analysis ----------

  datatype AxisResult = AxisResult(small: real, large: real, oracle: real, savingsPossible: bool, oracleDominates: bool)

  datatype Quality = Quality(small: real, large: real, oracle: real)

  datatype Structure = Structure(both: nat, smallOnly: nat, largeOnly: nat, neither: nat)

  datatype PairResult = PairResult(n: nat, structure: Structure, quality: Quality, onFresh: AxisResult, onTotal: AxisResult)

  function Mean(xs: seq<Obs>, f: Obs -> real): real
    requires xs != []
  {
    Sum(xs, f) / |xs| as real
  }

  /** The cheap model's mean cost is less than what its mean success would save. */
  predicate MeansPass(small: real, success: real, large: real) {
    small < success * large
  }

  /** The pre-check compares means; the oracle's verdict compares what really happens on each instance. */
  function AxisOf(xs: seq<Obs>, a: Axis): AxisResult
    requires xs != []
  {
    var small, large, oracle := Mean(xs, SmallCost(a)), Mean(xs, LargeCost(a)), Mean(xs, OracleCost(a));
    AxisResult(small, large, oracle, MeansPass(small, Mean(xs, SmallP()), large),
               Mean(xs, OracleP()) >= Mean(xs, LargeP()) - 0.000000001 && oracle < large)
  }

  /** Instances, by who passes more often than not. */
  function StructureOf(xs: seq<Obs>): Structure {
    if xs == [] then Structure(0, 0, 0, 0)
    else
      var s, o := StructureOf(Init(xs)), Last(xs);
      if o.small.p >= 0.5 && o.large.p >= 0.5 then s.(both := s.both + 1)
      else if o.small.p >= 0.5 then s.(smallOnly := s.smallOnly + 1)
      else if o.large.p >= 0.5 then s.(largeOnly := s.largeOnly + 1)
      else s.(neither := s.neither + 1)
  }

  /** The running sums of one axis. */
  datatype Costs = Costs(s: real, l: real, o: real)

  function CostSums(xs: seq<Obs>, a: Axis): Costs {
    Costs(Sum(xs, SmallCost(a)), Sum(xs, LargeCost(a)), Sum(xs, OracleCost(a)))
  }

  function PlusCost(c: Costs, o: Obs, a: Axis): Costs {
    Costs(c.s + SmallCost(a)(o), c.l + LargeCost(a)(o), c.o + OracleCost(a)(o))
  }

  function QualitySums(xs: seq<Obs>): Quality {
    Quality(Sum(xs, SmallP()), Sum(xs, LargeP()), Sum(xs, OracleP()))
  }

  lemma PrefixStep(xs: seq<Obs>, i: nat)
    requires i < |xs|
    ensures forall a :: CostSums(xs[..i + 1], a) == PlusCost(CostSums(xs[..i], a), xs[i], a)
    ensures var q := QualitySums(xs[..i]);
            QualitySums(xs[..i + 1]) == Quality(q.small + SmallP()(xs[i]), q.large + LargeP()(xs[i]), q.oracle + OracleP()(xs[i]))
  {
    assert Init(xs[..i + 1]) == xs[..i];
  }

  lemma StructureStep(xs: seq<Obs>, i: nat)
    requires i < |xs|
    ensures Init(xs[..i + 1]) == xs[..i]
  {
  }

  lemma {:induction false} StructureCovers(xs: seq<Obs>)
    ensures var s := StructureOf(xs); s.both + s.smallOnly + s.largeOnly + s.neither == |xs|
  {
    if xs != [] {
      StructureCovers(Init(xs));
    }
  }

  function MkAxis(n: real, q: Quality, c: Costs): AxisResult
    requires n > 0.0
  {
    AxisResult(c.s / n, c.l / n, c.o / n, MeansPass(c.s / n, q.small / n, c.l / n),
               q.oracle / n >= q.large / n - 0.000000001 && c.o / n < c.l / n)
  }

  method ReconstructPair(xs: seq<Obs>) returns (r: Option<PairResult>)
    ensures r.None? <==> xs == []
    ensures r.Some? ==>
              && r.value.n == |xs| && r.value.structure == StructureOf(xs)
              && r.value.quality == Quality(Mean(xs, SmallP()), Mean(xs, LargeP()), Mean(xs, OracleP()))
              && r.value.onFresh == AxisOf(xs, Fresh) && r.value.onTotal == AxisOf(xs, Total)
  {
    if xs == [] { return None; }
    var structure, q := Structure(0, 0, 0, 0), Quality(0.0, 0.0, 0.0);
    var onFresh, onTotal := Costs(0.0, 0.0, 0.0), Costs(0.0, 0.0, 0.0);
    for i := 0 to |xs|
      invariant structure == StructureOf(xs[..i])
      invariant q == QualitySums(xs[..i])
      invariant onFresh == CostSums(xs[..i], Fresh) && onTotal == CostSums(xs[..i], Total)
    {
      var o := xs[i];
      PrefixStep(xs, i);
      StructureStep(xs, i);
      q := Quality(q.small + SmallP()(o), q.large + LargeP()(o), q.oracle + OracleP()(o));
      onFresh, onTotal := PlusCost(onFresh, o, Fresh), PlusCost(onTotal, o, Total);
      if o.small.p >= 0.5 && o.large.p >= 0.5 { structure := structure.(both := structure.both + 1); }
      else if o.small.p >= 0.5 { structure := structure.(smallOnly := structure.smallOnly + 1); }
      else if o.large.p >= 0.5 { structure := structure.(largeOnly := structure.largeOnly + 1); }
      else { structure := structure.(neither := structure.neither + 1); }
    }
    assert xs[..|xs|] == xs;
    var n := |xs| as real;
    r := Some(PairResult(|xs|, structure, Quality(q.small / n, q.large / n, q.oracle / n), MkAxis(n, q, onFresh), MkAxis(n, q, onTotal)));
  }

  lemma OneOracle(o: Obs, a: Axis)
    ensures OracleCost(a)(o) == CostOf(o.small, a) + (1.0 - o.small.p) * CostOf(o.large, a)
  {
  }

  /** The fresh axis, by the tokens that it is made of; the oracle pays the strong model on the escalated fraction. */
  lemma FreshByTokens(xs: seq<Obs>)
    requires xs != []
    ensures var n, r := |xs| as real, AxisOf(xs, Fresh);
            && r.small == Sum(xs, (o: Obs) => o.small.freshTokens) / n && r.large == Sum(xs, (o: Obs) => o.large.freshTokens) / n
            && r.oracle == Sum(xs, (o: Obs) => o.small.freshTokens + (1.0 - o.small.p) * o.large.freshTokens) / n
  {
    SumSame(xs, SmallCost(Fresh), (o: Obs) => o.small.freshTokens);
    SumSame(xs, LargeCost(Fresh), (o: Obs) => o.large.freshTokens);
    FreshOracle(xs);
  }

  lemma FreshOracle(xs: seq<Obs>)
    ensures Sum(xs, OracleCost(Fresh)) == Sum(xs, (o: Obs) => o.small.freshTokens + (1.0 - o.small.p) * o.large.freshTokens)
  {
    var oracle := (o: Obs) => o.small.freshTokens + (1.0 - o.small.p) * o.large.freshTokens;
    forall i | 0 <= i < |xs| ensures OracleCost(Fresh)(xs[i]) == oracle(xs[i]) {
      OneOracle(xs[i], Fresh);
    }
    SumSame(xs, OracleCost(Fresh), oracle);
  }

  /** The total axis likewise. */
  lemma TotalByTokens(xs: seq<Obs>)
    requires xs != []
    ensures var n, r := |xs| as real, AxisOf(xs, Total);
            && r.small == Sum(xs, (o: Obs) => o.small.totalTokens) / n && r.large == Sum(xs, (o: Obs) => o.large.totalTokens) / n
            && r.oracle == Sum(xs, (o: Obs) => o.small.totalTokens + (1.0 - o.small.p) * o.large.totalTokens) / n
  {
    SumSame(xs, SmallCost(Total), (o: Obs) => o.small.totalTokens);
    SumSame(xs, LargeCost(Total), (o: Obs) => o.large.totalTokens);
    TotalOracle(xs);
  }

  lemma TotalOracle(xs: seq<Obs>)
    ensures Sum(xs, OracleCost(Total)) == Sum(xs, (o: Obs) => o.small.totalTokens + (1.0 - o.small.p) * o.large.totalTokens)
  {
    var oracle := (o: Obs) => o.small.totalTokens + (1.0 - o.small.p) * o.large.totalTokens;
    forall i | 0 <= i < |xs| ensures OracleCost(Total)(xs[i]) == oracle(xs[i]) {
      OneOracle(xs[i], Total);
    }
    SumSame(xs, OracleCost(Total), oracle);
  }

  /** How many instances meet a condition. */
  function CountOf(xs: seq<Obs>, f: Obs -> bool): nat {
    |Filter(xs, f)|
  }

  lemma CountStep(xs: seq<Obs>, f: Obs -> bool)
    requires xs != []
    ensures CountOf(xs, f) == CountOf(Init(xs), f) + if f(Last(xs)) then 1 else 0
  {
    FilterInit(xs, f);
  }

  /** Each cell of the structure counts its own instances: who passes at least half of the time. */
  lemma {:induction false} StructureByCell(xs: seq<Obs>)
    ensures StructureOf(xs).both == CountOf(xs, (o: Obs) => o.small.p >= 0.5 && o.large.p >= 0.5)
    ensures StructureOf(xs).smallOnly == CountOf(xs, (o: Obs) => o.small.p >= 0.5 && o.large.p < 0.5)
    ensures StructureOf(xs).largeOnly == CountOf(xs, (o: Obs) => o.small.p < 0.5 && o.large.p >= 0.5)
    ensures StructureOf(xs).neither == CountOf(xs, (o: Obs) => o.small.p < 0.5 && o.large.p < 0.5)
  {
    if xs != [] {
      StructureByCell(Init(xs));
      CountStep(xs, (o: Obs) => o.small.p >= 0.5 && o.large.p >= 0.5);
      CountStep(xs, (o: Obs) => o.small.p >= 0.5 && o.large.p < 0.5);
      CountStep(xs, (o: Obs) => o.small.p < 0.5 && o.large.p >= 0.5);
      CountStep(xs, (o: Obs) => o.small.p < 0.5 && o.large.p < 0.5);
    }
  }

  // ---------- the oracle ----------

  predicate IsProbability(p: real) {
    0.0 <= p <= 1.0
  }

  /** Probabilities are probabilities. */
  predicate Sane(xs: seq<Obs>) {
    forall i :: 0 <= i < |xs| ==> IsProbability(xs[i].small.p) && IsProbability(xs[i].large.p)
  }

  lemma OracleOne(p: real, q: real)
    requires IsProbability(p) && IsProbability(q)
    ensures p + (1.0 - p) * q >= p && p + (1.0 - p) * q >= q
  {
    MulSign(1.0 - p, q);
    MulSign(p, 1.0 - q);
  }

  lemma OracleAt(o: Obs)
    requires IsProbability(o.small.p) && IsProbability(o.large.p)
    ensures SmallP()(o) <= OracleP()(o) && LargeP()(o) <= OracleP()(o)
  {
    OracleOne(o.small.p, o.large.p);
    assert OracleP()(o) == o.small.p + (1.0 - o.small.p) * o.large.p;
  }

  lemma OracleSums(xs: seq<Obs>)
    requires Sane(xs)
    ensures Sum(xs, OracleP()) >= Sum(xs, SmallP()) && Sum(xs, OracleP()) >= Sum(xs, LargeP())
  {
    forall i | 0 <= i < |xs| ensures SmallP()(xs[i]) <= OracleP()(xs[i]) && LargeP()(xs[i]) <= OracleP()(xs[i]) {
      OracleAt(xs[i]);
    }
    SumLeq(xs, SmallP(), OracleP());
    SumLeq(xs, LargeP(), OracleP());
  }

  /** The oracle is at least as good as either model, so dominance is a question of cost alone. */
  lemma OracleIsBest(xs: seq<Obs>, a: Axis)
    requires xs != [] && Sane(xs)
    ensures Mean(xs, OracleP()) >= Mean(xs, SmallP()) && Mean(xs, OracleP()) >= Mean(xs, LargeP())
    ensures AxisOf(xs, a).oracleDominates <==> Mean(xs, OracleCost(a)) < Mean(xs, LargeCost(a))
  {
    OracleSums(xs);
    DivCompares(Sum(xs, OracleP()), Sum(xs, SmallP()), |xs| as real);
    DivCompares(Sum(xs, OracleP()), Sum(xs, LargeP()), |xs| as real);
  }

  /** What the strong model would have cost where the cheap one is right. */
  function SavedCost(a: Axis): Obs -> real {
    (o: Obs) => o.small.p * CostOf(o.large, a)
  }

  lemma OracleCostSum(xs: seq<Obs>, a: Axis)
    ensures Sum(xs, OracleCost(a)) == Sum(xs, SmallCost(a)) + Sum(xs, LargeCost(a)) - Sum(xs, SavedCost(a))
  {
    var paid := Plus(SmallCost(a), LargeCost(a));
    var both := Plus(OracleCost(a), SavedCost(a));
    forall i | 0 <= i < |xs| ensures both(xs[i]) == paid(xs[i]) {
      MulDistributes(CostOf(xs[i].large, a), 1.0 - xs[i].small.p, xs[i].small.p);
    }
    SumSame(xs, both, paid);
    SumPlus(xs, SmallCost(a), LargeCost(a));
    SumPlus(xs, OracleCost(a), SavedCost(a));
  }

  /** Dominance, in sums: the cheap model costs less than it saves. */
  lemma DominanceIsSavings(xs: seq<Obs>, a: Axis)
    requires xs != [] && Sane(xs)
    ensures AxisOf(xs, a).oracleDominates <==> Sum(xs, SmallCost(a)) < Sum(xs, SavedCost(a))
  {
    OracleIsBest(xs, a);
    OracleCostSum(xs, a);
    DivCompares(Sum(xs, OracleCost(a)), Sum(xs, LargeCost(a)), |xs| as real);
  }

  // ---------- the pre-check ----------

  lemma PreCheckArithmetic(s: real, p: real, l: real, n: real)
    requires n > 0.0
    ensures MeansPass(s / n, p / n, l / n) <==> n * s < p * l
  {
    var m := l / n;
    assert MeansPass(s / n, p / n, m) <==> s / n < (p / n) * m;
    assert (p / n) * m == (p * m) / n;
    DivCompares(s, p * m, n);
    TimesCount(s, p, l, n);
  }

  lemma TimesCount(s: real, p: real, l: real, n: real)
    requires n > 0.0
    ensures s < p * (l / n) <==> n * s < p * l
  {
    var m := l / n;
    SignOfProduct(p * m - s, n);
    assert (p * m) * n == p * (m * n);
    assert m * n == l;
  }

  /** The pre-check, in sums. */
  lemma PreCheckInSums(xs: seq<Obs>, a: Axis)
    requires xs != []
    ensures AxisOf(xs, a).savingsPossible <==>
            |xs| as real * Sum(xs, SmallCost(a)) < Sum(xs, SmallP()) * Sum(xs, LargeCost(a))
  {
    PreCheckArithmetic(Sum(xs, SmallCost(a)), Sum(xs, SmallP()), Sum(xs, LargeCost(a)), |xs| as real);
  }

  /** How an instance compares with another: positive when what is easier is also dearer. */
  function Cross(p: real, l: real, a: Axis): Obs -> real {
    (o: Obs) => (o.small.p - p) * (CostOf(o.large, a) - l)
  }

  function CrossOf(other: Obs, a: Axis): Obs -> real {
    Cross(other.small.p, CostOf(other.large, a), a)
  }

  /** The cheap model's success and the strong model's cost rise together over the instances. */
  ghost predicate SimilarlyOrdered(xs: seq<Obs>, a: Axis) {
    forall i, j :: 0 <= i < |xs| && 0 <= j < |xs| ==> CrossOf(xs[j], a)(xs[i]) >= 0.0
  }

  /** One falls as the other rises. */
  ghost predicate OppositelyOrdered(xs: seq<Obs>, a: Axis) {
    forall i, j :: 0 <= i < |xs| && 0 <= j < |xs| ==> CrossOf(xs[j], a)(xs[i]) <= 0.0
  }

  /** The value of a sum of crosses, given the other sums. */
  function CrossValue(n: real, saved: real, p: real, l: real, x: real, y: real): real {
    (saved - x * l) + (n * (x * y) - y * p)
  }

  lemma CrossGrows(n: real, saved: real, p: real, l: real, x: real, y: real, x': real, y': real)
    ensures CrossValue(n + 1.0, saved + x' * y', p + x', l + y', x, y) == CrossValue(n, saved, p, l, x, y) + (x' - x) * (y' - y)
  {
  }

  function CrossTerm(x: real, y: real, x': real, y': real): real {
    (x' - x) * (y' - y)
  }

  function SavedTerm(x': real, y': real): real {
    x' * y'
  }

  lemma CrossAt(o: Obs, x: real, y: real, a: Axis)
    ensures Cross(x, y, a)(o) == CrossTerm(x, y, o.small.p, CostOf(o.large, a))
  {
  }

  lemma SavedAt(o: Obs, a: Axis)
    ensures SavedCost(a)(o) == SavedTerm(o.small.p, CostOf(o.large, a))
  {
  }

  lemma CrossGrowsTo(n: real, saved: real, p: real, l: real, cross: real, x: real, y: real, x': real, y': real,
                     saved': real, cross': real, w: real, v: real)
    requires saved' == saved + w && w == SavedTerm(x', y') && cross' == cross + v && v == CrossTerm(x, y, x', y')
    requires cross == CrossValue(n, saved, p, l, x, y)
    ensures cross' == CrossValue(n + 1.0, saved', p + x', l + y', x, y)
  {
    CrossGrows(n, saved, p, l, x, y, x', y');
  }

  lemma {:induction false} CrossSum(xs: seq<Obs>, x: real, y: real, a: Axis)
    ensures Sum(xs, Cross(x, y, a))
         == CrossValue(|xs| as real, Sum(xs, SavedCost(a)), Sum(xs, SmallP()), Sum(xs, LargeCost(a)), x, y)
  {
    if xs != [] {
      var before, p, l := Init(xs), Last(xs).small.p, CostOf(Last(xs).large, a);
      var w, v := SavedCost(a)(Last(xs)), Cross(x, y, a)(Last(xs));
      CrossSum(before, x, y, a);
      CrossAt(Last(xs), x, y, a);
      SavedAt(Last(xs), a);
      SumStep(xs, Cross(x, y, a), v);
      SumStep(xs, SavedCost(a), w);
      CrossGrowsTo(|before| as real, Sum(before, SavedCost(a)), Sum(before, SmallP()), Sum(before, LargeCost(a)),
                   Sum(before, Cross(x, y, a)), x, y, p, l, Sum(xs, SavedCost(a)), Sum(xs, Cross(x, y, a)), w, v);
    }
  }

  /** Chebyshev's difference: n times the sum of products, less the product of sums. */
  function Difference(n: real, saved: real, p: real, l: real): real {
    n * saved - p * l
  }

  function DifferenceOf(xs: seq<Obs>, a: Axis): real {
    Difference(|xs| as real, Sum(xs, SavedCost(a)), Sum(xs, SmallP()), Sum(xs, LargeCost(a)))
  }

  lemma DifferenceGrows(n: real, saved: real, p: real, l: real, x: real, y: real,
                        n': real, saved': real, p': real, l': real, cross: real)
    requires n' == n + 1.0 && saved' == saved + x * y && p' == p + x && l' == l + y
    requires cross == CrossValue(n, saved, p, l, x, y)
    ensures Difference(n', saved', p', l') == Difference(n, saved, p, l) + cross
  {
  }

  lemma LastSums(xs: seq<Obs>, a: Axis)
    requires xs != []
    ensures |xs| as real == |Init(xs)| as real + 1.0
    ensures Sum(xs, SmallP()) == Sum(Init(xs), SmallP()) + Last(xs).small.p
    ensures Sum(xs, LargeCost(a)) == Sum(Init(xs), LargeCost(a)) + CostOf(Last(xs).large, a)
  {
  }

  lemma LastSaved(xs: seq<Obs>, a: Axis)
    requires xs != []
    ensures Sum(xs, SavedCost(a)) == Sum(Init(xs), SavedCost(a)) + Last(xs).small.p * CostOf(Last(xs).large, a)
  {
  }

  lemma DifferenceStep(xs: seq<Obs>, before: seq<Obs>, a: Axis, x: real, y: real)
    requires xs != [] && before == Init(xs) && x == Last(xs).small.p && y == CostOf(Last(xs).large, a)
    ensures Difference(|xs| as real, Sum(xs, SavedCost(a)), Sum(xs, SmallP()), Sum(xs, LargeCost(a)))
         == Difference(|before| as real, Sum(before, SavedCost(a)), Sum(before, SmallP()), Sum(before, LargeCost(a)))
            + Sum(before, Cross(x, y, a))
  {
    CrossSum(before, x, y, a);
    LastSums(xs, a);
    LastSaved(xs, a);
    DifferenceGrows(|before| as real, Sum(before, SavedCost(a)), Sum(before, SmallP()), Sum(before, LargeCost(a)), x, y,
                    |xs| as real, Sum(xs, SavedCost(a)), Sum(xs, SmallP()), Sum(xs, LargeCost(a)),
                    Sum(before, Cross(x, y, a)));
  }

  lemma CrossSigns(xs: seq<Obs>, a: Axis)
    requires xs != []
    ensures SimilarlyOrdered(xs, a) ==> SimilarlyOrdered(Init(xs), a) && Sum(Init(xs), CrossOf(Last(xs), a)) >= 0.0
    ensures OppositelyOrdered(xs, a) ==> OppositelyOrdered(Init(xs), a) && Sum(Init(xs), CrossOf(Last(xs), a)) <= 0.0
  {
    var f, zero := CrossOf(Last(xs), a), Always<Obs>(0.0);
    assert forall i :: 0 <= i < |Init(xs)| ==> Init(xs)[i] == xs[i];
    SumAlways(Init(xs), 0.0);
    if SimilarlyOrdered(xs, a) { SumLeq(Init(xs), zero, f); }
    if OppositelyOrdered(xs, a) { SumLeq(Init(xs), f, zero); }
  }

  /** Chebyshev's sum inequality, both ways. */
  lemma {:induction false} Chebyshev(xs: seq<Obs>, a: Axis)
    ensures SimilarlyOrdered(xs, a) ==> DifferenceOf(xs, a) >= 0.0
    ensures OppositelyOrdered(xs, a) ==> DifferenceOf(xs, a) <= 0.0
  {
    if xs != [] {
      Chebyshev(Init(xs), a);
      DifferenceStep(xs, Init(xs), a, Last(xs).small.p, CostOf(Last(xs).large, a));
      CrossSigns(xs, a);
    }
  }

  /** The same comparison, scaled. */
  lemma Scale(n: real, s: real, saved: real)
    requires n > 0.0
    ensures n * s < n * saved <==> s < saved
  {
    SignOfProduct(saved - s, n);
    MulDistributes(n, saved, -s);
  }

  /** The pre-check and the verdict, in sums. */
  predicate PreCheck(n: real, s: real, p: real, l: real) {
    n * s < p * l
  }

  lemma Between(x: real, y: real, z: real)
    ensures y - z >= 0.0 && x < z ==> x < y
    ensures y - z <= 0.0 && x < y ==> x < z
  {
  }

  lemma DifferenceDecides(n: real, s: real, saved: real, p: real, l: real)
    requires n > 0.0
    ensures Difference(n, saved, p, l) >= 0.0 && PreCheck(n, s, p, l) ==> s < saved
    ensures Difference(n, saved, p, l) <= 0.0 && s < saved ==> PreCheck(n, s, p, l)
  {
    assert Difference(n, saved, p, l) == n * saved - p * l;
    Between(n * s, n * saved, p * l);
    Scale(n, s, saved);
  }

  lemma BothInSums(xs: seq<Obs>, a: Axis)
    requires xs != [] && Sane(xs)
    ensures AxisOf(xs, a).savingsPossible <==>
            PreCheck(|xs| as real, Sum(xs, SmallCost(a)), Sum(xs, SmallP()), Sum(xs, LargeCost(a)))
    ensures AxisOf(xs, a).oracleDominates <==> Sum(xs, SmallCost(a)) < Sum(xs, SavedCost(a))
  {
    PreCheckInSums(xs, a);
    DominanceIsSavings(xs, a);
  }

  // ---------- when the pre-check is right ----------

  /** The same instances with another price for the cheap model. */
  function Repriced(xs: seq<Obs>, price: real): seq<Obs> {
    seq(|xs|, i requires 0 <= i < |xs| => Obs(ModelStat(xs[i].small.p, price, price), xs[i].large))
  }

  function Verdict(xs: seq<Obs>, a: Axis, price: real): AxisResult
    requires xs != []
  {
    AxisOf(Repriced(xs, price), a)
  }

  lemma {:induction false} RepricedSums(xs: seq<Obs>, price: real, a: Axis)
    ensures var ys := Repriced(xs, price);
            && Sum(ys, SmallP()) == Sum(xs, SmallP()) && Sum(ys, LargeCost(a)) == Sum(xs, LargeCost(a))
            && Sum(ys, SavedCost(a)) == Sum(xs, SavedCost(a))
  {
    if xs != [] {
      RepricedSums(Init(xs), price, a);
      assert Init(Repriced(xs, price)) == Repriced(Init(xs), price);
    }
  }

  lemma RepricedCost(xs: seq<Obs>, price: real, a: Axis)
    ensures Sum(Repriced(xs, price), SmallCost(a)) == |xs| as real * price
  {
    SumSame(Repriced(xs, price), SmallCost(a), Always(price));
    SumAlways(Repriced(xs, price), price);
  }

  lemma RepricedInSums(xs: seq<Obs>, price: real, a: Axis, spent: real)
    requires xs != [] && Sane(xs) && spent == |xs| as real * price
    ensures Verdict(xs, a, price).savingsPossible <==> PreCheck(|xs| as real, spent, Sum(xs, SmallP()), Sum(xs, LargeCost(a)))
    ensures Verdict(xs, a, price).oracleDominates <==> spent < Sum(xs, SavedCost(a))
  {
    RepricedSums(xs, price, a);
    RepricedCost(xs, price, a);
    BothInSums(Repriced(xs, price), a);
  }

  lemma TimesMean(s: real, n: real)
    requires n > 0.0
    ensures n * (s / n) == s
  {
  }

  /** A price whose cost over the instances is the given one. */
  lemma PriceFor(xs: seq<Obs>, a: Axis, spent: real) returns (price: real)
    requires xs != [] && Sane(xs)
    ensures price == spent / |xs| as real
    ensures Verdict(xs, a, price).savingsPossible <==> PreCheck(|xs| as real, spent, Sum(xs, SmallP()), Sum(xs, LargeCost(a)))
    ensures Verdict(xs, a, price).oracleDominates <==> spent < Sum(xs, SavedCost(a))
  {
    price := spent / |xs| as real;
    TimesMean(spent, |xs| as real);
    RepricedInSums(xs, price, a, spent);
  }

  /** Only the cheap model's mean price matters to either verdict. */
  lemma OnlyTheMeanPrice(xs: seq<Obs>, a: Axis) returns (price: real)
    requires xs != [] && Sane(xs)
    ensures Verdict(xs, a, price).savingsPossible == AxisOf(xs, a).savingsPossible
    ensures Verdict(xs, a, price).oracleDominates == AxisOf(xs, a).oracleDominates
  {
    BothInSums(xs, a);
    price := PriceFor(xs, a, Sum(xs, SmallCost(a)));
  }

  ghost predicate NoNegativeCosts(xs: seq<Obs>, a: Axis) {
    forall i :: 0 <= i < |xs| ==> CostOf(xs[i].large, a) >= 0.0
  }

  lemma NonNegativeSum(xs: seq<Obs>, f: Obs -> real)
    requires forall i :: 0 <= i < |xs| ==> f(xs[i]) >= 0.0
    ensures Sum(xs, f) >= 0.0
  {
    if xs != [] { NonNegativeSum(Init(xs), f); }
  }

  lemma NonNegativeQuotient(x: real, n: real)
    requires x >= 0.0 && n > 0.0
    ensures x / n >= 0.0
  {
  }

  lemma NonNegativeSums(xs: seq<Obs>, a: Axis)
    requires Sane(xs) && NoNegativeCosts(xs, a)
    ensures Sum(xs, SmallP()) >= 0.0 && Sum(xs, LargeCost(a)) >= 0.0 && Sum(xs, SavedCost(a)) >= 0.0
  {
    NonNegativeSum(xs, SmallP());
    NonNegativeSum(xs, LargeCost(a));
    forall i | 0 <= i < |xs| ensures SavedCost(a)(xs[i]) >= 0.0 {
      MulSign(xs[i].small.p, CostOf(xs[i].large, a));
    }
    NonNegativeSum(xs, SavedCost(a));
  }

  /** At no price does the pre-check promise a dominance that is not there. */
  ghost predicate NeverMisleads(xs: seq<Obs>, a: Axis)
    requires xs != []
  {
    forall price :: price >= 0.0 && Verdict(xs, a, price).savingsPossible ==> Verdict(xs, a, price).oracleDominates
  }

  /** At no price does it miss one. */
  ghost predicate NeverMisses(xs: seq<Obs>, a: Axis)
    requires xs != []
  {
    forall price :: price >= 0.0 && Verdict(xs, a, price).oracleDominates ==> Verdict(xs, a, price).savingsPossible
  }

  /** The sign of the difference settles one direction, at any price. */
  lemma AtEveryPrice(xs: seq<Obs>, a: Axis, price: real)
    requires xs != [] && Sane(xs)
    ensures DifferenceOf(xs, a) >= 0.0 && Verdict(xs, a, price).savingsPossible ==> Verdict(xs, a, price).oracleDominates
    ensures DifferenceOf(xs, a) <= 0.0 && Verdict(xs, a, price).oracleDominates ==> Verdict(xs, a, price).savingsPossible
  {
    var spent := |xs| as real * price;
    RepricedInSums(xs, price, a, spent);
    DifferenceDecides(|xs| as real, spent, Sum(xs, SavedCost(a)), Sum(xs, SmallP()), Sum(xs, LargeCost(a)));
  }

  /** Just at what is saved, there is no dominance, and the pre-check passes when the difference is negative. */
  lemma AtWhatIsSaved(n: real, saved: real, p: real, l: real)
    ensures PreCheck(n, saved, p, l) <==> Difference(n, saved, p, l) < 0.0
  {
    assert Difference(n, saved, p, l) == n * saved - p * l;
  }

  /** Just where the pre-check fails, dominance needs a positive difference. */
  lemma AtThePreCheck(n: real, saved: real, p: real, l: real, spent: real)
    requires n > 0.0 && n * spent == p * l
    ensures !PreCheck(n, spent, p, l)
    ensures spent < saved <==> Difference(n, saved, p, l) > 0.0
  {
    assert Difference(n, saved, p, l) == n * saved - p * l;
    Scale(n, spent, saved);
  }

  /** With a negative difference, the price just at what is saved misleads. */
  lemma MisleadingPrice(xs: seq<Obs>, a: Axis) returns (price: real)
    requires xs != [] && Sane(xs) && NoNegativeCosts(xs, a) && DifferenceOf(xs, a) < 0.0
    ensures price >= 0.0 && Verdict(xs, a, price).savingsPossible && !Verdict(xs, a, price).oracleDominates
  {
    NonNegativeSums(xs, a);
    NonNegativeQuotient(Sum(xs, SavedCost(a)), |xs| as real);
    price := PriceFor(xs, a, Sum(xs, SavedCost(a)));
    AtWhatIsSaved(|xs| as real, Sum(xs, SavedCost(a)), Sum(xs, SmallP()), Sum(xs, LargeCost(a)));
  }

  /** What all instances may cost for the pre-check just to fail. */
  lemma Turning(n: real, saved: real, p: real, l: real) returns (spent: real)
    requires n > 0.0 && p >= 0.0 && l >= 0.0
    ensures spent / n >= 0.0 && !PreCheck(n, spent, p, l)
    ensures spent < saved <==> Difference(n, saved, p, l) > 0.0
  {
    MulSign(p, l);
    spent := p * l / n;
    TimesMean(p * l, n);
    NonNegativeQuotient(p * l, n);
    NonNegativeQuotient(spent, n);
    AtThePreCheck(n, saved, p, l, spent);
  }

  /** With a positive one, the price just where the pre-check fails is missed. */
  lemma MissedPrice(xs: seq<Obs>, a: Axis) returns (price: real)
    requires xs != [] && Sane(xs) && NoNegativeCosts(xs, a) && DifferenceOf(xs, a) > 0.0
    ensures price >= 0.0 && Verdict(xs, a, price).oracleDominates && !Verdict(xs, a, price).savingsPossible
  {
    NonNegativeSums(xs, a);
    var spent := Turning(|xs| as real, Sum(xs, SavedCost(a)), Sum(xs, SmallP()), Sum(xs, LargeCost(a)));
    price := PriceFor(xs, a, spent);
  }

  /**
   * Main result: the pre-check never promises a dominance that is not there, whatever the cheap model's price,
   * exactly when success and cost do not fall against each other over the instances.
   */
  lemma NeverMisleadsIff(xs: seq<Obs>, a: Axis)
    requires xs != [] && Sane(xs) && NoNegativeCosts(xs, a)
    ensures NeverMisleads(xs, a) <==> DifferenceOf(xs, a) >= 0.0
  {
    if DifferenceOf(xs, a) >= 0.0 {
      forall price | price >= 0.0 ensures Verdict(xs, a, price).savingsPossible ==> Verdict(xs, a, price).oracleDominates {
        AtEveryPrice(xs, a, price);
      }
    } else {
      var price := MisleadingPrice(xs, a);
    }
  }

  /** Main result: it never misses one exactly when they do not rise together. */
  lemma NeverMissesIff(xs: seq<Obs>, a: Axis)
    requires xs != [] && Sane(xs) && NoNegativeCosts(xs, a)
    ensures NeverMisses(xs, a) <==> DifferenceOf(xs, a) <= 0.0
  {
    if DifferenceOf(xs, a) <= 0.0 {
      forall price | price >= 0.0 ensures Verdict(xs, a, price).oracleDominates ==> Verdict(xs, a, price).savingsPossible {
        AtEveryPrice(xs, a, price);
      }
    } else {
      var price := MissedPrice(xs, a);
    }
  }

  ghost predicate ExactAtEveryPrice(xs: seq<Obs>, a: Axis)
    requires xs != []
  {
    forall price :: price >= 0.0 ==> Verdict(xs, a, price).savingsPossible == Verdict(xs, a, price).oracleDominates
  }

  /** The pre-check is right at every price of the cheap model exactly when success and cost are uncorrelated. */
  lemma ExactIffUncorrelated(xs: seq<Obs>, a: Axis)
    requires xs != [] && Sane(xs) && NoNegativeCosts(xs, a)
    ensures ExactAtEveryPrice(xs, a) <==> DifferenceOf(xs, a) == 0.0
  {
    NeverMisleadsIff(xs, a);
    NeverMissesIff(xs, a);
    assert ExactAtEveryPrice(xs, a) <==> NeverMisleads(xs, a) && NeverMisses(xs, a);
  }

  /**
   * Main result: the mean-based pre-check promises dominance when the cheap model is right where the strong one is
   * dear, and is implied by it when it is right where the strong one is cheap.
   */
  lemma PreCheckVersusOracle(xs: seq<Obs>, a: Axis)
    requires xs != [] && Sane(xs)
    ensures SimilarlyOrdered(xs, a) && AxisOf(xs, a).savingsPossible ==> AxisOf(xs, a).oracleDominates
    ensures OppositelyOrdered(xs, a) && AxisOf(xs, a).oracleDominates ==> AxisOf(xs, a).savingsPossible
  {
    Chebyshev(xs, a);
    var price := OnlyTheMeanPrice(xs, a);
    AtEveryPrice(xs, a, price);
  }

  /** Without an order the pre-check can pass where the cascade only costs more. */
  lemma PreCheckCanMislead() returns (xs: seq<Obs>)
    ensures xs != [] && Sane(xs)
    ensures AxisOf(xs, Total).savingsPossible && !AxisOf(xs, Total).oracleDominates
  {
    var right := Obs(ModelStat(1.0, 0.0, 1.0), ModelStat(1.0, 0.0, 1.0));
    var wrong := Obs(ModelStat(0.0, 0.0, 1.0), ModelStat(1.0, 0.0, 9.0));
    xs := [right, wrong];
    SumTwo(right, wrong, SmallCost(Total));
    SumTwo(right, wrong, SmallP());
    SumTwo(right, wrong, LargeCost(Total));
    SumTwo(right, wrong, SavedCost(Total));
    BothInSums(xs, Total);
  }
}
