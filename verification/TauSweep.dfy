/**
 * The signal sweep and the ranking score (legacy/eval/analysis/humaneval-frontier.ts:64-71, 132-161).
 */
module TauSweep {
  import opened Basics
  import opened Sums
  import Frontier

  /** Both models on one task; the signal is missing when no attempt carried one. */
  datatype TaskPair = TaskPair(pC: real, flopsC: real, pE: real, flopsE: real, sig: Option<real>)

  predicate Accepts(t: TaskPair, tau: real) {
    t.sig.Some? && t.sig.value >= tau
  }

  function OracleQuality(): TaskPair -> real {
    (t: TaskPair) => t.pC + (1.0 - t.pC) * t.pE
  }

  function OracleFlops(): TaskPair -> real {
    (t: TaskPair) => t.flopsC + (1.0 - t.pC) * t.flopsE
  }

  function QualityAt(tau: real): TaskPair -> real {
    (t: TaskPair) => if Accepts(t, tau) then t.pC else OracleQuality()(t)
  }

  function FlopsAt(tau: real): TaskPair -> real {
    (t: TaskPair) => if Accepts(t, tau) then t.flopsC else OracleFlops()(t)
  }

  function EscalatesAt(tau: real): TaskPair -> real {
    (t: TaskPair) => if Accepts(t, tau) then 0.0 else 1.0
  }

  datatype Point = Point(tau: real, quality: real, flops: real, escalateRate: real)

  function PointAt(tasks: seq<TaskPair>, tau: real): Point
    requires tasks != []
  {
    var n := |tasks| as real;
    Point(tau, Sum(tasks, QualityAt(tau)) / n, Sum(tasks, FlopsAt(tau)) / n, Sum(tasks, EscalatesAt(tau)) / n)
  }

  method SweepOne(tasks: seq<TaskPair>, tau: real) returns (point: Point)
    requires tasks != []
    ensures point == PointAt(tasks, tau)
  {
    var q, f, esc := 0.0, 0.0, 0.0;
    for i := 0 to |tasks|
      invariant q == Sum(tasks[..i], QualityAt(tau))
      invariant f == Sum(tasks[..i], FlopsAt(tau))
      invariant esc == Sum(tasks[..i], EscalatesAt(tau))
    {
      var t := tasks[i];
      assert Init(tasks[..i + 1]) == tasks[..i];
      if Accepts(t, tau) {
        q, f := q + t.pC, f + t.flopsC;
      } else {
        q, f, esc := q + OracleQuality()(t), f + OracleFlops()(t), esc + 1.0;
      }
    }
    assert tasks[..|tasks|] == tasks;
    var n := |tasks| as real;
    point := Point(tau, q / n, f / n, esc / n);
  }

  lemma {:induction false} EscalationsCounted(tasks: seq<TaskPair>, tau: real, f: TaskPair -> bool)
    requires forall t :: f(t) <==> t.sig.None? || t.sig.value < tau
    ensures Sum(tasks, EscalatesAt(tau)) == |Filter(tasks, f)| as real
  {
    if tasks != [] {
      EscalationsCounted(Init(tasks), tau, f);
      FilterInit(tasks, f);
    }
  }

  /** A point, task by task: the cheap answer stands when its signal reaches the threshold, and is escalated otherwise. */
  lemma PointByTask(tasks: seq<TaskPair>, tau: real)
    requires tasks != []
    ensures var n, p := |tasks| as real, PointAt(tasks, tau);
            && p.quality == Sum(tasks, (t: TaskPair) => if t.sig.Some? && t.sig.value >= tau then t.pC
                                                        else t.pC + (1.0 - t.pC) * t.pE) / n
            && p.flops == Sum(tasks, (t: TaskPair) => if t.sig.Some? && t.sig.value >= tau then t.flopsC
                                                      else t.flopsC + (1.0 - t.pC) * t.flopsE) / n
            && p.escalateRate == |Filter(tasks, (t: TaskPair) => t.sig.None? || t.sig.value < tau)| as real / n
  {
    var quality := (t: TaskPair) => if t.sig.Some? && t.sig.value >= tau then t.pC else t.pC + (1.0 - t.pC) * t.pE;
    var flops := (t: TaskPair) => if t.sig.Some? && t.sig.value >= tau then t.flopsC else t.flopsC + (1.0 - t.pC) * t.flopsE;
    forall i | 0 <= i < |tasks|
      ensures QualityAt(tau)(tasks[i]) == quality(tasks[i]) && FlopsAt(tau)(tasks[i]) == flops(tasks[i])
    {
      var t := tasks[i];
      assert OracleQuality()(t) == t.pC + (1.0 - t.pC) * t.pE && OracleFlops()(t) == t.flopsC + (1.0 - t.pC) * t.flopsE;
    }
    SumSame(tasks, QualityAt(tau), quality);
    SumSame(tasks, FlopsAt(tau), flops);
    EscalationsCounted(tasks, tau, (t: TaskPair) => t.sig.None? || t.sig.value < tau);
  }

  ghost predicate Sane(tasks: seq<TaskPair>) {
    forall i :: 0 <= i < |tasks| ==>
      Frontier.IsProbability(tasks[i].pC) && Frontier.IsProbability(tasks[i].pE) && tasks[i].flopsE >= 0.0
  }

  lemma EscalatingHelps(t: TaskPair)
    requires Frontier.IsProbability(t.pC) && Frontier.IsProbability(t.pE) && t.flopsE >= 0.0
    ensures t.pC <= OracleQuality()(t) && t.flopsC <= OracleFlops()(t)
  {
    MulSign(1.0 - t.pC, t.pE);
    MulSign(1.0 - t.pC, t.flopsE);
  }

  lemma MeansOrdered(tasks: seq<TaskPair>, f: TaskPair -> real, g: TaskPair -> real)
    requires tasks != [] && forall i :: 0 <= i < |tasks| ==> f(tasks[i]) <= g(tasks[i])
    ensures Sum(tasks, f) / |tasks| as real <= Sum(tasks, g) / |tasks| as real
  {
    SumLeq(tasks, f, g);
    DivCompares(Sum(tasks, g), Sum(tasks, f), |tasks| as real);
  }

  /** Main result: a stricter threshold never lowers quality, cost or escalations. */
  lemma SweepIsMonotone(tasks: seq<TaskPair>, low: real, high: real)
    requires tasks != [] && Sane(tasks) && low <= high
    ensures var a, b := PointAt(tasks, low), PointAt(tasks, high);
            a.quality <= b.quality && a.flops <= b.flops && a.escalateRate <= b.escalateRate
  {
    forall i | 0 <= i < |tasks|
      ensures QualityAt(low)(tasks[i]) <= QualityAt(high)(tasks[i]) && FlopsAt(low)(tasks[i]) <= FlopsAt(high)(tasks[i])
    {
      EscalatingHelps(tasks[i]);
    }
    MeansOrdered(tasks, QualityAt(low), QualityAt(high));
    MeansOrdered(tasks, FlopsAt(low), FlopsAt(high));
    MeansOrdered(tasks, EscalatesAt(low), EscalatesAt(high));
  }

  /** Every threshold stays between the cheap model alone and the oracle, in quality and in cost. */
  lemma SweepIsBounded(tasks: seq<TaskPair>, tau: real)
    requires tasks != [] && Sane(tasks)
    ensures var n, p := |tasks| as real, PointAt(tasks, tau);
            && Sum(tasks, (t: TaskPair) => t.pC) / n <= p.quality <= Sum(tasks, OracleQuality()) / n
            && Sum(tasks, (t: TaskPair) => t.flopsC) / n <= p.flops <= Sum(tasks, OracleFlops()) / n
  {
    var cheapQ, cheapF := (t: TaskPair) => t.pC, (t: TaskPair) => t.flopsC;
    forall i | 0 <= i < |tasks|
      ensures cheapQ(tasks[i]) <= QualityAt(tau)(tasks[i]) <= OracleQuality()(tasks[i])
      ensures cheapF(tasks[i]) <= FlopsAt(tau)(tasks[i]) <= OracleFlops()(tasks[i])
    {
      EscalatingHelps(tasks[i]);
    }
    MeansOrdered(tasks, cheapQ, QualityAt(tau));
    MeansOrdered(tasks, QualityAt(tau), OracleQuality());
    MeansOrdered(tasks, cheapF, FlopsAt(tau));
    MeansOrdered(tasks, FlopsAt(tau), OracleFlops());
  }

  lemma {:induction false} SumStrict(tasks: seq<TaskPair>, f: TaskPair -> real, g: TaskPair -> real, k: nat)
    requires k < |tasks| && forall i :: 0 <= i < |tasks| ==> f(tasks[i]) <= g(tasks[i])
    requires f(tasks[k]) < g(tasks[k])
    ensures Sum(tasks, f) < Sum(tasks, g)
  {
    if k == |tasks| - 1 {
      SumLeq(Init(tasks), f, g);
    } else {
      SumStrict(Init(tasks), f, g, k);
    }
  }

  /** A threshold reaches the oracle's quality exactly when it accepts nothing that escalating could improve. */
  lemma SweepMeetsOracle(tasks: seq<TaskPair>, tau: real)
    requires tasks != [] && Sane(tasks)
    ensures PointAt(tasks, tau).quality == Sum(tasks, OracleQuality()) / |tasks| as real
            <==> forall i :: 0 <= i < |tasks| && Accepts(tasks[i], tau) ==> tasks[i].pC == 1.0 || tasks[i].pE == 0.0
  {
    var f, g, n := QualityAt(tau), OracleQuality(), |tasks| as real;
    forall i | 0 <= i < |tasks|
      ensures f(tasks[i]) <= g(tasks[i])
      ensures f(tasks[i]) < g(tasks[i]) <==> Accepts(tasks[i], tau) && tasks[i].pC != 1.0 && tasks[i].pE != 0.0
    {
      EscalatingHelps(tasks[i]);
      HelpsStrictly(tasks[i], tau);
    }
    if k :| 0 <= k < |tasks| && f(tasks[k]) < g(tasks[k]) {
      SumStrict(tasks, f, g, k);
      DivCompares(Sum(tasks, f), Sum(tasks, g), n);
    } else {
      SumSame(tasks, f, g);
    }
  }

  lemma HelpsStrictly(t: TaskPair, tau: real)
    requires Frontier.IsProbability(t.pC) && Frontier.IsProbability(t.pE)
    ensures QualityAt(tau)(t) < OracleQuality()(t) <==> Accepts(t, tau) && t.pC != 1.0 && t.pE != 0.0
  {
    GainSign(1.0 - t.pC, t.pE);
    assert OracleQuality()(t) == t.pC + (1.0 - t.pC) * t.pE;
  }

  lemma GainSign(x: real, y: real)
    requires x >= 0.0 && y >= 0.0
    ensures x * y > 0.0 <==> x != 0.0 && y != 0.0
  {
    if y > 0.0 { SignOfProduct(x, y); }
  }

  // ---------- the ranking score ----------

  function Beats(a: real, b: real): real {
    if a > b then 1.0 else if a == b then 0.5 else 0.0
  }

  function BeatsAll(a: real): real -> real {
    (b: real) => Beats(a, b)
  }

  /** How often a score of pos beats a score of neg, ties counting half. */
  function Wins(pos: seq<real>, neg: seq<real>): real {
    Sum(pos, (a: real) => Sum(neg, BeatsAll(a)))
  }

  function Scores(scores: seq<real>, labels: seq<bool>, which: bool): seq<real>
    requires |scores| == |labels|
  {
    if scores == [] then []
    else Scores(Init(scores), Init(labels), which) + if Last(labels) == which then [Last(scores)] else []
  }

  /** The scores of one label. */
  lemma {:induction false} ScoresByLabel(scores: seq<real>, labels: seq<bool>, which: bool, x: real)
    requires |scores| == |labels|
    ensures x in Scores(scores, labels, which) <==> exists i :: 0 <= i < |scores| && scores[i] == x && labels[i] == which
  {
    if scores != [] {
      ScoresByLabel(Init(scores), Init(labels), which, x);
      if i :| 0 <= i < |scores| && scores[i] == x && labels[i] == which {
        assert i < |scores| - 1 ==> Init(scores)[i] == x && Init(labels)[i] == which;
      }
      if i :| 0 <= i < |Init(scores)| && Init(scores)[i] == x && Init(labels)[i] == which {
        assert scores[i] == x && labels[i] == which;
      }
      assert scores[|scores| - 1] == Last(scores) && labels[|scores| - 1] == Last(labels);
    }
  }

  function AucOf(pos: seq<real>, neg: seq<real>): Option<real> {
    if pos == [] || neg == [] then None else Some(Wins(pos, neg) / (|pos| * |neg|) as real)
  }

  method Auc(scores: seq<real>, labels: seq<bool>) returns (r: Option<real>)
    requires |scores| == |labels|
    ensures r == AucOf(Scores(scores, labels, true), Scores(scores, labels, false))
  {
    var pos, neg: seq<real> := [], [];
    for i := 0 to |scores|
      invariant pos == Scores(scores[..i], labels[..i], true) && neg == Scores(scores[..i], labels[..i], false)
    {
      assert Init(scores[..i + 1]) == scores[..i] && Init(labels[..i + 1]) == labels[..i];
      if labels[i] { pos := pos + [scores[i]]; } else { neg := neg + [scores[i]]; }
    }
    assert scores[..|scores|] == scores && labels[..|labels|] == labels;
    if |pos| == 0 || |neg| == 0 { return None; }
    var wins := CountWins(pos, neg);
    return Some(wins / (|pos| * |neg|) as real);
  }

  method CountWins(pos: seq<real>, neg: seq<real>) returns (wins: real)
    ensures wins == Wins(pos, neg)
  {
    var row := (a: real) => Sum(neg, BeatsAll(a));
    wins := 0.0;
    for i := 0 to |pos|
      invariant wins == Sum(pos[..i], row)
    {
      assert Init(pos[..i + 1]) == pos[..i];
      var before := wins;
      for j := 0 to |neg|
        invariant wins == before + Sum(neg[..j], BeatsAll(pos[i]))
      {
        assert Init(neg[..j + 1]) == neg[..j];
        wins := wins + (if pos[i] > neg[j] then 1.0 else if pos[i] == neg[j] then 0.5 else 0.0);
      }
      assert neg[..|neg|] == neg;
    }
    assert pos[..|pos|] == pos;
  }

  /** The scores of a side that a score is above, and those that it ties with. */
  function Below(neg: seq<real>, a: real): nat {
    |Filter(neg, (b: real) => b < a)|
  }

  function Ties(neg: seq<real>, a: real): nat {
    |Filter(neg, (b: real) => b == a)|
  }

  lemma {:induction false} RowCounted(neg: seq<real>, a: real)
    ensures Sum(neg, BeatsAll(a)) == Below(neg, a) as real + Ties(neg, a) as real / 2.0
  {
    if neg != [] {
      RowCounted(Init(neg), a);
      FilterInit(neg, (b: real) => b < a);
      FilterInit(neg, (b: real) => b == a);
    }
  }

  /** Main result: the score is the share of pairs in which the positive is above the negative, ties counting half. */
  lemma AucCountsPairs(pos: seq<real>, neg: seq<real>)
    requires pos != [] && neg != []
    ensures AucOf(pos, neg)
         == Some(Sum(pos, (a: real) => Below(neg, a) as real + Ties(neg, a) as real / 2.0) / (|pos| * |neg|) as real)
  {
    forall i | 0 <= i < |pos| ensures Sum(neg, BeatsAll(pos[i])) == Below(neg, pos[i]) as real + Ties(neg, pos[i]) as real / 2.0 {
      RowCounted(neg, pos[i]);
    }
    SumSame(pos, (a: real) => Sum(neg, BeatsAll(a)), (a: real) => Below(neg, a) as real + Ties(neg, a) as real / 2.0);
  }

  lemma {:induction false} ColumnWins(pos: seq<real>, b: real)
    ensures Sum(pos, (a: real) => Beats(a, b)) + Sum(pos, BeatsAll(b)) == |pos| as real
  {
    if pos != [] {
      ColumnWins(Init(pos), b);
    }
  }

  /** Adding one negative adds its column. */
  lemma {:induction false} WinsColumn(pos: seq<real>, neg: seq<real>)
    requires neg != []
    ensures Wins(pos, neg) == Wins(pos, Init(neg)) + Sum(pos, (a: real) => Beats(a, Last(neg)))
  {
    if pos != [] {
      WinsColumn(Init(pos), neg);
    }
  }

  lemma {:induction false} NoColumns(pos: seq<real>)
    ensures Wins(pos, []) == 0.0
  {
    if pos != [] {
      NoColumns(Init(pos));
    }
  }

  /** Each pair is won by one side, or halved. */
  lemma {:induction false} WinsShared(pos: seq<real>, neg: seq<real>)
    ensures Wins(pos, neg) + Wins(neg, pos) == (|pos| * |neg|) as real
  {
    if neg == [] {
      NoColumns(pos);
    } else {
      WinsShared(pos, Init(neg));
      WinsColumn(pos, neg);
      ColumnWins(pos, Last(neg));
      assert |pos| * |neg| == |pos| * |Init(neg)| + |pos|;
    }
  }

  function Flipped(labels: seq<bool>): seq<bool> {
    seq(|labels|, i requires 0 <= i < |labels| => !labels[i])
  }

  lemma {:induction false} FlippedScores(scores: seq<real>, labels: seq<bool>, which: bool)
    requires |scores| == |labels|
    ensures Scores(scores, Flipped(labels), which) == Scores(scores, labels, !which)
  {
    if scores != [] {
      FlippedScores(Init(scores), Init(labels), which);
      assert Init(Flipped(labels)) == Flipped(Init(labels));
    }
  }

  lemma SharesOfOne(a: real, b: real, n: real)
    requires n > 0.0 && a + b == n
    ensures a / n + b / n == 1.0
  {
    assert a / n + b / n == (a + b) / n;
  }

  lemma BothWays(pos: seq<real>, neg: seq<real>)
    requires pos != [] && neg != []
    ensures AucOf(pos, neg).Some? && AucOf(neg, pos).Some? && AucOf(pos, neg).value + AucOf(neg, pos).value == 1.0
  {
    WinsShared(pos, neg);
    var n := |pos| * |neg|;
    assert n > 0 && n == |neg| * |pos|;
    SharesOfOne(Wins(pos, neg), Wins(neg, pos), n as real);
  }

  /** Main result: relabelling every example turns the score around. */
  lemma AucFlips(scores: seq<real>, labels: seq<bool>)
    requires |scores| == |labels|
    ensures var one := AucOf(Scores(scores, labels, true), Scores(scores, labels, false));
            var two := AucOf(Scores(scores, Flipped(labels), true), Scores(scores, Flipped(labels), false));
            && (one.None? <==> two.None?)
            && (one.Some? ==> one.value + two.value == 1.0)
  {
    var pos, neg := Scores(scores, labels, true), Scores(scores, labels, false);
    FlippedScores(scores, labels, true);
    FlippedScores(scores, labels, false);
    if pos != [] && neg != [] { BothWays(pos, neg); }
  }
}
