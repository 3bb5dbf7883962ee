/** The router swarm (legacy/eval/analysis/router-frontier.ts:58-103). */
module RouterFrontier {
  import opened Basics
  import Sums

  type Model = string

  type Task = string

  /** Which model solves which task: its mean correctness is at least one half. */
  type Solves = (Model, Task) -> bool

  function Solvers(swarm: seq<Model>, solves: Solves, t: Task): seq<Model> {
    Filter(swarm, (m: Model) => solves(m, t))
  }

  function Count(tasks: seq<Task>, f: Task -> bool): nat {
    if tasks == [] then 0 else Count(Init(tasks), f) + if f(Last(tasks)) then 1 else 0
  }

  /** Tasks that the member alone solves. */
  function UniquelyBy(swarm: seq<Model>, solves: Solves, m: Model): Task -> bool {
    (t: Task) => Solvers(swarm, solves, t) == [m]
  }

  function SolvedByOne(swarm: seq<Model>, solves: Solves): Task -> bool {
    (t: Task) => |Solvers(swarm, solves, t)| == 1
  }

  /** Tasks that the oracle router solves. */
  function Covered(swarm: seq<Model>, solves: Solves): Task -> bool {
    (t: Task) => Solvers(swarm, solves, t) != []
  }

  type Flops = (Model, Task) -> real

  /** The cost of the cheapest of some models. */
  function Cheapest(models: seq<Model>, flops: Flops, t: Task): real
    requires models != []
  {
    if |models| == 1 then flops(models[0], t)
    else
      var before, last := Cheapest(Init(models), flops, t), flops(Last(models), t);
      if last < before then last else before
  }

  /** Route to the cheapest solver; if nobody solves the task, to the cheapest member. */
  function Routed(swarm: seq<Model>, solvers: seq<Model>, flops: Flops, t: Task): real
    requires swarm != []
  {
    Cheapest(if solvers != [] then solvers else swarm, flops, t)
  }

  function RoutedCost(swarm: seq<Model>, solves: Solves, flops: Flops, tasks: seq<Task>): real
    requires swarm != []
  {
    if tasks == [] then 0.0
    else RoutedCost(swarm, solves, flops, Init(tasks)) + Routed(swarm, Solvers(swarm, solves, Last(tasks)), flops, Last(tasks))
  }

  datatype Router = Router(uniqueBy: map<Model, nat>, solvedByOne: nat, solvedByAny: nat, oracleFlops: real)

  function UniqueCounts(swarm: seq<Model>, solves: Solves, tasks: seq<Task>): map<Model, nat> {
    map m | m in swarm :: Count(tasks, UniquelyBy(swarm, solves, m))
  }

  function RouterOf(swarm: seq<Model>, solves: Solves, flops: Flops, tasks: seq<Task>): Router
    requires swarm != []
  {
    Router(UniqueCounts(swarm, solves, tasks), Count(tasks, SolvedByOne(swarm, solves)), Count(tasks, Covered(swarm, solves)),
           RoutedCost(swarm, solves, flops, tasks))
  }

  /** The share of covered tasks that one member alone solves. */
  function Kappa(r: Router): real {
    if r.solvedByAny > 0 then r.solvedByOne as real / r.solvedByAny as real else 0.0
  }

  lemma CountStep(tasks: seq<Task>, i: nat, f: Task -> bool)
    requires i < |tasks|
    ensures Count(tasks[..i + 1], f) == Count(tasks[..i], f) + if f(tasks[i]) then 1 else 0
  {
    assert Init(tasks[..i + 1]) == tasks[..i];
  }

  lemma UniqueStep(swarm: seq<Model>, solves: Solves, tasks: seq<Task>, i: nat)
    requires i < |tasks|
    ensures UniqueCounts(swarm, solves, tasks[..i + 1])
         == UniqueTallied(UniqueCounts(swarm, solves, tasks[..i]), Solvers(swarm, solves, tasks[i]))
  {
    var solvers := Solvers(swarm, solves, tasks[i]);
    FilterMembers(swarm, (m: Model) => solves(m, tasks[i]));
    assert |solvers| == 1 ==> solvers == [solvers[0]];
    forall m | m in swarm
      ensures Count(tasks[..i + 1], UniquelyBy(swarm, solves, m))
           == Count(tasks[..i], UniquelyBy(swarm, solves, m)) + if solvers == [m] then 1 else 0
    {
      CountStep(tasks, i, UniquelyBy(swarm, solves, m));
    }
  }

  function UniqueTallied(uniqueBy: map<Model, nat>, solvers: seq<Model>): map<Model, nat> {
    if |solvers| == 1 && solvers[0] in uniqueBy then uniqueBy[solvers[0] := uniqueBy[solvers[0]] + 1] else uniqueBy
  }

  /** One more task's solvers. */
  function Tallied(r: Router, solvers: seq<Model>, routed: real): Router {
    Router(UniqueTallied(r.uniqueBy, solvers),
           r.solvedByOne + (if |solvers| == 1 then 1 else 0),
           r.solvedByAny + (if |solvers| >= 1 then 1 else 0),
           r.oracleFlops + routed)
  }

  lemma RouterStep(swarm: seq<Model>, solves: Solves, flops: Flops, tasks: seq<Task>, i: nat)
    requires swarm != [] && i < |tasks|
    ensures var solvers := Solvers(swarm, solves, tasks[i]);
            RouterOf(swarm, solves, flops, tasks[..i + 1])
            == Tallied(RouterOf(swarm, solves, flops, tasks[..i]), solvers, Routed(swarm, solvers, flops, tasks[i]))
  {
    UniqueStep(swarm, solves, tasks, i);
    CountStep(tasks, i, SolvedByOne(swarm, solves));
    CountStep(tasks, i, Covered(swarm, solves));
    assert Init(tasks[..i + 1]) == tasks[..i];
  }

  method MinFlops(models: seq<Model>, flops: Flops, t: Task) returns (least: real)
    requires models != []
    ensures least == Cheapest(models, flops, t)
  {
    least := flops(models[0], t);
    for n := 1 to |models|
      invariant least == Cheapest(models[..n], flops, t)
    {
      assert Init(models[..n + 1]) == models[..n];
      if flops(models[n], t) < least { least := flops(models[n], t); }
    }
    assert models[..|models|] == models;
  }

  method AnalyzeRouter(swarm: seq<Model>, solves: Solves, flops: Flops, tasks: seq<Task>) returns (r: Router, kappa: real)
    requires swarm != []
    ensures r == RouterOf(swarm, solves, flops, tasks)
    ensures kappa == if r.solvedByAny > 0 then r.solvedByOne as real / r.solvedByAny as real else 0.0
  {
    r := Router(map m | m in swarm :: 0, 0, 0, 0.0);
    for i := 0 to |tasks|
      invariant r == RouterOf(swarm, solves, flops, tasks[..i])
    {
      RouterStep(swarm, solves, flops, tasks, i);
      var solvers := Solvers(swarm, solves, tasks[i]);
      var routed := MinFlops(if solvers != [] then solvers else swarm, flops, tasks[i]);
      r := Tallied(r, solvers, routed);
    }
    assert tasks[..|tasks|] == tasks;
    kappa := Kappa(r);
  }

  /** The routed cost is some routed model's, and no routed model is cheaper. */
  lemma {:induction false} CheapestIsLeast(models: seq<Model>, flops: Flops, t: Task)
    requires models != []
    ensures exists m :: m in models && flops(m, t) == Cheapest(models, flops, t)
    ensures forall m :: m in models ==> Cheapest(models, flops, t) <= flops(m, t)
  {
    if |models| > 1 {
      CheapestIsLeast(Init(models), flops, t);
      assert models == Init(models) + [Last(models)];
    } else {
      assert models[0] in models && forall m :: m in models ==> m == models[0];
    }
  }

  /** Main result: a task is routed at the least cost among the members that solve it, or, when none does, among all. */
  lemma RoutedAtLeastCost(swarm: seq<Model>, solves: Solves, flops: Flops, t: Task)
    requires swarm != []
    ensures var cost := Routed(swarm, Solvers(swarm, solves, t), flops, t);
            if exists m :: m in swarm && solves(m, t)
            then (exists m :: m in swarm && solves(m, t) && flops(m, t) == cost)
                 && forall m :: m in swarm && solves(m, t) ==> cost <= flops(m, t)
            else (exists m :: m in swarm && flops(m, t) == cost) && forall m :: m in swarm ==> cost <= flops(m, t)
  {
    var solvers := Solvers(swarm, solves, t);
    FilterMembers(swarm, (m: Model) => solves(m, t));
    CheapestIsLeast(if solvers != [] then solvers else swarm, flops, t);
    if m :| m in swarm && solves(m, t) { assert m in solvers; }
    assert solvers != [] ==> solvers[0] in solvers;
  }

  /** Kappa is a share, and it is one exactly when no covered task has a second solver. */
  lemma KappaIsShare(swarm: seq<Model>, solves: Solves, flops: Flops, tasks: seq<Task>)
    requires swarm != []
    ensures var r := RouterOf(swarm, solves, flops, tasks);
            && 0.0 <= Kappa(r) <= 1.0
            && (r.solvedByAny > 0 ==> (Kappa(r) == 1.0 <==>
                  forall t :: t in tasks && Covered(swarm, solves)(t) ==> SolvedByOne(swarm, solves)(t)))
  {
    var one, any := Count(tasks, SolvedByOne(swarm, solves)), Count(tasks, Covered(swarm, solves));
    CountMonotone(tasks, SolvedByOne(swarm, solves), Covered(swarm, solves));
    CountEqual(tasks, SolvedByOne(swarm, solves), Covered(swarm, solves));
    if any > 0 { ShareBounds(one, any); }
  }

  lemma ShareBounds(m: nat, n: nat)
    requires m <= n && n > 0
    ensures 0.0 <= m as real / n as real <= 1.0
    ensures m as real / n as real == 1.0 <==> m == n
  {
    Sums.DivCompares(m as real, n as real, n as real);
    Sums.DivCompares(m as real, 0.0, n as real);
    Sums.DivCompares(n as real, m as real, n as real);
  }

  // ---------- marginals ----------

  ghost predicate Distinct(swarm: seq<Model>) {
    forall i, j :: 0 <= i < j < |swarm| ==> swarm[i] != swarm[j]
  }

  function Without(swarm: seq<Model>, m: Model): seq<Model> {
    Filter(swarm, (x: Model) => x != m)
  }

  lemma {:induction false} FilterDistinct(swarm: seq<Model>, f: Model -> bool)
    requires Distinct(swarm)
    ensures Distinct(Filter(swarm, f))
  {
    if swarm != [] {
      FilterDistinct(Init(swarm), f);
      FilterMembers(Init(swarm), f);
    }
  }

  /** A task is lost with a member exactly when nobody else solves it. */
  lemma LostWith(swarm: seq<Model>, solves: Solves, m: Model, t: Task)
    requires Distinct(swarm) && m in swarm
    ensures Covered(swarm, solves)(t) <==> Covered(Without(swarm, m), solves)(t) || UniquelyBy(swarm, solves, m)(t)
    ensures !(Covered(Without(swarm, m), solves)(t) && UniquelyBy(swarm, solves, m)(t))
  {
    var all, rest := Solvers(swarm, solves, t), Solvers(Without(swarm, m), solves, t);
    FilterMembers(swarm, (x: Model) => solves(x, t));
    FilterMembers(swarm, (x: Model) => x != m);
    FilterMembers(Without(swarm, m), (x: Model) => solves(x, t));
    FilterDistinct(swarm, (x: Model) => solves(x, t));
    assert rest != [] ==> rest[0] in rest && rest[0] in all && rest[0] != m;
    assert forall i :: 0 <= i < |all| ==> all[i] in all && (all[i] != m ==> all[i] in rest);
    assert |all| == 1 ==> all == [all[0]];
    assert |all| > 1 ==> all[0] != all[1];
  }

  lemma {:induction false} CountAdds(tasks: seq<Task>, f: Task -> bool, g: Task -> bool, h: Task -> bool)
    requires forall t :: (f(t) <==> g(t) || h(t)) && !(g(t) && h(t))
    ensures Count(tasks, f) == Count(tasks, g) + Count(tasks, h)
  {
    if tasks != [] {
      CountAdds(Init(tasks), f, g, h);
    }
  }

  /** Main result: a member's unique solves are what the oracle router loses without it. */
  lemma UniqueIsOracleLoss(swarm: seq<Model>, solves: Solves, tasks: seq<Task>, m: Model)
    requires Distinct(swarm) && m in swarm
    ensures Count(tasks, Covered(swarm, solves))
         == Count(tasks, Covered(Without(swarm, m), solves)) + Count(tasks, UniquelyBy(swarm, solves, m))
  {
    forall t
      ensures Covered(swarm, solves)(t) <==> Covered(Without(swarm, m), solves)(t) || UniquelyBy(swarm, solves, m)(t)
      ensures !(Covered(Without(swarm, m), solves)(t) && UniquelyBy(swarm, solves, m)(t))
    {
      LostWith(swarm, solves, m, t);
    }
    CountAdds(tasks, Covered(swarm, solves), Covered(Without(swarm, m), solves), UniquelyBy(swarm, solves, m));
  }

  function SumUnique(members: seq<Model>, swarm: seq<Model>, solves: Solves, tasks: seq<Task>): nat {
    if members == [] then 0
    else SumUnique(Init(members), swarm, solves, tasks) + Count(tasks, UniquelyBy(swarm, solves, Last(members)))
  }

  /** Tasks solved by one member, of those listed. */
  function UniqueAmong(members: seq<Model>, swarm: seq<Model>, solves: Solves): Task -> bool {
    (t: Task) => |Solvers(swarm, solves, t)| == 1 && Solvers(swarm, solves, t)[0] in members
  }

  lemma {:induction false} NoneAmong(tasks: seq<Task>, swarm: seq<Model>, solves: Solves)
    ensures Count(tasks, UniqueAmong([], swarm, solves)) == 0
  {
    if tasks != [] {
      NoneAmong(Init(tasks), swarm, solves);
    }
  }

  lemma {:induction false} UniqueSums(members: seq<Model>, swarm: seq<Model>, solves: Solves, tasks: seq<Task>)
    requires Distinct(members)
    ensures SumUnique(members, swarm, solves, tasks) == Count(tasks, UniqueAmong(members, swarm, solves))
  {
    if members == [] {
      NoneAmong(tasks, swarm, solves);
    } else {
      var before, m := Init(members), Last(members);
      UniqueSums(before, swarm, solves, tasks);
      assert m !in before && forall x :: x in members <==> x in before || x == m;
      forall t
        ensures UniqueAmong(members, swarm, solves)(t) <==> UniqueAmong(before, swarm, solves)(t) || UniquelyBy(swarm, solves, m)(t)
        ensures !(UniqueAmong(before, swarm, solves)(t) && UniquelyBy(swarm, solves, m)(t))
      {
        var s := Solvers(swarm, solves, t);
        assert |s| == 1 ==> s == [s[0]];
      }
      CountAdds(tasks, UniqueAmong(members, swarm, solves), UniqueAmong(before, swarm, solves), UniquelyBy(swarm, solves, m));
    }
  }

  lemma {:induction false} CountMonotone(tasks: seq<Task>, f: Task -> bool, g: Task -> bool)
    requires forall t :: f(t) ==> g(t)
    ensures Count(tasks, f) <= Count(tasks, g)
  {
    if tasks != [] {
      CountMonotone(Init(tasks), f, g);
    }
  }

  /** Unique solves add up to the tasks that one member solves. */
  lemma UniqueSolvesAddUp(swarm: seq<Model>, solves: Solves, tasks: seq<Task>)
    requires Distinct(swarm)
    ensures SumUnique(swarm, swarm, solves, tasks) == Count(tasks, SolvedByOne(swarm, solves))
  {
    UniqueSums(swarm, swarm, solves, tasks);
    forall t ensures UniqueAmong(swarm, swarm, solves)(t) <==> SolvedByOne(swarm, solves)(t) {
      FilterMembers(swarm, (m: Model) => solves(m, t));
      var s := Solvers(swarm, solves, t);
      assert |s| == 1 ==> s[0] in s;
    }
    CountMonotone(tasks, UniqueAmong(swarm, swarm, solves), SolvedByOne(swarm, solves));
    CountMonotone(tasks, SolvedByOne(swarm, solves), UniqueAmong(swarm, swarm, solves));
  }

  /** The diversity gain is never negative, and it is zero exactly when one member covers all that the swarm does. */
  lemma DiversityGain(swarm: seq<Model>, solves: Solves, tasks: seq<Task>, best: Model)
    requires best in swarm
    ensures Count(tasks, (t: Task) => solves(best, t)) <= Count(tasks, Covered(swarm, solves))
    ensures Count(tasks, (t: Task) => solves(best, t)) == Count(tasks, Covered(swarm, solves))
            <==> forall t :: t in tasks && Covered(swarm, solves)(t) ==> solves(best, t)
  {
    var f := (t: Task) => solves(best, t);
    forall t ensures f(t) ==> Covered(swarm, solves)(t) {
      FilterMembers(swarm, (m: Model) => solves(m, t));
    }
    CountMonotone(tasks, f, Covered(swarm, solves));
    CountEqual(tasks, f, Covered(swarm, solves));
  }

  lemma {:induction false} CountEqual(tasks: seq<Task>, f: Task -> bool, g: Task -> bool)
    requires forall t :: f(t) ==> g(t)
    ensures Count(tasks, f) == Count(tasks, g) <==> forall t :: t in tasks && g(t) ==> f(t)
  {
    if tasks != [] {
      CountEqual(Init(tasks), f, g);
      CountMonotone(Init(tasks), f, g);
      assert forall t :: t in tasks <==> t in Init(tasks) || t == Last(tasks);
    }
  }
}
