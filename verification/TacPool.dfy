/** The pool of evaluation jobs (legacy/eval/experiments/tac-pool.ts:239-289). */
module TacPool {
  import opened Basics

  /** A job is known by its id. */
  type Job = string

  /** What is kept of a finished job: whether it counts as a failure. */
  datatype Summary = Summary(job: Job, failed: bool)

  // ---------- jobs that are done already ----------

  function IsCached(results: map<Job, Summary>): Job -> bool {
    (j: Job) => j in results
  }

  function IsPending(results: map<Job, Summary>): Job -> bool {
    (j: Job) => j !in results
  }

  function JobsOf(summaries: seq<Summary>): seq<Job> {
    seq(|summaries|, i requires 0 <= i < |summaries| => summaries[i].job)
  }

  /** Splits the plan, in order, into jobs without a result and the results of the others. */
  method PartitionCachedJobs(jobs: seq<Job>, results: map<Job, Summary>) returns (pending: seq<Job>, cached: seq<Summary>)
    requires forall j :: j in results ==> results[j].job == j
    ensures pending == Filter(jobs, IsPending(results)) && JobsOf(cached) == Filter(jobs, IsCached(results))
  {
    pending, cached := [], [];
    for i := 0 to |jobs|
      invariant pending == Filter(jobs[..i], IsPending(results)) && JobsOf(cached) == Filter(jobs[..i], IsCached(results))
    {
      assert Init(jobs[..i + 1]) == jobs[..i];
      if jobs[i] !in results {
        pending := pending + [jobs[i]];
        continue;
      }
      assert JobsOf(cached + [results[jobs[i]]]) == JobsOf(cached) + [jobs[i]];
      cached := cached + [results[jobs[i]]];
    }
    assert jobs[..|jobs|] == jobs;
  }

  /** Every planned job is on exactly one side. */
  lemma {:induction false} PartitionKeepsAll(jobs: seq<Job>, results: map<Job, Summary>)
    ensures multiset(Filter(jobs, IsPending(results))) + multiset(Filter(jobs, IsCached(results))) == multiset(jobs)
  {
    if jobs != [] {
      PartitionKeepsAll(Init(jobs), results);
      assert jobs == Init(jobs) + [Last(jobs)];
    }
  }

  // ---------- the pool ----------

  /** A worker at a job, done looking for more, or ended by an error. */
  datatype Worker = At(job: Job) | Stopped | Threw(job: Job)

  datatype Pool = Pool(queue: seq<Job>, workers: seq<Worker>, summaries: seq<Summary>, failed: bool)

  /** How running a job ends. */
  datatype Ending = Good | Bad | Throws

  type Endings = Job -> Ending

  predicate Holds(failFast: bool, s: Pool) {
    s.queue == [] || (failFast && s.failed)
  }

  /** At the head of its loop a worker takes the first job, or stops when there is none or the pool fails fast. */
  function Next(failFast: bool, s: Pool): Worker {
    if Holds(failFast, s) then Stopped else At(s.queue[0])
  }

  function Rest(failFast: bool, s: Pool): seq<Job> {
    if Holds(failFast, s) then s.queue else s.queue[1..]
  }

  /** The workers enter their loops one after the other before any job can end. */
  function Started(failFast: bool, jobs: seq<Job>, n: nat): Pool {
    if n == 0 then Pool(jobs, [], [], false)
    else
      var s := Started(failFast, jobs, n - 1);
      s.(queue := Rest(failFast, s), workers := s.workers + [Next(failFast, s)])
  }

  /** A job that ends leaves its summary behind, and its worker goes back to the head of its loop. */
  function Returned(failFast: bool, s: Pool, w: nat, bad: bool): Pool
    requires w < |s.workers| && s.workers[w].At?
  {
    var s' := s.(summaries := s.summaries + [Summary(s.workers[w].job, bad)], failed := s.failed || bad);
    s'.(queue := Rest(failFast, s'), workers := s.workers[w := Next(failFast, s')])
  }

  /** One that throws ends its worker, and the others go on. */
  function Ended(failFast: bool, ends: Endings, s: Pool, w: nat): Pool
    requires w < |s.workers| && s.workers[w].At?
  {
    match ends(s.workers[w].job)
    case Good => Returned(failFast, s, w, false)
    case Bad => Returned(failFast, s, w, true)
    case Throws => s.(workers := s.workers[w := Threw(s.workers[w].job)])
  }

  predicate Moves(failFast: bool, ends: Endings, s: Pool, s': Pool, w: nat) {
    w < |s.workers| && s.workers[w].At? && s' == Ended(failFast, ends, s, w)
  }

  ghost predicate Step(failFast: bool, ends: Endings, s: Pool, s': Pool) {
    exists w: nat :: Moves(failFast, ends, s, s', w)
  }

  /** Jobs end in any order. */
  ghost predicate Steps(failFast: bool, ends: Endings, run: seq<Pool>) {
    run != [] && forall i :: 0 <= i < |run| - 1 ==> Step(failFast, ends, run[i], run[i + 1])
  }

  ghost predicate IsRun(failFast: bool, ends: Endings, jobs: seq<Job>, n: nat, run: seq<Pool>) {
    Steps(failFast, ends, run) && run[0] == Started(failFast, jobs, n)
  }

  // ---------- conservation ----------

  function Queued(queue: seq<Job>, j: Job): nat {
    if queue == [] then 0 else Queued(Init(queue), j) + if Last(queue) == j then 1 else 0
  }

  predicate Has(w: Worker, j: Job) {
    !w.Stopped? && w.job == j
  }

  /** The workers that have a job in hand, or took it down with them. */
  function InHand(workers: seq<Worker>, j: Job): nat {
    if workers == [] then 0 else InHand(Init(workers), j) + if Has(Last(workers), j) then 1 else 0
  }

  function Summarised(summaries: seq<Summary>, j: Job): nat {
    if summaries == [] then 0 else Summarised(Init(summaries), j) + if Last(summaries).job == j then 1 else 0
  }

  /** Queued, in hand and summarised. */
  function Everywhere(s: Pool, j: Job): nat {
    Queued(s.queue, j) + InHand(s.workers, j) + Summarised(s.summaries, j)
  }

  lemma {:induction false} QueuedFirst(queue: seq<Job>, j: Job)
    requires queue != []
    ensures Queued(queue, j) == (if queue[0] == j then 1 else 0) + Queued(queue[1..], j)
  {
    if |queue| > 1 {
      QueuedFirst(Init(queue), j);
      assert Init(queue)[1..] == Init(queue[1..]);
    } else {
      assert Init(queue) == [] && queue[1..] == [];
    }
  }

  lemma {:induction false} InHandUpdate(workers: seq<Worker>, w: nat, x: Worker, j: Job)
    requires w < |workers|
    ensures InHand(workers[w := x], j) + (if Has(workers[w], j) then 1 else 0) == InHand(workers, j) + (if Has(x, j) then 1 else 0)
  {
    var changed := workers[w := x];
    if w == |workers| - 1 {
      assert Init(changed) == Init(workers);
    } else {
      InHandUpdate(Init(workers), w, x, j);
      assert Init(changed) == Init(workers)[w := x] && Last(changed) == Last(workers);
    }
  }

  /** What the head of the loop takes from the queue, the worker has. */
  lemma HeadConserves(failFast: bool, s: Pool, j: Job)
    ensures Queued(Rest(failFast, s), j) + (if Has(Next(failFast, s), j) then 1 else 0) == Queued(s.queue, j)
  {
    if !Holds(failFast, s) { QueuedFirst(s.queue, j); }
  }

  lemma {:induction false} StartConserves(failFast: bool, jobs: seq<Job>, n: nat, j: Job)
    ensures var s := Started(failFast, jobs, n); Everywhere(s, j) == Queued(jobs, j) && |s.workers| == n && !s.failed
  {
    if n > 0 {
      var s := Started(failFast, jobs, n - 1);
      StartConserves(failFast, jobs, n - 1, j);
      HeadConserves(failFast, s, j);
      assert Init(s.workers + [Next(failFast, s)]) == s.workers;
    }
  }

  lemma ReturnConserves(failFast: bool, s: Pool, w: nat, bad: bool, j: Job)
    requires w < |s.workers| && s.workers[w].At?
    ensures Everywhere(Returned(failFast, s, w, bad), j) == Everywhere(s, j)
  {
    var x := Summary(s.workers[w].job, bad);
    var s' := s.(summaries := s.summaries + [x], failed := s.failed || bad);
    assert Init(s.summaries + [x]) == s.summaries;
    InHandUpdate(s.workers, w, Next(failFast, s'), j);
    HeadConserves(failFast, s', j);
  }

  lemma StepConserves(failFast: bool, ends: Endings, s: Pool, s': Pool, w: nat, j: Job)
    requires Moves(failFast, ends, s, s', w)
    ensures Everywhere(s', j) == Everywhere(s, j) && |s'.workers| == |s.workers|
  {
    match ends(s.workers[w].job)
    case Good => ReturnConserves(failFast, s, w, false, j);
    case Bad => ReturnConserves(failFast, s, w, true, j);
    case Throws => InHandUpdate(s.workers, w, Threw(s.workers[w].job), j);
  }

  /** Main result: over every interleaving of the workers no job is lost, and none is run more often than it is planned. */
  lemma {:induction false} JobsAreConserved(failFast: bool, ends: Endings, jobs: seq<Job>, n: nat, run: seq<Pool>, j: Job)
    requires IsRun(failFast, ends, jobs, n, run)
    ensures Everywhere(Last(run), j) == Queued(jobs, j) && |Last(run).workers| == n
  {
    if |run| == 1 {
      StartConserves(failFast, jobs, n, j);
    } else {
      JobsAreConserved(failFast, ends, jobs, n, Init(run), j);
      var w := LastMove(failFast, ends, run);
      StepConserves(failFast, ends, Last(Init(run)), Last(run), w, j);
    }
  }

  lemma LastMove(failFast: bool, ends: Endings, run: seq<Pool>) returns (w: nat)
    requires Steps(failFast, ends, run) && |run| > 1
    ensures Moves(failFast, ends, Last(Init(run)), Last(run), w)
  {
    assert Step(failFast, ends, run[|run| - 2], run[|run| - 1]);
    w :| Moves(failFast, ends, run[|run| - 2], run[|run| - 1], w);
  }

  lemma {:induction false} SplitCounts(jobs: seq<Job>, results: map<Job, Summary>, j: Job)
    ensures Queued(Filter(jobs, IsPending(results)), j) + Queued(Filter(jobs, IsCached(results)), j) == Queued(jobs, j)
  {
    if jobs != [] {
      SplitCounts(Init(jobs), results, j);
      QueuedLast(jobs, IsPending(results), j);
      QueuedLast(jobs, IsCached(results), j);
    }
  }

  lemma QueuedLast(jobs: seq<Job>, keep: Job -> bool, j: Job)
    requires jobs != []
    ensures Queued(Filter(jobs, keep), j) == Queued(Filter(Init(jobs), keep), j) + if keep(Last(jobs)) && Last(jobs) == j then 1 else 0
  {
    var kept := Filter(Init(jobs), keep);
    assert Init(kept + [Last(jobs)]) == kept && kept + [] == kept;
  }

  /** In one piece: queued, in hand, summarised and cached jobs make up the plan, at every moment of every run. */
  lemma PlanIsConserved(failFast: bool, ends: Endings, jobs: seq<Job>, results: map<Job, Summary>, n: nat, run: seq<Pool>, j: Job)
    requires IsRun(failFast, ends, Filter(jobs, IsPending(results)), n, run)
    ensures Everywhere(Last(run), j) + Queued(Filter(jobs, IsCached(results)), j) == Queued(jobs, j)
  {
    JobsAreConserved(failFast, ends, Filter(jobs, IsPending(results)), n, run, j);
    SplitCounts(jobs, results, j);
  }

  lemma {:induction false} DistinctOnce(jobs: seq<Job>, j: Job)
    requires forall i, k :: 0 <= i < k < |jobs| ==> jobs[i] != jobs[k]
    ensures Queued(jobs, j) <= 1 && (Queued(jobs, j) == 1 <==> j in jobs)
  {
    if jobs != [] {
      DistinctOnce(Init(jobs), j);
      assert jobs == Init(jobs) + [Last(jobs)];
    }
  }

  /** In a plan of distinct jobs each one is queued, in hand, summarised or cached, and only one of these, once. */
  lemma EachJobOnce(failFast: bool, ends: Endings, jobs: seq<Job>, results: map<Job, Summary>, n: nat, run: seq<Pool>, j: Job)
    requires forall i, k :: 0 <= i < k < |jobs| ==> jobs[i] != jobs[k]
    requires IsRun(failFast, ends, Filter(jobs, IsPending(results)), n, run)
    ensures Everywhere(Last(run), j) + Queued(Filter(jobs, IsCached(results)), j) == if j in jobs then 1 else 0
  {
    PlanIsConserved(failFast, ends, jobs, results, n, run, j);
    DistinctOnce(jobs, j);
  }

  // ---------- when the pool is done ----------

  /** No worker will do anything more. */
  predicate Done(s: Pool) {
    forall w :: 0 <= w < |s.workers| ==> !s.workers[w].At?
  }

  ghost predicate SomeoneStopped(s: Pool) {
    exists w :: 0 <= w < |s.workers| && s.workers[w].Stopped?
  }

  /** A worker stops only when there is nothing that it may take. */
  lemma {:induction false} StoppedForAReason(failFast: bool, ends: Endings, jobs: seq<Job>, n: nat, run: seq<Pool>)
    requires IsRun(failFast, ends, jobs, n, run)
    ensures SomeoneStopped(Last(run)) ==> Holds(failFast, Last(run))
  {
    if |run| == 1 {
      StartedForAReason(failFast, jobs, n);
    } else {
      StoppedForAReason(failFast, ends, jobs, n, Init(run));
      var w := LastMove(failFast, ends, run);
      StopsForAReason(failFast, ends, Last(Init(run)), Last(run), w);
    }
  }

  lemma {:induction false} StartedForAReason(failFast: bool, jobs: seq<Job>, n: nat)
    ensures SomeoneStopped(Started(failFast, jobs, n)) ==> Holds(failFast, Started(failFast, jobs, n))
  {
    if n > 0 {
      var s, s' := Started(failFast, jobs, n - 1), Started(failFast, jobs, n);
      StartedForAReason(failFast, jobs, n - 1);
      if w :| 0 <= w < |s'.workers| && s'.workers[w].Stopped? {
        assert w < |s.workers| ==> s.workers[w] == s'.workers[w];
      }
    }
  }

  lemma StopsForAReason(failFast: bool, ends: Endings, s: Pool, s': Pool, w: nat)
    requires Moves(failFast, ends, s, s', w) && (SomeoneStopped(s) ==> Holds(failFast, s))
    ensures SomeoneStopped(s') ==> Holds(failFast, s')
  {
    if v :| 0 <= v < |s'.workers| && s'.workers[v].Stopped? {
      assert v != w ==> s.workers[v] == s'.workers[v];
    }
  }

  lemma {:induction false} QueuedSome(queue: seq<Job>, i: nat)
    requires i < |queue|
    ensures Queued(queue, queue[i]) > 0
  {
    if i < |queue| - 1 { QueuedSome(Init(queue), i); }
  }

  lemma {:induction false} InHandSome(workers: seq<Worker>, w: nat, j: Job)
    requires w < |workers| && Has(workers[w], j)
    ensures InHand(workers, j) > 0
  {
    if w < |workers| - 1 { InHandSome(Init(workers), w, j); }
  }

  lemma {:induction false} NoneInHand(workers: seq<Worker>, j: Job)
    requires forall w :: 0 <= w < |workers| ==> workers[w].Stopped?
    ensures InHand(workers, j) == 0
  {
    if workers != [] { NoneInHand(Init(workers), j); }
  }

  /** Every job has as many summaries as it was planned. */
  ghost predicate AllSummarised(jobs: seq<Job>, s: Pool) {
    forall j :: Summarised(s.summaries, j) == Queued(jobs, j)
  }

  predicate AllStopped(s: Pool) {
    forall w :: 0 <= w < |s.workers| ==> s.workers[w].Stopped?
  }

  lemma NothingLeft(jobs: seq<Job>, s: Pool)
    requires Done(s) && AllSummarised(jobs, s) && forall j :: Everywhere(s, j) == Queued(jobs, j)
    ensures s.queue == [] && AllStopped(s)
  {
    forall j ensures Queued(s.queue, j) == 0 && InHand(s.workers, j) == 0 {
      assert Everywhere(s, j) == Queued(jobs, j) && Summarised(s.summaries, j) == Queued(jobs, j);
    }
    assert s.queue != [] ==> Queued(s.queue, s.queue[0]) > 0 by {
      if s.queue != [] { QueuedSome(s.queue, 0); }
    }
    forall w | 0 <= w < |s.workers| ensures s.workers[w].Threw? ==> InHand(s.workers, s.workers[w].job) > 0 {
      if s.workers[w].Threw? { InHandSome(s.workers, w, s.workers[w].job); }
    }
  }

  /** A pool that is done has a summary of every job exactly when no job is left and no worker threw. */
  lemma AllSummarisedIff(failFast: bool, ends: Endings, jobs: seq<Job>, n: nat, run: seq<Pool>)
    requires IsRun(failFast, ends, jobs, n, run) && Done(Last(run))
    ensures AllSummarised(jobs, Last(run)) <==> Last(run).queue == [] && AllStopped(Last(run))
  {
    var s := Last(run);
    forall j ensures Everywhere(s, j) == Queued(jobs, j) { JobsAreConserved(failFast, ends, jobs, n, run, j); }
    if AllSummarised(jobs, s) {
      NothingLeft(jobs, s);
    }
    if s.queue == [] && AllStopped(s) {
      forall j ensures Summarised(s.summaries, j) == Queued(jobs, j) {
        NoneInHand(s.workers, j);
        assert Everywhere(s, j) == Queued(jobs, j);
      }
    }
  }

  // ---------- what a run has taken ----------

  function Taken(jobs: seq<Job>, s: Pool): seq<Job>
    requires |s.queue| <= |jobs|
  {
    jobs[..|jobs| - |s.queue|]
  }

  /** A worker's job was taken, and only a job that throws has ended it. */
  predicate Drawn(ends: Endings, taken: seq<Job>, w: Worker) {
    !w.Stopped? ==> w.job in taken && (w.Threw? ==> ends(w.job).Throws?)
  }

  /** Jobs are taken in order, and a failure needs a bad one among those taken. */
  ghost predicate Traced(ends: Endings, jobs: seq<Job>, n: nat, s: Pool) {
    && |s.workers| == n && |s.queue| <= |jobs| && s.queue == jobs[|jobs| - |s.queue|..]
    && (s.queue == [] || |s.queue| + n <= |jobs|)
    && (forall w :: 0 <= w < n ==> Drawn(ends, Taken(jobs, s), s.workers[w]))
    && (s.failed ==> exists j :: j in Taken(jobs, s) && ends(j).Bad?)
  }

  lemma HeadTraced(jobs: seq<Job>, s: Pool, failFast: bool)
    requires |s.queue| <= |jobs| && s.queue == jobs[|jobs| - |s.queue|..]
    ensures var s' := s.(queue := Rest(failFast, s));
            && |s'.queue| <= |s.queue| && s'.queue == jobs[|jobs| - |s'.queue|..]
            && (forall j :: j in Taken(jobs, s) ==> j in Taken(jobs, s'))
            && (Next(failFast, s).At? ==> Next(failFast, s).job in Taken(jobs, s'))
  {
    if !Holds(failFast, s) {
      var k := |jobs| - |s.queue|;
      assert jobs[k] == s.queue[0];
      assert jobs[..k + 1] == jobs[..k] + [jobs[k]];
    }
  }

  /** The first jobs, as many as there are workers, are taken at once. */
  lemma {:induction false} StartTakes(failFast: bool, jobs: seq<Job>, n: nat)
    ensures var s := Started(failFast, jobs, n);
            && |s.workers| == n && !s.failed && s.summaries == []
            && s.queue == (if n <= |jobs| then jobs[n..] else [])
            && forall w :: 0 <= w < n ==> s.workers[w] == if w < |jobs| then At(jobs[w]) else Stopped
  {
    if n > 0 {
      StartTakes(failFast, jobs, n - 1);
      if n <= |jobs| { assert jobs[n - 1..][1..] == jobs[n..]; }
    }
  }

  lemma StartTraced(failFast: bool, ends: Endings, jobs: seq<Job>, n: nat)
    ensures Traced(ends, jobs, n, Started(failFast, jobs, n))
  {
    var s := Started(failFast, jobs, n);
    StartTakes(failFast, jobs, n);
    forall w | 0 <= w < n ensures Drawn(ends, Taken(jobs, s), s.workers[w]) {
      assert w < |jobs| ==> Taken(jobs, s)[w] == jobs[w];
    }
  }

  lemma ReturnTraced(failFast: bool, ends: Endings, jobs: seq<Job>, n: nat, s: Pool, w: nat, bad: bool)
    requires Traced(ends, jobs, n, s) && w < n && s.workers[w].At? && (bad ==> ends(s.workers[w].job).Bad?)
    ensures Traced(ends, jobs, n, Returned(failFast, s, w, bad))
  {
    var s' := s.(summaries := s.summaries + [Summary(s.workers[w].job, bad)], failed := s.failed || bad);
    assert Drawn(ends, Taken(jobs, s), s.workers[w]);
    HeadTraced(jobs, s', failFast);
    var after := Returned(failFast, s, w, bad);
    DrawnAfter(ends, Taken(jobs, s), Taken(jobs, after), s.workers, after.workers, w, Next(failFast, s'));
  }

  lemma DrawnAfter(ends: Endings, taken: seq<Job>, taken': seq<Job>, workers: seq<Worker>, workers': seq<Worker>, w: nat, x: Worker)
    requires w < |workers| && workers' == workers[w := x] && forall v :: 0 <= v < |workers| ==> Drawn(ends, taken, workers[v])
    requires (forall j :: j in taken ==> j in taken') && Drawn(ends, taken', x)
    ensures forall v :: 0 <= v < |workers| ==> Drawn(ends, taken', workers'[v])
  {
    forall v | 0 <= v < |workers| ensures Drawn(ends, taken', workers'[v]) {
      assert Drawn(ends, taken, workers[v]);
    }
  }

  lemma {:induction false} RunTraced(failFast: bool, ends: Endings, jobs: seq<Job>, n: nat, run: seq<Pool>)
    requires IsRun(failFast, ends, jobs, n, run)
    ensures Traced(ends, jobs, n, Last(run))
  {
    if |run| == 1 {
      StartTraced(failFast, ends, jobs, n);
    } else {
      RunTraced(failFast, ends, jobs, n, Init(run));
      var w := LastMove(failFast, ends, run);
      StepTraced(failFast, ends, jobs, n, Last(Init(run)), Last(run), w);
    }
  }

  lemma StepTraced(failFast: bool, ends: Endings, jobs: seq<Job>, n: nat, s: Pool, s': Pool, w: nat)
    requires Traced(ends, jobs, n, s) && Moves(failFast, ends, s, s', w)
    ensures Traced(ends, jobs, n, s')
  {
    match ends(s.workers[w].job)
    case Good => ReturnTraced(failFast, ends, jobs, n, s, w, false);
    case Bad => ReturnTraced(failFast, ends, jobs, n, s, w, true);
    case Throws =>
      assert Drawn(ends, Taken(jobs, s), s.workers[w]);
      DrawnAfter(ends, Taken(jobs, s), Taken(jobs, s), s.workers, s'.workers, w, Threw(s.workers[w].job));
  }

  // ---------- runs that end ----------

  /** The workers at a job. */
  function Busy(workers: seq<Worker>): nat {
    if workers == [] then 0 else Busy(Init(workers)) + if Last(workers).At? then 1 else 0
  }

  lemma {:induction false} BusyUpdate(workers: seq<Worker>, w: nat, x: Worker)
    requires w < |workers| && workers[w].At?
    ensures Busy(workers[w := x]) + 1 == Busy(workers) + if x.At? then 1 else 0
  {
    if w == |workers| - 1 {
      assert Init(workers[w := x]) == Init(workers);
    } else {
      BusyUpdate(Init(workers), w, x);
      assert Init(workers[w := x]) == Init(workers)[w := x];
    }
  }

  /** How many jobs may still end: each step is one of them less. */
  function Left(s: Pool): nat {
    |s.queue| + Busy(s.workers)
  }

  lemma StepLeft(failFast: bool, ends: Endings, s: Pool, s': Pool, w: nat)
    requires Moves(failFast, ends, s, s', w)
    ensures Left(s') < Left(s)
    ensures failFast && s.failed ==> s'.failed && s'.queue == s.queue
  {
    BusyUpdate(s.workers, w, s'.workers[w]);
  }

  /** From any moment on, jobs can go on ending until the pool is done; what fail-fast holds back stays queued. */
  lemma {:induction false} RunOn(failFast: bool, ends: Endings, s: Pool) returns (run: seq<Pool>)
    ensures Steps(failFast, ends, run) && run[0] == s && Done(Last(run))
    ensures failFast && s.failed ==> Last(run).queue == s.queue
    decreases Left(s)
  {
    if w: nat :| w < |s.workers| && s.workers[w].At? {
      var s' := Ended(failFast, ends, s, w);
      StepLeft(failFast, ends, s, s', w);
      var rest := RunOn(failFast, ends, s');
      run := Before(failFast, ends, s, rest, w);
    } else {
      run := [s];
    }
  }

  lemma Before(failFast: bool, ends: Endings, s: Pool, rest: seq<Pool>, w: nat) returns (run: seq<Pool>)
    requires Steps(failFast, ends, rest) && Moves(failFast, ends, s, rest[0], w)
    ensures Steps(failFast, ends, run) && run[0] == s && Last(run) == Last(rest)
  {
    run := [s] + rest;
    forall i | 0 <= i < |run| - 1 ensures Step(failFast, ends, run[i], run[i + 1]) {
      if i > 0 { assert run[i] == rest[i - 1] && run[i + 1] == rest[i]; }
    }
  }

  lemma Joined(failFast: bool, ends: Endings, one: seq<Pool>, two: seq<Pool>) returns (run: seq<Pool>)
    requires Steps(failFast, ends, one) && Steps(failFast, ends, two) && Last(one) == two[0]
    ensures Steps(failFast, ends, run) && run[0] == one[0] && Last(run) == Last(two)
  {
    run := Init(one) + two;
    forall i | 0 <= i < |run| - 1 ensures Step(failFast, ends, run[i], run[i + 1]) {
      if i < |one| - 1 {
        assert run[i] == one[i] && run[i + 1] == one[i + 1];
      } else {
        assert run[i] == two[i - (|one| - 1)] && run[i + 1] == two[i + 1 - (|one| - 1)];
      }
    }
  }

  /** One worker alone goes on until a bad job, with others behind it. */
  lemma {:induction false} LoneWorker(failFast: bool, ends: Endings, s: Pool, w: nat, i: nat) returns (run: seq<Pool>)
    requires failFast && !s.failed && w < |s.workers| && s.workers[w].At? && i < |s.queue|
    requires ends(([s.workers[w].job] + s.queue)[i]).Bad?
    requires forall j :: j == s.workers[w].job || j in s.queue ==> !ends(j).Throws?
    ensures Steps(failFast, ends, run) && run[0] == s && Last(run).failed && Last(run).queue != []
    decreases |s.queue|
  {
    var s' := Ended(failFast, ends, s, w);
    assert Moves(failFast, ends, s, s', w);
    if ends(s.workers[w].job).Bad? {
      run := [s, s'];
    } else {
      assert [s'.workers[w].job] + s'.queue == s.queue;
      assert s.queue[i - 1] == ([s.workers[w].job] + s.queue)[i];
      var rest := LoneWorker(failFast, ends, s', w, i - 1);
      run := Before(failFast, ends, s, rest, w);
    }
  }

  // ---------- exactly which pools summarise every job ----------

  /** However the jobs interleave, once the pool is done every job has been summarised. */
  ghost predicate AlwaysComplete(failFast: bool, ends: Endings, jobs: seq<Job>, n: nat) {
    forall run :: IsRun(failFast, ends, jobs, n, run) && Done(Last(run)) ==> AllSummarised(jobs, Last(run))
  }

  /** No job throws, and a job that fails fast has nothing queued behind it. */
  ghost predicate Completes(failFast: bool, ends: Endings, jobs: seq<Job>, n: nat) {
    jobs == []
    || (n > 0 && (forall j :: j in jobs ==> !ends(j).Throws?)
        && (failFast && n < |jobs| ==> forall j :: j in Init(jobs) ==> !ends(j).Bad?))
  }

  lemma FailedTookAll(ends: Endings, jobs: seq<Job>, n: nat, s: Pool)
    requires Traced(ends, jobs, n, s) && Completes(true, ends, jobs, n) && s.failed
    ensures s.queue == []
  {
    forall j | j in Taken(jobs, s) ensures s.queue == [] || j in Init(jobs) { TakenEarly(jobs, s, j); }
  }

  lemma TakenEarly(jobs: seq<Job>, s: Pool, j: Job)
    requires |s.queue| <= |jobs| && j in Taken(jobs, s)
    ensures s.queue == [] || j in Init(jobs)
  {
    if s.queue != [] {
      var i :| 0 <= i < |jobs| - |s.queue| && jobs[i] == j;
      assert Init(jobs)[i] == j;
    }
  }

  lemma EveryoneStopped(failFast: bool, s: Pool)
    requires s.workers != [] && Done(s) && (forall w :: 0 <= w < |s.workers| ==> !s.workers[w].Threw?)
    requires SomeoneStopped(s) ==> Holds(failFast, s)
    ensures AllStopped(s) && Holds(failFast, s)
  {
    assert s.workers[0].Stopped?;
  }

  lemma Sufficient(failFast: bool, ends: Endings, jobs: seq<Job>, n: nat, run: seq<Pool>)
    requires Completes(failFast, ends, jobs, n) && IsRun(failFast, ends, jobs, n, run) && Done(Last(run))
    ensures AllSummarised(jobs, Last(run))
  {
    var s := Last(run);
    RunTraced(failFast, ends, jobs, n, run);
    StoppedForAReason(failFast, ends, jobs, n, run);
    AllSummarisedIff(failFast, ends, jobs, n, run);
    assert forall j :: j in Taken(jobs, s) ==> j in jobs;
    if jobs != [] {
      EveryoneStopped(failFast, s);
      if failFast && s.failed { FailedTookAll(ends, jobs, n, s); }
    }
  }

  /** No run summarises a job that throws, or any job without a worker. */
  lemma NeverSummarised(failFast: bool, ends: Endings, jobs: seq<Job>, n: nat, run: seq<Pool>, j: Job)
    requires IsRun(failFast, ends, jobs, n, run) && j in jobs && (ends(j).Throws? || n == 0)
    ensures !AllSummarised(jobs, Last(run))
  {
    NoSummaryOf(failFast, ends, jobs, n, run, j);
    var i :| 0 <= i < |jobs| && jobs[i] == j;
    QueuedSome(jobs, i);
    assert Summarised(Last(run).summaries, j) != Queued(jobs, j);
  }

  lemma {:induction false} NoSummaryOf(failFast: bool, ends: Endings, jobs: seq<Job>, n: nat, run: seq<Pool>, j: Job)
    requires IsRun(failFast, ends, jobs, n, run) && (ends(j).Throws? || n == 0)
    ensures Summarised(Last(run).summaries, j) == 0
  {
    if |run| == 1 {
      StartTakes(failFast, jobs, n);
    } else {
      NoSummaryOf(failFast, ends, jobs, n, Init(run), j);
      var s := Last(Init(run));
      var w := LastMove(failFast, ends, run);
      JobsAreConserved(failFast, ends, jobs, n, Init(run), j);
      var x := Summary(s.workers[w].job, ends(s.workers[w].job).Bad?);
      assert Init(s.summaries + [x]) == s.summaries;
    }
  }

  /** A bad job with others queued behind it: some run leaves them there. */
  lemma LeavesJobs(ends: Endings, jobs: seq<Job>, n: nat, i: nat) returns (run: seq<Pool>)
    requires 0 < n < |jobs| && i < |jobs| - 1 && ends(jobs[i]).Bad? && forall j :: j in jobs ==> !ends(j).Throws?
    ensures IsRun(true, ends, jobs, n, run) && Done(Last(run)) && Last(run).queue != []
  {
    var s := Started(true, jobs, n);
    StartTakes(true, jobs, n);
    assert s.queue == jobs[n..];
    var w := if i < n then i else 0;
    var k := if i < n then 0 else i - n + 1;
    assert ([s.workers[w].job] + s.queue)[k] == jobs[i];
    var one := LoneWorker(true, ends, s, w, k);
    var two := RunOn(true, ends, Last(one));
    run := Joined(true, ends, one, two);
  }

  lemma Necessary(failFast: bool, ends: Endings, jobs: seq<Job>, n: nat)
    requires !Completes(failFast, ends, jobs, n)
    ensures exists run :: IsRun(failFast, ends, jobs, n, run) && Done(Last(run)) && !AllSummarised(jobs, Last(run))
  {
    if n > 0 && forall j :: j in jobs ==> !ends(j).Throws? {
      var j :| j in Init(jobs) && ends(j).Bad?;
      var i :| 0 <= i < |jobs| - 1 && jobs[i] == j;
      var run := LeavesJobs(ends, jobs, n, i);
      AllSummarisedIff(failFast, ends, jobs, n, run);
    } else {
      var run := RunOn(failFast, ends, Started(failFast, jobs, n));
      var j := jobs[0];
      if n > 0 { j :| j in jobs && ends(j).Throws?; }
      NeverSummarised(failFast, ends, jobs, n, run, j);
    }
  }

  /**
   * Main result: every job is summarised in whatever order jobs end exactly when there is none; or there is a worker, no job throws,
   * and, failing fast with more jobs than workers, none but the last job is bad.
   */
  lemma AlwaysCompleteIff(failFast: bool, ends: Endings, jobs: seq<Job>, n: nat)
    ensures AlwaysComplete(failFast, ends, jobs, n) <==> Completes(failFast, ends, jobs, n)
  {
    if Completes(failFast, ends, jobs, n) {
      forall run | IsRun(failFast, ends, jobs, n, run) && Done(Last(run)) ensures AllSummarised(jobs, Last(run)) {
        Sufficient(failFast, ends, jobs, n, run);
      }
    } else {
      Necessary(failFast, ends, jobs, n);
    }
  }

  /** One worker, failing fast, and a bad job first: the second one stays queued. */
  lemma FailFastLeavesJob(a: Job, b: Job) returns (ends: Endings, run: seq<Pool>)
    requires a != b
    ensures IsRun(true, ends, [a, b], 1, run) && Done(Last(run)) && Last(run).queue == [b]
    ensures !AlwaysComplete(true, ends, [a, b], 1)
  {
    ends := (j: Job) => if j == a then Bad else Good;
    var first, last := Started(true, [a, b], 1), Pool([b], [Stopped], [Summary(a, true)], true);
    assert Started(true, [a, b], 0) == Pool([a, b], [], [], false);
    assert first == Pool([b], [At(a)], [], false);
    assert Moves(true, ends, first, last, 0);
    run := [first, last];
    AllSummarisedIff(true, ends, [a, b], 1, run);
  }
}
