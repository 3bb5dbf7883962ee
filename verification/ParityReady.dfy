/**
 * Which work packages can start (legacy/scripts/parity-ready.ts:25-53).
 */
module ParityReady {
  import opened Basics

  type Id = string

  datatype Package = Package(id: Id, dependsOn: seq<Id>)

  /** v depends directly on u. */
  predicate Edge(all: seq<Package>, u: Id, v: Id) {
    exists i :: 0 <= i < |all| && all[i].id == v && u in all[i].dependsOn
  }

  /** A chain of packages, each depending on the one before. */
  ghost predicate Chain(all: seq<Package>, path: seq<Id>) {
    path != [] && forall i :: 0 <= i < |path| - 1 ==> Edge(all, path[i], path[i + 1])
  }

  ghost predicate ChainFrom(all: seq<Package>, path: seq<Id>, u: Id, v: Id) {
    Chain(all, path) && |path| > 1 && path[0] == u && Last(path) == v
  }

  /** v cannot start until u is delivered. */
  ghost predicate Reaches(all: seq<Package>, u: Id, v: Id) {
    exists path :: ChainFrom(all, path, u, v)
  }

  function Ids(all: seq<Package>): set<Id> {
    set i | 0 <= i < |all| :: all[i].id
  }

  ghost function Dependents(all: seq<Package>, u: Id): set<Id> {
    set v | v in Ids(all) && Reaches(all, u, v)
  }

  // ---------- reachability ----------

  lemma EdgeReaches(all: seq<Package>, u: Id, v: Id)
    requires Edge(all, u, v)
    ensures Reaches(all, u, v) && v in Ids(all)
  {
    assert ChainFrom(all, [u, v], u, v);
  }

  lemma ChainExtends(all: seq<Package>, path: seq<Id>, u: Id, v: Id, w: Id)
    requires ChainFrom(all, path, u, v) && Edge(all, v, w)
    ensures ChainFrom(all, path + [w], u, w)
  {
  }

  lemma ReachesExtends(all: seq<Package>, u: Id, v: Id, w: Id)
    requires Reaches(all, u, v) && Edge(all, v, w)
    ensures Reaches(all, u, w)
  {
    var path :| ChainFrom(all, path, u, v);
    ChainExtends(all, path, u, v, w);
  }

  lemma ReachesPrepends(all: seq<Package>, u: Id, v: Id, w: Id)
    requires Edge(all, u, v) && Reaches(all, v, w)
    ensures Reaches(all, u, w)
  {
    var path :| ChainFrom(all, path, v, w);
    var longer := [u] + path;
    forall i | 0 <= i < |longer| - 1 ensures Edge(all, longer[i], longer[i + 1]) {
      if i > 0 { assert longer[i] == path[i - 1] && longer[i + 1] == path[i]; }
    }
    assert ChainFrom(all, longer, u, w);
  }

  ghost predicate Closed(all: seq<Package>, u: Id, found: set<Id>) {
    forall x, y :: (x == u || x in found) && Edge(all, x, y) ==> y in found
  }

  lemma {:induction false} ClosedHasChain(all: seq<Package>, u: Id, found: set<Id>, path: seq<Id>)
    requires Closed(all, u, found) && Chain(all, path) && |path| > 1 && path[0] == u
    ensures Last(path) in found
  {
    var n := |path|;
    assert Edge(all, path[n - 2], path[n - 2 + 1]);
    if n > 2 {
      ClosedHasChain(all, u, found, Init(path));
      assert Last(Init(path)) == path[n - 2];
    }
  }

  lemma ReachedAreIds(all: seq<Package>, u: Id, v: Id)
    requires Reaches(all, u, v)
    ensures v in Ids(all)
  {
    var path :| ChainFrom(all, path, u, v);
    assert Edge(all, path[|path| - 2], path[|path| - 2 + 1]);
  }

  lemma ClosedIsDependents(all: seq<Package>, u: Id, found: set<Id>)
    requires Closed(all, u, found) && forall v :: v in found ==> Reaches(all, u, v)
    ensures found == Dependents(all, u)
  {
    forall v | v in Dependents(all, u) ensures v in found {
      var path :| ChainFrom(all, path, u, v);
      ClosedHasChain(all, u, found, path);
    }
    forall v | v in found ensures v in Dependents(all, u) {
      ReachedAreIds(all, u, v);
    }
  }

  // ---------- the worklist ----------

  /** Everything found and no longer queued has had its direct dependents found. */
  ghost predicate Scanned(all: seq<Package>, u: Id, seen: set<Id>, queue: seq<Id>) {
    forall x, y :: (x == u || x in seen) && x !in queue && Edge(all, x, y) ==> y in seen
  }

  ghost predicate Sound(all: seq<Package>, u: Id, seen: set<Id>, queue: seq<Id>) {
    && (forall v :: v in seen ==> Reaches(all, u, v) && v in Ids(all))
    && (forall x :: x in queue ==> x == u || x in seen)
  }

  /** The first n packages that depend on head have been found, and what was found is queued. */
  ghost predicate Visited(all: seq<Package>, head: Id, n: nat, seen: set<Id>) {
    forall i :: 0 <= i < n <= |all| && head in all[i].dependsOn ==> all[i].id in seen
  }

  /** One scan of the packages, for the direct dependents of head. */
  method Visit(all: seq<Package>, u: Id, head: Id, seen0: set<Id>, queue0: seq<Id>) returns (seen: set<Id>, queue: seq<Id>)
    requires Sound(all, u, seen0, queue0) && (head == u || head in seen0)
    requires Scanned(all, u, seen0, queue0 + [head])
    ensures Sound(all, u, seen, queue) && Scanned(all, u, seen, queue)
    ensures seen0 <= seen && (seen == seen0 ==> queue == queue0)
  {
    seen, queue := seen0, queue0;
    for n := 0 to |all|
      invariant Sound(all, u, seen, queue) && Visited(all, head, n, seen)
      invariant seen0 <= seen && (seen == seen0 ==> queue == queue0)
      invariant forall x :: x in queue0 ==> x in queue
      invariant forall x :: x in seen && x !in seen0 ==> x in queue
    {
      var w := all[n];
      if head in w.dependsOn && w.id !in seen {
        Found(all, u, head, n);
        seen := seen + {w.id};
        queue := queue + [w.id];
      }
    }
    forall x, y | (x == u || x in seen) && x !in queue && Edge(all, x, y) ensures y in seen {
      if x == head {
        var i :| 0 <= i < |all| && all[i].id == y && x in all[i].dependsOn;
      } else {
        assert x !in queue0 + [head];
      }
    }
  }

  lemma Found(all: seq<Package>, u: Id, head: Id, n: nat)
    requires n < |all| && head in all[n].dependsOn && (head == u || Reaches(all, u, head))
    ensures Reaches(all, u, all[n].id) && all[n].id in Ids(all)
  {
    EdgeReaches(all, head, all[n].id);
    if Reaches(all, u, head) { ReachesExtends(all, u, head, all[n].id); }
  }

  lemma Progress(all: seq<Package>, seen0: set<Id>, seen: set<Id>)
    requires seen0 <= seen <= Ids(all) && seen != seen0
    ensures |Ids(all) - seen| < |Ids(all) - seen0|
  {
    var x :| x in seen && x !in seen0;
    assert Ids(all) - seen < Ids(all) - seen0;
    Smaller(Ids(all) - seen, Ids(all) - seen0);
  }

  lemma Smaller(a: set<Id>, b: set<Id>)
    requires a < b
    ensures |a| < |b|
  {
    assert b == a + (b - a) && b - a != {};
  }

  /** Main result: on any graph, cycles included, the worklist ends and counts exactly the transitive dependents. */
  method Unblocks(all: seq<Package>, id: Id) returns (count: nat)
    ensures count == |Dependents(all, id)|
  {
    var seen: set<Id>, queue := {}, [id];
    while queue != []
      invariant Sound(all, id, seen, queue) && Scanned(all, id, seen, queue)
      decreases |Ids(all) - seen|, |queue|
    {
      var head := Last(queue);
      var rest := Init(queue);
      assert rest + [head] == queue;
      assert forall x :: x in rest ==> x in queue;
      ghost var before := seen;
      seen, queue := Visit(all, id, head, seen, rest);
      if seen != before { Progress(all, before, seen); }
    }
    ClosedIsDependents(all, id, seen);
    count := |seen|;
  }

  // ---------- the count along a dependency ----------

  ghost predicate Acyclic(all: seq<Package>) {
    forall u :: !Reaches(all, u, u)
  }

  /** In an acyclic graph a package unblocks strictly more than anything that depends on it. */
  lemma StrictlyDecreases(all: seq<Package>, u: Id, v: Id)
    requires Acyclic(all) && Edge(all, u, v)
    ensures |Dependents(all, u)| > |Dependents(all, v)|
  {
    EdgeReaches(all, u, v);
    forall w | w in Dependents(all, v) ensures w in Dependents(all, u) {
      ReachesPrepends(all, u, v, w);
    }
    assert v in Dependents(all, u) && v !in Dependents(all, v);
    Smaller(Dependents(all, v), Dependents(all, u));
  }

  // ---------- ready and blocked ----------

  predicate IsReady(done: set<Id>, w: Package) {
    w.id !in done && forall d :: d in w.dependsOn ==> d in done
  }

  predicate IsBlocked(done: set<Id>, w: Package) {
    w.id !in done && !forall d :: d in w.dependsOn ==> d in done
  }

  function Ready(all: seq<Package>, done: set<Id>): seq<Package> {
    Filter(all, (w: Package) => IsReady(done, w))
  }

  function Blocked(all: seq<Package>, done: set<Id>): seq<Package> {
    Filter(all, (w: Package) => IsBlocked(done, w))
  }

  /** A package is complete, ready or blocked, and one of these only: ready with every dependency delivered, blocked for want of one. */
  lemma EveryPackageOnce(all: seq<Package>, done: set<Id>, w: Package)
    requires w in all
    ensures w.id in done ==> w !in Ready(all, done) && w !in Blocked(all, done)
    ensures w.id !in done && (forall d :: d in w.dependsOn ==> d in done) ==> w in Ready(all, done) && w !in Blocked(all, done)
    ensures w.id !in done && (exists d :: d in w.dependsOn && d !in done) ==> w in Blocked(all, done) && w !in Ready(all, done)
    ensures multiset(Ready(all, done)) <= multiset(all) && multiset(Blocked(all, done)) <= multiset(all)
  {
    FilterMembers(all, (x: Package) => IsReady(done, x));
    FilterMembers(all, (x: Package) => IsBlocked(done, x));
    FilterFew(all, (x: Package) => IsReady(done, x));
    FilterFew(all, (x: Package) => IsBlocked(done, x));
  }

  lemma {:induction false} FilterFew(all: seq<Package>, keep: Package -> bool)
    ensures multiset(Filter(all, keep)) <= multiset(all)
  {
    if all != [] {
      FilterFew(Init(all), keep);
      InitLast(all);
    }
  }

  /** Every dependency is a package. */
  ghost predicate Known(all: seq<Package>) {
    forall i, d :: 0 <= i < |all| && d in all[i].dependsOn ==> d in Ids(all)
  }

  ghost predicate UniqueIds(all: seq<Package>) {
    forall i, j :: 0 <= i < j < |all| ==> all[i].id != all[j].id
  }

  /** A chain of incomplete packages from a ready one. */
  ghost predicate WaitsOn(all: seq<Package>, done: set<Id>, path: seq<Id>, first: Package) {
    && Chain(all, path) && path[0] == first.id && first in all && IsReady(done, first)
    && forall i :: 0 <= i < |path| ==> path[i] !in done
  }

  lemma Missing(all: seq<Package>, done: set<Id>, w: Package) returns (d: Package)
    requires Known(all) && w in all && IsBlocked(done, w)
    ensures d in all && d.id !in done && Edge(all, d.id, w.id)
  {
    var id :| id in w.dependsOn && id !in done;
    var i :| 0 <= i < |all| && all[i] == w;
    assert id in Ids(all);
    var j :| 0 <= j < |all| && all[j].id == id;
    d := all[j];
  }

  /**
   * Main result: in an acyclic graph whose dependencies are packages, every incomplete package waits through a chain of
   * incomplete packages on a ready one (on itself, if it is ready).
   */
  lemma {:induction false} WaitsOnReady(all: seq<Package>, done: set<Id>, w: Package) returns (path: seq<Id>, first: Package)
    requires Acyclic(all) && Known(all) && w in all && w.id !in done
    ensures WaitsOn(all, done, path, first) && Last(path) == w.id
    decreases |Ids(all)| - |Dependents(all, w.id)|
  {
    if IsReady(done, w) {
      path, first := [w.id], w;
    } else {
      var d := Missing(all, done, w);
      StrictlyDecreases(all, d.id, w.id);
      SubsetCard(Dependents(all, d.id), Ids(all));
      var before;
      before, first := WaitsOnReady(all, done, d);
      path := before + [w.id];
      assert forall i :: 0 <= i < |before| ==> path[i] == before[i];
    }
  }

  // ---------- exactly when there is always something to do ----------

  ghost predicate NeverStuck(all: seq<Package>) {
    forall done, w :: done <= Ids(all) && w in all && w.id !in done ==> Ready(all, done) != []
  }

  lemma AcyclicNeverStuck(all: seq<Package>)
    requires Acyclic(all) && Known(all)
    ensures NeverStuck(all)
  {
    forall done, w | done <= Ids(all) && w in all && w.id !in done ensures Ready(all, done) != [] {
      var path, first := WaitsOnReady(all, done, w);
      FilterMembers(all, (x: Package) => IsReady(done, x));
      assert first in Ready(all, done);
    }
  }

  /** If each of some packages lacks another of them or an unknown one, nothing can start when the rest is done. */
  lemma StuckSet(all: seq<Package>, left: set<Id>, w: Package)
    requires w in all && w.id in left && left <= Ids(all)
    requires forall x :: x in all && x.id in left ==> exists d :: d in x.dependsOn && (d in left || d !in Ids(all))
    ensures !NeverStuck(all)
  {
    var done := Ids(all) - left;
    forall x | x in all ensures !IsReady(done, x) {
      assert x.id in Ids(all) by { var i :| 0 <= i < |all| && all[i] == x; }
      if x.id in left {
        var d :| d in x.dependsOn && (d in left || d !in Ids(all));
        assert d !in done;
      }
    }
    FilterNone(all, (x: Package) => IsReady(done, x));
    assert done <= Ids(all) && w.id !in done;
  }

  lemma UnknownIsStuck(all: seq<Package>)
    requires UniqueIds(all) && !Known(all)
    ensures !NeverStuck(all)
  {
    var i, d :| 0 <= i < |all| && d in all[i].dependsOn && d !in Ids(all);
    var w := all[i];
    forall x | x in all && x.id in {w.id} ensures d in x.dependsOn {
      var j :| 0 <= j < |all| && all[j] == x;
    }
    StuckSet(all, {w.id}, w);
  }

  lemma CycleIsStuck(all: seq<Package>)
    requires UniqueIds(all) && !Acyclic(all)
    ensures !NeverStuck(all)
  {
    var u :| Reaches(all, u, u);
    var path :| ChainFrom(all, path, u, u);
    var left := set k | 1 <= k < |path| :: path[k];
    assert Edge(all, path[0], path[0 + 1]);
    var i :| 0 <= i < |all| && all[i].id == path[1] && path[0] in all[i].dependsOn;
    forall k | 1 <= k < |path| ensures path[k] in Ids(all) {
      assert Edge(all, path[k - 1], path[k - 1 + 1]);
    }
    forall x | x in all && x.id in left ensures exists d :: d in x.dependsOn && (d in left || d !in Ids(all)) {
      var k :| 1 <= k < |path| && path[k] == x.id;
      Before(all, path, k, x);
      assert path[0] == path[|path| - 1] && path[|path| - 1] in left;
      assert path[k - 1] in left;
    }
    StuckSet(all, left, all[i]);
  }

  lemma Before(all: seq<Package>, path: seq<Id>, k: nat, x: Package)
    requires UniqueIds(all) && Chain(all, path) && 1 <= k < |path| && x in all && x.id == path[k]
    ensures path[k - 1] in x.dependsOn
  {
    assert Edge(all, path[k - 1], path[k - 1 + 1]);
    var i :| 0 <= i < |all| && all[i].id == path[k] && path[k - 1] in all[i].dependsOn;
    var j :| 0 <= j < |all| && all[j] == x;
  }

  /**
   * Main result: whatever has been completed, something is ready while anything is incomplete, exactly when the graph
   * is acyclic and names no unknown package.
   */
  lemma NeverStuckIff(all: seq<Package>)
    requires UniqueIds(all)
    ensures NeverStuck(all) <==> Acyclic(all) && Known(all)
  {
    if Acyclic(all) && Known(all) {
      AcyclicNeverStuck(all);
    } else if !Known(all) {
      UnknownIsStuck(all);
    } else {
      CycleIsStuck(all);
    }
  }
}
