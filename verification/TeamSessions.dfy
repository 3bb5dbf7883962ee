/** How many sessions a connection comes to hold (legacy/src/acp/team-agent.ts:101-165). */
module TeamSessions {
  import opened Basics

  type SessionId = string

  /** The registered sessions, and the loads that have passed the check and not yet finished. */
  datatype Sessions = Sessions(open: set<SessionId>, loading: multiset<SessionId>)

  const NoSessions := Sessions({}, multiset{})

  /** A new session, under a fresh id, is checked and registered at once. */
  predicate NewSession(s: Sessions, s': Sessions, id: SessionId) {
    s.open == {} && id !in s.loading && s' == s.(open := {id})
  }

  /** A load is checked, and then replays the spine. */
  predicate BeginLoad(s: Sessions, s': Sessions, id: SessionId) {
    s.open == {} && s' == s.(loading := s.loading + multiset{id})
  }

  /** When the replay is done it registers, without another check. */
  predicate EndLoad(s: Sessions, s': Sessions, id: SessionId) {
    id in s.loading && s' == Sessions(s.open + {id}, s.loading - multiset{id})
  }

  /** Reading or replaying may throw: nothing is registered. */
  predicate FailLoad(s: Sessions, s': Sessions, id: SessionId) {
    id in s.loading && s' == s.(loading := s.loading - multiset{id})
  }

  ghost predicate Creates(s: Sessions, s': Sessions) {
    exists id :: NewSession(s, s', id) || BeginLoad(s, s', id)
  }

  ghost predicate Registers(s: Sessions, s': Sessions) {
    exists id :: EndLoad(s, s', id)
  }

  ghost predicate Step(s: Sessions, s': Sessions) {
    Creates(s, s') || Registers(s, s') || exists id :: FailLoad(s, s', id)
  }

  ghost predicate Steps(run: seq<Sessions>) {
    run != [] && forall i :: 0 <= i < |run| - 1 ==> Step(run[i], run[i + 1])
  }

  ghost predicate IsConnection(run: seq<Sessions>) {
    Steps(run) && run[0] == NoSessions
  }

  /** The sessions open or about to be. */
  function Claimed(s: Sessions): set<SessionId> {
    s.open + set id | id in s.loading
  }

  /** A session is created, or its load begun, while another one's load is under way. */
  ghost predicate Clash(s: Sessions, s': Sessions) {
    s.loading != multiset{} && Creates(s, s') && Claimed(s') != Claimed(s)
  }

  ghost predicate Clashes(run: seq<Sessions>) {
    exists i :: 0 <= i < |run| - 1 && Clash(run[i], run[i + 1])
  }

  // ---------- without a clash ----------

  lemma Created(s: Sessions, s': Sessions, id: SessionId)
    requires NewSession(s, s', id) || BeginLoad(s, s', id)
    ensures s.open == {} && Claimed(s') == Claimed(s) + {id}
  {
  }

  lemma Finished(s: Sessions, s': Sessions, id: SessionId)
    requires EndLoad(s, s', id) || FailLoad(s, s', id)
    ensures Claimed(s') <= Claimed(s)
    ensures EndLoad(s, s', id) ==> Claimed(s') == Claimed(s)
  {
  }

  lemma AddOne(claimed: set<SessionId>, id: SessionId)
    requires |claimed| <= 1
    ensures |claimed + {id}| <= 1 <==> claimed == {} || claimed + {id} == claimed
  {
    if claimed == {} {
      assert claimed + {id} == {id};
    } else if id !in claimed {
      assert |claimed + {id}| == |claimed| + 1;
    } else {
      assert claimed + {id} == claimed;
    }
  }

  lemma CalmStep(s: Sessions, s': Sessions)
    requires Step(s, s') && |Claimed(s)| <= 1 && !Clash(s, s')
    ensures |Claimed(s')| <= 1
  {
    if Creates(s, s') {
      var id :| NewSession(s, s', id) || BeginLoad(s, s', id);
      Created(s, s', id);
      AddOne(Claimed(s), id);
      if s.loading == multiset{} { assert Claimed(s) == {}; }
    } else {
      var id :| EndLoad(s, s', id) || FailLoad(s, s', id);
      Finished(s, s', id);
      SubsetCard(Claimed(s'), Claimed(s));
    }
  }

  lemma {:induction false} CalmRun(run: seq<Sessions>)
    requires IsConnection(run) && !Clashes(run)
    ensures |Claimed(Last(run))| <= 1
  {
    if |run| == 1 {
      assert Claimed(NoSessions) == {};
    } else {
      var n := |run| - 2;
      assert !Clash(run[n], run[n + 1]) && Step(run[n], run[n + 1]);
      forall i | 0 <= i < |Init(run)| - 1 ensures !Clash(Init(run)[i], Init(run)[i + 1]) {
        assert !Clash(run[i], run[i + 1]);
      }
      CalmRun(Init(run));
      CalmStep(run[n], run[n + 1]);
    }
  }

  /** Without a clash a connection holds one session at most, at every moment. */
  lemma NoClashOneSession(run: seq<Sessions>)
    requires IsConnection(run) && !Clashes(run)
    ensures |Last(run).open| <= 1
  {
    CalmRun(run);
    SubsetCard(Last(run).open, Claimed(Last(run)));
  }

  // ---------- after a clash ----------

  lemma ClashClaimsTwo(s: Sessions, s': Sessions)
    requires Clash(s, s')
    ensures |Claimed(s')| >= 2
  {
    var id :| NewSession(s, s', id) || BeginLoad(s, s', id);
    Created(s, s', id);
    var other :| other in s.loading;
    assert {other, id} <= Claimed(s') && other != id;
    SubsetCard({other, id}, Claimed(s'));
  }

  /** run goes on with loads that finish. */
  ghost predicate Settling(run: seq<Sessions>) {
    run != [] && forall i :: 0 <= i < |run| - 1 ==> Registers(run[i], run[i + 1])
  }

  lemma {:induction false} Settle(s: Sessions) returns (run: seq<Sessions>)
    ensures Settling(run) && run[0] == s && Last(run).open == Claimed(s)
    decreases |s.loading|
  {
    if s.loading == multiset{} {
      run := [s];
    } else {
      var id :| id in s.loading;
      var next := Sessions(s.open + {id}, s.loading - multiset{id});
      assert EndLoad(s, next, id) && Registers(s, next);
      Finished(s, next, id);
      var rest := Settle(next);
      run := [s] + rest;
      forall i | 0 <= i < |run| - 1 ensures Registers(run[i], run[i + 1]) {
        if i > 0 { assert run[i] == rest[i - 1] && run[i + 1] == rest[i]; }
      }
    }
  }

  /** From some moment of the run on, the loads under way need only finish for two sessions to be open. */
  ghost predicate CanHoldTwo(run: seq<Sessions>) {
    exists n: nat, rest :: EndsInTwo(run, n, rest)
  }

  ghost predicate EndsInTwo(run: seq<Sessions>, n: nat, rest: seq<Sessions>) {
    n < |run| && Settling(rest) && rest[0] == run[n] && |Last(rest).open| >= 2
  }

  lemma {:induction false} SettlingClaims(rest: seq<Sessions>)
    requires Settling(rest)
    ensures Claimed(Last(rest)) == Claimed(rest[0])
  {
    if |rest| > 1 {
      var n := |rest| - 2;
      assert Registers(rest[n], rest[n + 1]);
      SettlingClaims(Init(rest));
      var id :| EndLoad(rest[n], rest[n + 1], id);
      Finished(rest[n], rest[n + 1], id);
    }
  }

  /** Two sessions open, or about to be without anything else happening, means that there was a clash. */
  lemma TwoNeedsClash(run: seq<Sessions>)
    requires IsConnection(run) && CanHoldTwo(run)
    ensures Clashes(run)
  {
    var n: nat, rest :| EndsInTwo(run, n, rest);
    SettlingClaims(rest);
    SubsetCard(Last(rest).open, Claimed(run[n]));
    if !Clashes(run) {
      var before := run[..n + 1];
      forall i | 0 <= i < |before| - 1 ensures !Clash(before[i], before[i + 1]) {
        assert !Clash(run[i], run[i + 1]);
      }
      assert Steps(before);
      CalmRun(before);
    }
  }

  /**
   * Main result: a connection can come to hold two sessions, the loads that are under way at some moment just finishing,
   * exactly when a session is created or begun to be loaded while another one's load is under way.
   */
  lemma TwoSessionsIff(run: seq<Sessions>)
    requires IsConnection(run)
    ensures CanHoldTwo(run) <==> Clashes(run)
  {
    if CanHoldTwo(run) { TwoNeedsClash(run); }
    if i :| 0 <= i < |run| - 1 && Clash(run[i], run[i + 1]) {
      ClashClaimsTwo(run[i], run[i + 1]);
      var rest := Settle(run[i + 1]);
      assert EndsInTwo(run, i + 1, rest);
    }
  }

  /** Such a run: a load that a new session overtakes leaves both open. */
  lemma OverlappingLoad(a: SessionId, b: SessionId) returns (run: seq<Sessions>)
    requires a != b
    ensures IsConnection(run) && Last(run).open == {a, b}
  {
    var s1, s2, s3 := Sessions({}, multiset{a}), Sessions({b}, multiset{a}), Sessions({a, b}, multiset{});
    assert multiset{} + multiset{a} == multiset{a} && multiset{a} - multiset{a} == multiset{};
    assert BeginLoad(NoSessions, s1, a) && NewSession(s1, s2, b) && EndLoad(s2, s3, a);
    run := [NoSessions, s1, s2, s3];
  }
}
