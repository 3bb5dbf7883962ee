/**
 * The shared token file (legacy/src/auth/openai-codex-token-store.ts:45-153): processes that interleave an
 * exclusive lock file, a read-modify-write and an atomic rename, and that may fail or crash anywhere.
 */
module TokenStore {
  import opened Basics

  const CodexKey := "openai-codex"

  datatype Tokens = Tokens(access: string, refresh: string, accountId: string, expiresAt: real)

  /** A provider's entry: codex tokens, or anything else. */
  datatype Entry = Codex(tokens: Tokens) | Foreign(text: string)

  /** What the file's text parses to, when it is a JSON object or array. */
  datatype Doc = Object(entries: map<string, Entry>) | Array

  /** A file's text. `Unreadable` is text that does not parse, a half-written file included, or that is not an object. */
  datatype Text = Complete(doc: Doc) | Unreadable

  function ReadAll(file: Option<Text>): Doc {
    match file
    case Some(Complete(doc)) => doc
    case _ => Object(map[])
  }

  function ReadTokens(file: Option<Text>): Option<Tokens> {
    var doc := ReadAll(file);
    if doc.Object? && CodexKey in doc.entries && doc.entries[CodexKey].Codex? then Some(doc.entries[CodexKey].tokens) else None
  }

  // ---------- operations on the file's entries ----------

  datatype Op = Write(key: string, entry: Entry) | Clear(key: string)

  /** An array takes no entry: what is set on it is not serialized. */
  function Updated(doc: Doc, op: Op): Doc {
    match doc
    case Array => Array
    case Object(m) => Object(if op.Write? then m[op.key := op.entry] else m - {op.key})
  }

  predicate Has(doc: Doc, key: string) {
    doc.Object? && key in doc.entries
  }

  function Fold(doc: Doc, log: seq<Op>): Doc {
    if log == [] then doc else Updated(Fold(doc, Init(log)), Last(log))
  }

  // ---------- the protocol ----------

  /** `next` is the map that is about to be written. */
  datatype Phase =
    | Idle
    | Trying(op: Op)
    | Entered(op: Op)
    | HasRead(op: Op, all: Doc)
    | TmpCleared(op: Op, next: Doc)
    | TmpOpen(op: Op, next: Doc)
    | TmpFull(op: Op, next: Doc)
    | Leaving

  /** A process and its own temporary file. */
  datatype Proc = Proc(phase: Phase, tmp: Option<Text>)

  type Pid = nat

  datatype State = State(file: Option<Text>, lock: bool, procs: map<Pid, Proc>, log: seq<Op>)

  predicate InLock(phase: Phase) {
    !phase.Idle? && !phase.Trying?
  }

  function At(s: State, p: Pid, phase: Phase, tmp: Option<Text>): State {
    s.(procs := s.procs[p := Proc(phase, tmp)])
  }

  /** Exclusive create succeeds only when there is no lock file. */
  predicate TakeLock(s: State, s': State, p: Pid)
    requires p in s.procs
  {
    var Proc(phase, tmp) := s.procs[p];
    phase.Trying? && !s.lock && s' == At(s, p, Entered(phase.op), tmp).(lock := true)
  }

  /** A waiter that has waited too long unlinks the lock file, whoever made it. */
  predicate Reclaim(s: State, s': State, p: Pid)
    requires p in s.procs
  {
    s.procs[p].phase.Trying? && s.lock && s' == s.(lock := false)
  }

  /** The steps of the read-modify-write. */
  predicate Work(s: State, s': State, p: Pid)
    requires p in s.procs
  {
    var Proc(phase, tmp) := s.procs[p];
    match phase
    case Entered(op) =>
      if op.Clear? && !Has(ReadAll(s.file), op.key) then s' == At(s, p, Leaving, tmp).(log := s.log + [op])
      else s' == At(s, p, HasRead(op, ReadAll(s.file)), tmp)
    case HasRead(op, all) => s' == At(s, p, TmpCleared(op, Updated(all, op)), None)
    case TmpCleared(op, next) => s' == At(s, p, TmpOpen(op, next), Some(Unreadable))
    case TmpOpen(op, next) => s' == At(s, p, TmpFull(op, next), Some(Complete(next)))
    case TmpFull(op, next) => s' == At(s, p, Leaving, None).(file := tmp, log := s.log + [op])
    case _ => false
  }

  /** Starting an operation, failing inside the lock, leaving it, and crashing anywhere. */
  predicate Other(keys: set<string>, s: State, s': State, p: Pid)
    requires p in s.procs
  {
    var Proc(phase, tmp) := s.procs[p];
    || (phase.Idle? && s'.procs.Keys == s.procs.Keys && s'.procs[p].phase.Trying?
        && s'.procs[p].phase.op.key in keys && s' == At(s, p, s'.procs[p].phase, tmp))
    || (InLock(phase) && s' == At(s, p, Leaving, tmp))
    || (phase.Leaving? && s' == At(s, p, Idle, tmp).(lock := false))
    || s' == At(s, p, Idle, tmp)
  }

  predicate Orderly(keys: set<string>, s: State, s': State, p: Pid)
    requires p in s.procs
  {
    TakeLock(s, s', p) || Work(s, s', p) || Other(keys, s, s', p)
  }

  ghost predicate Step(keys: set<string>, reclaims: bool, s: State, s': State) {
    exists p :: p in s.procs && (Orderly(keys, s, s', p) || (reclaims && Reclaim(s, s', p)))
  }

  /** Any file, any leftover lock and temporary files, and nobody at work. */
  predicate Initial(s: State) {
    s.log == [] && forall p :: p in s.procs ==> s.procs[p].phase == Idle
  }

  ghost predicate IsRun(keys: set<string>, reclaims: bool, run: seq<State>) {
    && run != [] && Initial(run[0])
    && forall i :: 0 <= i < |run| - 1 ==> Step(keys, reclaims, run[i], run[i + 1])
  }

  /**
   * Wherever an operation fails inside the lock, it can leave: the file and the finished operations are as they were,
   * the lock is free, and its temporary file stays behind.
   */
  lemma FailureLeavesFile(keys: set<string>, reclaims: bool, run: seq<State>, p: Pid) returns (longer: seq<State>)
    requires IsRun(keys, reclaims, run) && p in Last(run).procs && InLock(Last(run).procs[p].phase)
    ensures IsRun(keys, reclaims, longer)
    ensures var s, t := Last(run), Last(longer);
            && t.file == s.file && t.log == s.log && !t.lock
            && t.procs == s.procs[p := Proc(Idle, s.procs[p].tmp)]
  {
    var s := Last(run);
    var left := At(s, p, Leaving, s.procs[p].tmp);
    var out := At(left, p, Idle, s.procs[p].tmp).(lock := false);
    assert Other(keys, s, left, p) && Orderly(keys, s, left, p);
    assert Other(keys, left, out, p) && Orderly(keys, left, out, p);
    longer := CanLeave(keys, reclaims, run, left, p);
    assert Last(longer) == out;
  }

  lemma Extended(keys: set<string>, reclaims: bool, run: seq<State>, s: State, p: Pid)
    requires IsRun(keys, reclaims, run) && p in Last(run).procs && Orderly(keys, Last(run), s, p)
    ensures IsRun(keys, reclaims, run + [s])
  {
    var longer := run + [s];
    forall i | 0 <= i < |longer| - 1 ensures Step(keys, reclaims, longer[i], longer[i + 1]) {
      if i < |run| - 1 { assert longer[i] == run[i] && longer[i + 1] == run[i + 1]; }
    }
  }

  /** Inside the lock, a process that has something to write can get as far as a full temporary file. */
  lemma CanFill(keys: set<string>, reclaims: bool, run: seq<State>, p: Pid, op: Op) returns (longer: seq<State>)
    requires IsRun(keys, reclaims, run) && p in Last(run).procs && Last(run).procs[p].phase == Entered(op)
    requires !(op.Clear? && !Has(ReadAll(Last(run).file), op.key))
    ensures IsRun(keys, reclaims, longer)
    ensures var next := Updated(ReadAll(Last(run).file), op);
            Last(longer) == At(Last(run), p, TmpFull(op, next), Some(Complete(next)))
  {
    var s, all := Last(run), ReadAll(Last(run).file);
    var next := Updated(all, op);
    var s1 := At(s, p, HasRead(op, all), s.procs[p].tmp);
    var s2, s3 := At(s1, p, TmpCleared(op, next), None), At(s1, p, TmpOpen(op, next), Some(Unreadable));
    var s4 := At(s, p, TmpFull(op, next), Some(Complete(next)));
    assert At(s2, p, TmpOpen(op, next), Some(Unreadable)) == s3 && At(s3, p, TmpFull(op, next), Some(Complete(next))) == s4;
    Extended(keys, reclaims, run, s1, p);
    Extended(keys, reclaims, run + [s1], s2, p);
    Extended(keys, reclaims, run + [s1] + [s2], s3, p);
    Extended(keys, reclaims, run + [s1] + [s2] + [s3], s4, p);
    longer := run + [s1] + [s2] + [s3] + [s4];
  }

  /** A waiting operation can complete as soon as the lock is free: the file is updated by it, it is logged, and the lock is free again. */
  lemma CanComplete(keys: set<string>, reclaims: bool, run: seq<State>, p: Pid, op: Op) returns (longer: seq<State>)
    requires IsRun(keys, reclaims, run) && p in Last(run).procs && Last(run).procs[p].phase == Trying(op) && !Last(run).lock
    ensures IsRun(keys, reclaims, longer)
    ensures var s, t := Last(run), Last(longer);
            && t.log == s.log + [op] && !t.lock && p in t.procs && t.procs[p].phase == Idle
            && ReadAll(t.file) == Updated(ReadAll(s.file), op)
  {
    var s := Last(run);
    var entered := At(s, p, Entered(op), s.procs[p].tmp).(lock := true);
    Extended(keys, reclaims, run, entered, p);
    var one := run + [entered];
    if op.Clear? && !Has(ReadAll(s.file), op.key) {
      ClearAbsent(ReadAll(s.file), op);
      longer := CanLeave(keys, reclaims, one, At(entered, p, Leaving, s.procs[p].tmp).(log := s.log + [op]), p);
    } else {
      var full := CanFill(keys, reclaims, one, p, op);
      var next := Updated(ReadAll(s.file), op);
      longer := CanLeave(keys, reclaims, full, At(Last(full), p, Leaving, None).(file := Some(Complete(next)), log := s.log + [op]), p);
    }
  }

  lemma CanLeave(keys: set<string>, reclaims: bool, run: seq<State>, left: State, p: Pid) returns (longer: seq<State>)
    requires IsRun(keys, reclaims, run) && p in Last(run).procs && Orderly(keys, Last(run), left, p)
    requires p in left.procs && left.procs[p].phase == Leaving
    ensures IsRun(keys, reclaims, longer)
    ensures Last(longer) == At(left, p, Idle, left.procs[p].tmp).(lock := false)
  {
    var out := At(left, p, Idle, left.procs[p].tmp).(lock := false);
    Extended(keys, reclaims, run, left, p);
    Extended(keys, reclaims, run + [left], out, p);
    longer := run + [left] + [out];
  }

  // ---------- without reclaims ----------

  ghost predicate OneInside(s: State) {
    && (forall p :: p in s.procs && InLock(s.procs[p].phase) ==> s.lock)
    && (forall p, q :: p in s.procs && q in s.procs && InLock(s.procs[p].phase) && InLock(s.procs[q].phase) ==> p == q)
  }

  /** What a process inside has in hand is what the file says now. */
  predicate Current(s: State, phase: Phase) {
    match phase
    case HasRead(_, all) => all == ReadAll(s.file)
    case TmpCleared(op, next) => next == Updated(ReadAll(s.file), op)
    case TmpOpen(op, next) => next == Updated(ReadAll(s.file), op)
    case TmpFull(op, next) => next == Updated(ReadAll(s.file), op)
    case _ => true
  }

  predicate TmpReady(proc: Proc) {
    proc.phase.TmpFull? ==> proc.tmp == Some(Complete(proc.phase.next))
  }

  ghost predicate AllReady(s: State) {
    forall p :: p in s.procs ==> TmpReady(s.procs[p])
  }

  ghost predicate AllCurrent(s: State) {
    forall p :: p in s.procs ==> Current(s, s.procs[p].phase)
  }

  ghost predicate Serial(first: Doc, s: State) {
    ReadAll(s.file) == Fold(first, s.log)
  }

  lemma ReadyKept(keys: set<string>, s: State, s': State, p: Pid)
    requires p in s.procs && AllReady(s) && (Orderly(keys, s, s', p) || Reclaim(s, s', p))
    ensures AllReady(s')
  {
    assert TmpReady(s.procs[p]);
  }

  lemma OneInsideKept(keys: set<string>, s: State, s': State, p: Pid)
    requires p in s.procs && OneInside(s) && Orderly(keys, s, s', p)
    ensures OneInside(s')
  {
  }

  lemma LogOne(first: Doc, log: seq<Op>, op: Op)
    ensures Fold(first, log + [op]) == Updated(Fold(first, log), op)
  {
    assert Init(log + [op]) == log;
  }

  lemma WorkIsSerial(first: Doc, s: State, s': State, p: Pid)
    requires p in s.procs && TmpReady(s.procs[p]) && Work(s, s', p)
    requires Current(s, s.procs[p].phase) && Serial(first, s)
    ensures Serial(first, s')
  {
    var phase := s.procs[p].phase;
    WorkMoves(s, s', p);
    if phase.TmpFull? {
      LogOne(first, s.log, phase.op);
    } else if s'.log != s.log {
      LogOne(first, s.log, phase.op);
      ClearAbsent(ReadAll(s.file), phase.op);
    }
  }

  /** Clearing an entry that is not there changes nothing. */
  lemma ClearAbsent(doc: Doc, op: Op)
    requires op.Clear? && !Has(doc, op.key)
    ensures Updated(doc, op) == doc
  {
    if doc.Object? { assert doc.entries - {op.key} == doc.entries; }
  }

  /** What one step of the work does to the file and the log. */
  lemma WorkMoves(s: State, s': State, p: Pid)
    requires p in s.procs && TmpReady(s.procs[p]) && Work(s, s', p)
    ensures var phase := s.procs[p].phase;
            if phase.TmpFull? then s'.file == Some(Complete(phase.next)) && s'.log == s.log + [phase.op]
            else s'.file == s.file && (s'.log == s.log || (phase.Entered? && phase.op.Clear? && !Has(ReadAll(s.file), phase.op.key)
                                                           && s'.log == s.log + [phase.op]))
  {
  }

  lemma SerialKept(keys: set<string>, first: Doc, s: State, s': State, p: Pid)
    requires p in s.procs && AllReady(s) && Orderly(keys, s, s', p)
    requires Current(s, s.procs[p].phase) && Serial(first, s)
    ensures Serial(first, s')
  {
    if Work(s, s', p) {
      WorkIsSerial(first, s, s', p);
    } else {
      assert s'.file == s.file && s'.log == s.log;
    }
  }

  lemma CurrentKept(keys: set<string>, s: State, s': State, p: Pid)
    requires p in s.procs && OneInside(s) && AllCurrent(s) && Orderly(keys, s, s', p)
    ensures AllCurrent(s')
  {
    assert Current(s, s.procs[p].phase);
    forall q | q in s'.procs ensures Current(s', s'.procs[q].phase) {
      if q != p {
        assert s'.procs[q] == s.procs[q] && Current(s, s.procs[q].phase);
        if s.procs[p].phase.TmpFull? { assert !InLock(s.procs[q].phase); }
      }
    }
  }

  ghost predicate Inv(first: Doc, s: State) {
    OneInside(s) && AllCurrent(s) && AllReady(s) && Serial(first, s)
  }

  lemma InvKept(keys: set<string>, first: Doc, s: State, s': State)
    requires Inv(first, s) && Step(keys, false, s, s')
    ensures Inv(first, s')
  {
    var p :| p in s.procs && Orderly(keys, s, s', p);
    OneInsideKept(keys, s, s', p);
    CurrentKept(keys, s, s', p);
    ReadyKept(keys, s, s', p);
    SerialKept(keys, first, s, s', p);
  }

  /**
   * Main result: as long as no waiter reclaims the lock, over every interleaving, failure and crash at most one
   * process is inside, and the file says what the completed operations, one after another, make of it.
   */
  lemma {:induction false} LockedRuns(keys: set<string>, run: seq<State>)
    requires IsRun(keys, false, run)
    ensures OneInside(Last(run))
    ensures ReadAll(Last(run).file) == Fold(ReadAll(run[0].file), Last(run).log)
    ensures Inv(ReadAll(run[0].file), Last(run))
  {
    if |run| > 1 {
      LockedRuns(keys, Init(run));
      assert Step(keys, false, run[|run| - 2], run[|run| - 1]);
      InvKept(keys, ReadAll(run[0].file), Last(Init(run)), Last(run));
    }
  }

  // ---------- what the fold says about one entry ----------

  /** The last operation on a key. */
  function LastOp(log: seq<Op>, key: string): Option<Op> {
    if log == [] then None else if Last(log).key == key then Some(Last(log)) else LastOp(Init(log), key)
  }

  /** An object keeps every entry that nobody touched, and each other one is as its last operation left it. */
  lemma {:induction false} FoldAt(m: map<string, Entry>, log: seq<Op>, key: string)
    ensures var doc, op := Fold(Object(m), log), LastOp(log, key);
            && doc.Object?
            && match op
               case None => (key in doc.entries <==> key in m) && (key in m ==> doc.entries[key] == m[key])
               case Some(Write(_, entry)) => key in doc.entries && doc.entries[key] == entry
               case Some(Clear(_)) => key !in doc.entries
  {
    if log != [] {
      FoldAt(m, Init(log), key);
    }
  }

  lemma {:induction false} ArrayTakesNothing(log: seq<Op>)
    ensures Fold(Array, log) == Array
  {
    if log != [] {
      ArrayTakesNothing(Init(log));
    }
  }

  /**
   * What is read back after the last codex operation: exactly its tokens, if the file did not hold an array to
   * begin with; nothing, if it did.
   */
  lemma TokensReadBack(keys: set<string>, run: seq<State>, tokens: Tokens)
    requires IsRun(keys, false, run)
    requires LastOp(Last(run).log, CodexKey) == Some(Write(CodexKey, Codex(tokens)))
    ensures ReadTokens(Last(run).file) == Some(tokens) <==> ReadAll(run[0].file).Object?
    ensures ReadAll(run[0].file).Array? ==> ReadTokens(Last(run).file) == None
  {
    LockedRuns(keys, run);
    match ReadAll(run[0].file) {
      case Object(m) => FoldAt(m, Last(run).log, CodexKey);
      case Array => ArrayTakesNothing(Last(run).log);
    }
  }

  // ---------- with reclaims ----------

  /**
   * Main result: in every run, reclaims, failures and crashes included, a reader finds the original file or a
   * whole map, never a torn one.
   */
  lemma {:induction false} NeverTorn(keys: set<string>, run: seq<State>)
    requires IsRun(keys, true, run)
    ensures Last(run).file == run[0].file || (Last(run).file.Some? && Last(run).file.value.Complete?)
    ensures AllReady(Last(run))
  {
    if |run| > 1 {
      var s, s' := run[|run| - 2], Last(run);
      NeverTorn(keys, Init(run));
      assert Step(keys, true, run[|run| - 2], run[|run| - 1]) && Last(Init(run)) == s;
      var p :| p in s.procs && (Orderly(keys, s, s', p) || Reclaim(s, s', p));
      ReadyKept(keys, s, s', p);
      assert TmpReady(s.procs[p]);
    }
  }

  // ---------- when reclaiming is harmless ----------

  /** The two documents differ at one key at most. */
  ghost predicate SameBut(key: string, a: Doc, b: Doc) {
    && (a.Object? <==> b.Object?)
    && (a.Object? && b.Object? ==> a.entries - {key} == b.entries - {key})
  }

  /** What a process has in hand is the first document but for the one key. */
  predicate OpOf(phase: Phase, key: string) {
    phase.Idle? || phase.Leaving? || phase.op.key == key
  }

  ghost predicate InHand(key: string, first: Doc, phase: Phase) {
    && OpOf(phase, key)
    && (phase.HasRead? ==> SameBut(key, phase.all, first))
    && (phase.TmpCleared? || phase.TmpOpen? || phase.TmpFull? ==> phase.next == Updated(first, phase.op))
  }

  ghost predicate AllInHand(key: string, first: Doc, s: State) {
    forall p :: p in s.procs ==> InHand(key, first, s.procs[p].phase)
  }

  lemma UpdatedSame(key: string, a: Doc, b: Doc, op: Op)
    requires SameBut(key, a, b) && op.key == key
    ensures Updated(a, op) == Updated(b, op)
    ensures SameBut(key, Updated(a, op), b)
  {
    if a.Object? && op.Write? {
      assert a.entries[key := op.entry] == (a.entries - {key})[key := op.entry];
      assert b.entries[key := op.entry] == (b.entries - {key})[key := op.entry];
      assert a.entries[key := op.entry] - {key} == a.entries - {key};
    }
  }

  ghost predicate OneKey(keys: set<string>, key: string) {
    forall k :: k in keys ==> k == key
  }

  ghost predicate OneKeyInv(key: string, first: Doc, s: State) {
    && AllReady(s) && AllInHand(key, first, s) && Serial(first, s)
    && SameBut(key, ReadAll(s.file), first)
  }

  lemma WorkInHand(key: string, first: Doc, s: State, s': State, p: Pid)
    requires p in s.procs && AllInHand(key, first, s) && SameBut(key, ReadAll(s.file), first) && Work(s, s', p)
    ensures AllInHand(key, first, s')
  {
    var phase := s.procs[p].phase;
    assert InHand(key, first, phase);
    if phase.HasRead? { UpdatedSame(key, phase.all, first, phase.op); }
    forall q | q in s'.procs ensures InHand(key, first, s'.procs[q].phase) {
      if q != p { assert InHand(key, first, s.procs[q].phase); }
    }
  }

  lemma WorkSerial(key: string, first: Doc, s: State, s': State, p: Pid)
    requires p in s.procs && OneKeyInv(key, first, s) && Work(s, s', p)
    ensures Serial(first, s') && SameBut(key, ReadAll(s'.file), first)
  {
    var phase := s.procs[p].phase;
    assert InHand(key, first, phase) && TmpReady(s.procs[p]);
    if phase.Entered? { LogOne(first, s.log, phase.op); }
    if phase.TmpFull? {
      LogOne(first, s.log, phase.op);
      UpdatedSame(key, ReadAll(s.file), first, phase.op);
    }
  }

  lemma IdleInHand(keys: set<string>, key: string, first: Doc, s: State, s': State, p: Pid)
    requires OneKey(keys, key) && p in s.procs && AllInHand(key, first, s)
    requires TakeLock(s, s', p) || Other(keys, s, s', p) || Reclaim(s, s', p)
    ensures AllInHand(key, first, s')
  {
    assert InHand(key, first, s.procs[p].phase);
    forall q | q in s'.procs ensures InHand(key, first, s'.procs[q].phase) {
      if q != p { assert InHand(key, first, s.procs[q].phase); }
    }
  }

  lemma OneKeyKept(keys: set<string>, key: string, first: Doc, s: State, s': State)
    requires OneKey(keys, key) && OneKeyInv(key, first, s) && Step(keys, true, s, s')
    ensures OneKeyInv(key, first, s')
  {
    var p :| p in s.procs && (Orderly(keys, s, s', p) || Reclaim(s, s', p));
    ReadyKept(keys, s, s', p);
    if Work(s, s', p) {
      WorkInHand(key, first, s, s', p);
      WorkSerial(key, first, s, s', p);
    } else {
      IdleInHand(keys, key, first, s, s', p);
    }
  }

  lemma {:induction false} OneProviderIsSerial(keys: set<string>, key: string, run: seq<State>)
    requires OneKey(keys, key) && IsRun(keys, true, run)
    ensures OneKeyInv(key, ReadAll(run[0].file), Last(run))
  {
    if |run| > 1 {
      OneProviderIsSerial(keys, key, Init(run));
      assert Step(keys, true, run[|run| - 2], run[|run| - 1]);
      OneKeyKept(keys, key, ReadAll(run[0].file), Last(Init(run)), Last(run));
    }
  }

  // ---------- a lost update ----------

  lemma Extend(keys: set<string>, run: seq<State>, s: State, p: Pid)
    requires IsRun(keys, true, run) && p in Last(run).procs
    requires Orderly(keys, Last(run), s, p) || Reclaim(Last(run), s, p)
    ensures IsRun(keys, true, run + [s])
  {
    var longer := run + [s];
    forall i | 0 <= i < |longer| - 1 ensures Step(keys, true, longer[i], longer[i + 1]) {
      if i < |run| - 1 { assert longer[i] == run[i] && longer[i + 1] == run[i + 1]; }
    }
  }

  function Two(a: Phase, tmpA: Option<Text>, b: Phase, tmpB: Option<Text>): map<Pid, Proc> {
    map[0 := Proc(a, tmpA), 1 := Proc(b, tmpB)]
  }

  /** Both processes want to write. */
  lemma BothTry(keys: set<string>, a: Op, b: Op) returns (run: seq<State>)
    requires a.key in keys && b.key in keys
    ensures IsRun(keys, true, run) && run[0].file == None
    ensures Last(run) == State(None, false, Two(Trying(a), None, Trying(b), None), [])
  {
    var s0 := State(None, false, Two(Idle, None, Idle, None), []);
    var s1 := s0.(procs := Two(Trying(a), None, Idle, None));
    var s2 := s0.(procs := Two(Trying(a), None, Trying(b), None));
    run := [s0];
    assert Other(keys, s0, s1, 0); Extend(keys, run, s1, 0); run := run + [s1];
    assert Other(keys, s1, s2, 1); Extend(keys, run, s2, 1); run := run + [s2];
  }

  /** Process 0 is inside and has read the empty map, while process 1 waits. */
  lemma OneReads(keys: set<string>, a: Op, b: Op) returns (run: seq<State>)
    requires a.Write? && b.Write? && a.key in keys && b.key in keys
    ensures IsRun(keys, true, run) && run[0].file == None
    ensures Last(run) == State(None, true, Two(HasRead(a, Object(map[])), None, Trying(b), None), [])
  {
    run := BothTry(keys, a, b);
    var s2 := Last(run);
    var s3 := State(None, true, Two(Entered(a), None, Trying(b), None), []);
    var s4 := s3.(procs := Two(HasRead(a, Object(map[])), None, Trying(b), None));
    assert TakeLock(s2, s3, 0);    Extend(keys, run, s3, 0); run := run + [s3];
    assert Work(s3, s4, 0);        Extend(keys, run, s4, 0); run := run + [s4];
  }

  /** Process 1 then reclaims the lock and reads the same map. */
  lemma BothRead(keys: set<string>, a: Op, b: Op) returns (run: seq<State>)
    requires a.Write? && b.Write? && a.key in keys && b.key in keys
    ensures IsRun(keys, true, run) && run[0].file == None
    ensures Last(run) == State(None, true, Two(HasRead(a, Object(map[])), None, HasRead(b, Object(map[])), None), [])
  {
    run := OneReads(keys, a, b);
    var s4 := Last(run);
    var s5 := s4.(lock := false);
    var s6 := s4.(procs := Two(HasRead(a, Object(map[])), None, Entered(b), None));
    var s7 := s4.(procs := Two(HasRead(a, Object(map[])), None, HasRead(b, Object(map[])), None));
    assert Reclaim(s4, s5, 1);     Extend(keys, run, s5, 1); run := run + [s5];
    assert TakeLock(s5, s6, 1);    Extend(keys, run, s6, 1); run := run + [s6];
    assert Work(s6, s7, 1);        Extend(keys, run, s7, 1); run := run + [s7];
  }

  /** A process that has read its map writes it out. */
  lemma Finish(keys: set<string>, run: seq<State>, p: Pid, op: Op, all: Doc) returns (longer: seq<State>)
    requires IsRun(keys, true, run) && p in Last(run).procs && Last(run).procs[p].phase == HasRead(op, all)
    ensures IsRun(keys, true, longer) && longer[0] == run[0]
    ensures Last(longer) == At(Last(run), p, Leaving, None).(file := Some(Complete(Updated(all, op))), log := Last(run).log + [op])
  {
    var s, next := Last(run), Updated(all, op);
    var s1 := At(s, p, TmpCleared(op, next), None);
    var s2 := At(s, p, TmpOpen(op, next), Some(Unreadable));
    var s3 := At(s, p, TmpFull(op, next), Some(Complete(next)));
    var s4 := At(s, p, Leaving, None).(file := Some(Complete(next)), log := s.log + [op]);
    longer := run;
    assert Work(s, s1, p);  Extend(keys, longer, s1, p); longer := longer + [s1];
    assert s.procs[p := Proc(TmpCleared(op, next), None)][p := Proc(TmpOpen(op, next), Some(Unreadable))] == s2.procs;
    assert Work(s1, s2, p); Extend(keys, longer, s2, p); longer := longer + [s2];
    assert Work(s2, s3, p); Extend(keys, longer, s3, p); longer := longer + [s3];
    assert Work(s3, s4, p); Extend(keys, longer, s4, p); longer := longer + [s4];
  }

  /** One provider's update is lost when another's process reclaims the lock under it. */
  lemma ReclaimLosesUpdate(keys: set<string>, j: string, k: string) returns (run: seq<State>)
    requires j in keys && k in keys && j != k
    ensures IsRun(keys, true, run)
    ensures ReadAll(Last(run).file) != Fold(ReadAll(run[0].file), Last(run).log)
  {
    var a, b := Write(j, Foreign("a")), Write(k, Foreign("b"));
    run := BothRead(keys, a, b);
    run := Finish(keys, run, 1, b, Object(map[]));
    run := Finish(keys, run, 0, a, Object(map[]));
    assert Last(run).log == [] + [b] + [a];
    LogOne(Object(map[]), [] + [b], a);
    LogOne(Object(map[]), [], b);
    assert k !in ReadAll(Last(run).file).entries;
  }

  ghost predicate AlwaysSerial(keys: set<string>) {
    forall run: seq<State> :: IsRun(keys, true, run) ==> ReadAll(Last(run).file) == Fold(ReadAll(run[0].file), Last(run).log)
  }

  /**
   * Main result: reclaiming a lock that is still in use can never lose an operation exactly when all
   * operations are on one provider's entry.
   */
  lemma ReclaimIsHarmlessIff(keys: set<string>)
    ensures AlwaysSerial(keys) <==> forall j, k :: j in keys && k in keys ==> j == k
  {
    if forall j, k :: j in keys && k in keys ==> j == k {
      var key := if k :| k in keys then k else "";
      forall run: seq<State> | IsRun(keys, true, run) ensures ReadAll(Last(run).file) == Fold(ReadAll(run[0].file), Last(run).log) {
        OneProviderIsSerial(keys, key, run);
      }
    } else {
      var j, k :| j in keys && k in keys && j != k;
      var run := ReclaimLosesUpdate(keys, j, k);
    }
  }
}
