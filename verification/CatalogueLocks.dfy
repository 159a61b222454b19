/**
 * Processes saving, removing and copying session catalogues at once, under one lock per file.
 *
 * A lock is a directory, so it exists or not and names no owner. A process takes the locks of the
 * files it touches in the order their names sort, each once, then reads, then writes, then lets
 * them go in reverse. Every one of those is a step, and the steps of processes interleave freely. A
 * process may give up waiting, and a write may fail; either lets go of what is held.
 */
module CatalogueLocks {
  import opened SessionCatalogues

  /** Waiting for the lock after the first k; or releasing with k still held, and done at zero. */
  datatype Phase = Waiting(k: nat) | Reading | Writing(decision: Decision) | Releasing(k: nat, result: Result)

  datatype Proc = Proc(op: Op, phase: Phase)

  /** log is the order in which operations took effect; nothing in the protocol reads it. */
  datatype System = System(files: Files, locks: set<int>, procs: seq<Proc>, log: seq<nat>)

  datatype Act =
    | Acquire(p: nat)
    | GiveUp(p: nat)
    | Read(p: nat)
    | WriteOut(p: nat)
    | WriteFails(p: nat)
    | Release(p: nat)

  // ---- the locks of an operation ----

  function FilesOf(op: Op): seq<int> {
    match op
    case Save(file, _) => [file]
    case Remove(file, _) => [file]
    case Copy(source, target) => [source, target]
  }

  function InsertOnce(f: int, s: seq<int>): seq<int> {
    if s == [] || f < s[0] then [f] + s
    else if f == s[0] then s
    else [s[0]] + InsertOnce(f, s[1..])
  }

  /** The distinct files, ascending. */
  function SortedOnce(files: seq<int>): seq<int> {
    if files == [] then [] else InsertOnce(files[0], SortedOnce(files[1..]))
  }

  function LockOrder(op: Op): seq<int> {
    SortedOnce(FilesOf(op))
  }

  predicate Ascending(s: seq<int>) {
    forall i, j | 0 <= i < j < |s| :: s[i] < s[j]
  }

  lemma {:induction false} InsertOnceSorts(f: int, s: seq<int>)
    requires Ascending(s)
    ensures Ascending(InsertOnce(f, s))
    ensures forall x :: x in InsertOnce(f, s) <==> x == f || x in s
  {
    if s != [] && f > s[0] {
      InsertOnceSorts(f, s[1..]);
      var rest := InsertOnce(f, s[1..]);
      forall j | 0 <= j < |rest| ensures rest[j] > s[0] {
        assert rest[j] in rest;
        if rest[j] != f {
          var m :| 0 <= m < |s[1..]| && s[1..][m] == rest[j];
          assert s[m + 1] == rest[j];
        }
      }
    }
  }

  lemma {:induction false} SortedOnceSorts(files: seq<int>)
    ensures Ascending(SortedOnce(files))
    ensures forall x :: x in SortedOnce(files) <==> x in files
  {
    if files != [] {
      SortedOnceSorts(files[1..]);
      InsertOnceSorts(files[0], SortedOnce(files[1..]));
    }
  }

  /** Whatever an operation touches, it locks: in ascending order, each file once. */
  lemma LockOrderIs(op: Op)
    ensures Ascending(LockOrder(op)) && LockOrder(op) != []
    ensures forall f :: f in LockOrder(op) <==> f in FilesOf(op)
  {
    SortedOnceSorts(FilesOf(op));
    assert FilesOf(op)[0] in LockOrder(op);
  }

  function HeldCount(proc: Proc): nat {
    match proc.phase
    case Waiting(k) => k
    case Reading => |LockOrder(proc.op)|
    case Writing(_) => |LockOrder(proc.op)|
    case Releasing(k, _) => k
  }

  function First(s: seq<int>, k: nat): set<int> {
    set i | 0 <= i < k && i < |s| :: s[i]
  }

  function Held(proc: Proc): set<int> {
    First(LockOrder(proc.op), HeldCount(proc))
  }

  predicate Done(proc: Proc) {
    proc.phase.Releasing? && proc.phase.k == 0
  }

  // ---- the steps ----

  predicate Enabled(sys: System, act: Act) {
    act.p < |sys.procs|
    && var proc := sys.procs[act.p];
       match act
       case Acquire(_) =>
         && proc.phase.Waiting? && proc.phase.k < |LockOrder(proc.op)|
         && LockOrder(proc.op)[proc.phase.k] !in sys.locks
       case GiveUp(_) => proc.phase.Waiting?
       case Read(_) => proc.phase.Reading?
       case WriteOut(_) => proc.phase.Writing?
       case WriteFails(_) => proc.phase.Writing?
       case Release(_) => proc.phase.Releasing? && 0 < proc.phase.k <= |LockOrder(proc.op)|
  }

  function Moved(sys: System, p: nat, phase: Phase): System
    requires p < |sys.procs|
  {
    sys.(procs := sys.procs[p := sys.procs[p].(phase := phase)])
  }

  function Do(sys: System, act: Act): System
    requires Enabled(sys, act)
  {
    var p := act.p;
    var proc := sys.procs[p];
    var order := LockOrder(proc.op);
    match act
    case Acquire(_) =>
      var k := proc.phase.k;
      Moved(sys, p, if k + 1 == |order| then Reading else Waiting(k + 1)).(locks := sys.locks + {order[k]})
    case GiveUp(_) => Moved(sys, p, Releasing(proc.phase.k, Failed))
    case Read(_) =>
      var d := Decide(proc.op, sys.files);
      if d.Write? then Moved(sys, p, Writing(d))
      else Moved(sys, p, Releasing(|order|, d.result)).(log := sys.log + [p])
    case WriteOut(_) =>
      var d := proc.phase.decision;
      Moved(sys, p, Releasing(|order|, d.result)).(files := Commit(d, sys.files), log := sys.log + [p])
    case WriteFails(_) => Moved(sys, p, Releasing(|order|, Failed))
    case Release(_) =>
      Moved(sys, p, Releasing(proc.phase.k - 1, proc.phase.result)).(locks := sys.locks - {order[proc.phase.k - 1]})
  }

  function Opening(files: Files, ops: seq<Op>): System {
    System(files, {}, seq(|ops|, i requires 0 <= i < |ops| => Proc(ops[i], Waiting(0))), [])
  }

  // ---- mutual exclusion ----

  ghost predicate Excludes(sys: System) {
    && (forall p | 0 <= p < |sys.procs| :: InRange(sys.procs[p]))
    && (forall p, q | 0 <= p < q < |sys.procs| :: Held(sys.procs[p]) !! Held(sys.procs[q]))
    && (forall f :: f in sys.locks <==> exists p :: 0 <= p < |sys.procs| && f in Held(sys.procs[p]))
  }

  predicate InRange(proc: Proc) {
    && HeldCount(proc) <= |LockOrder(proc.op)|
    && (proc.phase.Waiting? ==> proc.phase.k < |LockOrder(proc.op)|)
  }

  lemma FirstNext(s: seq<int>, k: nat)
    requires Ascending(s) && k < |s|
    ensures First(s, k + 1) == First(s, k) + {s[k]} && s[k] !in First(s, k)
  {}

  lemma HolderExists(sys: System, p: nat, f: int)
    requires p < |sys.procs| && f in Held(sys.procs[p])
    ensures exists q :: 0 <= q < |sys.procs| && f in Held(sys.procs[q])
  {}

  lemma TakingKeepsExclusion(sys: System, p: nat, f: int, phase: Phase)
    requires Excludes(sys) && p < |sys.procs| && f !in sys.locks
    requires var proc := sys.procs[p].(phase := phase); InRange(proc) && Held(proc) == Held(sys.procs[p]) + {f}
    ensures Excludes(Moved(sys, p, phase).(locks := sys.locks + {f}))
  {
    var after := Moved(sys, p, phase).(locks := sys.locks + {f});
    assert forall q | 0 <= q < |sys.procs| :: f !in Held(sys.procs[q]);
    forall g ensures g in after.locks <==> exists q :: 0 <= q < |after.procs| && g in Held(after.procs[q]) {
      if g in sys.locks {
        var q :| 0 <= q < |sys.procs| && g in Held(sys.procs[q]);
        assert g in Held(after.procs[q]);
      }
      if g == f { assert g in Held(after.procs[p]); }
      if q :| 0 <= q < |after.procs| && g in Held(after.procs[q]) {
        if g != f { HolderExists(sys, q, g); }
      }
    }
  }

  lemma DroppingKeepsExclusion(sys: System, p: nat, f: int, phase: Phase)
    requires Excludes(sys) && p < |sys.procs| && f in Held(sys.procs[p])
    requires var proc := sys.procs[p].(phase := phase); InRange(proc) && Held(proc) == Held(sys.procs[p]) - {f}
    ensures Excludes(Moved(sys, p, phase).(locks := sys.locks - {f}))
  {
    var after := Moved(sys, p, phase).(locks := sys.locks - {f});
    forall g ensures g in after.locks <==> exists q :: 0 <= q < |after.procs| && g in Held(after.procs[q]) {
      if g in after.locks {
        var q :| 0 <= q < |sys.procs| && g in Held(sys.procs[q]);
        assert g in Held(after.procs[q]);
      }
      if q :| 0 <= q < |after.procs| && g in Held(after.procs[q]) {
        HolderExists(sys, q, g);
      }
    }
  }

  lemma HoldingKeepsExclusion(sys: System, p: nat, phase: Phase)
    requires Excludes(sys) && p < |sys.procs|
    requires var proc := sys.procs[p].(phase := phase); InRange(proc) && Held(proc) == Held(sys.procs[p])
    ensures Excludes(Moved(sys, p, phase))
  {
    var after := Moved(sys, p, phase);
    forall g ensures g in after.locks <==> exists q :: 0 <= q < |after.procs| && g in Held(after.procs[q]) {
      if g in sys.locks {
        var q :| 0 <= q < |sys.procs| && g in Held(sys.procs[q]);
        assert g in Held(after.procs[q]);
      }
      if q :| 0 <= q < |after.procs| && g in Held(after.procs[q]) {
        HolderExists(sys, q, g);
      }
    }
  }

  lemma ExcludesIgnores(a: System, b: System)
    requires Excludes(a) && a.procs == b.procs && a.locks == b.locks
    ensures Excludes(b)
  {}

  lemma StepExcludes(sys: System, act: Act)
    requires Excludes(sys) && Enabled(sys, act)
    ensures Excludes(Do(sys, act))
  {
    match act
    case Acquire(p) =>
      var order, k := LockOrder(sys.procs[p].op), sys.procs[p].phase.k;
      LockOrderIs(sys.procs[p].op);
      FirstNext(order, k);
      TakingKeepsExclusion(sys, p, order[k], if k + 1 == |order| then Reading else Waiting(k + 1));
    case Release(p) =>
      var order, k := LockOrder(sys.procs[p].op), sys.procs[p].phase.k - 1;
      LockOrderIs(sys.procs[p].op);
      FirstNext(order, k);
      DroppingKeepsExclusion(sys, p, order[k], Releasing(k, sys.procs[p].phase.result));
    case _ => OtherStepsExclude(sys, act);
  }

  lemma OtherStepsExclude(sys: System, act: Act)
    requires Excludes(sys) && Enabled(sys, act) && !act.Acquire? && !act.Release?
    ensures Excludes(Do(sys, act))
  {
    var after := Do(sys, act);
    var phase := after.procs[act.p].phase;
    assert InRange(sys.procs[act.p]);
    assert after.procs == Moved(sys, act.p, phase).procs && after.locks == sys.locks;
    HoldingKeepsExclusion(sys, act.p, phase);
    ExcludesIgnores(Moved(sys, act.p, phase), after);
  }

  // ---- every run is a serial one ----

  function OpsOf(sys: System): seq<Op> {
    seq(|sys.procs|, i requires 0 <= i < |sys.procs| => sys.procs[i].op)
  }

  predicate Within(log: seq<nat>, n: nat) {
    forall i | 0 <= i < |log| :: log[i] < n
  }

  /** The files after these operations, one after the other and each by itself. */
  function Serially(files: Files, ops: seq<Op>, log: seq<nat>): Files
    requires Within(log, |ops|)
  {
    if log == [] then files
    else Apply(ops[log[|log| - 1]], Serially(files, ops, log[..|log| - 1])).0
  }

  /** What the i-th of them returns. */
  function SerialResult(files: Files, ops: seq<Op>, log: seq<nat>, i: nat): Result
    requires Within(log, |ops|) && i < |log|
  {
    Apply(ops[log[i]], Serially(files, ops, log[..i])).1
  }

  predicate HasResult(proc: Proc) {
    proc.phase.Releasing? && proc.phase.result != Failed
  }

  /** The log names, once each, exactly the operations that took effect. */
  ghost predicate LogsEffects(procs: seq<Proc>, log: seq<nat>) {
    && Within(log, |procs|)
    && (forall i, j | 0 <= i < j < |log| :: log[i] != log[j])
    && (forall p | 0 <= p < |procs| :: p in log <==> HasResult(procs[p]))
  }

  predicate Returned(proc: Proc, result: Result) {
    HasResult(proc) && proc.phase.result == result
  }

  ghost predicate ReturnsSerially(files: Files, ops: seq<Op>, procs: seq<Proc>, log: seq<nat>)
    requires Within(log, |procs|) && |ops| == |procs|
  {
    forall i | 0 <= i < |log| :: Returned(procs[log[i]], SerialResult(files, ops, log, i))
  }

  /** The files are those of the serial run in log order, and each operation returns what it returns there. */
  ghost predicate Serial(files: Files, sys: System) {
    && LogsEffects(sys.procs, sys.log)
    && sys.files == Serially(files, OpsOf(sys), sys.log)
    && ReturnsSerially(files, OpsOf(sys), sys.procs, sys.log)
  }

  /** A process about to write would still decide what it decided when it read. */
  ghost predicate Fresh(sys: System) {
    forall p | 0 <= p < |sys.procs| && sys.procs[p].phase.Writing? ::
      sys.procs[p].phase.decision == Decide(sys.procs[p].op, sys.files) && sys.procs[p].phase.decision.Write?
  }

  lemma DecidesByItsFiles(op: Op, a: Files, b: Files)
    requires forall f | f in FilesOf(op) :: At(a, f) == At(b, f)
    ensures Decide(op, a) == Decide(op, b)
  {
    match op
    case Save(file, _) => assert file in FilesOf(op);
    case Remove(file, _) => assert file in FilesOf(op);
    case Copy(source, _) => assert source in FilesOf(op);
  }

  lemma WritesItsFiles(op: Op, files: Files)
    ensures Decide(op, files).result != Failed
    ensures Decide(op, files).Write? ==> Decide(op, files).file in FilesOf(op)
  {
    match op
    case Save(file, _) => assert file in FilesOf(op);
    case Remove(file, _) => assert file in FilesOf(op);
    case Copy(_, target) => assert target in FilesOf(op);
  }

  lemma HoldsItsFiles(proc: Proc)
    requires proc.phase.Writing? || proc.phase.Reading?
    ensures forall f :: f in FilesOf(proc.op) <==> f in Held(proc)
  {
    LockOrderIs(proc.op);
    var order := LockOrder(proc.op);
    forall f | f in order ensures f in First(order, |order|) {
      var i :| 0 <= i < |order| && order[i] == f;
    }
  }

  /** A write leaves alone what every other process is about to write from. */
  lemma WriteKeepsOthersFresh(sys: System, p: nat, d: Decision)
    requires Excludes(sys) && Fresh(sys) && p < |sys.procs| && sys.procs[p].phase.Writing?
             && d == sys.procs[p].phase.decision
    ensures forall q | 0 <= q < |sys.procs| && q != p && sys.procs[q].phase.Writing? ::
              Decide(sys.procs[q].op, Commit(d, sys.files)) == sys.procs[q].phase.decision
  {
    WritesItsFiles(sys.procs[p].op, sys.files);
    HoldsItsFiles(sys.procs[p]);
    forall q | 0 <= q < |sys.procs| && q != p && sys.procs[q].phase.Writing?
      ensures Decide(sys.procs[q].op, Commit(d, sys.files)) == sys.procs[q].phase.decision
    {
      HoldsItsFiles(sys.procs[q]);
      assert Held(sys.procs[q]) !! Held(sys.procs[p]);
      DecidesByItsFiles(sys.procs[q].op, sys.files, Commit(d, sys.files));
    }
  }

  lemma StepKeepsFresh(sys: System, act: Act)
    requires Excludes(sys) && Fresh(sys) && Enabled(sys, act)
    ensures Fresh(Do(sys, act))
  {
    if act.WriteOut? {
      WriteKeepsOthersFresh(sys, act.p, sys.procs[act.p].phase.decision);
    }
  }

  lemma {:induction false} SeriallyPrefix(files: Files, ops: seq<Op>, log: seq<nat>, p: nat)
    requires Within(log, |ops|) && p < |ops|
    ensures Within(log + [p], |ops|)
    ensures Serially(files, ops, log + [p]) == Apply(ops[p], Serially(files, ops, log)).0
    ensures forall i | 0 <= i < |log| :: SerialResult(files, ops, log + [p], i) == SerialResult(files, ops, log, i)
    ensures SerialResult(files, ops, log + [p], |log|) == Apply(ops[p], Serially(files, ops, log)).1
  {
    assert (log + [p])[..|log|] == log;
    forall i | 0 <= i < |log| ensures SerialResult(files, ops, log + [p], i) == SerialResult(files, ops, log, i) {
      assert (log + [p])[..i] == log[..i];
    }
  }

  lemma MoveKeepsOps(sys: System, p: nat, phase: Phase)
    requires p < |sys.procs|
    ensures OpsOf(Moved(sys, p, phase)) == OpsOf(sys)
  {}

  lemma CommitIsLogged(procs: seq<Proc>, log: seq<nat>, p: nat, proc: Proc)
    requires LogsEffects(procs, log) && p < |procs| && !HasResult(procs[p]) && HasResult(proc)
    ensures LogsEffects(procs[p := proc], log + [p]) && p !in log
  {}

  lemma CommitReturns(files: Files, ops: seq<Op>, procs: seq<Proc>, log: seq<nat>, p: nat, proc: Proc)
    requires Within(log, |procs|) && |ops| == |procs| && ReturnsSerially(files, ops, procs, log)
    requires p < |procs| && p !in log && Within(log + [p], |procs|)
    requires Returned(proc, Apply(ops[p], Serially(files, ops, log)).1)
    ensures ReturnsSerially(files, ops, procs[p := proc], log + [p])
  {
    forall i | 0 <= i < |log + [p]|
      ensures Returned(procs[p := proc][(log + [p])[i]], SerialResult(files, ops, log + [p], i)) {
      CommitReturnsAt(files, ops, procs, log, p, proc, i);
    }
  }

  lemma CommitReturnsAt(files: Files, ops: seq<Op>, procs: seq<Proc>, log: seq<nat>, p: nat, proc: Proc, i: nat)
    requires Within(log, |procs|) && |ops| == |procs| && ReturnsSerially(files, ops, procs, log)
    requires p < |procs| && p !in log && Within(log + [p], |procs|) && i <= |log|
    requires Returned(proc, Apply(ops[p], Serially(files, ops, log)).1)
    ensures Returned(procs[p := proc][(log + [p])[i]], SerialResult(files, ops, log + [p], i))
  {
    if i < |log| {
      EarlierIsElsewhere(log, i, p);
      assert procs[p := proc][log[i]] == procs[log[i]];
      assert SerialResult(files, ops, log + [p], i) == SerialResult(files, ops, log, i)
        by { SeriallyPrefix(files, ops, log, p); }
    } else {
      assert SerialResult(files, ops, log + [p], i) == Apply(ops[p], Serially(files, ops, log)).1
        by { SeriallyPrefix(files, ops, log, p); }
    }
  }

  /** An operation takes effect: it is logged last, with the result it would have run alone. */
  lemma CommitKeepsSerial(files: Files, sys: System, p: nat, n: nat, d: Decision)
    requires Serial(files, sys) && p < |sys.procs| && !sys.procs[p].phase.Releasing?
    requires d == Decide(sys.procs[p].op, sys.files)
    ensures Serial(files, Moved(sys, p, Releasing(n, d.result)).(files := Commit(d, sys.files), log := sys.log + [p]))
  {
    var proc := sys.procs[p].(phase := Releasing(n, d.result));
    WritesItsFiles(sys.procs[p].op, sys.files);
    MoveKeepsOps(sys, p, Releasing(n, d.result));
    CommitIsLogged(sys.procs, sys.log, p, proc);
    CommitReturns(files, OpsOf(sys), sys.procs, sys.log, p, proc);
    SeriallyPrefix(files, OpsOf(sys), sys.log, p);
    var after := Moved(sys, p, Releasing(n, d.result)).(files := Commit(d, sys.files), log := sys.log + [p]);
    assert OpsOf(after) == OpsOf(sys);
  }

  lemma EarlierIsElsewhere(log: seq<nat>, i: nat, p: nat)
    requires i < |log| && p !in log
    ensures log[i] != p
  {}

  /** A step that neither commits nor changes what a process returned. */
  lemma MoveKeepsSerial(files: Files, sys: System, p: nat, phase: Phase, locks: set<int>)
    requires Serial(files, sys) && p < |sys.procs|
    requires HasResult(sys.procs[p]) <==> HasResult(sys.procs[p].(phase := phase))
    requires HasResult(sys.procs[p]) ==> phase.result == sys.procs[p].phase.result
    ensures Serial(files, Moved(sys, p, phase).(locks := locks))
  {
    var after := Moved(sys, p, phase).(locks := locks);
    MoveKeepsOps(sys, p, phase);
    assert OpsOf(after) == OpsOf(sys);
  }

  lemma StepIsSerial(files: Files, sys: System, act: Act)
    requires Serial(files, sys) && Fresh(sys) && Enabled(sys, act)
    ensures Serial(files, Do(sys, act))
  {
    match act
    case Read(p) =>
      var d := Decide(sys.procs[p].op, sys.files);
      if d.Write? {
        MoveKeepsSerial(files, sys, p, Writing(d), sys.locks);
      } else {
        CommitKeepsSerial(files, sys, p, |LockOrder(sys.procs[p].op)|, d);
      }
    case WriteOut(p) => CommitKeepsSerial(files, sys, p, |LockOrder(sys.procs[p].op)|, sys.procs[p].phase.decision);
    case _ => OtherStepsAreSerial(files, sys, act);
  }

  lemma OtherStepsAreSerial(files: Files, sys: System, act: Act)
    requires Serial(files, sys) && Enabled(sys, act) && !act.Read? && !act.WriteOut?
    ensures Serial(files, Do(sys, act))
  {
    var after := Do(sys, act);
    var phase := after.procs[act.p].phase;
    assert after == Moved(sys, act.p, phase).(locks := after.locks);
    MoveKeepsSerial(files, sys, act.p, phase, after.locks);
  }

  // ---- no deadlock, and an end ----

  predicate Forced(act: Act) {
    act.GiveUp? || act.WriteFails?
  }

  /** The waiting process that wants the latest file of all waiting ones. */
  lemma {:induction false} LatestWaiting(sys: System, n: nat) returns (p: nat)
    requires Excludes(sys) && n <= |sys.procs| && exists q :: 0 <= q < n && sys.procs[q].phase.Waiting?
    ensures p < n && sys.procs[p].phase.Waiting?
    ensures forall q | 0 <= q < n && sys.procs[q].phase.Waiting? :: Wanted(sys.procs[q]) <= Wanted(sys.procs[p])
    decreases n
  {
    if exists q :: 0 <= q < n - 1 && sys.procs[q].phase.Waiting? {
      p := LatestWaiting(sys, n - 1);
      if sys.procs[n - 1].phase.Waiting? && Wanted(sys.procs[n - 1]) > Wanted(sys.procs[p]) {
        p := n - 1;
      }
    } else {
      p := n - 1;
    }
  }

  function Wanted(proc: Proc): int {
    if proc.phase.Waiting? && proc.phase.k < |LockOrder(proc.op)| then LockOrder(proc.op)[proc.phase.k] else 0
  }

  /** Until all are done some process can take a step of its own, without anyone giving up. */
  lemma SomeoneCanStep(sys: System)
    requires Excludes(sys) && exists p :: 0 <= p < |sys.procs| && !Done(sys.procs[p])
    ensures exists act :: Enabled(sys, act) && !Forced(act)
  {
    var p :| 0 <= p < |sys.procs| && !Done(sys.procs[p]);
    if q :| 0 <= q < |sys.procs| && !sys.procs[q].phase.Waiting? && !Done(sys.procs[q]) {
      assert InRange(sys.procs[q]);
      if sys.procs[q].phase.Reading? {
        assert Enabled(sys, Read(q)) && !Forced(Read(q));
      } else if sys.procs[q].phase.Writing? {
        assert Enabled(sys, WriteOut(q)) && !Forced(WriteOut(q));
      } else {
        assert Enabled(sys, Release(q)) && !Forced(Release(q));
      }
    } else {
      assert sys.procs[p].phase.Waiting?;
      var last := LatestWaiting(sys, |sys.procs|);
      LatestIsFree(sys, last);
      assert InRange(sys.procs[last]);
      assert Enabled(sys, Acquire(last)) && !Forced(Acquire(last));
    }
  }

  lemma HeldIsEarlier(proc: Proc)
    requires InRange(proc) && proc.phase.Waiting?
    ensures forall f :: f in Held(proc) ==> f < Wanted(proc)
  {
    LockOrderIs(proc.op);
  }

  /** Whoever held the file the latest waits for would itself wait for a later one. */
  lemma LatestIsFree(sys: System, last: nat)
    requires Excludes(sys) && last < |sys.procs| && sys.procs[last].phase.Waiting?
    requires forall q | 0 <= q < |sys.procs| :: sys.procs[q].phase.Waiting? || Done(sys.procs[q])
    requires forall q | 0 <= q < |sys.procs| && sys.procs[q].phase.Waiting? ::
             Wanted(sys.procs[q]) <= Wanted(sys.procs[last])
    ensures Wanted(sys.procs[last]) !in sys.locks
  {
    var f := Wanted(sys.procs[last]);
    forall q | 0 <= q < |sys.procs| ensures f !in Held(sys.procs[q]) {
      if sys.procs[q].phase.Waiting? {
        HeldIsEarlier(sys.procs[q]);
      }
    }
  }

  function StepsLeft(proc: Proc): nat {
    match proc.phase
    case Waiting(k) => if k < |LockOrder(proc.op)| then 2 * (|LockOrder(proc.op)| - k) + k + 3 else 0
    case Reading => |LockOrder(proc.op)| + 2
    case Writing(_) => |LockOrder(proc.op)| + 1
    case Releasing(k, _) => k
  }

  function TotalLeft(procs: seq<Proc>): nat {
    if procs == [] then 0 else StepsLeft(procs[0]) + TotalLeft(procs[1..])
  }

  lemma {:induction false} OneChanged(a: seq<Proc>, p: nat, proc: Proc)
    requires p < |a|
    ensures TotalLeft(a[p := proc]) == TotalLeft(a) - StepsLeft(a[p]) + StepsLeft(proc)
    decreases |a|
  {
    if p == 0 {
      assert a[0 := proc][1..] == a[1..];
    } else {
      assert a[p := proc][1..] == a[1..][p - 1 := proc];
      OneChanged(a[1..], p - 1, proc);
    }
  }

  lemma OneStepFewer(sys: System, act: Act)
    requires Excludes(sys) && Enabled(sys, act)
    ensures var after := Do(sys, act).procs;
            && act.p < |after| && StepsLeft(after[act.p]) < StepsLeft(sys.procs[act.p])
            && after == sys.procs[act.p := after[act.p]]
  {
    assert InRange(sys.procs[act.p]);
    LockOrderIs(sys.procs[act.p].op);
  }

  /** Every step is progress, so a run is no longer than this many steps. */
  lemma StepIsProgress(sys: System, act: Act)
    requires Excludes(sys) && Enabled(sys, act)
    ensures TotalLeft(Do(sys, act).procs) < TotalLeft(sys.procs)
  {
    var after := Do(sys, act).procs;
    OneStepFewer(sys, act);
    OneChanged(sys.procs, act.p, after[act.p]);
  }

  // ---- runs ----

  predicate CanRun(sys: System, acts: seq<Act>)
    decreases |acts|
  {
    acts == [] || (Enabled(sys, acts[0]) && CanRun(Do(sys, acts[0]), acts[1..]))
  }

  function Run(sys: System, acts: seq<Act>): System
    requires CanRun(sys, acts)
    decreases |acts|
  {
    if acts == [] then sys else Run(Do(sys, acts[0]), acts[1..])
  }

  lemma {:induction false} RunKeeps(files: Files, sys: System, acts: seq<Act>)
    requires Excludes(sys) && Serial(files, sys) && Fresh(sys) && CanRun(sys, acts)
    ensures var after := Run(sys, acts); Excludes(after) && Serial(files, after) && Fresh(after)
    ensures TotalLeft(Run(sys, acts).procs) + |acts| <= TotalLeft(sys.procs)
    decreases |acts|
  {
    if acts != [] {
      StepExcludes(sys, acts[0]);
      StepIsSerial(files, sys, acts[0]);
      StepKeepsFresh(sys, acts[0]);
      StepIsProgress(sys, acts[0]);
      RunKeeps(files, Do(sys, acts[0]), acts[1..]);
    }
  }

  lemma OpeningIsGood(files: Files, ops: seq<Op>)
    ensures var sys := Opening(files, ops); Excludes(sys) && Serial(files, sys) && Fresh(sys) && OpsOf(sys) == ops
  {
    var sys := Opening(files, ops);
    forall p | 0 <= p < |ops| ensures InRange(sys.procs[p]) && Held(sys.procs[p]) == {} {
      LockOrderIs(ops[p]);
    }
  }

  /**
   * However the steps of any operations interleave: no file's lock is held twice, the files are at
   * every moment those of a serial run of the operations that took effect so far, each of which
   * returns what it returns there, some process can step until all are done, and there are only so
   * many steps to take.
   */
  lemma RunsAreSerial(files: Files, ops: seq<Op>, acts: seq<Act>)
    requires CanRun(Opening(files, ops), acts)
    ensures var sys := Run(Opening(files, ops), acts);
            && Excludes(sys) && Serial(files, sys)
            && |acts| <= TotalLeft(Opening(files, ops).procs)
            && ((exists p :: 0 <= p < |sys.procs| && !Done(sys.procs[p]))
                ==> exists act :: Enabled(sys, act) && !Forced(act))
  {
    OpeningIsGood(files, ops);
    RunKeeps(files, Opening(files, ops), acts);
    var sys := Run(Opening(files, ops), acts);
    if exists p :: 0 <= p < |sys.procs| && !Done(sys.procs[p]) {
      SomeoneCanStep(sys);
    }
  }

  /** The guarantee needs holders to let go in time: once a lock is taken to be stale, it can be held twice. */
  lemma ExpiryLetsASecondHolderIn(sys: System, p: nat, q: nat)
    requires Excludes(sys) && p < |sys.procs| && q < |sys.procs| && p != q
    requires sys.procs[q].phase.Waiting? && Wanted(sys.procs[q]) in Held(sys.procs[p])
    ensures var f := Wanted(sys.procs[q]);
            var expired := sys.(locks := sys.locks - {f});
            && !Enabled(sys, Acquire(q)) && Enabled(expired, Acquire(q))
            && f in Held(Do(expired, Acquire(q)).procs[p]) && f in Held(Do(expired, Acquire(q)).procs[q])
  {
    var f := Wanted(sys.procs[q]);
    HolderExists(sys, p, f);
    assert InRange(sys.procs[q]);
    LockOrderIs(sys.procs[q].op);
    FirstNext(LockOrder(sys.procs[q].op), sys.procs[q].phase.k);
  }
}
