/**
 * The pool that runs the test units: what may be in flight together, that every unit runs once and
 * in order, and that a unit is known to have had a neighbour exactly when it had one.
 *
 * Between any two steps of the loop, units in flight may end: `Finished` is a unit's process ending,
 * when its overlap flag is read, and `Left` is the unit leaving the pool. `Turned` and `Checked` are
 * the loop looking at the pool. PoolLoop.dfy is the loop itself.
 */
module TestPool {
  import opened Ordering
  import opened Wrappers
  import opened MemoryPlan
  import opened RunSchedule

  datatype Live = Live(job: string, reservation: Reservation, overlapped: bool, told: Option<bool>)

  datatype Pool = Pool(queue: seq<string>, inFlight: seq<Live>, budget: Option<Budget>, peak: nat)

  /** What does not change: the measured profiles and the cap. */
  datatype Setup = Setup(commit: PeakProfile, resident: PeakProfile, cap: int)

  /** What the host answers while one unit is considered; no headroom reading is a refusal. */
  datatype Host = Host(mayStart: bool, headroom: Option<Headroom>, overFloor: bool)

  datatype Offer = Started | Refused | Aborted

  datatype Event = Turned | Offered(host: Host) | Checked | Finished(i: nat) | Left(i: nat)

  // ---- the steps ----

  function ReservationFor(setup: Setup, job: string): Reservation {
    var demand := DemandFor(setup.commit, setup.resident, job);
    Reservation(job, ReservedBytes(demand.commitPeakMb), ReservedBytes(demand.residentPeakMb),
                job in setup.commit && job in setup.resident)
  }

  function Overlapping(lives: seq<Live>): seq<Live> {
    if |lives| < 2 then lives else seq(|lives|, i requires 0 <= i < |lives| => lives[i].(overlapped := true))
  }

  function Held(lives: seq<Live>): (held: seq<Reservation>)
    ensures |held| == |lives|
  {
    seq(|lives|, i requires 0 <= i < |lives| => lives[i].reservation)
  }

  function StartStep(pool: Pool, reservation: Reservation): Pool
    requires pool.queue != []
  {
    var lives := pool.inFlight + [Live(pool.queue[0], reservation, false, None)];
    pool.(queue := pool.queue[1..], inFlight := Overlapping(lives),
          peak := if |lives| > pool.peak then |lives| else pool.peak)
  }

  function OfferStep(setup: Setup, pool: Pool, host: Host): (Pool, Offer) {
    if pool.queue == [] then (pool, Refused)
    else
      var reservation := ReservationFor(setup, pool.queue[0]);
      if pool.inFlight == [] then
        if !host.mayStart || host.headroom.None? then (pool, Aborted)
        else
          var headroom := host.headroom.value;
          if PlanFor(DemandFor(setup.commit, setup.resident, pool.queue[0]), headroom).mode.Refuse? then (pool, Aborted)
          else (StartStep(pool.(budget := Some(PoolBudget(headroom, SLACK_BYTES))), reservation), Started)
      else if pool.budget.None? then (pool, Refused)
      else if Admits(pool.budget.value, Held(pool.inFlight), reservation, setup.cap) != Admit then (pool, Refused)
      else if host.overFloor then (pool, Refused)
      else if !host.mayStart then (pool, Aborted)
      else (StartStep(pool, reservation), Started)
  }

  function FinishStep(pool: Pool, i: nat): Pool
    requires i < |pool.inFlight|
  {
    pool.(inFlight := pool.inFlight[i := pool.inFlight[i].(told := Some(pool.inFlight[i].overlapped))])
  }

  function LeaveStep(pool: Pool, i: nat): Pool
    requires i < |pool.inFlight|
  {
    pool.(inFlight := pool.inFlight[..i] + pool.inFlight[i + 1..])
  }

  predicate CanHappen(pool: Pool, ev: Event) {
    match ev
    case Finished(i) => i < |pool.inFlight| && pool.inFlight[i].told.None?
    case Left(i) => i < |pool.inFlight|
    case _ => true
  }

  function Step(setup: Setup, pool: Pool, ev: Event): Pool
    requires CanHappen(pool, ev)
  {
    match ev
    case Offered(host) => OfferStep(setup, pool, host).0
    case Finished(i) => FinishStep(pool, i)
    case Left(i) => LeaveStep(pool, i)
    case _ => pool
  }

  function Opening(queue: seq<string>): Pool {
    Pool(queue, [], None, 0)
  }

  // ---- runs ----

  function Names(lives: seq<Live>): (names: seq<string>)
    ensures |names| == |lives|
  {
    seq(|lives|, i requires 0 <= i < |lives| => lives[i].job)
  }

  ghost predicate Follows(setup: Setup, pool: Pool, next: Pool) {
    exists ev :: CanHappen(pool, ev) && Step(setup, pool, ev) == next
  }

  /** The states of a run, from the opening one on. */
  ghost predicate IsRun(setup: Setup, jobs: seq<string>, run: seq<Pool>)
    decreases |run|
  {
    && run != []
    && (if |run| == 1 then run[0] == Opening(jobs)
        else
          IsRun(setup, jobs, run[..|run| - 1]) && Follows(setup, run[|run| - 2], run[|run| - 1]))
  }

  function Last(run: seq<Pool>): Pool
    requires run != []
  {
    run[|run| - 1]
  }

  /** At some moment of the run this unit was in flight beside another. */
  ghost predicate Met(run: seq<Pool>, name: string) {
    exists k :: 0 <= k < |run| && name in Names(run[k].inFlight) && |run[k].inFlight| >= 2
  }

  // ---- memory is never over-promised ----

  /** The reservations are the units' own and, beside each other, within the cap and the budget. */
  ghost predicate Safe(setup: Setup, pool: Pool) {
    && (forall l | l in pool.inFlight :: l.reservation == ReservationFor(setup, l.job))
    && (pool.inFlight != [] ==> pool.budget.Some? && Within(pool.budget.value, Held(pool.inFlight), setup.cap))
  }

  lemma StartKeepsSafe(setup: Setup, pool: Pool)
    requires pool.queue != [] && pool.budget.Some?
    requires forall l | l in pool.inFlight :: l.reservation == ReservationFor(setup, l.job)
    requires Within(pool.budget.value, Held(pool.inFlight) + [ReservationFor(setup, pool.queue[0])], setup.cap)
    ensures Safe(setup, StartStep(pool, ReservationFor(setup, pool.queue[0])))
  {
    var after := StartStep(pool, ReservationFor(setup, pool.queue[0]));
    assert Held(after.inFlight) == Held(pool.inFlight) + [ReservationFor(setup, pool.queue[0])];
    forall l | l in after.inFlight ensures l.reservation == ReservationFor(setup, l.job) {
      var i :| 0 <= i < |after.inFlight| && after.inFlight[i] == l;
      if i < |pool.inFlight| {
        assert pool.inFlight[i] in pool.inFlight;
      }
    }
  }

  lemma LeftBehind(lives: seq<Live>, i: nat)
    requires i < |lives|
    ensures lives[i] in lives && forall l | l in lives[..i] + lives[i + 1..] :: l in lives
  {}

  lemma WithinWithout(setup: Setup, held: seq<Reservation>, i: nat, job: string, budget: Budget)
    requires i < |held| && held[i] == ReservationFor(setup, job) && RunSchedule.Within(budget, held, setup.cap)
    ensures RunSchedule.Within(budget, held[..i] + held[i + 1..], setup.cap)
  {
    HoldingLessIsWithin(held, i, budget, setup.cap);
  }

  lemma HeldWithout(lives: seq<Live>, i: nat)
    requires i < |lives|
    ensures Held(lives[..i] + lives[i + 1..]) == Held(lives)[..i] + Held(lives)[i + 1..]
  {}

  lemma LeaveKeepsSafe(setup: Setup, pool: Pool, i: nat)
    requires Safe(setup, pool) && i < |pool.inFlight|
    ensures Safe(setup, LeaveStep(pool, i))
  {
    var after := LeaveStep(pool, i);
    LeftBehind(pool.inFlight, i);
    HeldWithout(pool.inFlight, i);
    WithinWithout(setup, Held(pool.inFlight), i, pool.inFlight[i].job, pool.budget.value);
  }

  lemma StepKeepsSafe(setup: Setup, pool: Pool, ev: Event)
    requires Safe(setup, pool) && CanHappen(pool, ev)
    ensures Safe(setup, Step(setup, pool, ev))
  {
    match ev
    case Offered(host) =>
      if OfferStep(setup, pool, host).1.Started? {
        var reservation := ReservationFor(setup, pool.queue[0]);
        if pool.inFlight == [] {
          StartKeepsSafe(setup, pool.(budget := Some(PoolBudget(host.headroom.value, SLACK_BYTES))));
        } else {
          AdmitsExactlyWhatStaysWithin(pool.budget.value, Held(pool.inFlight), reservation, setup.cap);
          StartKeepsSafe(setup, pool);
        }
      }
    case Finished(i) =>
      var after := FinishStep(pool, i);
      assert Held(after.inFlight) == Held(pool.inFlight);
      forall l | l in after.inFlight ensures l.reservation == ReservationFor(setup, l.job) {
        var j :| 0 <= j < |after.inFlight| && after.inFlight[j] == l;
        assert pool.inFlight[j] in pool.inFlight;
      }
    case Left(i) => LeaveKeepsSafe(setup, pool, i);
    case _ =>
  }

  /** The budget is the one read at the last moment the pool was empty: it changes at no other. */
  lemma BudgetIsReadWhenEmpty(setup: Setup, pool: Pool, ev: Event)
    requires CanHappen(pool, ev) && Step(setup, pool, ev).budget != pool.budget
    ensures pool.inFlight == [] && ev.Offered? && ev.host.headroom.Some?
    ensures Step(setup, pool, ev).budget == Some(PoolBudget(ev.host.headroom.value, SLACK_BYTES))
  {}

  lemma StepIsSafe(setup: Setup, pool: Pool, next: Pool)
    requires Safe(setup, pool) && Follows(setup, pool, next)
    ensures Safe(setup, next)
  {
    var ev :| CanHappen(pool, ev) && Step(setup, pool, ev) == next;
    StepKeepsSafe(setup, pool, ev);
  }

  /** At every moment of every run, the units in flight together keep within what was measured. */
  lemma {:induction false} RunIsSafe(setup: Setup, jobs: seq<string>, run: seq<Pool>, k: nat)
    requires IsRun(setup, jobs, run) && k < |run|
    ensures Safe(setup, run[k])
    decreases |run|
  {
    if |run| > 1 {
      var before := run[..|run| - 1];
      if k < |before| {
        RunIsSafe(setup, jobs, before, k);
      } else {
        RunIsSafe(setup, jobs, before, k - 1);
        StepIsSafe(setup, run[k - 1], run[k]);
      }
    }
  }

  /** The measured peaks of these units together, in MB; one that was never measured has none. */
  function PeaksOf(lives: seq<Live>, profile: PeakProfile): nat {
    if lives == [] then 0
    else (if lives[0].job in profile then profile[lives[0].job] else 0) + PeaksOf(lives[1..], profile)
  }

  lemma {:induction false} PeaksAreReserved(setup: Setup, lives: seq<Live>)
    requires forall i | 0 <= i < |lives| :: lives[i].reservation == ReservationFor(setup, lives[i].job)
    requires forall i | 0 <= i < |lives| :: lives[i].job in setup.commit && lives[i].job in setup.resident
    ensures 13 * 1048576 * PeaksOf(lives, setup.commit) - 5 * |lives| <= 10 * Commit(Held(lives))
    ensures 13 * 1048576 * PeaksOf(lives, setup.resident) - 5 * |lives| <= 10 * Resident(Held(lives))
  {
    if lives != [] {
      PeaksAreReserved(setup, lives[1..]);
      assert Held(lives) == [lives[0].reservation] + Held(lives[1..]);
      ReservationIsTheNearestByte(setup.commit[lives[0].job]);
      ReservationIsTheNearestByte(setup.resident[lives[0].job]);
    }
  }

  /**
   * Units in flight together are all measured in both kinds, no more than the cap, and 1.3 of their
   * measured peaks, to the nearest byte each, is within the budget of either kind.
   */
  lemma TogetherTheyAreMeasured(setup: Setup, pool: Pool)
    requires Safe(setup, pool) && |pool.inFlight| >= 2
    ensures forall i | 0 <= i < |pool.inFlight| ::
              pool.inFlight[i].job in setup.commit && pool.inFlight[i].job in setup.resident
    ensures |pool.inFlight| <= setup.cap && pool.budget.Some?
    ensures pool.budget.value.commit.Finite? ==>
              13 * 1048576 * PeaksOf(pool.inFlight, setup.commit) - 5 * |pool.inFlight|
              <= 10 * pool.budget.value.commit.n
    ensures pool.budget.value.resident.Finite? ==>
              13 * 1048576 * PeaksOf(pool.inFlight, setup.resident) - 5 * |pool.inFlight|
              <= 10 * pool.budget.value.resident.n
  {
    forall i | 0 <= i < |pool.inFlight|
      ensures pool.inFlight[i].job in setup.commit && pool.inFlight[i].job in setup.resident {
      assert Held(pool.inFlight)[i] in Held(pool.inFlight);
    }
    PeaksAreReserved(setup, pool.inFlight);
  }

  // ---- overlap ----

  /** Every unit in flight knows whether it has met another, and none has been in flight while queued. */
  ghost predicate Knows(run: seq<Pool>, pool: Pool) {
    && NoDuplicates(Names(pool.inFlight) + pool.queue)
    && (forall i | 0 <= i < |pool.inFlight| :: pool.inFlight[i].overlapped <==> Met(run, pool.inFlight[i].job))
    && (forall k, name | 0 <= k < |run| && name in pool.queue :: name !in Names(run[k].inFlight))
  }

  lemma MetLater(run: seq<Pool>, pool: Pool, name: string)
    ensures Met(run + [pool], name) <==> Met(run, name) || (name in Names(pool.inFlight) && |pool.inFlight| >= 2)
  {
    var longer := run + [pool];
    if Met(run, name) {
      var k :| 0 <= k < |run| && name in Names(run[k].inFlight) && |run[k].inFlight| >= 2;
      assert longer[k] == run[k];
    }
    assert longer[|run|] == pool;
  }

  lemma DistinctApart(a: seq<string>, b: seq<string>)
    requires NoDuplicates(a + b)
    ensures forall x :: x in b ==> x !in a
  {
    forall i, j | 0 <= i < |a| && 0 <= j < |b| ensures a[i] != b[j] {
      assert (a + b)[i] == a[i] && (a + b)[|a| + j] == b[j];
    }
  }

  lemma StartKnows(run: seq<Pool>, pool: Pool, reservation: Reservation)
    requires pool.queue != [] && Knows(run, pool)
    ensures var after := StartStep(pool, reservation); Knows(run + [after], after)
  {
    var after := StartStep(pool, reservation);
    var lives := after.inFlight;
    var name := pool.queue[0];
    assert Names(lives) == Names(pool.inFlight) + [name];
    assert Names(lives) + after.queue == Names(pool.inFlight) + pool.queue;
    forall i | 0 <= i < |lives| ensures lives[i].overlapped <==> Met(run + [after], lives[i].job) {
      MetLater(run, after, lives[i].job);
      assert Names(lives)[i] == lives[i].job;
      if i == |pool.inFlight| {
        assert name in pool.queue;
        assert !Met(run, name);
      }
    }
    forall k, queued | 0 <= k < |run + [after]| && queued in after.queue
      ensures queued !in Names((run + [after])[k].inFlight) {
      assert queued in pool.queue;
      if k == |run| {
        DistinctApart(Names(lives), after.queue);
      } else {
        assert (run + [after])[k] == run[k];
      }
    }
  }

  lemma SameNamesKnow(run: seq<Pool>, pool: Pool, after: Pool)
    requires run != [] && Last(run).inFlight == pool.inFlight && Knows(run, pool)
    requires after.queue == pool.queue && |after.inFlight| == |pool.inFlight|
    requires forall i | 0 <= i < |pool.inFlight| ::
               && after.inFlight[i].job == pool.inFlight[i].job
               && after.inFlight[i].overlapped == pool.inFlight[i].overlapped
    ensures Knows(run + [after], after)
  {
    assert Names(after.inFlight) == Names(pool.inFlight);
    assert run[|run| - 1].inFlight == pool.inFlight;
    forall i | 0 <= i < |after.inFlight|
      ensures after.inFlight[i].overlapped <==> Met(run + [after], after.inFlight[i].job) {
      MetLater(run, after, after.inFlight[i].job);
    }
  }

  lemma StillDistinct(names: seq<string>, i: nat, queue: seq<string>)
    requires i < |names| && NoDuplicates(names + queue)
    ensures NoDuplicates(names[..i] + names[i + 1..] + queue)
  {
    var all, left := names + queue, names[..i] + names[i + 1..] + queue;
    forall a, b | 0 <= a < b < |left| ensures left[a] != left[b] {
      assert left[a] == all[if a < i then a else a + 1];
      assert left[b] == all[if b < i then b else b + 1];
    }
  }

  lemma LeaveKnows(run: seq<Pool>, pool: Pool, i: nat)
    requires run != [] && Last(run) == pool && Knows(run, pool) && i < |pool.inFlight|
    ensures Knows(run + [LeaveStep(pool, i)], LeaveStep(pool, i))
  {
    var after := LeaveStep(pool, i);
    var names := Names(pool.inFlight);
    assert Names(after.inFlight) == names[..i] + names[i + 1..];
    assert run[|run| - 1].inFlight == pool.inFlight;
    forall j | 0 <= j < |after.inFlight|
      ensures after.inFlight[j].overlapped <==> Met(run + [after], after.inFlight[j].job) {
      var was := if j < i then j else j + 1;
      assert after.inFlight[j] == pool.inFlight[was] && names[was] == after.inFlight[j].job;
      MetLater(run, after, after.inFlight[j].job);
    }
    StillDistinct(names, i, pool.queue);
    forall k, queued | 0 <= k < |run + [after]| && queued in after.queue
      ensures queued !in Names((run + [after])[k].inFlight) {
      if k == |run| {
        assert queued !in Names(run[|run| - 1].inFlight);
        assert forall n :: n in Names(after.inFlight) ==> n in names;
      }
    }
  }

  lemma StepKnows(setup: Setup, run: seq<Pool>, pool: Pool, ev: Event)
    requires run != [] && Last(run) == pool && Knows(run, pool) && CanHappen(pool, ev)
    ensures Knows(run + [Step(setup, pool, ev)], Step(setup, pool, ev))
  {
    match ev
    case Offered(host) =>
      if OfferStep(setup, pool, host).1.Started? {
        var reservation := ReservationFor(setup, pool.queue[0]);
        if pool.inFlight == [] {
          StartKnows(run, pool.(budget := Some(PoolBudget(host.headroom.value, SLACK_BYTES))), reservation);
        } else {
          StartKnows(run, pool, reservation);
        }
      } else {
        SameNamesKnow(run, pool, pool);
      }
    case Finished(i) => SameNamesKnow(run, pool, FinishStep(pool, i));
    case Left(i) => LeaveKnows(run, pool, i);
    case _ => SameNamesKnow(run, pool, pool);
  }

  lemma {:induction false} RunKnows(setup: Setup, jobs: seq<string>, run: seq<Pool>)
    requires NoDuplicates(jobs) && IsRun(setup, jobs, run)
    ensures Knows(run, Last(run))
    decreases |run|
  {
    if |run| == 1 {
      assert Names([]) + jobs == jobs;
    } else {
      var before := run[..|run| - 1];
      RunKnows(setup, jobs, before);
      assert Last(before) == run[|run| - 2];
      var ev :| CanHappen(Last(before), ev) && Step(setup, Last(before), ev) == Last(run);
      StepKnows(setup, before, Last(before), ev);
      assert before + [Last(run)] == run;
    }
  }

  /**
   * The flag a unit's process reads as it ends is true exactly when some other unit was in flight at
   * some moment of its run, however starts and ends interleave.
   */
  lemma OverlapIsExact(setup: Setup, jobs: seq<string>, run: seq<Pool>, i: nat)
    requires NoDuplicates(jobs) && IsRun(setup, jobs, run) && CanHappen(Last(run), Finished(i))
    ensures FinishStep(Last(run), i).inFlight[i].told == Some(Met(run, Last(run).inFlight[i].job))
  {
    RunKnows(setup, jobs, run);
  }

  // ---- order and completeness ----

  ghost predicate EverInFlight(run: seq<Pool>, name: string) {
    exists k :: 0 <= k < |run| && name in Names(run[k].inFlight)
  }

  /** What has been in flight is what the queue no longer holds. */
  ghost predicate InOrder(jobs: seq<string>, run: seq<Pool>, queue: seq<string>) {
    && |queue| <= |jobs| && queue == jobs[|jobs| - |queue|..]
    && forall name :: EverInFlight(run, name) <==> name in jobs[..|jobs| - |queue|]
  }

  lemma EverLater(run: seq<Pool>, pool: Pool, name: string)
    ensures EverInFlight(run + [pool], name) <==> EverInFlight(run, name) || name in Names(pool.inFlight)
  {
    var longer := run + [pool];
    if EverInFlight(run, name) {
      var k :| 0 <= k < |run| && name in Names(run[k].inFlight);
      assert longer[k] == run[k];
    }
    assert longer[|run|] == pool;
  }

  /** A step starts the head of the queue or nothing, and brings nothing else into flight. */
  lemma StepStartsTheHead(setup: Setup, pool: Pool, next: Pool)
    requires Follows(setup, pool, next)
    ensures || (next.queue == pool.queue
                && forall name :: name in Names(next.inFlight) ==> name in Names(pool.inFlight))
            || (pool.queue != [] && next.queue == pool.queue[1..]
                && Names(next.inFlight) == Names(pool.inFlight) + [pool.queue[0]])
  {
    var ev :| CanHappen(pool, ev) && Step(setup, pool, ev) == next;
    match ev
    case Offered(host) =>
    case Finished(i) => assert Names(next.inFlight) == Names(pool.inFlight);
    case Left(i) => NamesLeft(pool.inFlight, i);
    case _ =>
  }

  lemma NamesLeft(lives: seq<Live>, i: nat)
    requires i < |lives|
    ensures forall name :: name in Names(lives[..i] + lives[i + 1..]) ==> name in Names(lives)
  {
    var left := lives[..i] + lives[i + 1..];
    forall name | name in Names(left) ensures name in Names(lives) {
      var j :| 0 <= j < |left| && Names(left)[j] == name;
      assert Names(lives)[if j < i then j else j + 1] == name;
    }
  }

  /** Every run starts the jobs in order and each at most once: a job in the queue has never been in flight. */
  lemma {:induction false} RunStartsInOrder(setup: Setup, jobs: seq<string>, run: seq<Pool>)
    requires IsRun(setup, jobs, run)
    ensures InOrder(jobs, run, Last(run).queue)
    decreases |run|
  {
    if |run| == 1 {
      assert jobs[0..] == jobs;
    } else {
      var before := run[..|run| - 1];
      RunStartsInOrder(setup, jobs, before);
      assert Last(before) == run[|run| - 2] && before + [Last(run)] == run;
      StepStartsTheHead(setup, Last(before), Last(run));
      NextInOrder(jobs, before, Last(before), Last(run));
    }
  }

  lemma NextInOrder(jobs: seq<string>, run: seq<Pool>, pool: Pool, next: Pool)
    requires run != [] && Last(run) == pool && InOrder(jobs, run, pool.queue)
    requires || (next.queue == pool.queue
                 && forall name :: name in Names(next.inFlight) ==> name in Names(pool.inFlight))
             || (pool.queue != [] && next.queue == pool.queue[1..]
                 && Names(next.inFlight) == Names(pool.inFlight) + [pool.queue[0]])
    ensures InOrder(jobs, run + [next], next.queue)
  {
    var n, m := |jobs| - |pool.queue|, |jobs| - |next.queue|;
    forall name ensures EverInFlight(run + [next], name) <==> name in jobs[..m] {
      EverLater(run, next, name);
      assert name in Names(run[|run| - 1].inFlight) ==> EverInFlight(run, name);
      if m == n + 1 {
        assert jobs[..m] == jobs[..n] + [jobs[n]];
      }
    }
  }

  /** The peak is the most that were ever in flight together. */
  lemma {:induction false} PeakIsTheMost(setup: Setup, jobs: seq<string>, run: seq<Pool>)
    requires IsRun(setup, jobs, run)
    ensures forall k | 0 <= k < |run| :: |run[k].inFlight| <= Last(run).peak
    ensures exists k :: 0 <= k < |run| && |run[k].inFlight| == Last(run).peak
    decreases |run|
  {
    if |run| == 1 {
      assert |run[0].inFlight| == Last(run).peak;
    } else {
      var before := run[..|run| - 1];
      PeakIsTheMost(setup, jobs, before);
      assert Last(before) == run[|run| - 2] && forall k | 0 <= k < |before| :: before[k] == run[k];
      PeakFollows(setup, Last(before), Last(run));
      if Last(run).peak == Last(before).peak {
        var k :| 0 <= k < |before| && |before[k].inFlight| == Last(before).peak;
        assert |run[k].inFlight| == Last(run).peak;
      } else {
        assert |run[|run| - 1].inFlight| == Last(run).peak;
      }
    }
  }

  lemma PeakFollows(setup: Setup, pool: Pool, next: Pool)
    requires Follows(setup, pool, next) && |pool.inFlight| <= pool.peak
    ensures next.peak == if |next.inFlight| > pool.peak then |next.inFlight| else pool.peak
  {}
}
