/**
 * The loop that drains the pool: where it stands, what it may see there, and how it ends.
 *
 * A turn begins when something is queued or in flight. It offers the head of the queue until an offer
 * is refused, checks that something is in flight, and waits until a unit leaves. Units may finish and
 * leave wherever the loop waits for an answer. The loop ends drained, on an answer of the host that
 * aborts, or on a check that finds nothing in flight.
 */
module PoolLoop {
  import opened MemoryPlan
  import opened RunSchedule
  import opened TestPool
  import opened Wrappers

  datatype Cause = Drained | HostAborted | NothingHeld

  datatype Place = AtHead | Admitting | AtCheck | Waiting(left: bool) | Over(cause: Cause)

  predicate May(at: Place, ev: Event) {
    match ev
    case Turned => at == AtHead || at == Waiting(true)
    case Offered(_) => at == Admitting
    case Checked => at == AtCheck
    case _ => at.Admitting? || at.AtCheck? || at.Waiting?
  }

  function Goes(setup: Setup, at: Place, pool: Pool, ev: Event): Place {
    match ev
    case Turned => if pool.queue == [] && pool.inFlight == [] then Over(Drained) else Admitting
    case Offered(host) =>
      (match OfferStep(setup, pool, host).1
       case Started => Admitting
       case Refused => AtCheck
       case Aborted => Over(HostAborted))
    case Checked => if pool.inFlight == [] then Over(NothingHeld) else Waiting(false)
    case Left(_) => if at.Waiting? then Waiting(true) else at
    case Finished(_) => at
  }

  /** A history of the loop: pools and places before and after each event. */
  datatype Trace = Trace(pools: seq<Pool>, places: seq<Place>, events: seq<Event>)

  ghost predicate IsTrace(setup: Setup, jobs: seq<string>, t: Trace) {
    && |t.pools| == |t.places| == |t.events| + 1
    && t.pools[0] == Opening(jobs) && t.places[0] == AtHead
    && forall k | 0 <= k < |t.events| :: Moves(setup, t, k)
  }

  ghost predicate Moves(setup: Setup, t: Trace, k: nat)
    requires |t.pools| == |t.places| == |t.events| + 1 && k < |t.events|
  {
    && May(t.places[k], t.events[k]) && CanHappen(t.pools[k], t.events[k])
    && t.pools[k + 1] == Step(setup, t.pools[k], t.events[k])
    && t.places[k + 1] == Goes(setup, t.places[k], t.pools[k], t.events[k])
  }

  function Begun(jobs: seq<string>): Trace {
    Trace([Opening(jobs)], [AtHead], [])
  }

  function Then(setup: Setup, t: Trace, ev: Event): Trace
    requires |t.pools| == |t.places| == |t.events| + 1 && CanHappen(Last(t.pools), ev)
  {
    Trace(t.pools + [Step(setup, Last(t.pools), ev)],
          t.places + [Goes(setup, t.places[|t.events|], Last(t.pools), ev)],
          t.events + [ev])
  }

  lemma ThenIsTrace(setup: Setup, jobs: seq<string>, t: Trace, ev: Event)
    requires IsTrace(setup, jobs, t) && CanHappen(Last(t.pools), ev) && May(t.places[|t.events|], ev)
    ensures IsTrace(setup, jobs, Then(setup, t, ev))
  {
    var next := Then(setup, t, ev);
    forall k | 0 <= k < |next.events| ensures Moves(setup, next, k) {
      if k < |t.events| {
        assert Moves(setup, t, k);
      }
    }
  }

  /** What the loop does to the pool is a run of the pool. */
  lemma {:induction false} TracesAreRuns(setup: Setup, jobs: seq<string>, t: Trace, n: nat)
    requires IsTrace(setup, jobs, t) && 1 <= n <= |t.pools|
    ensures IsRun(setup, jobs, t.pools[..n])
    decreases n
  {
    var run := t.pools[..n];
    if n > 1 {
      TracesAreRuns(setup, jobs, t, n - 1);
      assert run[..n - 1] == t.pools[..n - 1];
      assert Moves(setup, t, n - 2);
      assert CanHappen(run[n - 2], t.events[n - 2]) && Step(setup, run[n - 2], t.events[n - 2]) == run[n - 1];
    }
  }

  // ---- how the loop ends ----

  /** What is promised to those in flight and the head of the queue. */
  function Needed(setup: Setup, pool: Pool): seq<Reservation>
    requires pool.queue != []
  {
    Held(pool.inFlight) + [ReservationFor(setup, pool.queue[0])]
  }

  /** The host's answer to an offer that would otherwise be made ends everything. */
  ghost predicate HostStops(setup: Setup, pool: Pool, host: Host) {
    pool.queue != []
    && if pool.inFlight == [] then
         || !host.mayStart || host.headroom.None?
         || PlanFor(DemandFor(setup.commit, setup.resident, pool.queue[0]), host.headroom.value).mode.Refuse?
       else
         && !host.mayStart && !host.overFloor && pool.budget.Some?
         && Within(pool.budget.value, Needed(setup, pool), setup.cap)
  }

  lemma AbortsExactlyWhenTheHostStops(setup: Setup, pool: Pool, host: Host)
    ensures OfferStep(setup, pool, host).1.Aborted? <==> HostStops(setup, pool, host)
  {
    if pool.queue != [] && pool.inFlight != [] && pool.budget.Some? {
      AdmitsExactlyWhatStaysWithin(pool.budget.value, Held(pool.inFlight), ReservationFor(setup, pool.queue[0]),
                                   setup.cap);
    }
  }

  /**
   * A unit is started exactly when one is queued and either nothing is in flight and the host lets it
   * run at all, or what is in flight stays within its bounds with it and the host has no objection.
   */
  lemma StartsExactlyWhenItMay(setup: Setup, pool: Pool, host: Host)
    ensures var (after, offer) := OfferStep(setup, pool, host);
            offer.Started? <==>
            && pool.queue != [] && host.mayStart
            && if pool.inFlight == [] then
                 && host.headroom.Some?
                 && !PlanFor(DemandFor(setup.commit, setup.resident, pool.queue[0]), host.headroom.value).mode.Refuse?
               else
                 && pool.budget.Some? && !host.overFloor
                 && Within(pool.budget.value, Needed(setup, pool), setup.cap)
    ensures var (after, offer) := OfferStep(setup, pool, host);
            if offer.Started? then
              && after.queue == pool.queue[1..] && |after.inFlight| == |pool.inFlight| + 1
              && after.inFlight[|pool.inFlight|].job == pool.queue[0]
              && after.inFlight[|pool.inFlight|].reservation == ReservationFor(setup, pool.queue[0])
              && after.inFlight[|pool.inFlight|].told == None
              && (forall i | 0 <= i < |pool.inFlight| ::
                    && after.inFlight[i].job == pool.inFlight[i].job
                    && after.inFlight[i].reservation == pool.inFlight[i].reservation
                    && after.inFlight[i].told == pool.inFlight[i].told)
            else after == pool
  {
    if pool.queue != [] && pool.inFlight != [] && pool.budget.Some? {
      AdmitsExactlyWhatStaysWithin(pool.budget.value, Held(pool.inFlight), ReservationFor(setup, pool.queue[0]),
                                   setup.cap);
    }
  }

  /**
   * After k events nothing is in flight, because a unit that left in this turn was the last one and
   * nothing has been started since.
   */
  ghost predicate EmptiedInTheTurn(pools: seq<Pool>, events: seq<Event>, k: nat)
    requires |pools| == |events| + 1 && k <= |events|
    decreases k
  {
    && k > 0 && pools[k].inFlight == [] && !events[k - 1].Turned?
    && (events[k - 1].Left? || EmptiedInTheTurn(pools, events, k - 1))
  }

  /** Within a turn an empty pool has something to start, or was emptied in the turn. */
  lemma {:induction false} EmptyForAReason(setup: Setup, jobs: seq<string>, t: Trace, k: nat)
    requires IsTrace(setup, jobs, t) && k < |t.places| && t.pools[k].inFlight == []
    ensures t.places[k].Admitting? ==> t.pools[k].queue != [] || EmptiedInTheTurn(t.pools, t.events, k)
    ensures t.places[k].AtCheck? ==> EmptiedInTheTurn(t.pools, t.events, k)
    decreases k
  {
    if k > 0 {
      assert Moves(setup, t, k - 1);
      if t.pools[k - 1].inFlight == [] {
        EmptyForAReason(setup, jobs, t, k - 1);
      }
    }
  }

  /** Where the loop stands at the end of the history. */
  ghost predicate Ends(t: Trace, place: Place) {
    t.places != [] && t.places[|t.places| - 1] == place
  }

  /**
   * The abort on an empty pool happens exactly at a check that finds the pool emptied in its turn by
   * a unit that left, with nothing started since: after the refusal before the check, or before it.
   */
  lemma TheCheckFailsOnlyAfterALeave(setup: Setup, jobs: seq<string>, t: Trace)
    requires IsTrace(setup, jobs, t)
    ensures Ends(t, Over(NothingHeld)) <==>
            var n := |t.events|;
            n > 0 && t.events[n - 1].Checked? && EmptiedInTheTurn(t.pools, t.events, n - 1)
  {
    var n := |t.events|;
    if n > 0 {
      assert Moves(setup, t, n - 1);
      if t.places[n - 1].AtCheck? && t.pools[n - 1].inFlight == [] {
        EmptyForAReason(setup, jobs, t, n - 1);
      }
    }
  }

  /** It stops for the host exactly at an offer whose answer is the aborting one. */
  lemma TheHostStopsIt(setup: Setup, jobs: seq<string>, t: Trace)
    requires IsTrace(setup, jobs, t)
    ensures Ends(t, Over(HostAborted)) <==>
            var n := |t.events|;
            n > 0 && t.events[n - 1].Offered? && HostStops(setup, t.pools[n - 1], t.events[n - 1].host)
  {
    var n := |t.events|;
    if n > 0 {
      assert Moves(setup, t, n - 1);
      if t.events[n - 1].Offered? {
        AbortsExactlyWhenTheHostStops(setup, t.pools[n - 1], t.events[n - 1].host);
      }
    }
  }

  /** It drains exactly at a turn that finds nothing queued and nothing in flight; every job has run by then. */
  lemma ItDrains(setup: Setup, jobs: seq<string>, t: Trace)
    requires IsTrace(setup, jobs, t)
    ensures Ends(t, Over(Drained)) <==>
            var n := |t.events|;
            n > 0 && t.events[n - 1].Turned? && t.pools[n].queue == [] && t.pools[n].inFlight == []
    ensures Ends(t, Over(Drained)) ==> forall name | name in jobs :: EverInFlight(t.pools, name)
  {
    var n := |t.events|;
    if n > 0 {
      assert Moves(setup, t, n - 1);
    }
    TracesAreRuns(setup, jobs, t, |t.pools|);
    assert t.pools[..|t.pools|] == t.pools;
    RunStartsInOrder(setup, jobs, t.pools);
    assert jobs[..|jobs|] == jobs;
  }

  // ---- the abort on an empty pool does happen ----

  const WILLING := Host(true, Some(Headroom(Unlimited, Unlimited)), false)

  /** One more event of a history, and where it leads. */
  lemma Next(setup: Setup, jobs: seq<string>, t: Trace, ev: Event) returns (next: Trace)
    requires IsTrace(setup, jobs, t) && CanHappen(Last(t.pools), ev) && May(t.places[|t.events|], ev)
    ensures next == Then(setup, t, ev) && IsTrace(setup, jobs, next)
    ensures Last(next.pools) == Step(setup, Last(t.pools), ev)
    ensures next.places[|next.events|] == Goes(setup, t.places[|t.events|], Last(t.pools), ev)
  {
    next := Then(setup, t, ev);
    ThenIsTrace(setup, jobs, t, ev);
  }

  lemma FirstStarts(setup: Setup, jobs: seq<string>) returns (t: Trace)
    requires jobs != []
    ensures IsTrace(setup, jobs, t) && t.events == [Turned, Offered(WILLING)] && t.places[2] == Admitting
    ensures Last(t.pools).queue == jobs[1..] && Names(Last(t.pools).inFlight) == [jobs[0]]
    ensures Last(t.pools).budget == Some(Headroom(Unlimited, Unlimited))
    ensures Last(t.pools).inFlight[0].reservation == ReservationFor(setup, jobs[0])
  {
    t := Next(setup, jobs, Begun(jobs), Turned);
    var pool := Last(t.pools);
    t := Next(setup, jobs, t, Offered(WILLING));
    assert OfferStep(setup, pool, WILLING).1.Started?;
    assert Names(Last(t.pools).inFlight) == [jobs[0]];
  }

  /** Two measured jobs on a host with memory to spare are in flight together. */
  lemma TwoRunTogether(setup: Setup, a: string, b: string) returns (t: Trace)
    requires setup.cap >= 2 && a in setup.commit && a in setup.resident && b in setup.commit && b in setup.resident
    ensures IsTrace(setup, [a, b], t) && t.events == [Turned, Offered(WILLING), Offered(WILLING)]
    ensures Names(Last(t.pools).inFlight) == [a, b] && Last(t.pools).queue == []
  {
    t := FirstStarts(setup, [a, b]);
    var pool := Last(t.pools);
    t := Next(setup, [a, b], t, Offered(WILLING));
    StartsExactlyWhenItMay(setup, pool, WILLING);
    assert Names(pool.inFlight)[0] == a && Needed(setup, pool) == [ReservationFor(setup, a), ReservationFor(setup, b)];
    assert Names(Last(t.pools).inFlight)[0] == a && Names(Last(t.pools).inFlight)[1] == b;
    assert Names(Last(t.pools).inFlight) == [a, b];
  }

  /** The only job ends between the refusal and the check: nothing is left to do, and the loop aborts. */
  lemma AFinishedRunAborts(setup: Setup, a: string) returns (t: Trace)
    ensures IsTrace(setup, [a], t) && Ends(t, Over(NothingHeld))
    ensures t.events == [Turned, Offered(WILLING), Offered(WILLING), Left(0), Checked]
    ensures Last(t.pools).queue == [] && t.pools[2].inFlight != [] && EverInFlight(t.pools, a)
  {
    t := FirstStarts(setup, [a]);
    var started := t;
    t := Next(setup, [a], t, Offered(WILLING));
    t := Next(setup, [a], t, Left(0));
    t := Next(setup, [a], t, Checked);
    assert t.pools[2] == started.pools[2] && Names(t.pools[2].inFlight)[0] == a;
  }

  /** The only unit in flight ends there while a second waits for it: a job is left, and the loop aborts. */
  lemma AQueueIsAbandoned(setup: Setup, a: string, b: string) returns (t: Trace)
    requires setup.cap == 1
    ensures IsTrace(setup, [a, b], t) && Ends(t, Over(NothingHeld))
    ensures t.events == [Turned, Offered(WILLING), Offered(WILLING), Left(0), Checked]
    ensures Last(t.pools).queue == [b]
  {
    t := FirstStarts(setup, [a, b]);
    t := Next(setup, [a, b], t, Offered(WILLING));
    t := Next(setup, [a, b], t, Left(0));
    t := Next(setup, [a, b], t, Checked);
  }

  /** The pool can be empty at the refusal already: the unit that emptied it left before that offer. */
  lemma ItIsEmptyBeforeTheRefusal(setup: Setup, a: string) returns (t: Trace)
    ensures IsTrace(setup, [a], t) && Ends(t, Over(NothingHeld))
    ensures t.events == [Turned, Offered(WILLING), Left(0), Offered(WILLING), Checked]
    ensures t.pools[3].inFlight == [] && OfferStep(setup, t.pools[3], WILLING).1.Refused?
  {
    t := FirstStarts(setup, [a]);
    t := Next(setup, [a], t, Left(0));
    t := Next(setup, [a], t, Offered(WILLING));
    t := Next(setup, [a], t, Checked);
  }

  // ---- the loop ----

  /** What is left to do; every start, every end and every leave makes it less. */
  function Work(queue: seq<string>, inFlight: seq<Live>): nat {
    4 * |queue| + Owing(inFlight)
  }

  function Owing(inFlight: seq<Live>): nat {
    if inFlight == [] then 0 else (if inFlight[0].told.None? then 2 else 1) + Owing(inFlight[1..])
  }

  lemma {:induction false} OwingAdds(a: seq<Live>, b: seq<Live>)
    ensures Owing(a + b) == Owing(a) + Owing(b)
  {
    if a == [] {
      assert a + b == b;
    } else {
      assert (a + b)[1..] == a[1..] + b;
      OwingAdds(a[1..], b);
    }
  }

  lemma OwingOfOne(lives: seq<Live>, i: nat)
    requires i < |lives|
    ensures Owing(lives) == Owing(lives[..i]) + (if lives[i].told.None? then 2 else 1) + Owing(lives[i + 1..])
  {
    assert lives == lives[..i] + ([lives[i]] + lives[i + 1..]);
    OwingAdds(lives[..i], [lives[i]] + lives[i + 1..]);
    assert ([lives[i]] + lives[i + 1..])[1..] == lives[i + 1..];
  }

  lemma {:induction false} OwingIgnoresOverlap(a: seq<Live>, b: seq<Live>)
    requires |a| == |b| && forall i | 0 <= i < |a| :: a[i].told == b[i].told
    ensures Owing(a) == Owing(b)
  {
    if a != [] {
      OwingIgnoresOverlap(a[1..], b[1..]);
    }
  }

  lemma WorkOfOffer(setup: Setup, pool: Pool, host: Host)
    ensures var (after, offer) := OfferStep(setup, pool, host);
            Work(after.queue, after.inFlight) + (if offer.Started? then 1 else 0) <= Work(pool.queue, pool.inFlight)
  {
    var (after, offer) := OfferStep(setup, pool, host);
    if offer.Started? {
      var live := Live(pool.queue[0], ReservationFor(setup, pool.queue[0]), false, None);
      OwingIgnoresOverlap(after.inFlight, pool.inFlight + [live]);
      OwingAdds(pool.inFlight, [live]);
      assert Owing([live]) == 2;
    }
  }

  lemma WorkOfEnd(pool: Pool, ev: Event)
    requires (ev.Finished? || ev.Left?) && CanHappen(pool, ev)
    ensures var after := if ev.Finished? then FinishStep(pool, ev.i) else LeaveStep(pool, ev.i);
            Work(after.queue, after.inFlight) < Work(pool.queue, pool.inFlight)
  {
    var lives, i := pool.inFlight, ev.i;
    OwingOfOne(lives, i);
    if ev.Finished? {
      var told := FinishStep(pool, i).inFlight;
      OwingOfOne(told, i);
      assert told[..i] == lives[..i] && told[i + 1..] == lives[i + 1..];
    } else {
      OwingAdds(lives[..i], lives[i + 1..]);
    }
  }

  // ---- every history ends ----

  /** A bound on the events still to come. Between two ends there are at most a turn, a refusal and a check. */
  function ToCome(pool: Pool, at: Place): nat {
    4 * Work(pool.queue, pool.inFlight)
    + match at
      case AtHead => 3
      case Waiting(left) => if left then 3 else 0
      case Admitting => 2
      case AtCheck => 1
      case Over(_) => 0
  }

  lemma EventsUseUp(setup: Setup, pool: Pool, at: Place, ev: Event)
    requires May(at, ev) && CanHappen(pool, ev)
    ensures ToCome(Step(setup, pool, ev), Goes(setup, at, pool, ev)) < ToCome(pool, at)
  {
    match ev
    case Offered(host) => WorkOfOffer(setup, pool, host);
    case Finished(_) => WorkOfEnd(pool, ev);
    case Left(_) => WorkOfEnd(pool, ev);
    case _ =>
  }

  lemma {:induction false} PrefixesAreShort(setup: Setup, jobs: seq<string>, t: Trace, n: nat)
    requires IsTrace(setup, jobs, t) && n <= |t.events|
    ensures n + ToCome(t.pools[n], t.places[n]) <= 16 * |jobs| + 3
    decreases n
  {
    if n > 0 {
      PrefixesAreShort(setup, jobs, t, n - 1);
      assert Moves(setup, t, n - 1);
      EventsUseUp(setup, t.pools[n - 1], t.places[n - 1], t.events[n - 1]);
    }
  }

  /** No history is longer than this, however the host answers and the ends interleave. */
  lemma HistoriesAreShort(setup: Setup, jobs: seq<string>, t: Trace)
    requires IsTrace(setup, jobs, t)
    ensures |t.events| <= 16 * |jobs| + 3
  {
    PrefixesAreShort(setup, jobs, t, |t.events|);
  }

  /** While the loop waits for a first leave, something is in flight that can leave. */
  lemma {:induction false} WaitingHoldsSomething(setup: Setup, jobs: seq<string>, t: Trace, k: nat)
    requires IsTrace(setup, jobs, t) && k < |t.places| && t.places[k] == Waiting(false)
    ensures t.pools[k].inFlight != []
    decreases k
  {
    assert k > 0 && Moves(setup, t, k - 1);
    if !t.events[k - 1].Checked? {
      WaitingHoldsSomething(setup, jobs, t, k - 1);
    }
  }

  // ---- what the loop meets ----

  /** What the world has in store at a moment: an end, if any, and what the host would answer. */
  datatype Moment = Moment(end: Option<Event>, host: Host)

  /** The world at each moment, told by the number of events before it. */
  type World = nat -> Moment

  /** At this moment a unit ends, where the loop can see it. */
  predicate EndsNow(at: Place, pool: Pool, now: Moment) {
    && now.end.Some? && (now.end.value.Finished? || now.end.value.Left?)
    && May(at, now.end.value) && CanHappen(pool, now.end.value)
  }

  /** What comes next: an end if there is one; else the loop goes on, or, if it waits, some unit leaves. */
  function Chosen(at: Place, pool: Pool, now: Moment): Event {
    if EndsNow(at, pool, now) then now.end.value
    else match at
      case Admitting => Offered(now.host)
      case AtCheck => Checked
      case Waiting(left) => if left then Turned else Left(0)
      case _ => Turned
  }

  /** The history is the one this world brings about. */
  ghost predicate Heeds(t: Trace, world: World) {
    && |t.pools| == |t.places| == |t.events| + 1
    && forall k | 0 <= k < |t.events| :: t.events[k] == Chosen(t.places[k], t.pools[k], world(k))
  }

  lemma HeedsOn(setup: Setup, t: Trace, ev: Event, world: World)
    requires Heeds(t, world) && CanHappen(Last(t.pools), ev)
    requires ev == Chosen(t.places[|t.events|], Last(t.pools), world(|t.events|))
    ensures Heeds(Then(setup, t, ev), world)
  {}

  /** A history that is not over can go on, whatever the world has in store: the loop never hangs. */
  lemma HistoriesGoOn(setup: Setup, jobs: seq<string>, t: Trace, world: World)
    requires IsTrace(setup, jobs, t) && Heeds(t, world) && !t.places[|t.events|].Over?
    ensures var ev := Chosen(t.places[|t.events|], Last(t.pools), world(|t.events|));
            && CanHappen(Last(t.pools), ev)
            && IsTrace(setup, jobs, Then(setup, t, ev)) && Heeds(Then(setup, t, ev), world)
  {
    var ev := Chosen(t.places[|t.events|], Last(t.pools), world(|t.events|));
    if t.places[|t.events|] == Waiting(false) {
      WaitingHoldsSomething(setup, jobs, t, |t.events|);
    }
    ThenIsTrace(setup, jobs, t, ev);
    HeedsOn(setup, t, ev, world);
  }

  lemma {:induction false} WorldsDecidePrefixes(setup: Setup, jobs: seq<string>, a: Trace, b: Trace,
                                                world: World, n: nat)
    requires IsTrace(setup, jobs, a) && IsTrace(setup, jobs, b) && Heeds(a, world) && Heeds(b, world)
    requires n <= |a.events| && n <= |b.events|
    ensures a.pools[..n + 1] == b.pools[..n + 1] && a.places[..n + 1] == b.places[..n + 1]
    ensures a.events[..n] == b.events[..n]
    decreases n
  {
    if n > 0 {
      WorldsDecidePrefixes(setup, jobs, a, b, world, n - 1);
      assert a.pools[n - 1] == a.pools[..n][n - 1] == b.pools[..n][n - 1] == b.pools[n - 1];
      assert a.places[n - 1] == a.places[..n][n - 1] == b.places[..n][n - 1] == b.places[n - 1];
      assert Moves(setup, a, n - 1) && Moves(setup, b, n - 1);
      assert a.pools[..n + 1] == a.pools[..n] + [a.pools[n]] && b.pools[..n + 1] == b.pools[..n] + [b.pools[n]];
      assert a.places[..n + 1] == a.places[..n] + [a.places[n]] && b.places[..n + 1] == b.places[..n] + [b.places[n]];
      assert a.events[..n] == a.events[..n - 1] + [a.events[n - 1]];
      assert b.events[..n] == b.events[..n - 1] + [b.events[n - 1]];
    }
  }

  lemma NotOverBefore(setup: Setup, jobs: seq<string>, t: Trace, n: nat)
    requires IsTrace(setup, jobs, t)
    ensures n < |t.events| ==> !t.places[n].Over?
  {
    if n < |t.events| {
      assert Moves(setup, t, n);
    }
  }

  /** A world brings about one whole history and no other. */
  lemma WorldsDecide(setup: Setup, jobs: seq<string>, a: Trace, b: Trace, world: World, why: Cause, ends: Cause)
    requires IsTrace(setup, jobs, a) && IsTrace(setup, jobs, b) && Heeds(a, world) && Heeds(b, world)
    requires Ends(a, Over(why)) && Ends(b, Over(ends))
    ensures a == b
  {
    var n := if |a.events| <= |b.events| then |a.events| else |b.events|;
    WorldsDecidePrefixes(setup, jobs, a, b, world, n);
    assert a.places[n] == a.places[..n + 1][n] == b.places[..n + 1][n] == b.places[n];
    NotOverBefore(setup, jobs, a, n);
    NotOverBefore(setup, jobs, b, n);
    assert a.pools[..n + 1] == a.pools && b.pools[..n + 1] == b.pools;
    assert a.places[..n + 1] == a.places && b.places[..n + 1] == b.places;
    assert a.events[..n] == a.events && b.events[..n] == b.events;
  }

  /** The world in which this history comes about. */
  function WorldOf(t: Trace): World {
    (k: nat) => if k < |t.events| then MomentOf(t.events[k]) else Moment(None, WILLING)
  }

  function MomentOf(ev: Event): Moment {
    if ev.Offered? then Moment(None, ev.host) else Moment(Some(ev), WILLING)
  }

  /** Every history comes about in some world: no interleaving of answers and ends is left out. */
  lemma EveryHistoryHasItsWorld(setup: Setup, jobs: seq<string>, t: Trace)
    requires IsTrace(setup, jobs, t)
    ensures Heeds(t, WorldOf(t))
  {
    forall k | 0 <= k < |t.events| ensures t.events[k] == Chosen(t.places[k], t.pools[k], WorldOf(t)(k)) {
      assert Moves(setup, t, k);
    }
  }

  /** The loop, run to its end in the world of a whole history, goes through that history. */
  lemma ItsWorldBringsItAbout(setup: Setup, jobs: seq<string>, t: Trace, other: Trace, why: Cause, ends: Cause)
    requires IsTrace(setup, jobs, t) && Ends(t, Over(why))
    requires IsTrace(setup, jobs, other) && Ends(other, Over(ends)) && Heeds(other, WorldOf(t))
    ensures other == t
  {
    EveryHistoryHasItsWorld(setup, jobs, t);
    WorldsDecide(setup, jobs, t, other, WorldOf(t), why, ends);
  }

  /** The pool is safe at every moment of the loop, and starts its units in the order of the queue. */
  lemma HistoryIsSafe(setup: Setup, jobs: seq<string>, t: Trace)
    requires IsTrace(setup, jobs, t)
    ensures forall k | 0 <= k < |t.pools| :: Safe(setup, t.pools[k])
    ensures InOrder(jobs, t.pools, Last(t.pools).queue)
  {
    TracesAreRuns(setup, jobs, t, |t.pools|);
    assert t.pools[..|t.pools|] == t.pools;
    forall k | 0 <= k < |t.pools| ensures Safe(setup, t.pools[k]) {
      RunIsSafe(setup, jobs, t.pools, k);
    }
    RunStartsInOrder(setup, jobs, t.pools);
  }

  /** Each way to end, told from the last event and what was in the pool at it. */
  ghost predicate EndedFor(setup: Setup, jobs: seq<string>, t: Trace, cause: Cause)
    requires IsTrace(setup, jobs, t)
  {
    var n := |t.events|;
    && n > 0
    && (cause.Drained? ==> Last(t.pools).queue == [] && Last(t.pools).inFlight == []
                           && forall name | name in jobs :: EverInFlight(t.pools, name))
    && (cause.HostAborted? <==> t.events[n - 1].Offered? && HostStops(setup, t.pools[n - 1], t.events[n - 1].host))
    && (cause.NothingHeld? <==> t.events[n - 1].Checked? && EmptiedInTheTurn(t.pools, t.events, n - 1))
  }

  lemma HowItEnded(setup: Setup, jobs: seq<string>, t: Trace, cause: Cause)
    requires IsTrace(setup, jobs, t) && Ends(t, Over(cause))
    ensures EndedFor(setup, jobs, t, cause)
  {
    ItDrains(setup, jobs, t);
    TheHostStopsIt(setup, jobs, t);
    TheCheckFailsOnlyAfterALeave(setup, jobs, t);
  }

  class Runner {
    const setup: Setup
    ghost const jobs: seq<string>
    var queue: seq<string>
    var inFlight: seq<Live>
    var budget: Option<Budget>
    var peak: nat
    /** How many events there have been; the world goes by it. */
    var clock: nat
    /** Everything so far. */
    ghost var trace: Trace

    function Now(): Pool
      reads this
    {
      Pool(queue, inFlight, budget, peak)
    }

    ghost predicate Valid()
      reads this
    {
      IsTrace(setup, jobs, trace) && Last(trace.pools) == Now() && clock == |trace.events|
    }

    ghost function At(): Place
      requires Valid()
      reads this
    {
      trace.places[|trace.events|]
    }

    /** The loop sees something, or something happens to it. */
    method Note(ghost before: Pool, ghost ev: Event)
      requires IsTrace(setup, jobs, trace) && Last(trace.pools) == before && clock == |trace.events|
      requires May(trace.places[|trace.events|], ev) && CanHappen(before, ev) && Now() == Step(setup, before, ev)
      modifies this`trace, this`clock
      ensures Valid() && trace == Then(setup, old(trace), ev)
    {
      ThenIsTrace(setup, jobs, trace, ev);
      trace := Then(setup, trace, ev);
      clock := clock + 1;
    }

    /** The planned jobs, queued longest first by what history says they cost. */
    constructor (setup: Setup, planned: seq<string>, costs: map<string, real>)
      ensures Valid() && this.setup == setup && queue == jobs && inFlight == [] && trace == Begun(jobs)
      ensures jobs == OrderByCost(planned, job => if job in costs then Some(costs[job]) else None)
    {
      var ordered := OrderByCost(planned, job => if job in costs then Some(costs[job]) else None);
      this.setup, this.jobs, queue, inFlight, budget, peak, clock := setup, ordered, ordered, [], None, 0, 0;
      trace := Begun(ordered);
    }

    /** With two or more in flight, each of them is flagged; and the most so far is kept. */
    method MarkOverlap()
      modifies this`inFlight, this`peak
      ensures inFlight == Overlapping(old(inFlight))
      ensures peak == if |old(inFlight)| > old(peak) then |old(inFlight)| else old(peak)
    {
      if |inFlight| > peak {
        peak := |inFlight|;
      }
      if |inFlight| < 2 {
        return;
      }
      ghost var before := inFlight;
      for n := 0 to |inFlight|
        invariant |inFlight| == |before| && peak == if |before| > old(peak) then |before| else old(peak)
        invariant forall i | 0 <= i < |before| ::
                    inFlight[i] == if i < n then before[i].(overlapped := true) else before[i]
      {
        inFlight := inFlight[n := inFlight[n].(overlapped := true)];
      }
    }

    method Start(job: string, reservation: Reservation)
      modifies this`inFlight, this`peak
      ensures queue == old(queue) && budget == old(budget)
      ensures Now() == StartStep(old(Now()).(queue := [job] + queue), reservation)
    {
      inFlight := inFlight + [Live(job, reservation, false, None)];
      MarkOverlap();
      assert ([job] + queue)[1..] == queue;
    }

    /** Considers the head of the queue. */
    method AdmitNext(host: Host) returns (offer: Offer)
      requires Valid() && At() == Admitting
      modifies this
      ensures (Now(), offer) == OfferStep(setup, old(Now()), host)
      ensures Valid() && trace == Then(setup, old(trace), Offered(host))
    {
      ghost var before := Now();
      offer := Consider(host);
      Note(before, Offered(host));
    }

    method Consider(host: Host) returns (offer: Offer)
      modifies this`queue, this`inFlight, this`budget, this`peak
      ensures (Now(), offer) == OfferStep(setup, old(Now()), host)
    {
      if queue == [] {
        return Refused;
      }
      var job := queue[0];
      assert [job] + queue[1..] == queue;
      if inFlight == [] {
        if !host.mayStart || host.headroom.None? {
          return Aborted;
        }
        var plan := PlanFor(DemandFor(setup.commit, setup.resident, job), host.headroom.value);
        if plan.mode.Refuse? {
          return Aborted;
        }
        queue := queue[1..];
        budget := Some(PoolBudget(host.headroom.value, SLACK_BYTES));
        Start(job, ReservationFor(setup, job));
        return Started;
      }
      if budget.None? {
        return Refused;
      }
      var candidate := ReservationFor(setup, job);
      if Admits(budget.value, Held(inFlight), candidate, setup.cap) != Admit || host.overFloor {
        return Refused;
      }
      if !host.mayStart {
        return Aborted;
      }
      queue := queue[1..];
      Start(job, candidate);
      return Started;
    }

    /** A unit's process ends and its overlap flag is read. */
    method Finish(i: nat)
      requires Valid() && i < |inFlight| && inFlight[i].told.None? && May(At(), Finished(i))
      modifies this
      ensures Now() == FinishStep(old(Now()), i)
      ensures Valid() && trace == Then(setup, old(trace), Finished(i))
      ensures Work(queue, inFlight) < Work(old(queue), old(inFlight))
    {
      ghost var before := Now();
      WorkOfEnd(before, Finished(i));
      inFlight := inFlight[i := inFlight[i].(told := Some(inFlight[i].overlapped))];
      Note(before, Finished(i));
    }

    method Leave(i: nat)
      requires Valid() && i < |inFlight| && May(At(), Left(i))
      modifies this
      ensures Now() == LeaveStep(old(Now()), i)
      ensures Valid() && trace == Then(setup, old(trace), Left(i))
      ensures Work(queue, inFlight) < Work(old(queue), old(inFlight))
    {
      ghost var before := Now();
      WorkOfEnd(before, Left(i));
      inFlight := inFlight[..i] + inFlight[i + 1..];
      Note(before, Left(i));
    }

    /** Whatever ends before the loop goes on. */
    method Meanwhile(world: World)
      requires Valid() && Heeds(trace, world) && (At().Admitting? || At().AtCheck? || At() == Waiting(true))
      modifies this
      ensures Valid() && Heeds(trace, world) && At() == old(At()) && !EndsNow(At(), Now(), world(clock))
      ensures queue == old(queue) && Work(queue, inFlight) <= old(Work(queue, inFlight))
    {
      var end := world(clock).end;
      while end.Some? && (end.value.Finished? || end.value.Left?) && CanHappen(Now(), end.value)
        invariant Valid() && Heeds(trace, world) && At() == old(At()) && end == world(clock).end
        invariant queue == old(queue) && Work(queue, inFlight) <= old(Work(queue, inFlight))
        decreases Work(queue, inFlight)
      {
        HeedsOn(setup, trace, end.value, world);
        if end.value.Finished? {
          Finish(end.value.i);
        } else {
          Leave(end.value.i);
        }
        end := world(clock).end;
      }
    }

    /**
     * The whole drain, in any world: any answers of the host, and any ends wherever the loop can see
     * them. It ends, at every moment the pool is safe, and the cause it returns says how it ended.
     */
    method Drain(world: World) returns (cause: Cause)
      requires Valid() && trace == Begun(jobs)
      modifies this
      ensures Valid() && At() == Over(cause) && Heeds(trace, world) && |trace.events| <= 16 * |jobs| + 3
      ensures forall k | 0 <= k < |trace.pools| :: Safe(setup, trace.pools[k])
      ensures InOrder(jobs, trace.pools, queue)
      ensures EndedFor(setup, jobs, trace, cause)
    {
      cause := Turns(world);
      HistoryIsSafe(setup, jobs, trace);
      HistoriesAreShort(setup, jobs, trace);
      HowItEnded(setup, jobs, trace, cause);
    }

    method Turns(world: World) returns (cause: Cause)
      requires Valid() && trace == Begun(jobs)
      modifies this
      ensures Valid() && At() == Over(cause) && Heeds(trace, world)
    {
      while queue != [] || inFlight != []
        invariant Valid() && Heeds(trace, world) && (At() == AtHead || At() == Waiting(true))
        invariant !EndsNow(At(), Now(), world(clock))
        decreases Work(queue, inFlight)
      {
        See(Turned, world);
        var aborted := Fill(world);
        if aborted {
          return HostAborted;
        }
        See(Checked, world);
        if inFlight == [] {
          return NothingHeld;
        }
        AwaitOne(world);
      }
      See(Turned, world);
      return Drained;
    }

    /** Offers the head of the queue until an offer is refused. */
    method Fill(world: World) returns (aborted: bool)
      requires Valid() && At() == Admitting && Heeds(trace, world)
      modifies this
      ensures Valid() && Heeds(trace, world) && At() == (if aborted then Over(HostAborted) else AtCheck)
      ensures !aborted ==> !EndsNow(At(), Now(), world(clock))
      ensures Work(queue, inFlight) <= old(Work(queue, inFlight))
    {
      var more := true;
      while more
        invariant Valid() && Heeds(trace, world) && At() == if more then Admitting else AtCheck
        invariant Work(queue, inFlight) <= old(Work(queue, inFlight))
        decreases Work(queue, inFlight), more
      {
        Meanwhile(world);
        ghost var before := Now();
        var host := world(clock).host;
        HeedsOn(setup, trace, Offered(host), world);
        WorkOfOffer(setup, before, host);
        var offer := AdmitNext(host);
        if offer.Aborted? {
          return true;
        }
        more := offer.Started?;
      }
      Meanwhile(world);
      return false;
    }

    /** Waits until a unit leaves, whichever it is; others may end before and after it. */
    method AwaitOne(world: World)
      requires Valid() && At() == Waiting(false) && inFlight != [] && Heeds(trace, world)
      modifies this
      ensures Valid() && At() == Waiting(true) && Heeds(trace, world) && !EndsNow(At(), Now(), world(clock))
      ensures Work(queue, inFlight) < old(Work(queue, inFlight))
    {
      var end := world(clock).end;
      while end.Some? && end.value.Finished? && CanHappen(Now(), end.value)
        invariant Valid() && At() == Waiting(false) && inFlight != [] && Heeds(trace, world) && end == world(clock).end
        invariant Work(queue, inFlight) <= old(Work(queue, inFlight))
        decreases Work(queue, inFlight)
      {
        HeedsOn(setup, trace, end.value, world);
        Finish(end.value.i);
        end := world(clock).end;
      }
      var first := if end.Some? && end.value.Left? && CanHappen(Now(), end.value) then end.value.i else 0;
      HeedsOn(setup, trace, Left(first), world);
      Leave(first);
      Meanwhile(world);
    }

    /** A turn or a check: nothing changes but that it has happened. */
    method See(ghost ev: Event, ghost world: World)
      requires Valid() && (ev.Turned? || ev.Checked?) && May(At(), ev)
      requires Heeds(trace, world) && !EndsNow(At(), Now(), world(clock))
      modifies this`trace, this`clock
      ensures Valid() && trace == Then(setup, old(trace), ev) && Heeds(trace, world)
    {
      HeedsOn(setup, trace, ev, world);
      Note(Now(), ev);
    }
  }
}
