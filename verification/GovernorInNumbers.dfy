/**
 * What the governor answers, told from the numbers and the records alone: who is admitted, who waits
 * and where, which neighbours go and in what order, and when an idle service is swept.
 */
module GovernorInNumbers {
  import opened CapabilityServiceGovernor
  import opened EvictionGuards
  import opened GovernorRuns
  import opened Ordering
  import opened Wrappers

  // ---- admission ----

  /** Bytes the host has to have: the peak, less what a service that is up already occupies. */
  predicate Asks(state: Runtime, info: Info, bytes: int) {
    if state.phase == Ready && info.residentBytes < info.peakBytes then bytes + info.residentBytes == info.peakBytes
    else if state.phase == Ready then bytes == 0
    else bytes == info.peakBytes
  }

  /** There is room as things are. */
  predicate HasRoom(capacity: Option<Capacity>, bytes: int) {
    match capacity
    case Some(Capacity(Finite(limit), Finite(used), fraction)) =>
      fraction > 0.0 && fraction <= 1.0 && used + bytes as real <= limit * fraction
    case _ => false
  }

  lemma SafeIsRoom(state: Runtime, info: Info, capacity: Option<Capacity>, bytes: int)
    requires Asks(state, info, bytes)
    ensures Required(state, info) == bytes && (Safe(capacity, bytes) <==> HasRoom(capacity, bytes))
  {}

  predicate Declared(look: Look) {
    look.serviceID in look.services.info && !look.services.info[look.serviceID].disabled
  }

  /** A new request of an idle service is admitted exactly when there is room, and starts a stopped one. */
  lemma IdleIsAdmittedExactly(rts: Runtimes, collate: string -> real, look: Look, r: string, bytes: int)
    requires Declared(look) && At(rts, look.serviceID).active != Some(r)
    requires At(rts, look.serviceID).phase == Stopped || At(rts, look.serviceID).phase == Ready
    requires Asks(At(rts, look.serviceID), look.services.info[look.serviceID], bytes)
    ensures var (after, d) := RequestStep(rts, collate, look, r);
            var was, now := At(rts, look.serviceID), At(after, look.serviceID);
            if HasRoom(look.capacity, bytes)
            then && d == (if was.phase == Stopped then Start(r) else Run(r))
                 && now.phase == (if was.phase == Stopped then Loading else Busy)
                 && now.active == Some(r) && now.lastUsedMs == look.nowMs && now.queue == was.queue
            else d.Queued? || d == Refused(QueueFull)
  {
    SafeIsRoom(At(rts, look.serviceID), look.services.info[look.serviceID], look.capacity, bytes);
    RequestAnswered(rts, collate, look, r);
  }

  /** Eight may wait where the declaration names no number. */
  predicate QueueIsFull(state: Runtime, info: Info) {
    |state.queue| >= if info.queueLimit.Some? then info.queueLimit.value else 8
  }

  /** What happens to a request that is not admitted and not refused for its service's sake. */
  ghost predicate Lines(was: Runtime, now: Runtime, info: Info, r: string, d: Decision) {
    if r in was.queue then
      && now == was && d.Queued? && d.unload == []
      && 0 < d.position <= |was.queue| && was.queue[d.position - 1] == r
      && forall j | 0 <= j < d.position - 1 :: was.queue[j] != r
    else if QueueIsFull(was, info) then now == was && d == Refused(QueueFull)
    else now == was.(queue := was.queue + [r]) && d.Queued? && d.position == |was.queue| + 1
  }

  lemma {:induction false} IndexIsFirst(s: seq<string>, x: string)
    requires x in s
    ensures forall j | 0 <= j < IndexOf(s, x) :: s[j] != x
  {
    if s[0] != x {
      IndexIsFirst(s[1..], x);
      forall j | 0 <= j < IndexOf(s, x) ensures s[j] != x {
        if j > 0 { assert s[1..][j - 1] == s[j]; }
      }
    }
  }

  lemma EnqueueLines(rts: Runtimes, s: string, info: Info, r: string, unload: seq<string>)
    ensures var (after, d) := EnqueueStep(rts, s, info, r, unload);
            Lines(At(rts, s), At(after, s), info, r, d)
  {
    if r in At(rts, s).queue {
      IndexIsFirst(At(rts, s).queue, r);
    }
  }

  /** Who is not admitted waits at the first place that has its name, or at the end, or finds the queue full. */
  lemma OthersLineUp(rts: Runtimes, collate: string -> real, look: Look, r: string, bytes: int)
    requires Declared(look) && At(rts, look.serviceID).active != Some(r)
    requires Asks(At(rts, look.serviceID), look.services.info[look.serviceID], bytes)
    ensures var (after, d) := RequestStep(rts, collate, look, r);
            var was, now := At(rts, look.serviceID), At(after, look.serviceID);
            match was.phase
            case Unavailable => d == Refused(ServiceUnavailable) && now == was
            case Stopped => HasRoom(look.capacity, bytes) || Lines(was, now, look.services.info[look.serviceID], r, d)
            case Ready => HasRoom(look.capacity, bytes) || Lines(was, now, look.services.info[look.serviceID], r, d)
            case _ => Lines(was, now, look.services.info[look.serviceID], r, d)
  {
    var was, info := At(rts, look.serviceID), look.services.info[look.serviceID];
    var here := Touch(rts, look.serviceID);
    SafeIsRoom(was, info, look.capacity, bytes);
    if was.phase == Loading || was.phase == Busy || was.phase == Unloading {
      EnqueueLines(here, look.serviceID, info, r, []);
    } else if was.phase != Unavailable && !HasRoom(look.capacity, bytes) {
      WaitLines(here, collate, look, info, r, Required(was, info));
    }
  }

  lemma WaitLines(here: Runtimes, collate: string -> real, look: Look, info: Info, r: string, required: nat)
    ensures var (after, d) := WaitStep(here, collate, look, info, r, required);
            Lines(At(here, look.serviceID), At(after, look.serviceID), info, r, d)
  {
    var was := At(here, look.serviceID);
    if r in was.queue {
      IndexIsFirst(was.queue, r);
    } else if |was.queue| < Limit(info) {
      var (there, unload) := IdleVictimsStep(here, collate, look, required);
      EvictionMoves(here, collate, look, required);
      assert At(there, look.serviceID) == was;
      EnqueueLines(there, look.serviceID, info, r, unload);
    }
  }

  /** A service that is not declared, or disabled, refuses; a request that is active already goes on. */
  lemma NothingNewIsAnswered(rts: Runtimes, collate: string -> real, look: Look, r: string)
    ensures !Declared(look) ==> RequestStep(rts, collate, look, r) == (rts, Refused(ServiceDisabled))
    ensures Declared(look) && At(rts, look.serviceID).active == Some(r) ==>
              RequestStep(rts, collate, look, r).1
              == (if At(rts, look.serviceID).phase == Loading then Start(r) else Run(r))
  {}

  // ---- eviction ----

  /** A service declared besides the target that is up, and idle with nobody waiting. */
  predicate CouldGo(rts: Runtimes, look: Look, id: string) {
    && id in look.services.info && id != look.serviceID
    && At(rts, id).phase == Ready && At(rts, id).queue == []
  }

  /**
   * These could all go, each is there once, of any two the first was used no later, and nobody left
   * behind was used before any of them; where two were last used at the same time, names decide.
   */
  ghost predicate AreLongestUnused(rts: Runtimes, collate: string -> real, look: Look, unload: seq<string>) {
    && (forall id | id in unload :: CouldGo(rts, look, id))
    && (forall i, j | 0 <= i < j < |unload| ::
          && unload[i] != unload[j] && At(rts, unload[i]).lastUsedMs <= At(rts, unload[j]).lastUsedMs
          && (At(rts, unload[i]).lastUsedMs == At(rts, unload[j]).lastUsedMs ==>
                collate(unload[i]) <= collate(unload[j])))
    && (forall id, other | id in unload && CouldGo(rts, look, other) && other !in unload ::
          && At(rts, id).lastUsedMs <= At(rts, other).lastUsedMs
          && (At(rts, id).lastUsedMs == At(rts, other).lastUsedMs ==> collate(id) <= collate(other)))
  }

  /** Whoever is told to go for a request, they are the longest unused. */
  lemma TheLongestUnusedGo(rts: Runtimes, collate: string -> real, look: Look, r: string)
    requires RequestStep(rts, collate, look, r).1.Queued?
    ensures AreLongestUnused(rts, collate, look, RequestStep(rts, collate, look, r).1.unload)
  {
    EvictionsAreBest(rts, collate, look, r);
    var required := Required(At(rts, look.serviceID), look.services.info[look.serviceID]);
    BestAreLongestUnused(rts, collate, look, required, RequestStep(rts, collate, look, r).1.unload);
  }

  lemma BestAreLongestUnused(rts: Runtimes, collate: string -> real, look: Look, required: nat, unload: seq<string>)
    requires BestEviction(rts, collate, look, required, unload)
    ensures AreLongestUnused(rts, collate, look, unload)
  {
    forall i, j | 0 <= i < j < |unload|
      ensures unload[i] != unload[j] && Earlier(rts, collate, unload[i], unload[j]) {
    }
    forall id, other | id in unload && CouldGo(rts, look, other) && other !in unload
      ensures Earlier(rts, collate, id, other) {
      assert Evictable(rts, look.serviceID, other);
    }
  }

  /** The bytes these services occupy together. */
  function Freed(services: Services, ids: seq<string>): nat {
    if ids == [] then 0
    else (if ids[0] in services.info then services.info[ids[0]].residentBytes else 0) + Freed(services, ids[1..])
  }

  /** The reading is usable and leaves room for this many bytes once that many are freed. */
  predicate Leaves(capacity: Option<Capacity>, freed: int, bytes: int) {
    match capacity
    case Some(Capacity(Finite(limit), Finite(used), fraction)) =>
      && fraction > 0.0 && fraction <= 1.0
      && (if used > freed as real then used - freed as real else 0.0) + bytes as real <= limit * fraction
    case Some(Capacity(Finite(limit), NegInfinity, fraction)) =>
      fraction > 0.0 && fraction <= 1.0 && bytes as real <= limit * fraction
    case _ => false
  }

  lemma {:induction false} FreedAdd(services: Services, a: seq<string>, b: seq<string>)
    ensures Freed(services, a + b) == Freed(services, a) + Freed(services, b)
  {
    if a == [] {
      assert a + b == b;
    } else {
      assert (a + b)[1..] == a[1..] + b;
      FreedAdd(services, a[1..], b);
    }
  }

  lemma {:induction false} ResidentIsFreed(services: Services, ids: seq<string>)
    ensures ResidentBytes(services, ids) == Freed(services, ids)
  {
    if ids != [] {
      var front, last := ids[..|ids| - 1], ids[|ids| - 1];
      ResidentIsFreed(services, front);
      FreedAdd(services, front, [last]);
      assert ids == front + [last] && [last][1..] == [];
    }
  }

  lemma SafeWithoutLeaves(capacity: Capacity, services: Services, ids: seq<string>, bytes: nat)
    ensures SafeWithout(capacity, services, ids, bytes) <==> Leaves(Some(capacity), Freed(services, ids), bytes)
  {
    ResidentIsFreed(services, ids);
  }

  /** Some of distinct services free no more than all of them. */
  lemma {:induction false} FewerFreeLess(services: Services, some: seq<string>, all: seq<string>)
    requires NoDuplicates(some) && forall id | id in some :: id in all
    ensures Freed(services, some) <= Freed(services, all)
    decreases |some|
  {
    if some != [] {
      assert some[0] in some && some[0] in all;
      var i :| 0 <= i < |all| && all[i] == some[0];
      var others := all[..i] + all[i + 1..];
      assert all == all[..i] + ([all[i]] + all[i + 1..]);
      FreedAdd(services, all[..i], [all[i]] + all[i + 1..]);
      FreedAdd(services, [all[i]], all[i + 1..]);
      FreedAdd(services, all[..i], all[i + 1..]);
      assert [all[i]][1..] == [];
      forall id | id in some[1..] ensures id in others {
        var j :| 0 <= j < |some[1..]| && some[1..][j] == id;
        assert some[j + 1] == id && id != some[0];
        assert id in all && id != all[i];
      }
      FewerFreeLess(services, some[1..], others);
    }
  }

  lemma LeavesMore(capacity: Option<Capacity>, less: int, more: int, bytes: int)
    requires less <= more && Leaves(capacity, less, bytes)
    ensures Leaves(capacity, more, bytes)
  {}

  /** Those told to go make room together, and without the last of them they would not. */
  lemma AsManyGoAsMakeRoom(rts: Runtimes, collate: string -> real, look: Look, r: string, bytes: int)
    requires Declared(look) && Asks(At(rts, look.serviceID), look.services.info[look.serviceID], bytes)
    requires RequestStep(rts, collate, look, r).1.Queued?
    ensures var unload := RequestStep(rts, collate, look, r).1.unload;
            unload != [] ==>
              && Leaves(look.capacity, Freed(look.services, unload), bytes)
              && forall n | 1 <= n < |unload| :: !Leaves(look.capacity, Freed(look.services, unload[..n]), bytes)
  {
    var unload := RequestStep(rts, collate, look, r).1.unload;
    SafeIsRoom(At(rts, look.serviceID), look.services.info[look.serviceID], look.capacity, bytes);
    EvictionsAreBest(rts, collate, look, r);
    if unload != [] {
      SafeWithoutLeaves(look.capacity.value, look.services, unload, bytes);
      forall n | 1 <= n < |unload| ensures !Leaves(look.capacity, Freed(look.services, unload[..n]), bytes) {
        SafeWithoutLeaves(look.capacity.value, look.services, unload[..n], bytes);
      }
    }
  }

  /** If any neighbours that could go would make room, a request that has to wait sends some. */
  lemma SomeGoIfTheyCan(rts: Runtimes, collate: string -> real, look: Look, r: string, bytes: int, ids: seq<string>)
    requires Declared(look) && Asks(At(rts, look.serviceID), look.services.info[look.serviceID], bytes)
    requires At(rts, look.serviceID).phase == Stopped || At(rts, look.serviceID).phase == Ready
    requires At(rts, look.serviceID).active != Some(r) && r !in At(rts, look.serviceID).queue
    requires !QueueIsFull(At(rts, look.serviceID), look.services.info[look.serviceID]) && !HasRoom(look.capacity, bytes)
    requires ids != [] && NoDuplicates(ids) && forall id | id in ids :: CouldGo(rts, look, id)
    requires Leaves(look.capacity, Freed(look.services, ids), bytes)
    ensures var d := RequestStep(rts, collate, look, r).1; d.Queued? && d.unload != []
  {
    var all := Candidates(rts, collate, look.services, look.serviceID);
    SafeIsRoom(At(rts, look.serviceID), look.services.info[look.serviceID], look.capacity, bytes);
    CandidatesAre(rts, collate, look.services, look.serviceID);
    forall id | id in ids ensures id in all {
      assert CouldGo(rts, look, id);
    }
    assert ids[0] in all;
    FewerFreeLess(look.services, ids, all);
    LeavesMore(look.capacity, Freed(look.services, ids), Freed(look.services, all), bytes);
    SafeWithoutLeaves(look.capacity.value, look.services, all, bytes);
    ChosenExactly(At(rts, look.serviceID), look, all);
    RequestUnloads(rts, collate, look, r);
  }

  // ---- the sweep, and what comes back ----

  /** The service is up, its declaration names a time, and as much has passed since it was used. */
  predicate TimeIsUp(rts: Runtimes, services: Services, id: string, nowMs: int) {
    && At(rts, id).phase == Ready && id in services.info
    && match services.info[id].idleTimeoutMs
       case Some(timeout) => At(rts, id).lastUsedMs + timeout <= nowMs
       case None => false
  }

  lemma {:induction false} ExpiredInOrder(ids: seq<string>, rts: Runtimes, services: Services, nowMs: int,
                                          codeUnits: string -> real)
    requires NoDuplicates(ids) && forall i, j | 0 <= i < j < |ids| :: codeUnits(ids[i]) <= codeUnits(ids[j])
    ensures var swept := ExpiredOf(ids, rts, services, nowMs);
            && NoDuplicates(swept) && (forall id | id in swept :: id in ids)
            && forall i, j | 0 <= i < j < |swept| :: codeUnits(swept[i]) <= codeUnits(swept[j])
  {
    if ids != [] {
      var front, last := ids[..|ids| - 1], ids[|ids| - 1];
      ExpiredInOrder(front, rts, services, nowMs, codeUnits);
      assert forall id | id in front :: codeUnits(id) <= codeUnits(last) && id != last;
    }
  }

  /** Swept are exactly the services whose time is up, once each, in the order of their names. */
  lemma SweptAreThoseWhoseTimeIsUp(rts: Runtimes, locale: Locale, services: Services, nowMs: int)
    ensures var (after, swept) := SweepStep(rts, locale.codeUnits, services, nowMs);
            && (forall id :: id in swept <==> TimeIsUp(rts, services, id, nowMs))
            && (forall i, j | 0 <= i < j < |swept| ::
                  swept[i] != swept[j] && locale.codeUnits(swept[i]) <= locale.codeUnits(swept[j]))
            && forall id :: At(after, id) == if id in swept then At(rts, id).(phase := Unloading) else At(rts, id)
  {
    var sorted := StableSort(services.keys, ByCodeUnit(locale.codeUnits));
    SweepEffect(rts, locale, services, nowMs);
    StableSortIsStable(services.keys, ByCodeUnit(locale.codeUnits));
    NoDuplicatesByCount(services.keys);
    NoDuplicatesByCount(sorted);
    forall i, j | 0 <= i < j < |sorted| ensures locale.codeUnits(sorted[i]) <= locale.codeUnits(sorted[j]) {
      assert ByCodeUnit(locale.codeUnits)(sorted[i], sorted[j]);
    }
    ExpiredInOrder(sorted, rts, services, nowMs, locale.codeUnits);
  }

  /** A service that completed at t is swept from t plus its timeout on, and not before. */
  lemma SweptAfterItsLastUse(rts: Runtimes, locale: Locale, services: Services, id: string, t: int, nowMs: int)
    requires At(rts, id).phase == Busy && id in services.info
    ensures id in SweepStep(CompletedStep(rts, id, t), locale.codeUnits, services, nowMs).1 <==>
            services.info[id].idleTimeoutMs.Some? && t + services.info[id].idleTimeoutMs.value <= nowMs
  {
    SweptAreThoseWhoseTimeIsUp(CompletedStep(rts, id, t), locale, services, nowMs);
  }

  /** A failure names all it drops; retried, a service is as never called; stopped, it keeps only who waits. */
  lemma RetryStartsOver(rts: Runtimes, id: string, reason: string)
    ensures var failed := FailedStep(rts, id, reason).0;
            && FailedStep(rts, id, reason).1
               == (match At(rts, id).active case Some(r) => [r] case None => []) + At(rts, id).queue
            && At(failed, id) == Runtime(Unavailable, None, [], At(rts, id).lastUsedMs, Some(reason))
            && RetryStep(failed, id).1 && At(RetryStep(failed, id).0, id) == Runtime(Stopped, None, [], 0, None)
    ensures At(rts, id).phase != Unavailable ==> !RetryStep(rts, id).1 && At(RetryStep(rts, id).0, id) == At(rts, id)
    ensures At(StoppedStep(rts, id), id)
         == Runtime(Stopped, None, At(rts, id).queue, At(rts, id).lastUsedMs, None)
  {}
}
