/**
 * A run from a new driver that strands a service: two neighbours are called and answer, and a third
 * service is called when the memory is full and its reading lags behind the first eviction.
 */
module StrandingRun {
  import opened CapabilityServiceGovernor
  import opened CapabilityServiceRuntime
  import opened EvictionGuards
  import opened GovernorRuns
  import opened RuntimeCoupling
  import opened ServedCalls
  import opened StrandedServices
  import opened Wrappers

  /** Three names of services, the third the target of a request. */
  datatype Trio = Trio(first: string, second: string, target: string) {
    predicate Distinct() { first != second && first != target && second != target }
  }

  function Declared(n: Trio): Services
    requires n.Distinct()
  {
    ServiceRecord([n.first, n.second, n.target],
                  map[n.first := SMALL, n.second := SMALL, n.target := SMALL])
  }

  const FULL_HOST := Some(Capacity(Finite(800.0), Finite(700.0), 1.0))

  /** The host's reading does not fall although the first neighbour has stopped. */
  function Crowded(n: Trio): Env
    requires n.Distinct()
  {
    Env(Declared(n), FULL_HOST, FULL_HOST, 3, true, true, v => true, "")
  }

  /** Both neighbours have answered a call and wait for the next; the target was never called. */
  ghost predicate BothIdle(h: Host, n: Trio) {
    && At(h.rts, n.first) == INITIAL.(phase := Ready, lastUsedMs := 1)
    && At(h.rts, n.second) == INITIAL.(phase := Ready, lastUsedMs := 2)
    && (forall v | v != n.first && v != n.second :: At(h.rts, v) == INITIAL)
    && n.target !in h.attempted
  }

  /** Both neighbours have nothing waiting and at least one of them could go. */
  ghost predicate Evicts(rts: Runtimes, n: Trio) {
    && At(rts, n.first).queue == [] && At(rts, n.second).queue == []
    && (At(rts, n.first).phase == Ready || At(rts, n.second).phase == Ready)
  }

  /** One neighbour of 100 is enough in this crowd, so a request evicts exactly one. */
  lemma EvictsOne(rts: Runtimes, collate: string -> real, look: Look, n: Trio)
    requires n.Distinct() && look.services == Declared(n) && look.serviceID == n.target && look.capacity == FULL_HOST
    requires Evicts(rts, n)
    ensures var unload := IdleVictimsStep(rts, collate, look, 200).1;
            |unload| == 1 && (unload[0] == n.first || unload[0] == n.second) && At(rts, unload[0]).phase == Ready
  {
    var all := Candidates(rts, collate, look.services, n.target);
    CandidatesAre(rts, collate, look.services, n.target);
    var v := if At(rts, n.first).phase == Ready then n.first else n.second;
    assert v in look.services.info && Evictable(rts, n.target, v);
    assert all != [];
    assert ResidentBytes(look.services, all[..1]) == 100 by {
      assert all[0] in all && all[..1] == [all[0]] && all[..1][..0] == [];
    }
    assert SafeWithout(look.capacity.value, look.services, all[..1], 200);
    SafeGrows(look.capacity.value, look.services, all, 200, 1, |all|);
    assert all[..|all|] == all;
    IdleVictimsAreBest(rts, collate, look, 200);
    IdleVictimsUnfold(rts, collate, look, 200);
    VictimsAreTheShortestPrefix(look.capacity.value, look.services, all, 200, 1);
  }

  /** In this crowd a request for the cold target waits, and one neighbour is told to go. */
  lemma CrowdedAsk(rts: Runtimes, collate: string -> real, look: Look, r: string, n: Trio)
    requires n.Distinct() && look.services == Declared(n) && look.serviceID == n.target && look.capacity == FULL_HOST
    requires Evicts(rts, n) && At(rts, n.target) == INITIAL
    ensures var d := RequestStep(rts, collate, look, r).1;
            && d.Queued? && |d.unload| == 1 && (d.unload[0] == n.first || d.unload[0] == n.second)
            && At(rts, d.unload[0]).phase == Ready
  {
    var here := Touch(rts, n.target);
    assert At(here, n.first) == At(rts, n.first) && At(here, n.second) == At(rts, n.second);
    EvictsOne(here, collate, look, n);
    var unload := IdleVictimsStep(here, collate, look, 200).1;
    UnsafeAsk(rts, collate, look, r, unload);
  }

  lemma UnsafeAsk(rts: Runtimes, collate: string -> real, look: Look, r: string, unload: seq<string>)
    requires Enabled(look.services, look.serviceID) && At(rts, look.serviceID) == INITIAL
    requires look.services.info[look.serviceID] == SMALL && look.capacity == FULL_HOST
    requires unload == IdleVictimsStep(Touch(rts, look.serviceID), collate, look, 200).1
    ensures RequestStep(rts, collate, look, r).1 == Queued(1, unload)
  {
    FullIsFull();
    assert HasToWait(At(rts, look.serviceID), look);
    WaitQueues(Touch(rts, look.serviceID), collate, look, r);
    AsksToWait(rts, collate, look, r);
  }

  lemma FullIsFull()
    ensures !Safe(FULL_HOST, 200) && Required(INITIAL, SMALL) == 200
  {}

  lemma WaitQueues(here: Runtimes, collate: string -> real, look: Look, r: string)
    requires At(here, look.serviceID) == INITIAL
    ensures WaitStep(here, collate, look, SMALL, r, 200).1
         == Queued(1, IdleVictimsStep(here, collate, look, 200).1)
  {
    var there := IdleVictimsStep(here, collate, look, 200).0;
    IdleVictimsMove(here, collate, look, 200);
    assert At(there, look.serviceID).queue == [];
  }

  /** Two idle neighbours, a request that fits once either is gone, a reading that lags: one is stranded. */
  lemma IdleNeighbourIsStranded(h: Host, collate: string -> real, n: Trio, r: string)
    requires n.Distinct() && BothIdle(h, n) && (n.target, r) !in h.pending
    ensures exists v :: Unloads(Execute(h, Crowded(n), collate, n.target, r, true).rts, v)
  {
    var env := Crowded(n);
    var asked := Issue(Rearm(h, env, n.target), (n.target, r));
    CrowdedAsk(asked.rts, collate, env.Look(n.target), r, n);
    var (rts, d) := RequestStep(asked.rts, collate, env.Look(n.target), r);
    var waiting := asked.(rts := rts);
    assert SecondEviction(waiting, env, collate, n.target, d) != [] by {
      RequestAnswered(asked.rts, collate, env.Look(n.target), r);
      AnsweredWaits(asked.rts, rts, env.Look(n.target), r, d, n);
      StrandsTheOther(waiting, env, collate, d, n, r);
    }
    CallLeavesTheSecondEviction(h, env, collate, n.target, r, SecondEviction(waiting, env, collate, n.target, d)[0]);
  }

  lemma AnsweredWaits(rts: Runtimes, after: Runtimes, look: Look, r: string, d: Decision, n: Trio)
    requires n.Distinct() && Answered(rts, after, look, r, d) && look.serviceID == n.target
    requires d.Queued? && |d.unload| == 1 && (d.unload[0] == n.first || d.unload[0] == n.second)
    requires At(rts, n.target) == INITIAL && At(rts, n.first).phase == Ready && At(rts, n.second).phase == Ready
    requires At(rts, n.first).queue == [] && At(rts, n.second).queue == []
    ensures At(after, n.target) == INITIAL.(queue := [r])
    ensures At(after, n.first).queue == [] && At(after, n.second).queue == []
    ensures At(after, if d.unload[0] == n.first then n.second else n.first).phase == Ready
  {
  }

  lemma StrandsTheOther(h: Host, env: Env, collate: string -> real, d: Decision, n: Trio, r: string)
    requires n.Distinct() && env == Crowded(n)
    requires d.Queued? && |d.unload| == 1 && (d.unload[0] == n.first || d.unload[0] == n.second)
    requires At(h.rts, n.target) == INITIAL.(queue := [r])
    requires At(h.rts, n.first).queue == [] && At(h.rts, n.second).queue == []
    requires At(h.rts, if d.unload[0] == n.first then n.second else n.first).phase == Ready
    ensures SecondEviction(h, env, collate, n.target, d) != []
  {
    var gone := d.unload[0];
    assert d.unload == [gone];
    var stopped := StopAll(h, env, d.unload);
    StopAllMoves(h, env, d.unload);
    StoppedKeepsQueues(h, env, gone);
    PollAsksAgain(stopped.rts, collate, env.LookAgain(n.target));
    var popped := Popped(stopped.rts, n.target);
    assert [r][1..] == [] && At(popped, n.target) == INITIAL;
    CrowdedAsk(popped, collate, env.LookAgain(n.target), r, n);
  }

  lemma StoppedKeepsQueues(h: Host, env: Env, v: string)
    requires env.stopOk(v)
    ensures At(StopAll(h, env, [v]).rts, v).queue == At(h.rts, v).queue
  {
    assert StopAll(h, env, [v]) == StopOrFail(h, env, v);
  }
  // ---- from a new driver ----

  /** Room for everybody, until the memory is read as full. */
  function Spacious(n: Trio): Env
    requires n.Distinct()
  {
    Env(Declared(n), ROOMY, ROOMY, 0, true, true, v => true, "")
  }

  /** Both neighbours are called and answer. */
  function NeighboursCalled(n: Trio, r: string): seq<Act>
    requires n.Distinct()
  {
    [Call(Spacious(n), n.first, r, true), RunOk((n.first, r), 0, 1),
     Call(Spacious(n), n.second, r, true), RunOk((n.second, r), 1, 2)]
  }

  lemma FirstIsServed(locale: Locale, n: Trio, r: string, called: Host, h: Host)
    requires n.Distinct() && called == Take(NEW_DRIVER, locale, Call(Spacious(n), n.first, r, true))
    requires h == Take(called, locale, RunOk((n.first, r), 0, 1))
    ensures Timely(called, RunOk((n.first, r), 0, 1))
    ensures h.pending == map[] && h.issued == 1 && h.settled == [Settlement(0, true)]
    ensures h.attempted == map[n.first := SMALL] && At(h.rts, n.first) == INITIAL.(phase := Ready, lastUsedMs := 1)
    ensures forall v | v != n.first :: At(h.rts, v) == INITIAL
  {
    ColdCallRuns(NEW_DRIVER, locale, Spacious(n), n.first, r);
    assert called.pending == map[(n.first, r) := Entry(0, true)];
    assert SettledTickets(called.settled) == [];
    AcknowledgedIsReady(called, locale, n.first, r, 0, 1);
    assert called.pending - {(n.first, r)} == map[];
  }

  lemma SecondIsServed(h: Host, locale: Locale, n: Trio, r: string, called: Host, after: Host)
    requires n.Distinct() && h.pending == map[] && h.issued == 1 && h.settled == [Settlement(0, true)]
    requires h.attempted == map[n.first := SMALL] && At(h.rts, n.first) == INITIAL.(phase := Ready, lastUsedMs := 1)
    requires forall v | v != n.first :: At(h.rts, v) == INITIAL
    requires called == Take(h, locale, Call(Spacious(n), n.second, r, true))
    requires after == Take(called, locale, RunOk((n.second, r), 1, 2))
    ensures Timely(called, RunOk((n.second, r), 1, 2)) && BothIdle(after, n) && after.pending == map[]
  {
    ColdCallRuns(h, locale, Spacious(n), n.second, r);
    assert called.pending == map[(n.second, r) := Entry(1, true)];
    assert SettledTickets(called.settled) == [0];
    AcknowledgedIsReady(called, locale, n.second, r, 1, 2);
    assert called.pending - {(n.second, r)} == map[];
  }

  lemma NeighboursAreIdle(locale: Locale, n: Trio, r: string)
    requires n.Distinct()
    ensures AllTimely(NEW_DRIVER, locale, NeighboursCalled(n, r), Declared(n))
    ensures var h := TakeAll(NEW_DRIVER, locale, NeighboursCalled(n, r)); BothIdle(h, n) && h.pending == map[]
  {
    var a, b := Call(Spacious(n), n.first, r, true), RunOk((n.first, r), 0, 1);
    var c, d := Call(Spacious(n), n.second, r, true), RunOk((n.second, r), 1, 2);
    var h1 := Take(NEW_DRIVER, locale, a);
    var h2 := Take(h1, locale, b);
    var h3 := Take(h2, locale, c);
    var h4 := Take(h3, locale, d);
    FirstIsServed(locale, n, r, h1, h2);
    SecondIsServed(h2, locale, n, r, h3, h4);
    FourSteps(NEW_DRIVER, locale, a, b, c, d, h1, h2, h3, h4, Declared(n));
  }

  lemma FourSteps(h: Host, locale: Locale, a: Act, b: Act, c: Act, d: Act, h1: Host, h2: Host, h3: Host, h4: Host,
                  services: Services)
    requires h1 == Take(h, locale, a) && h2 == Take(h1, locale, b)
    requires h3 == Take(h2, locale, c) && h4 == Take(h3, locale, d)
    requires Sees(a, services) && Sees(b, services) && Sees(c, services) && Sees(d, services)
    requires Timely(h, a) && Timely(h1, b) && Timely(h2, c) && Timely(h3, d)
    ensures TakeAll(h, locale, [a, b, c, d]) == h4 && AllTimely(h, locale, [a, b, c, d], services)
  {
    assert [a, b, c, d][1..] == [b, c, d] && [b, c, d][1..] == [c, d] && [c, d][1..] == [d] && [d][1..] == [];
    assert TakeAll(h3, locale, [d]) == h4 && AllTimely(h3, locale, [d], services);
    assert TakeAll(h2, locale, [c, d]) == h4 && AllTimely(h2, locale, [c, d], services);
    assert TakeAll(h1, locale, [b, c, d]) == h4 && AllTimely(h1, locale, [b, c, d], services);
  }

  /** A run and one more step. */
  lemma {:induction false} OneMore(h: Host, locale: Locale, acts: seq<Act>, act: Act, services: Services)
    requires AllTimely(h, locale, acts, services) && Sees(act, services) && Timely(TakeAll(h, locale, acts), act)
    ensures TakeAll(h, locale, acts + [act]) == Take(TakeAll(h, locale, acts), locale, act)
    ensures AllTimely(h, locale, acts + [act], services)
    decreases |acts|
  {
    if acts == [] {
      assert acts + [act] == [act] && [act][1..] == [];
    } else {
      assert (acts + [act])[1..] == acts[1..] + [act];
      OneMore(Take(h, locale, acts[0]), locale, acts[1..], act, services);
    }
  }

  /**
   * From the new driver, by timely steps: both neighbours are called and answer, and nothing is
   * unloading; then the target is called in the crowd, and something is.
   */
  lemma StrandingHappens(locale: Locale, n: Trio, r: string)
    requires n.Distinct()
    ensures var called := NeighboursCalled(n, r);
            var crowded := called + [Call(Crowded(n), n.target, r, true)];
            && AllTimely(NEW_DRIVER, locale, crowded, Declared(n))
            && (forall v :: !Unloads(TakeAll(NEW_DRIVER, locale, called).rts, v))
            && exists v :: Unloads(TakeAll(NEW_DRIVER, locale, crowded).rts, v)
  {
    var h := TakeAll(NEW_DRIVER, locale, NeighboursCalled(n, r));
    NeighboursAreIdle(locale, n, r);
    IdleNeighbourIsStranded(h, locale.collate, n, r);
    OneMore(NEW_DRIVER, locale, NeighboursCalled(n, r), Call(Crowded(n), n.target, r, true), Declared(n));
  }
}
