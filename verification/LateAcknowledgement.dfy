/**
 * How a run acknowledgement comes too late, from a new driver on: a call is run and canceled, the same
 * request is called again and waits, and then the first run's worker answers.
 */
module LateAcknowledgement {
  import opened CapabilityServiceGovernor
  import opened CapabilityServiceRuntime
  import opened GovernorRuns
  import opened RuntimeCoupling
  import opened ServedCalls
  import opened Wrappers

  function Only(s: string): Services {
    ServiceRecord([s], map[s := SMALL])
  }

  /** Workers do as they are told; the memory is what is read. */
  function Obliging(s: string, capacity: Option<Capacity>): Env {
    Env(Only(s), capacity, capacity, 0, true, true, v => true, "")
  }

  lemma FirstCallRuns(locale: Locale, s: string, r: string)
    ensures var h := Take(NEW_DRIVER, locale, Call(Obliging(s, ROOMY), s, r, true));
            && h.pending == map[(s, r) := Entry(0, true)] && h.runs == [0] && h.issued == 1 && h.settled == []
            && At(h.rts, s).phase == Busy && At(h.rts, s).active == Some(r) && At(h.rts, s).queue == []
  {
    ColdCallRuns(NEW_DRIVER, locale, Obliging(s, ROOMY), s, r);
  }

  lemma CancelStops(h: Host, locale: Locale, s: string, r: string)
    requires h.pending == map[(s, r) := Entry(0, true)] && h.settled == []
    requires At(h.rts, s).phase == Busy && At(h.rts, s).active == Some(r) && At(h.rts, s).queue == []
    ensures var after := Take(h, locale, CancelCall(Obliging(s, ROOMY), s, r));
            && after.pending == map[] && after.runs == h.runs && after.issued == h.issued
            && after.settled == [Settlement(0, false)]
            && At(after.rts, s).phase == Stopped && At(after.rts, s).active == None && At(after.rts, s).queue == []
  {
    assert SettleKey(h, (s, r)).pending == map[];
    assert SettledTickets([]) == [];
  }

  lemma SecondCallWaits(h: Host, locale: Locale, s: string, r: string)
    requires h.pending == map[] && At(h.rts, s).phase == Stopped && At(h.rts, s).active == None
             && At(h.rts, s).queue == []
    requires h.issued == 1
    ensures var after := Take(h, locale, Call(Obliging(s, None), s, r, true));
            after.pending == map[(s, r) := Entry(1, false)] && after.runs == h.runs && after.settled == h.settled
  {
    var env := Obliging(s, None);
    var asked := Issue(Rearm(h, env, s), (s, r));
    assert asked == h.(rts := asked.rts, pending := map[(s, r) := Entry(1, false)], issued := 2);
    UnreadMemoryWaits(asked.rts, locale, s, r);
    var rts := RequestStep(asked.rts, locale.collate, env.Look(s), r).0;
    assert Execute(h, env, locale.collate, s, r, true) == Admit(asked, env, locale.collate, s, r) == asked.(rts := rts);
  }

  /** Without a reading of the memory the request waits, and nobody is asked to make room. */
  lemma UnreadMemoryWaits(rts: Runtimes, locale: Locale, s: string, r: string)
    requires At(rts, s).phase == Stopped && At(rts, s).active == None && At(rts, s).queue == []
    ensures RequestStep(rts, locale.collate, Obliging(s, None).Look(s), r).1 == Queued(1, [])
  {}

  /** The answer to the first run takes the second call's entry away. */
  lemma TheAnswerIsLate(h: Host, locale: Locale, services: Services, s: string, r: string)
    requires Coupled(h, services, 8) && h.pending == map[(s, r) := Entry(1, false)]
             && h.settled == [Settlement(0, false)]
    ensures var after := Take(h, locale, RunOk((s, r), 0, 0));
            !Coupled(after, services, 8) && !Waits(after.pending, 1) && 1 !in SettledTickets(after.settled)
  {
    LateRunOkBreaks(h, services, 8, (s, r), 0, 0);
    assert SettledTickets(h.settled) == [0];
  }

  /** Three steps from the new driver, all timely, after which the first run is still to be answered. */
  lemma CallCancelCall(locale: Locale, s: string, r: string)
    ensures var acts := CalledAgain(s, r);
            var h := TakeAll(NEW_DRIVER, locale, acts);
            && AllTimely(NEW_DRIVER, locale, acts, Only(s))
            && h.pending == map[(s, r) := Entry(1, false)] && h.settled == [Settlement(0, false)] && h.runs == [0]
  {
    var acts := CalledAgain(s, r);
    var h1 := Take(NEW_DRIVER, locale, acts[0]);
    FirstCallRuns(locale, s, r);
    CancelStops(h1, locale, s, r);
    SecondCallWaits(Take(h1, locale, acts[1]), locale, s, r);
    ThreeSteps(NEW_DRIVER, locale, acts[0], acts[1], acts[2], Only(s));
  }

  function CalledAgain(s: string, r: string): seq<Act> {
    [Call(Obliging(s, ROOMY), s, r, true), CancelCall(Obliging(s, ROOMY), s, r), Call(Obliging(s, None), s, r, true)]
  }

  /**
   * The second call's waiter loses its entry to the first run's answer, and is neither waited on nor
   * settled; until then every step was timely and the driver coupled.
   */
  lemma ACanceledRunAnswersLate(locale: Locale, s: string, r: string)
    ensures var h := TakeAll(NEW_DRIVER, locale, CalledAgain(s, r));
            var after := Take(h, locale, RunOk((s, r), 0, 0));
            && AllTimely(NEW_DRIVER, locale, CalledAgain(s, r), Only(s)) && Coupled(h, Only(s), 8)
            && 0 in h.runs && Waits(h.pending, 1)
            && !Coupled(after, Only(s), 8) && !Waits(after.pending, 1) && 1 !in SettledTickets(after.settled)
  {
    CallCancelCall(locale, s, r);
    NewIsCoupled(Only(s), 8);
    RunKeepsCoupling(NEW_DRIVER, locale, CalledAgain(s, r), Only(s), 8);
    var h := TakeAll(NEW_DRIVER, locale, CalledAgain(s, r));
    assert (s, r) in h.pending;
    TheAnswerIsLate(h, locale, Only(s), s, r);
  }

  lemma ThreeSteps(h: Host, locale: Locale, a: Act, b: Act, c: Act, services: Services)
    requires !a.RunOk? && !b.RunOk? && !c.RunOk? && Sees(a, services) && Sees(b, services) && Sees(c, services)
    ensures TakeAll(h, locale, [a, b, c]) == Take(Take(Take(h, locale, a), locale, b), locale, c)
    ensures AllTimely(h, locale, [a, b, c], services)
  {
    assert [a, b, c][1..] == [b, c] && [b, c][1..] == [c] && [c][1..] == [];
    var h1 := Take(h, locale, a);
    var h2 := Take(h1, locale, b);
    assert TakeAll(h2, locale, [c]) == Take(h2, locale, c) && AllTimely(h2, locale, [c], services);
    assert TakeAll(h1, locale, [b, c]) == Take(h2, locale, c) && AllTimely(h1, locale, [b, c], services);
  }
}
