/**
 * What comes of a step of the driver: who is run, who is refused, which services start over and which
 * stop. RuntimeCoupling proves what every step keeps; here is what it gets done.
 */
module DriverOutcomes {
  import opened CapabilityServiceGovernor
  import opened CapabilityServiceRuntime
  import opened Declarations
  import opened GovernorInNumbers
  import opened GovernorRuns
  import opened RuntimeCoupling
  import opened StrandedServices
  import opened Wrappers

  // ---- what an answer leads to ----

  /** The active request of a busy service is run on a worker that holds today's declaration, or can. */
  lemma ActiveIsRun(h: Host, env: Env, s: string, r: string)
    requires (s, r) in h.pending && !h.pending[(s, r)].running && s in h.rts
    requires At(h.rts, s).phase == Busy && At(h.rts, s).active == Some(r)
    requires Enabled(env.services, s) && (Knows(h, s, env.services.info[s]) || env.refreshOk)
    ensures var after := Launch(h, env, s, r, Run(r));
            && after.rts == h.rts && after.runs == h.runs + [h.pending[(s, r)].ticket] && after.settled == h.settled
            && after.pending == h.pending[(s, r) := h.pending[(s, r)].(running := true)]
            && Knows(after, s, env.services.info[s])
  {
    RunsOnTodaysDeclaration(h, env, (s, r));
  }

  /** A start that succeeds leads to the run of the request it was for, one that fails to its refusal. */
  lemma StartLeadsToARun(h: Host, env: Env, collate: string -> real, s: string, r: string)
    requires (s, r) in h.pending && !h.pending[(s, r)].running
    requires At(h.rts, s).phase == Loading && At(h.rts, s).active == Some(r) && Enabled(env.services, s)
    ensures var (ready, d1) := Prepare(h, env, collate, s, Start(r));
            var after := Launch(ready, env, s, r, d1);
            if env.startOk then
              && after.runs == h.runs + [h.pending[(s, r)].ticket] && after.settled == h.settled
              && At(after.rts, s) == At(h.rts, s).(phase := Busy) && Knows(after, s, env.services.info[s])
              && after.pending == h.pending[(s, r) := h.pending[(s, r)].(running := true)]
            else
              && after.runs == h.runs && At(after.rts, s).phase == Unavailable && (s, r) !in after.pending
  {
    var info := env.services.info[s];
    var tried := h.(attempted := h.attempted[s := info]);
    if env.startOk {
      var ready := tried.(rts := LoadedStep(h.rts, s).0, loaded := tried.loaded[s := info]);
      assert Prepare(h, env, collate, s, Start(r)) == (ready, Run(r));
      ActiveIsRun(ready, env, s, r);
    } else {
      FailingRunsNothing(tried, s, env.reason);
      var (rts, affected) := FailedStep(h.rts, s, env.reason);
      FailedEffect(h.rts, s, env.reason);
      SettleAllEffect(tried.(rts := rts, loaded := tried.loaded - {s}), s, affected);
    }
  }

  // ---- calls ----

  /** This service was given up, or never came up, with the declaration presented now. */
  predicate IsGivenUp(h: Host, env: Env, s: string)
    requires s in env.services.info
  {
    At(h.rts, s).phase == Unavailable && (s !in h.attempted || h.attempted[s] == env.services.info[s])
  }

  /**
   * A call for a service that was given up is refused at once while its declaration is the one it was
   * given up with: the service is left as it is, and nothing is run.
   */
  lemma TheSameDeclarationIsRefused(h: Host, env: Env, collate: string -> real, s: string, r: string)
    requires Enabled(env.services, s) && (s, r) !in h.pending && IsGivenUp(h, env, s)
    requires At(h.rts, s).active == None && h.issued !in SettledTickets(h.settled)
    ensures var after := Execute(h, env, collate, s, r, true);
            && At(after.rts, s) == At(h.rts, s) && after.runs == h.runs && after.pending == h.pending
            && after.settled == h.settled + [Settlement(h.issued, false)]
  {
    var asked := Issue(h, (s, r));
    assert Execute(h, env, collate, s, r, true) == Admit(asked, env, collate, s, r);
    var (rts, d) := RequestStep(asked.rts, collate, env.Look(s), r);
    assert d == Refused(ServiceUnavailable) && At(rts, s) == At(h.rts, s);
    assert Prepare(asked.(rts := rts), env, collate, s, d) == (asked.(rts := rts), d);
    assert asked.pending - {(s, r)} == h.pending;
  }

  /** A call whose declaration has changed since finds the service as if it had never been called. */
  lemma AChangedDeclarationStartsOver(h: Host, env: Env, collate: string -> real, s: string, r: string, ok: bool)
    requires Enabled(env.services, s) && (s, r) !in h.pending && At(h.rts, s).phase == Unavailable
    requires s in h.attempted && h.attempted[s] != env.services.info[s]
    ensures var anew := h.(rts := h.rts[s := Runtime(Stopped, None, [], 0, None)]);
            Execute(h, env, collate, s, r, ok) == Execute(anew, env, collate, s, r, ok)
    ensures !ok ==> At(Execute(h, env, collate, s, r, ok).rts, s) == Runtime(Stopped, None, [], 0, None)
  {
    var anew := h.(rts := h.rts[s := Runtime(Stopped, None, [], 0, None)]);
    assert Rearm(h, env, s).rts == anew.rts == Rearm(anew, env, s).rts;
  }

  /** A call that is waited on already, or whose service is not declared or disabled, changes nothing. */
  lemma TurnedAwayAtTheDoor(h: Host, env: Env, collate: string -> real, s: string, r: string, ok: bool)
    requires (s, r) in h.pending || s !in env.services.info || env.services.info[s].disabled
    ensures Execute(h, env, collate, s, r, ok) == h
  {}

  /** With room for it, a call of a stopped service is run if its worker starts, and refused if not. */
  lemma ColdCallIsRun(h: Host, env: Env, collate: string -> real, s: string, r: string)
    requires Enabled(env.services, s) && (s, r) !in h.pending
    requires At(h.rts, s).phase == Stopped && At(h.rts, s).active == None
    requires HasRoom(env.capacity, env.services.info[s].peakBytes)
    ensures var after := Execute(h, env, collate, s, r, true);
            if env.startOk then
              && after.runs == h.runs + [h.issued] && Knows(after, s, env.services.info[s])
              && At(after.rts, s).phase == Busy && At(after.rts, s).active == Some(r)
            else
              after.runs == h.runs && At(after.rts, s).phase == Unavailable && (s, r) !in after.pending
  {
    var armed := Rearm(h, env, s);
    assert At(armed.rts, s) == At(h.rts, s);
    var asked := Issue(armed, (s, r));
    IdleIsAdmittedExactly(asked.rts, collate, env.Look(s), r, env.services.info[s].peakBytes);
    var (rts, d) := RequestStep(asked.rts, collate, env.Look(s), r);
    StartLeadsToARun(asked.(rts := rts), env, collate, s, r);
    assert Execute(h, env, collate, s, r, true) == Admit(asked, env, collate, s, r);
  }

  // ---- pumps ----

  /** With room for it, a turn of the pump runs the head of the queue and leaves the rest waiting. */
  lemma ThePumpRunsTheHead(h: Host, env: Env, services: Services, bound: nat, collate: string -> real, s: string,
                           bytes: int)
    requires Coupled(h, services, bound) && env.services == services && env.startOk && env.refreshOk
    requires At(h.rts, s).queue != [] && (At(h.rts, s).phase == Stopped || At(h.rts, s).phase == Ready)
    requires Enabled(services, s) && Asks(At(h.rts, s), services.info[s], bytes) && HasRoom(env.capacity, bytes)
    ensures var was, after := At(h.rts, s), PumpOne(h, env, collate, s, At(h.rts, s));
            && At(after.rts, s).phase == Busy && At(after.rts, s).active == Some(was.queue[0])
            && At(after.rts, s).queue == was.queue[1..]
            && (s, was.queue[0]) in h.pending && after.runs == h.runs + [h.pending[(s, was.queue[0])].ticket]
            && Knows(after, s, services.info[s])
  {
    var was := At(h.rts, s);
    var r := was.queue[0];
    assert SoundRuntime(was, bound) && CalmAt(h, s);
    assert (s, r) in h.pending.Keys <==> Has(was, r);
    assert was.active != Some(r) && !h.pending[(s, r)].running;
    var popped := Popped(h.rts, s);
    PollAsksAgain(h.rts, collate, env.Look(s));
    IdleIsAdmittedExactly(popped, collate, env.Look(s), r, bytes);
    var (rts, d) := PollStep(h.rts, collate, env.Look(s));
    var asked := h.(rts := rts);
    if was.phase == Stopped {
      StartLeadsToARun(asked, env, collate, s, r);
    } else {
      assert Prepare(asked, env, collate, s, d) == (asked, Run(r));
      ActiveIsRun(asked, env, s, r);
    }
  }

  // ---- cancelations ----

  /** A canceled waiter is told so; if its request was running, the service is stopped, or given up. */
  lemma CanceledIsForgotten(h: Host, env: Env, s: string, r: string)
    requires (s, r) in h.pending && h.pending[(s, r)].ticket !in SettledTickets(h.settled)
    requires At(h.rts, s).active == Some(r) ==> At(h.rts, s).phase == Busy && r !in At(h.rts, s).queue
    ensures var after := CancelWaiter(h, env, s, r);
            && (s, r) !in after.pending && after.runs == h.runs
            && |after.settled| > |h.settled| && after.settled[..|h.settled|] == h.settled
            && after.settled[|h.settled|] == Settlement(h.pending[(s, r)].ticket, false)
            && (At(h.rts, s).active == Some(r) ==>
                  && s !in after.loaded
                  && At(after.rts, s).phase == if env.stopOk(s) then Stopped else Unavailable)
  {
    var settled := SettleKey(h, (s, r));
    var (rts, t) := CancelStep(settled.rts, s, r);
    var quiet := settled.(rts := rts, loaded := settled.loaded - {s});
    if t.Stop? && !env.stopOk(s) {
      FailingRunsNothing(quiet, s, env.reason);
      var (failed, affected) := FailedStep(rts, s, env.reason);
      var mid := quiet.(rts := failed, loaded := quiet.loaded - {s});
      SettleAllEffect(mid, s, affected);
      SettlingOnlyAdds(mid, s, affected);
      assert mid.settled == h.settled + [Settlement(h.pending[(s, r)].ticket, false)];
      assert SettleAll(mid, s, affected).settled[..|mid.settled|][..|h.settled|] == h.settled;
    }
  }

  lemma {:induction false} SettlingOnlyAdds(h: Host, s: string, ids: seq<string>)
    ensures |SettleAll(h, s, ids).settled| >= |h.settled|
    ensures SettleAll(h, s, ids).settled[..|h.settled|] == h.settled
    decreases |ids|
  {
    if ids != [] {
      var next := SettleKey(h, (s, ids[0]));
      SettlingOnlyAdds(next, s, ids[1..]);
      assert next.settled[..|h.settled|] == h.settled;
      assert SettleAll(h, s, ids).settled[..|next.settled|][..|h.settled|] == h.settled;
    }
  }

  // ---- sweeps ----

  lemma {:induction false} StopAllStops(h: Host, env: Env, ids: seq<string>)
    requires forall i, j | 0 <= i < j < |ids| :: ids[i] != ids[j]
    ensures forall v | v in ids ::
              At(StopAll(h, env, ids).rts, v).phase == if env.stopOk(v) then Stopped else Unavailable
    decreases |ids|
  {
    if ids != [] {
      var next := StopOrFail(h, env, ids[0]);
      if !env.stopOk(ids[0]) {
        FailServiceMoves(h.(loaded := h.loaded - {ids[0]}), ids[0], env.reason);
      }
      StopAllStops(next, env, ids[1..]);
      StopAllMoves(next, env, ids[1..]);
      assert ids == [ids[0]] + ids[1..] && ids[0] !in ids[1..];
    }
  }

  /** A sweep stops exactly the services whose time is up; a worker that will not stop is given up. */
  lemma SweptServicesStop(h: Host, env: Env, locale: Locale)
    ensures var after := SweepIdle(h, env, locale.codeUnits);
            forall v ::
              if TimeIsUp(h.rts, env.services, v, env.nowMs)
              then && v !in after.loaded
                   && At(after.rts, v).phase == (if env.stopOk(v) then Stopped else Unavailable)
              else At(after.rts, v) == At(h.rts, v) && (v in after.loaded <==> v in h.loaded)
  {
    var (rts, swept) := SweepStep(h.rts, locale.codeUnits, env.services, env.nowMs);
    SweptAreThoseWhoseTimeIsUp(h.rts, locale, env.services, env.nowMs);
    StopAllStops(h.(rts := rts), env, swept);
    StopAllMoves(h.(rts := rts), env, swept);
    StoppingRunsNothing(h.(rts := rts), env, swept);
  }
}
