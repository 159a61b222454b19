/**
 * Which declaration a service's worker holds. A request is only ever run on a worker that holds the
 * declaration presented with it. A ready or busy service's worker holds the last declaration a start was
 * attempted with, and a service that is down has none.
 */
module Declarations {
  import opened CapabilityServiceGovernor
  import opened CapabilityServiceRuntime
  import opened GovernorRuns
  import opened RuntimeCoupling
  import opened StrandedServices
  import opened Wrappers

  // ---- one dispatch ----

  /** The request is the active one of a busy, enabled service and has not been run. */
  predicate Ripe(h: Host, env: Env, key: Key)
    requires key in h.pending
  {
    && !h.pending[key].running && key.0 in h.rts
    && h.rts[key.0].active == Some(key.1) && h.rts[key.0].phase == Busy
    && key.0 in env.services.info && !env.services.info[key.0].disabled
  }

  /** The worker holds this declaration. */
  predicate Knows(h: Host, s: string, info: Info) {
    s in h.loaded && h.loaded[s] == info
  }

  /** Settling and failing run nothing. */
  lemma FailingRunsNothing(h: Host, s: string, reason: string)
    ensures FailService(h, s, reason).runs == h.runs && FailService(h, s, reason).attempted == h.attempted
    ensures FailService(h, s, reason).loaded == h.loaded - {s}
    ensures At(FailService(h, s, reason).rts, s).phase == Unavailable
    ensures forall t | t != s :: At(FailService(h, s, reason).rts, t) == At(h.rts, t)
  {
    var (rts, affected) := FailedStep(h.rts, s, reason);
    FailServiceMoves(h, s, reason);
    SettleAllEffect(h.(rts := rts, loaded := h.loaded - {s}), s, affected);
  }

  /**
   * A request is run, once, exactly when it is ripe and its worker holds today's declaration or can be
   * brought to hold it; then it does. A worker that cannot is given up, and nothing is run.
   */
  lemma RunsOnTodaysDeclaration(h: Host, env: Env, key: Key)
    requires key in h.pending
    ensures var after, t := Dispatch(h, env, key), h.pending[key].ticket;
            if Ripe(h, env, key) then
              var info := env.services.info[key.0];
              if Knows(h, key.0, info) then
                after.runs == h.runs + [t] && after.loaded == h.loaded && after.attempted == h.attempted
              else
                && after.attempted == h.attempted[key.0 := info]
                && (env.refreshOk ==> after.runs == h.runs + [t] && after.loaded == h.loaded[key.0 := info])
                && (!env.refreshOk ==> after.runs == h.runs && key.0 !in after.loaded
                                       && At(after.rts, key.0).phase == Unavailable)
            else after.runs == h.runs
  {
    var entry := h.pending[key];
    var begun := h.(pending := h.pending[key := entry.(running := true)]);
    FailingRunsNothing(begun, key.0, env.reason);
    if Ripe(h, env, key) {
      var info := env.services.info[key.0];
      FailingRunsNothing(begun.(attempted := begun.attempted[key.0 := info]), key.0, env.reason);
    }
  }

  // ---- whole steps ----

  /** What a step may run: at most one request, and that on the declaration presented to the step. */
  ghost predicate RunsWell(h: Host, after: Host, env: Env, s: string) {
    || after.runs == h.runs
    || (|after.runs| == |h.runs| + 1 && after.runs[..|h.runs|] == h.runs
        && s in env.services.info && Knows(after, s, env.services.info[s])
        && exists r :: (s, r) in after.pending && after.pending[(s, r)].ticket == after.runs[|h.runs|]
                       && At(after.rts, s).active == Some(r))
  }

  lemma {:induction false} StoppingRunsNothing(h: Host, env: Env, ids: seq<string>)
    ensures StopAll(h, env, ids).runs == h.runs && StopAll(h, env, ids).attempted == h.attempted
    ensures forall s :: s in StopAll(h, env, ids).loaded <==> s in h.loaded && s !in ids
    ensures forall s | s in StopAll(h, env, ids).loaded :: StopAll(h, env, ids).loaded[s] == h.loaded[s]
    decreases |ids|
  {
    if ids != [] {
      FailingRunsNothing(h.(loaded := h.loaded - {ids[0]}), ids[0], env.reason);
      StoppingRunsNothing(StopOrFail(h, env, ids[0]), env, ids[1..]);
      assert ids == [ids[0]] + ids[1..];
    }
  }

  lemma PreparingRunsNothing(h: Host, env: Env, collate: string -> real, s: string, d: Decision)
    ensures Prepare(h, env, collate, s, d).0.runs == h.runs
  {
    if d.Queued? && d.unload != [] {
      StoppingRunsNothing(h, env, d.unload);
      var stopped := StopAll(h, env, d.unload);
      var (rts, again) := PollStep(stopped.rts, collate, env.LookAgain(s));
      var asked := stopped.(rts := rts);
      if again.Queued? {
        assert Prepare(h, env, collate, s, d) == (asked, again);
      } else {
        StartingRunsNothing(asked, env, collate, s, again);
        assert Prepare(h, env, collate, s, d).0 == Prepare(asked, env, collate, s, again).0;
      }
    } else {
      StartingRunsNothing(h, env, collate, s, d);
    }
  }

  lemma StartingRunsNothing(h: Host, env: Env, collate: string -> real, s: string, d: Decision)
    requires d.Queued? ==> d.unload == []
    ensures Prepare(h, env, collate, s, d).0.runs == h.runs
  {
    if d.Start? && s in env.services.info {
      FailingRunsNothing(h.(attempted := h.attempted[s := env.services.info[s]]), s, env.reason);
    }
  }

  lemma LaunchRunsWell(h: Host, env: Env, s: string, r: string, d: Decision)
    ensures RunsWell(h, Launch(h, env, s, r, d), env, s)
  {
    if d.Run? && (s, d.requestID) in h.pending {
      var key := (s, d.requestID);
      RunsOnTodaysDeclaration(h, env, key);
      var after := Dispatch(h, env, key);
      if after.runs != h.runs {
        assert after.pending[key].ticket == h.pending[key].ticket;
      }
    }
  }

  /** A call that runs a request runs it on the declaration presented with the call. */
  lemma CallRunsOnTodaysDeclaration(h: Host, env: Env, collate: string -> real, s: string, r: string, ok: bool)
    ensures RunsWell(h, Execute(h, env, collate, s, r, ok), env, s)
  {
    if !TurnedAway(h, env, (s, r)) && ok {
      var asked := Issue(Rearm(h, env, s), (s, r));
      var (rts, d) := RequestStep(asked.rts, collate, env.Look(s), r);
      PreparingRunsNothing(asked.(rts := rts), env, collate, s, d);
      var (ready, d1) := Prepare(asked.(rts := rts), env, collate, s, d);
      LaunchRunsWell(ready, env, s, r, d1);
      assert Execute(h, env, collate, s, r, ok) == Launch(ready, env, s, r, d1);
    }
  }

  /** So does a turn of the pump. */
  lemma TurnRunsOnTodaysDeclaration(h: Host, env: Env, collate: string -> real, s: string, stale: Runtime)
    ensures RunsWell(h, PumpOne(h, env, collate, s, stale), env, s)
  {
    if stale.queue != [] && (stale.phase == Stopped || stale.phase == Ready) && (s, stale.queue[0]) in h.pending {
      var (rts, d) := PollStep(h.rts, collate, env.Look(s));
      PreparingRunsNothing(h.(rts := rts), env, collate, s, d);
      var (ready, d1) := Prepare(h.(rts := rts), env, collate, s, d);
      LaunchRunsWell(ready, env, s, stale.queue[0], d1);
    }
  }

  // ---- over whole runs ----

  /** The service has a worker it can use. */
  predicate Serves(state: Runtime) {
    state.phase == Ready || state.phase == Busy
  }

  predicate IsUp(state: Runtime) {
    Serves(state) || state.phase == Unloading
  }

  ghost predicate HoldsAt(h: Host, s: string) {
    && (Serves(At(h.rts, s)) ==> s in h.loaded)
    && (s in h.loaded ==> IsUp(At(h.rts, s)) && s in h.attempted && h.attempted[s] == h.loaded[s])
  }

  /** Ready and busy services hold a declaration, the last one attempted; one that is down holds none. */
  ghost predicate Holds(h: Host) {
    forall s :: HoldsAt(h, s)
  }

  lemma FailHolds(h: Host, s: string, reason: string)
    requires forall t | t != s :: HoldsAt(h, t)
    ensures Holds(FailService(h, s, reason))
  {
    FailingRunsNothing(h, s, reason);
    forall t ensures HoldsAt(FailService(h, s, reason), t) {
      if t != s { assert HoldsAt(h, t); }
    }
  }

  lemma StopOrFailHolds(h: Host, env: Env, s: string)
    requires forall t | t != s :: HoldsAt(h, t)
    ensures Holds(StopOrFail(h, env, s))
  {
    var quiet := h.(loaded := h.loaded - {s});
    forall t | t != s ensures HoldsAt(quiet, t) {
      assert HoldsAt(h, t);
    }
    if env.stopOk(s) {
      var after := quiet.(rts := StoppedStep(h.rts, s));
      forall t ensures HoldsAt(after, t) {
        if t != s { assert HoldsAt(quiet, t); }
      }
    } else {
      FailHolds(quiet, s, env.reason);
    }
  }

  lemma {:induction false} StopAllHolds(h: Host, env: Env, ids: seq<string>)
    requires Holds(h)
    ensures Holds(StopAll(h, env, ids))
    decreases |ids|
  {
    if ids != [] {
      StopOrFailHolds(h, env, ids[0]);
      StopAllHolds(StopOrFail(h, env, ids[0]), env, ids[1..]);
    }
  }

  /** New records that are up where the old ones were, and serve only where they did. */
  lemma SameUp(h: Host, rts: Runtimes)
    requires Holds(h) && forall s :: IsUp(At(h.rts, s)) ==> IsUp(At(rts, s))
    requires forall s :: Serves(At(rts, s)) ==> Serves(At(h.rts, s))
    ensures Holds(h.(rts := rts))
  {
    forall s ensures HoldsAt(h.(rts := rts), s) {
      assert HoldsAt(h, s);
    }
  }

  /** What starting a service needs of its record. */
  ghost predicate Starts(rts: Runtimes, s: string, d: Decision) {
    d.Start? ==> At(rts, s).phase == Loading && At(rts, s).active == Some(d.requestID)
  }

  lemma RequestHolds(h: Host, collate: string -> real, look: Look, r: string)
    requires Holds(h)
    ensures var (rts, d) := RequestStep(h.rts, collate, look, r);
            Holds(h.(rts := rts)) && Starts(rts, look.serviceID, d)
  {
    var rts := RequestStep(h.rts, collate, look, r).0;
    RequestAnswered(h.rts, collate, look, r);
    SameUp(h, rts);
  }

  lemma PollHolds(h: Host, collate: string -> real, look: Look)
    requires Holds(h)
    ensures var (rts, d) := PollStep(h.rts, collate, look);
            Holds(h.(rts := rts)) && Starts(rts, look.serviceID, d)
  {
    var rts := PollStep(h.rts, collate, look).0;
    PollIsAnswered(h.rts, collate, look);
    if At(h.rts, look.serviceID).queue != [] {
      assert forall s :: At(Popped(h.rts, look.serviceID), s).phase == At(h.rts, s).phase;
    }
    SameUp(h, rts);
  }

  lemma StartHolds(h: Host, env: Env, collate: string -> real, s: string, d: Decision)
    requires Holds(h) && Starts(h.rts, s, d) && !d.Queued?
    ensures Holds(Prepare(h, env, collate, s, d).0)
  {
    if d.Start? && s in env.services.info {
      var info := env.services.info[s];
      var tried := h.(attempted := h.attempted[s := info]);
      forall t | t != s ensures HoldsAt(tried, t) {
        assert HoldsAt(h, t);
      }
      if env.startOk {
        var after := tried.(rts := LoadedStep(tried.rts, s).0, loaded := tried.loaded[s := info]);
        forall t ensures HoldsAt(after, t) {
          if t != s { assert HoldsAt(tried, t); }
        }
      } else {
        FailHolds(tried, s, env.reason);
      }
    }
  }

  lemma PrepareHolds(h: Host, env: Env, collate: string -> real, s: string, d: Decision)
    requires Holds(h) && Starts(h.rts, s, d)
    ensures Holds(Prepare(h, env, collate, s, d).0)
  {
    if d.Queued? && d.unload != [] {
      var stopped := StopAll(h, env, d.unload);
      StopAllHolds(h, env, d.unload);
      PollHolds(stopped, collate, env.LookAgain(s));
      var (rts, again) := PollStep(stopped.rts, collate, env.LookAgain(s));
      var asked := stopped.(rts := rts);
      if again.Queued? {
        assert Prepare(h, env, collate, s, d) == (asked, again);
      } else {
        StartHolds(asked, env, collate, s, again);
        assert Prepare(h, env, collate, s, d).0 == Prepare(asked, env, collate, s, again).0;
      }
    } else if !d.Queued? {
      StartHolds(h, env, collate, s, d);
    }
  }

  lemma LaunchHolds(h: Host, env: Env, s: string, r: string, d: Decision)
    requires Holds(h)
    ensures Holds(Launch(h, env, s, r, d))
  {
    if d.Run? && (s, d.requestID) in h.pending {
      DispatchHolds(h, env, (s, d.requestID));
    } else {
      SameUp(h, h.rts);
      LedgerIsFree(h, Launch(h, env, s, r, d));
    }
  }

  /** Who waits and what was run does not matter here. */
  lemma LedgerIsFree(h: Host, after: Host)
    requires Holds(h) && after.rts == h.rts && after.loaded == h.loaded && after.attempted == h.attempted
    ensures Holds(after)
  {
    forall s ensures HoldsAt(after, s) {
      assert HoldsAt(h, s);
    }
  }

  lemma DispatchHolds(h: Host, env: Env, key: Key)
    requires Holds(h) && key in h.pending
    ensures Holds(Dispatch(h, env, key))
  {
    var begun := h.(pending := h.pending[key := h.pending[key].(running := true)]);
    LedgerIsFree(h, begun);
    if key.0 in env.services.info {
      var info := env.services.info[key.0];
      var tried := begun.(attempted := begun.attempted[key.0 := info]);
      forall t | t != key.0 ensures HoldsAt(tried, t) {
        assert HoldsAt(begun, t);
      }
      FailHolds(tried, key.0, env.reason);
      if Ripe(h, env, key) {
        var ran := tried.(loaded := tried.loaded[key.0 := info], runs := tried.runs + [h.pending[key].ticket]);
        assert HoldsAt(h, key.0);
        forall t ensures HoldsAt(ran, t) {
          if t != key.0 { assert HoldsAt(tried, t); }
        }
        LedgerIsFree(begun, begun.(runs := begun.runs + [h.pending[key].ticket]));
      }
    }
    FailHolds(begun, key.0, env.reason);
  }

  lemma AnswerHolds(h: Host, env: Env, collate: string -> real, s: string, r: string, d: Decision)
    requires Holds(h) && Starts(h.rts, s, d)
    ensures var (ready, d1) := Prepare(h, env, collate, s, d); Holds(Launch(ready, env, s, r, d1))
  {
    PrepareHolds(h, env, collate, s, d);
    var (ready, d1) := Prepare(h, env, collate, s, d);
    LaunchHolds(ready, env, s, r, d1);
  }

  lemma ExecuteHolds(h: Host, env: Env, collate: string -> real, s: string, r: string, ok: bool)
    requires Holds(h)
    ensures Holds(Execute(h, env, collate, s, r, ok))
  {
    if !TurnedAway(h, env, (s, r)) {
      SameUp(h, RetryStep(h.rts, s).0);
      var armed := Rearm(h, env, s);
      if ok {
        AdmitHolds(armed, env, collate, s, r);
      }
    }
  }

  lemma AdmitHolds(h: Host, env: Env, collate: string -> real, s: string, r: string)
    requires Holds(h)
    ensures Holds(Admit(Issue(h, (s, r)), env, collate, s, r))
  {
    var asked := Issue(h, (s, r));
    LedgerIsFree(h, asked);
    RequestHolds(asked, collate, env.Look(s), r);
    var (rts, d) := RequestStep(asked.rts, collate, env.Look(s), r);
    AnswerHolds(asked.(rts := rts), env, collate, s, r, d);
  }

  lemma PumpOneHolds(h: Host, env: Env, collate: string -> real, s: string, stale: Runtime)
    requires Holds(h)
    ensures Holds(PumpOne(h, env, collate, s, stale))
  {
    if stale.queue != [] && (stale.phase == Stopped || stale.phase == Ready) {
      var r := stale.queue[0];
      if (s, r) in h.pending {
        PollHolds(h, collate, env.Look(s));
        var (rts, d) := PollStep(h.rts, collate, env.Look(s));
        AnswerHolds(h.(rts := rts), env, collate, s, r, d);
      } else {
        SameUp(h, CancelStep(h.rts, s, r).0);
      }
    }
  }

  lemma {:induction false} PumpHolds(h: Host, envs: string -> Env, collate: string -> real, snapshot: Runtimes,
                                     order: seq<string>)
    requires Holds(h)
    ensures Holds(Pump(h, envs, collate, snapshot, order))
    decreases |order|
  {
    if order != [] {
      var next := PumpOne(h, envs(order[0]), collate, order[0], At(snapshot, order[0]));
      PumpOneHolds(h, envs(order[0]), collate, order[0], At(snapshot, order[0]));
      PumpHolds(next, envs, collate, snapshot, order[1..]);
    }
  }

  /** Every step keeps it, whatever declarations it sees and however late an acknowledgement comes. */
  lemma StepHolds(h: Host, locale: Locale, act: Act)
    requires Holds(h)
    ensures Holds(Take(h, locale, act))
  {
    match act
    case Call(env, s, r, ok) => ExecuteHolds(h, env, locale.collate, s, r, ok);
    case Turn(envs, order) => PumpHolds(h, envs, locale.collate, h.rts, order);
    case CancelCall(env, s, r) =>
      if (s, r) in h.pending {
        var settled := SettleKey(h, (s, r));
        LedgerIsFree(h, settled);
        var (rts, t) := CancelStep(settled.rts, s, r);
        SameUp(settled, rts);
        if t.Stop? {
          StopOrFailHolds(settled.(rts := rts), env, s);
        }
      }
    case Failure(s, reason) => FailHolds(h, s, reason);
    case Rearming(s) => SameUp(h, RetryStep(h.rts, s).0);
    case SweepCall(env) =>
      var (rts, victims) := SweepStep(h.rts, locale.codeUnits, env.services, env.nowMs);
      SweepEffect(h.rts, locale, env.services, env.nowMs);
      SameUp(h, rts);
      StopAllHolds(h.(rts := rts), env, victims);
    case RunOk(key, ticket, now) =>
      SameUp(h, CompletedStep(h.rts, key.0, now));
      LedgerIsFree(h.(rts := CompletedStep(h.rts, key.0, now)), RunSucceeded(h, key, ticket, now));
  }

  lemma {:induction false} RunHolds(h: Host, locale: Locale, acts: seq<Act>)
    requires Holds(h)
    ensures Holds(TakeAll(h, locale, acts))
    decreases |acts|
  {
    if acts != [] {
      StepHolds(h, locale, acts[0]);
      RunHolds(Take(h, locale, acts[0]), locale, acts[1..]);
    }
  }

  /** From a new driver, after any steps, whatever is declared meanwhile. */
  lemma WorkersHoldWhatTheyWereStartedWith(locale: Locale, acts: seq<Act>)
    ensures Holds(TakeAll(NEW_DRIVER, locale, acts))
  {
    forall s ensures HoldsAt(NEW_DRIVER, s) {
    }
    RunHolds(NEW_DRIVER, locale, acts);
  }
}
