/**
 * What becomes of evicted services in the driver. The evictions of the governor's first answer are
 * carried out within the step. `prepare` asks once more afterwards and does not carry out what that
 * second answer evicts: those services are left unloading, and no later step of the driver but a
 * reported failure ever moves them again.
 */
module StrandedServices {
  import opened CapabilityServiceGovernor
  import opened GovernorRuns
  import opened CapabilityServiceRuntime
  import opened RuntimeCoupling

  predicate Unloads(rts: Runtimes, v: string) {
    At(rts, v).phase == Unloading
  }

  lemma FailServiceMoves(h: Host, s: string, reason: string)
    ensures At(FailService(h, s, reason).rts, s).phase == Unavailable
    ensures forall t | t != s :: At(FailService(h, s, reason).rts, t) == At(h.rts, t)
  {
    var (rts, affected) := FailedStep(h.rts, s, reason);
    FailedEffect(h.rts, s, reason);
    SettleAllEffect(h.(rts := rts, loaded := h.loaded - {s}), s, affected);
  }

  /** Not unloading, and not to be evicted again. */
  predicate Down(rts: Runtimes, v: string) {
    At(rts, v).phase == Stopped || At(rts, v).phase == Unavailable
  }

  lemma StopOrFailMoves(h: Host, env: Env, s: string)
    ensures Down(StopOrFail(h, env, s).rts, s)
    ensures forall t | t != s :: At(StopOrFail(h, env, s).rts, t) == At(h.rts, t)
  {
    if !env.stopOk(s) {
      FailServiceMoves(h.(loaded := h.loaded - {s}), s, env.reason);
    }
  }

  lemma {:induction false} StopAllMoves(h: Host, env: Env, ids: seq<string>)
    ensures forall v | v in ids :: Down(StopAll(h, env, ids).rts, v)
    ensures forall v | v !in ids :: At(StopAll(h, env, ids).rts, v) == At(h.rts, v)
    decreases |ids|
  {
    if ids != [] {
      var next := StopOrFail(h, env, ids[0]);
      StopOrFailMoves(h, env, ids[0]);
      StopAllMoves(next, env, ids[1..]);
      var last := StopAll(h, env, ids).rts;
      assert ids == [ids[0]] + ids[1..];
      forall v | v in ids ensures Down(last, v) {
        if v !in ids[1..] { assert At(last, v) == At(next.rts, v); }
      }
    }
  }

  lemma LaunchMoves(h: Host, env: Env, s: string, r: string, d: Decision)
    ensures var after := Launch(h, env, s, r, d).rts;
            && (forall t | t != s :: At(after, t) == At(h.rts, t))
            && (At(after, s) == At(h.rts, s) || (At(after, s).phase == Unavailable && At(h.rts, s).phase == Busy))
  {
    if d.Run? && (s, d.requestID) in h.pending {
      var key := (s, d.requestID);
      var entry := h.pending[key];
      var begun := h.(pending := h.pending[key := entry.(running := true)]);
      if Enabled(env.services, s) {
        FailServiceMoves(begun.(attempted := begun.attempted[s := env.services.info[s]]), s, env.reason);
      }
      FailServiceMoves(begun, s, env.reason);
    }
  }

  /** What the second answer evicts; nothing when there is no second answer. */
  function SecondEviction(h: Host, env: Env, collate: string -> real, s: string, d: Decision): seq<string> {
    if d.Queued? && d.unload != [] then
      var again := PollStep(StopAll(h, env, d.unload).rts, collate, env.LookAgain(s)).1;
      if again.Queued? then again.unload else []
    else []
  }

  lemma PollMoves(rts: Runtimes, collate: string -> real, look: Look)
    ensures var (after, d) := PollStep(rts, collate, look);
            && (forall v :: Unloads(after, v) <==> Unloads(rts, v) || (d.Queued? && v in d.unload))
            && (d.Queued? ==> forall v | v in d.unload :: !Unloads(rts, v))
            && (d.Start? ==> At(after, look.serviceID).phase == Loading)
  {
    PollIsAnswered(rts, collate, look);
    if At(rts, look.serviceID).queue != [] {
      var popped := Popped(rts, look.serviceID);
      assert forall v :: At(popped, v).phase == At(rts, v).phase;
    }
  }

  lemma StartMoves(h: Host, env: Env, collate: string -> real, s: string, d: Decision)
    requires d.Start? ==> At(h.rts, s).phase == Loading
    requires !d.Queued?
    ensures forall v :: Unloads(Prepare(h, env, collate, s, d).0.rts, v) <==> Unloads(h.rts, v)
  {
    if d.Start? && s in env.services.info {
      FailServiceMoves(h.(attempted := h.attempted[s := env.services.info[s]]), s, env.reason);
    }
  }

  /**
   * The services unloading after a step are those that were, less the ones just stopped, plus
   * exactly those the second answer evicts.
   */
  lemma PrepareMoves(h: Host, env: Env, collate: string -> real, s: string, d: Decision)
    requires d.Start? ==> At(h.rts, s).phase == Loading
    ensures var after := Prepare(h, env, collate, s, d).0.rts;
            forall v :: Unloads(after, v) <==>
                        || (Unloads(h.rts, v) && !(d.Queued? && v in d.unload))
                        || v in SecondEviction(h, env, collate, s, d)
  {
    if d.Queued? && d.unload != [] {
      var stopped := StopAll(h, env, d.unload);
      StopAllMoves(h, env, d.unload);
      PollMoves(stopped.rts, collate, env.LookAgain(s));
      var (rts, again) := PollStep(stopped.rts, collate, env.LookAgain(s));
      var asked := stopped.(rts := rts);
      if again.Queued? {
        assert Prepare(h, env, collate, s, d) == (asked, again);
      } else {
        StartMoves(asked, env, collate, s, again);
        assert Prepare(h, env, collate, s, d).0 == Prepare(asked, env, collate, s, again).0;
      }
    } else if !d.Queued? {
      StartMoves(h, env, collate, s, d);
    }
  }

  /**
   * A call leaves behind what the second answer evicts: every service that was unloading still is,
   * and of the others those and only those are unloading afterwards.
   */
  lemma CallLeavesTheSecondEviction(h: Host, env: Env, collate: string -> real, s: string, r: string, v: string)
    requires !TurnedAway(h, env, (s, r))
    ensures var asked := Issue(Rearm(h, env, s), (s, r));
            var (rts, d) := RequestStep(asked.rts, collate, env.Look(s), r);
            Unloads(Execute(h, env, collate, s, r, true).rts, v) <==>
            Unloads(h.rts, v) || v in SecondEviction(asked.(rts := rts), env, collate, s, d)
  {
    var asked := Issue(Rearm(h, env, s), (s, r));
    RearmMoves(h, env, s);
    AdmitMoves(asked, env, collate, s, r);
    assert Execute(h, env, collate, s, r, true) == Admit(asked, env, collate, s, r);
    assert Unloads(asked.rts, v) <==> Unloads(h.rts, v);
  }

  lemma RearmMoves(h: Host, env: Env, s: string)
    requires s in env.services.info
    ensures forall v :: Unloads(Rearm(h, env, s).rts, v) <==> Unloads(h.rts, v)
  {
  }

  /** An answer carried out and launched unloads what its preparation does. */
  lemma CarriedOutMoves(h: Host, env: Env, collate: string -> real, s: string, r: string, d: Decision)
    requires d.Start? ==> At(h.rts, s).phase == Loading
    ensures var (ready, d1) := Prepare(h, env, collate, s, d);
            forall v :: Unloads(Launch(ready, env, s, r, d1).rts, v) <==>
                        || (Unloads(h.rts, v) && !(d.Queued? && v in d.unload))
                        || v in SecondEviction(h, env, collate, s, d)
  {
    PrepareMoves(h, env, collate, s, d);
    var (ready, d1) := Prepare(h, env, collate, s, d);
    LaunchUnloadsNobody(ready, env, s, r, d1);
  }

  lemma LaunchUnloadsNobody(h: Host, env: Env, s: string, r: string, d: Decision)
    ensures forall v :: Unloads(Launch(h, env, s, r, d).rts, v) <==> Unloads(h.rts, v)
  {
    LaunchMoves(h, env, s, r, d);
  }

  /** A request's answer unloads its victims and nobody else, and none of them was unloading. */
  lemma RequestMoves(rts: Runtimes, collate: string -> real, look: Look, r: string)
    ensures var (after, d) := RequestStep(rts, collate, look, r);
            && (forall v :: Unloads(after, v) <==> Unloads(rts, v) || (d.Queued? && v in d.unload))
            && (d.Queued? ==> forall v | v in d.unload :: !Unloads(rts, v))
            && (d.Start? ==> At(after, look.serviceID).phase == Loading)
  {
    RequestAnswered(rts, collate, look, r);
  }

  lemma AdmitMoves(asked: Host, env: Env, collate: string -> real, s: string, r: string)
    ensures var (rts, d) := RequestStep(asked.rts, collate, env.Look(s), r);
            forall v :: Unloads(Admit(asked, env, collate, s, r).rts, v) <==>
                        Unloads(asked.rts, v) || v in SecondEviction(asked.(rts := rts), env, collate, s, d)
  {
    var (rts, d) := RequestStep(asked.rts, collate, env.Look(s), r);
    RequestMoves(asked.rts, collate, env.Look(s), r);
    CarriedOutMoves(asked.(rts := rts), env, collate, s, r, d);
  }

  /** The turn of a pump for one service asks: its head is still waited for, and the queue is not empty. */
  predicate PumpAsks(h: Host, s: string, stale: Runtime) {
    && stale.queue != [] && (stale.phase == Stopped || stale.phase == Ready) && (s, stale.queue[0]) in h.pending
    && At(h.rts, s).queue != []
  }

  lemma PumpOneMoves(h: Host, env: Env, collate: string -> real, s: string, stale: Runtime)
    requires PumpAsks(h, s, stale)
    ensures var (rts, d) := PollStep(h.rts, collate, env.Look(s));
            forall v :: Unloads(PumpOne(h, env, collate, s, stale).rts, v) <==>
                        Unloads(h.rts, v) || v in SecondEviction(h.(rts := rts), env, collate, s, d)
  {
    var (rts, d) := PollStep(h.rts, collate, env.Look(s));
    PollMoves(h.rts, collate, env.Look(s));
    CarriedOutMoves(h.(rts := rts), env, collate, s, stale.queue[0], d);
  }

  lemma PumpOneIdles(h: Host, env: Env, collate: string -> real, s: string, stale: Runtime)
    requires Linked(h.rts, h.pending.Keys) && !PumpAsks(h, s, stale)
    ensures forall v :: Unloads(PumpOne(h, env, collate, s, stale).rts, v) <==> Unloads(h.rts, v)
  {
    if stale.queue != [] && (stale.phase == Stopped || stale.phase == Ready) && (s, stale.queue[0]) !in h.pending {
      assert (s, stale.queue[0]) in h.pending.Keys <==> Has(At(h.rts, s), stale.queue[0]);
    }
  }

  lemma PumpOneStays(h: Host, env: Env, collate: string -> real, s: string, stale: Runtime, v: string)
    requires Unloads(h.rts, v)
    ensures Unloads(PumpOne(h, env, collate, s, stale).rts, v)
  {
    if PumpAsks(h, s, stale) {
      PumpOneMoves(h, env, collate, s, stale);
    }
  }

  lemma {:induction false} PumpStays(h: Host, envs: string -> Env, collate: string -> real, snapshot: Runtimes,
                                     order: seq<string>, v: string)
    requires Unloads(h.rts, v)
    ensures Unloads(Pump(h, envs, collate, snapshot, order).rts, v)
    decreases |order|
  {
    if order != [] {
      PumpOneStays(h, envs(order[0]), collate, order[0], At(snapshot, order[0]), v);
      PumpStays(PumpOne(h, envs(order[0]), collate, order[0], At(snapshot, order[0])), envs, collate, snapshot,
                order[1..], v);
    }
  }

  /** Once a service is left unloading, only a failure reported for it moves it: no call, pump or sweep does. */
  lemma UnloadingStays(h: Host, locale: Locale, act: Act, v: string)
    requires Unloads(h.rts, v) && !(act.Failure? && act.serviceID == v)
    ensures Unloads(Take(h, locale, act).rts, v)
  {
    match act
    case Call(env, s, r, ok) =>
      if !TurnedAway(h, env, (s, r)) {
        RearmMoves(h, env, s);
        if ok {
          CallLeavesTheSecondEviction(h, env, locale.collate, s, r, v);
        }
      }
    case Turn(envs, order) => PumpStays(h, envs, locale.collate, h.rts, order, v);
    case CancelCall(env, s, r) =>
      if (s, r) in h.pending {
        var settled := SettleKey(h, (s, r));
        var (rts, t) := CancelStep(settled.rts, s, r);
        if t.Stop? {
          StopOrFailMoves(settled.(rts := rts), env, s);
        }
      }
    case Failure(s, reason) => FailServiceMoves(h, s, reason);
    case SweepCall(env) =>
      SweepEffect(h.rts, locale, env.services, env.nowMs);
      var (rts, victims) := SweepStep(h.rts, locale.codeUnits, env.services, env.nowMs);
      StopAllMoves(h.(rts := rts), env, victims);
    case _ =>
  }

  lemma {:induction false} UnloadingStaysForever(h: Host, locale: Locale, acts: seq<Act>, v: string)
    requires Unloads(h.rts, v) && forall i | 0 <= i < |acts| :: !(acts[i].Failure? && acts[i].serviceID == v)
    ensures Unloads(TakeAll(h, locale, acts).rts, v)
    decreases |acts|
  {
    if acts != [] {
      UnloadingStays(h, locale, acts[0], v);
      UnloadingStaysForever(Take(h, locale, acts[0]), locale, acts[1..], v);
    }
  }

  lemma PollAsksAgain(rts: Runtimes, collate: string -> real, look: Look)
    requires At(rts, look.serviceID).queue != []
    ensures PollStep(rts, collate, look)
         == RequestStep(Popped(rts, look.serviceID), collate, look, At(rts, look.serviceID).queue[0])
  {
    var was := At(rts, look.serviceID);
    assert Touch(rts, look.serviceID)[look.serviceID := was.(queue := was.queue[1..])] == Popped(rts, look.serviceID);
  }
}
