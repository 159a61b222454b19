/**
 * One small service called with room to spare: the call starts its worker and runs at once, and the
 * acknowledgement of the run leaves the service ready.
 */
module ServedCalls {
  import opened CapabilityServiceGovernor
  import opened CapabilityServiceRuntime
  import opened GovernorRuns
  import opened RuntimeCoupling
  import opened Wrappers

  const SMALL := Info(false, 100, 200, None, None, "")

  const ROOMY := Some(Capacity(Finite(1000.0), Finite(0.0), 1.0))

  /** The service is declared small, there is room, and its worker starts. */
  predicate Obliges(env: Env, s: string) {
    && Enabled(env.services, s) && env.services.info[s] == SMALL
    && env.capacity == ROOMY && env.nowMs == 0 && env.startOk
  }

  lemma RoomyIsRoomy()
    ensures Safe(ROOMY, Required(INITIAL, SMALL))
  {}

  /** A call of a service that was never called before. */
  lemma ColdCallRuns(h: Host, locale: Locale, env: Env, s: string, r: string)
    requires Obliges(env, s) && (s, r) !in h.pending && s !in h.attempted && At(h.rts, s) == INITIAL
    ensures var after := Take(h, locale, Call(env, s, r, true));
            && after.pending == h.pending[(s, r) := Entry(h.issued, true)] && after.issued == h.issued + 1
            && after.runs == h.runs + [h.issued] && after.settled == h.settled
            && after.attempted == h.attempted[s := SMALL]
            && At(after.rts, s) == INITIAL.(phase := Busy, active := Some(r))
            && forall t | t != s :: At(after.rts, t) == At(h.rts, t)
  {
    RoomyIsRoomy();
    var asked := Issue(h, (s, r));
    var (rts, d) := RequestStep(asked.rts, locale.collate, env.Look(s), r);
    assert d == Start(r) && At(rts, s) == INITIAL.(active := Some(r), lastUsedMs := 0, phase := Loading);
    var (ready, d1) := Prepare(asked.(rts := rts), env, locale.collate, s, d);
    assert d1 == Run(r);
    assert Launch(ready, env, s, r, d1) == Dispatch(ready, env, (s, r));
  }

  /** The answer to the run that ticket's call began. */
  lemma AcknowledgedIsReady(h: Host, locale: Locale, s: string, r: string, ticket: nat, now: int)
    requires At(h.rts, s) == INITIAL.(phase := Busy, active := Some(r)) && ticket !in SettledTickets(h.settled)
    ensures var after := Take(h, locale, RunOk((s, r), ticket, now));
            && after == h.(rts := after.rts, pending := h.pending - {(s, r)}, settled := after.settled)
            && after.settled == h.settled + [Settlement(ticket, true)]
            && At(after.rts, s) == INITIAL.(phase := Ready, lastUsedMs := now)
            && forall t | t != s :: At(after.rts, t) == At(h.rts, t)
  {}
}
