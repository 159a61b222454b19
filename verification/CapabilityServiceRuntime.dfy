/**
 * The process-global driver of capability services: it owns the waiting callers, asks the governor,
 * and carries out what the governor answers.
 *
 * One public method, one turn of the pump for one service, or one acknowledgement from a worker is
 * one step. What the worker answers within a step (did the start, refresh or stop succeed) is part
 * of the environment. A waiter is a ticket: its number is issued when `execute` makes its entry, and
 * settling it is recorded. This module defines the steps and proves that the class `Driver` takes
 * them; RuntimeCoupling.dfy proves what they keep.
 */
module CapabilityServiceRuntime {
  import opened Wrappers
  import opened CapabilityServiceGovernor

  /** An entry of the pending map: whose waiter it is, and whether its dispatch has begun. */
  datatype Entry = Entry(ticket: nat, running: bool)

  type Key = (string, string)

  datatype Settlement = Settlement(ticket: nat, succeeded: bool)

  datatype Host = Host(
    rts: Runtimes,
    pending: map<Key, Entry>,
    loaded: map<string, Info>,
    attempted: map<string, Info>,
    issued: nat,
    runs: seq<nat>,
    settled: seq<Settlement>
  )

  /** No call has been made yet. */
  const NEW_DRIVER := Host(map[], map[], map[], map[], 0, [], [])

  /** What one step observes of the outside world. */
  datatype Env = Env(
    services: Services,
    capacity: Option<Capacity>,
    recheck: Option<Capacity>,
    nowMs: int,
    startOk: bool,
    refreshOk: bool,
    stopOk: string -> bool,
    reason: string
  ) {
    function Look(serviceID: string): CapabilityServiceGovernor.Look {
      CapabilityServiceGovernor.Look(services, serviceID, capacity, nowMs)
    }
    function LookAgain(serviceID: string): CapabilityServiceGovernor.Look {
      CapabilityServiceGovernor.Look(services, serviceID, recheck, nowMs)
    }
  }

  function SettledTickets(settled: seq<Settlement>): seq<nat> {
    seq(|settled|, i requires 0 <= i < |settled| => settled[i].ticket)
  }

  /** Completing a deferred a second time does nothing. */
  function Settle(settled: seq<Settlement>, ticket: nat, succeeded: bool): seq<Settlement> {
    if ticket in SettledTickets(settled) then settled else settled + [Settlement(ticket, succeeded)]
  }

  function SettleKey(h: Host, key: Key): Host {
    if key in h.pending
    then h.(pending := h.pending - {key}, settled := Settle(h.settled, h.pending[key].ticket, false))
    else h
  }

  function SettleAll(h: Host, serviceID: string, ids: seq<string>): Host
    decreases |ids|
  {
    if ids == [] then h else SettleAll(SettleKey(h, (serviceID, ids[0])), serviceID, ids[1..])
  }

  function FailService(h: Host, serviceID: string, reason: string): Host {
    var (rts, affected) := FailedStep(h.rts, serviceID, reason);
    SettleAll(h.(rts := rts, loaded := h.loaded - {serviceID}), serviceID, affected)
  }

  /** Stop the worker and tell the governor; a worker that will not stop fails its service. */
  function StopOrFail(h: Host, env: Env, serviceID: string): Host {
    if env.stopOk(serviceID) then h.(rts := StoppedStep(h.rts, serviceID), loaded := h.loaded - {serviceID})
    else FailService(h.(loaded := h.loaded - {serviceID}), serviceID, env.reason)
  }

  function StopAll(h: Host, env: Env, ids: seq<string>): Host
    decreases |ids|
  {
    if ids == [] then h else StopAll(StopOrFail(h, env, ids[0]), env, ids[1..])
  }

  /** Carry out evictions, ask once more, and start the worker if the answer is to start. */
  function Prepare(h: Host, env: Env, collate: string -> real, serviceID: string, d: Decision): (Host, Decision) {
    var (h1, d1) :=
      if d.Queued? && d.unload != [] then
        var stopped := StopAll(h, env, d.unload);
        var (rts, again) := PollStep(stopped.rts, collate, env.LookAgain(serviceID));
        (stopped.(rts := rts), again)
      else (h, d);
    if !d1.Start? then (h1, d1)
    else if serviceID !in env.services.info then (h1, Refused(ServiceDisabled))
    else
      var info := env.services.info[serviceID];
      var tried := h1.(attempted := h1.attempted[serviceID := info]);
      if env.startOk then
        var (rts, t) := LoadedStep(tried.rts, serviceID);
        (tried.(rts := rts, loaded := tried.loaded[serviceID := info]),
         if t.RunNow? then Run(t.requestID) else NothingQueued)
      else (FailService(tried, serviceID, env.reason), Refused(ServiceUnavailable))
  }

  /** Run the entry's request, once, if it is still the one its service is busy with. */
  function Dispatch(h: Host, env: Env, key: Key): Host
    requires key in h.pending
  {
    var entry := h.pending[key];
    if entry.running then h
    else
      var begun := h.(pending := h.pending[key := entry.(running := true)]);
      var state := At(h.rts, key.0);
      if key.0 !in h.rts || state.active != Some(key.1) || state.phase != Busy then begun
      else if !Enabled(env.services, key.0) then FailService(begun, key.0, env.reason)
      else
        var info := env.services.info[key.0];
        if key.0 in begun.loaded && begun.loaded[key.0] == info then begun.(runs := begun.runs + [entry.ticket])
        else
          var tried := begun.(attempted := begun.attempted[key.0 := info]);
          if env.refreshOk
          then tried.(loaded := tried.loaded[key.0 := info], runs := tried.runs + [entry.ticket])
          else FailService(tried, key.0, env.reason)
  }

  function Launch(h: Host, env: Env, serviceID: string, requestID: string, d: Decision): Host {
    match d
    case Run(id) => if (serviceID, id) in h.pending then Dispatch(h, env, (serviceID, id)) else h
    case Refused(_) => SettleKey(h, (serviceID, requestID))
    case _ => h
  }

  function Admit(h: Host, env: Env, collate: string -> real, serviceID: string, requestID: string): Host {
    var (rts, d) := RequestStep(h.rts, collate, env.Look(serviceID), requestID);
    var (ready, d1) := Prepare(h.(rts := rts), env, collate, serviceID, d);
    Launch(ready, env, serviceID, requestID, d1)
  }

  /** A service whose declaration changed since it was last attempted is re-armed. */
  function Rearm(h: Host, env: Env, serviceID: string): Host
    requires serviceID in env.services.info
  {
    if serviceID in h.attempted && h.attempted[serviceID] != env.services.info[serviceID]
    then h.(rts := RetryStep(h.rts, serviceID).0)
    else h
  }

  function Issue(h: Host, key: Key): Host {
    h.(pending := h.pending[key := Entry(h.issued, false)], issued := h.issued + 1)
  }

  predicate TurnedAway(h: Host, env: Env, key: Key) {
    key in h.pending || !Enabled(env.services, key.0)
  }

  /** A call that joins a waiter, is turned away, or makes an entry and admits it. */
  function Execute(h: Host, env: Env, collate: string -> real, serviceID: string, requestID: string,
                   payloadOk: bool): Host {
    if TurnedAway(h, env, (serviceID, requestID)) then h
    else if !payloadOk then Rearm(h, env, serviceID)
    else Admit(Issue(Rearm(h, env, serviceID), (serviceID, requestID)), env, collate, serviceID, requestID)
  }

  /** One turn of the pump: stale is the service's record in the snapshot the pump walks. */
  function PumpOne(h: Host, env: Env, collate: string -> real, serviceID: string, stale: Runtime): Host {
    if stale.queue == [] || (stale.phase != Stopped && stale.phase != Ready) then h
    else
      var r := stale.queue[0];
      if (serviceID, r) !in h.pending then h.(rts := CancelStep(h.rts, serviceID, r).0)
      else
        var (rts, d) := PollStep(h.rts, collate, env.Look(serviceID));
        var (ready, d1) := Prepare(h.(rts := rts), env, collate, serviceID, d);
        Launch(ready, env, serviceID, r, d1)
  }

  /** The pump walks the services of one snapshot, each in its own moment. */
  function Pump(h: Host, envs: string -> Env, collate: string -> real, snapshot: Runtimes, order: seq<string>): Host
    decreases |order|
  {
    if order == [] then h
    else Pump(PumpOne(h, envs(order[0]), collate, order[0], At(snapshot, order[0])), envs, collate, snapshot,
              order[1..])
  }

  function CancelWaiter(h: Host, env: Env, serviceID: string, requestID: string): Host {
    if (serviceID, requestID) !in h.pending then h
    else
      var settled := SettleKey(h, (serviceID, requestID));
      var (rts, t) := CancelStep(settled.rts, serviceID, requestID);
      if t.Stop? then StopOrFail(settled.(rts := rts), env, serviceID) else settled.(rts := rts)
  }

  function SweepIdle(h: Host, env: Env, codeUnits: string -> real): Host {
    var (rts, victims) := SweepStep(h.rts, codeUnits, env.services, env.nowMs);
    StopAll(h.(rts := rts), env, victims)
  }

  /** The worker answered the run that ticket's dispatch made. */
  function RunSucceeded(h: Host, key: Key, ticket: nat, nowMs: int): Host {
    h.(rts := CompletedStep(h.rts, key.0, nowMs), pending := h.pending - {key},
       settled := Settle(h.settled, ticket, true))
  }

  // ---- the driver itself ----

  class Driver {
    const governor: Governor
    var pending: map<Key, Entry>
    var loaded: map<string, Info>
    var attempted: map<string, Info>
    var issued: nat
    var runs: seq<nat>
    var settled: seq<Settlement>

    constructor (governor: Governor)
      requires governor.runtimes == map[]
      ensures this.governor == governor && Value() == NEW_DRIVER
    {
      this.governor := governor;
      pending, loaded, attempted := map[], map[], map[];
      issued, runs, settled := 0, [], [];
    }

    ghost function Value(): Host
      reads this, governor
    {
      Host(governor.runtimes, pending, loaded, attempted, issued, runs, settled)
    }

    method Complete(ticket: nat, succeeded: bool)
      modifies this`settled
      ensures settled == Settle(old(settled), ticket, succeeded)
    {
      if ticket !in SettledTickets(settled) {
        settled := settled + [Settlement(ticket, succeeded)];
      }
    }

    method SettleEach(serviceID: string, ids: seq<string>)
      modifies this`pending, this`settled
      ensures Value() == SettleAll(old(Value()), serviceID, ids)
    {
      ghost var before := Value();
      for i := 0 to |ids|
        invariant Value() == before.(pending := pending, settled := settled)
        invariant SettleAll(Value(), serviceID, ids[i..]) == SettleAll(before, serviceID, ids)
      {
        assert ids[i..][0] == ids[i] && ids[i..][1..] == ids[i + 1..];
        var key := (serviceID, ids[i]);
        if key in pending {
          var entry := pending[key];
          pending := pending - {key};
          Complete(entry.ticket, false);
        }
      }
    }

    method Fail(serviceID: string, reason: string) returns (affected: seq<string>)
      modifies this, governor
      ensures Value() == FailService(old(Value()), serviceID, reason)
      ensures affected == FailedStep(old(governor.runtimes), serviceID, reason).1
    {
      loaded := loaded - {serviceID};
      affected := governor.Failed(serviceID, reason);
      SettleEach(serviceID, affected);
    }

    method StopWorker(env: Env, serviceID: string)
      modifies this, governor
      ensures Value() == StopOrFail(old(Value()), env, serviceID)
    {
      loaded := loaded - {serviceID};
      if env.stopOk(serviceID) {
        governor.Acknowledge(serviceID);
      } else {
        var _ := Fail(serviceID, env.reason);
      }
    }

    method StopWorkers(env: Env, ids: seq<string>)
      modifies this, governor
      ensures Value() == StopAll(old(Value()), env, ids)
    {
      ghost var before := Value();
      for i := 0 to |ids|
        invariant StopAll(Value(), env, ids[i..]) == StopAll(before, env, ids)
      {
        assert ids[i..][0] == ids[i] && ids[i..][1..] == ids[i + 1..];
        StopWorker(env, ids[i]);
      }
    }

    method PrepareStart(env: Env, serviceID: string, initial: Decision) returns (d: Decision)
      modifies this, governor
      ensures (Value(), d) == Prepare(old(Value()), env, governor.collate, serviceID, initial)
    {
      d := initial;
      if d.Queued? && d.unload != [] {
        StopWorkers(env, d.unload);
        d := governor.Poll(env.LookAgain(serviceID));
      }
      if !d.Start? {
        return;
      }
      if serviceID !in env.services.info {
        return Refused(ServiceDisabled);
      }
      var info := env.services.info[serviceID];
      attempted := attempted[serviceID := info];
      if env.startOk {
        loaded := loaded[serviceID := info];
        var t := governor.Loaded(serviceID);
        d := if t.RunNow? then Run(t.requestID) else NothingQueued;
      } else {
        var _ := Fail(serviceID, env.reason);
        d := Refused(ServiceUnavailable);
      }
    }

    method DispatchEntry(env: Env, key: Key)
      requires key in pending
      modifies this, governor
      ensures Value() == Dispatch(old(Value()), env, key)
    {
      var entry := pending[key];
      if entry.running {
        return;
      }
      pending := pending[key := entry.(running := true)];
      if key.0 !in governor.runtimes || governor.runtimes[key.0].active != Some(key.1)
        || governor.runtimes[key.0].phase != Busy {
        return;
      }
      if !Enabled(env.services, key.0) {
        var _ := Fail(key.0, env.reason);
        return;
      }
      var info := env.services.info[key.0];
      if !(key.0 in loaded && loaded[key.0] == info) {
        attempted := attempted[key.0 := info];
        if !env.refreshOk {
          var _ := Fail(key.0, env.reason);
          return;
        }
        loaded := loaded[key.0 := info];
      }
      runs := runs + [entry.ticket];
    }

    method LaunchDecision(env: Env, serviceID: string, requestID: string, d: Decision)
      modifies this, governor
      ensures Value() == Launch(old(Value()), env, serviceID, requestID, d)
    {
      if d.Run? {
        if (serviceID, d.requestID) in pending {
          DispatchEntry(env, (serviceID, d.requestID));
        }
        return;
      }
      if !d.Refused? {
        return;
      }
      assert SettleAll(SettleKey(Value(), (serviceID, requestID)), serviceID, [])
        == SettleKey(Value(), (serviceID, requestID));
      SettleEach(serviceID, [requestID]);
    }

    method AdmitEntry(env: Env, serviceID: string, requestID: string)
      modifies this, governor
      ensures Value() == Admit(old(Value()), env, governor.collate, serviceID, requestID)
    {
      var asked := governor.Request(env.Look(serviceID), requestID);
      var d := PrepareStart(env, serviceID, asked);
      LaunchDecision(env, serviceID, requestID, d);
    }

    /** What `execute` checks and records before it admits; entered tells whether it made an entry. */
    method Enter(env: Env, serviceID: string, requestID: string, payloadOk: bool) returns (entered: bool)
      modifies this, governor
      ensures entered == (!TurnedAway(old(Value()), env, (serviceID, requestID)) && payloadOk)
      ensures Value() ==
              if TurnedAway(old(Value()), env, (serviceID, requestID)) then old(Value())
              else if !payloadOk then Rearm(old(Value()), env, serviceID)
              else Issue(Rearm(old(Value()), env, serviceID), (serviceID, requestID))
    {
      if (serviceID, requestID) in pending || !Enabled(env.services, serviceID) {
        return false;
      }
      if serviceID in attempted && attempted[serviceID] != env.services.info[serviceID] {
        var _ := governor.Retry(serviceID);
      }
      if !payloadOk {
        return false;
      }
      pending := pending[(serviceID, requestID) := Entry(issued, false)];
      issued := issued + 1;
      entered := true;
    }

    method Call(env: Env, serviceID: string, requestID: string, payloadOk: bool)
      modifies this, governor
      ensures Value() == Execute(old(Value()), env, governor.collate, serviceID, requestID, payloadOk)
    {
      var entered := Enter(env, serviceID, requestID, payloadOk);
      if entered {
        AdmitEntry(env, serviceID, requestID);
      }
    }

    method PumpQueues(envs: string -> Env, order: seq<string>)
      modifies this, governor
      ensures Value() == Pump(old(Value()), envs, governor.collate, old(governor.runtimes), order)
    {
      ghost var before := Value();
      var snapshot := governor.runtimes;
      for i := 0 to |order|
        invariant Pump(Value(), envs, governor.collate, snapshot, order[i..])
                    == Pump(before, envs, governor.collate, snapshot, order)
      {
        assert order[i..][0] == order[i] && order[i..][1..] == order[i + 1..];
        var s := order[i];
        var stale := At(snapshot, s);
        if stale.queue == [] || (stale.phase != Stopped && stale.phase != Ready) {
          continue;
        }
        var r := stale.queue[0];
        if (s, r) !in pending {
          var _ := governor.Cancel(s, r);
          continue;
        }
        var asked := governor.Poll(envs(s).Look(s));
        var d := PrepareStart(envs(s), s, asked);
        LaunchDecision(envs(s), s, r, d);
      }
    }

    method Cancel(env: Env, serviceID: string, requestID: string) returns (found: bool)
      modifies this, governor
      ensures Value() == CancelWaiter(old(Value()), env, serviceID, requestID)
      ensures found == ((serviceID, requestID) in old(pending))
    {
      if (serviceID, requestID) !in pending {
        return false;
      }
      var entry := pending[(serviceID, requestID)];
      pending := pending - {(serviceID, requestID)};
      Complete(entry.ticket, false);
      var t := governor.Cancel(serviceID, requestID);
      if t.Stop? {
        StopWorker(env, serviceID);
      }
      found := true;
    }

    method Sweep(env: Env) returns (victims: seq<string>)
      modifies this, governor
      ensures Value() == SweepIdle(old(Value()), env, governor.codeUnits)
    {
      victims := governor.Sweep(env.services, env.nowMs);
      StopWorkers(env, victims);
    }

    method AcknowledgeRun(key: Key, ticket: nat, nowMs: int)
      modifies this, governor
      ensures Value() == RunSucceeded(old(Value()), key, ticket, nowMs)
    {
      governor.Completed(key.0, nowMs);
      pending := pending - {key};
      Complete(ticket, true);
    }
  }
}
