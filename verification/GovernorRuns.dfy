/**
 * What the governor keeps over whole runs: its joint invariant, the fate of every request, the
 * outstanding stop obligations, and the order in which a waiting queue drains.
 */
module GovernorRuns {
  import opened Wrappers
  import opened Ordering
  import opened CapabilityServiceGovernor

  /** The two string orders the program uses, as sort keys. */
  datatype Locale = Locale(collate: string -> real, codeUnits: string -> real)

  datatype Op =
    | Submit(look: Look, requestID: string)
    | Poll(look: Look)
    | AckLoaded(serviceID: string)
    | AckCompleted(serviceID: string, nowMs: int)
    | AckStopped(serviceID: string)
    | Cancel(serviceID: string, requestID: string)
    | Fail(serviceID: string, reason: string)
    | Retry(serviceID: string)
    | Sweep(services: Services, nowMs: int)

  datatype Reply =
    | Decided(decision: Decision)
    | Moved(transition: Transition)
    | Affected(ids: seq<string>)
    | Swept(ids: seq<string>)
    | Silent

  function Step(rts: Runtimes, locale: Locale, op: Op): (Runtimes, Reply) {
    match op
    case Submit(look, r) => var (after, d) := RequestStep(rts, locale.collate, look, r); (after, Decided(d))
    case Poll(look) => var (after, d) := PollStep(rts, locale.collate, look); (after, Decided(d))
    case AckLoaded(s) => var (after, t) := LoadedStep(rts, s); (after, Moved(t))
    case AckCompleted(s, now) => (CompletedStep(rts, s, now), Silent)
    case AckStopped(s) => (StoppedStep(rts, s), Silent)
    case Cancel(s, r) => var (after, t) := CancelStep(rts, s, r); (after, Moved(t))
    case Fail(s, reason) => var (after, ids) := FailedStep(rts, s, reason); (after, Affected(ids))
    case Retry(s) => (RetryStep(rts, s).0, Silent)
    case Sweep(services, now) =>
      var (after, ids) := SweepStep(rts, locale.codeUnits, services, now); (after, Swept(ids))
  }

  function After(rts: Runtimes, locale: Locale, ops: seq<Op>): Runtimes
    decreases |ops|
  {
    if ops == [] then rts else After(Step(rts, locale, ops[0]).0, locale, ops[1..])
  }

  // ---- one request, one answer ----

  /** A request the governor makes active at once: it was not active, and nothing stands in its way. */
  predicate Admits(rts: Runtimes, look: Look, requestID: string) {
    && Enabled(look.services, look.serviceID)
    && var state := At(rts, look.serviceID);
    && state.active != Some(requestID)
    && (state.phase == Stopped || state.phase == Ready)
    && Safe(look.capacity, Required(state, look.services.info[look.serviceID]))
  }

  /**
   * What an answer means: it pins down the target's new record, and every other service is
   * untouched or, when named in the answer, an idle one that begins to unload.
   */
  ghost predicate Answered(rts: Runtimes, after: Runtimes, look: Look, r: string, d: Decision) {
    AnsweredAtTarget(At(rts, look.serviceID), At(after, look.serviceID), Admits(rts, look, r), look, r, d)
    && forall s | s != look.serviceID ::
      if d.Queued? && s in d.unload
      then At(after, s) == At(rts, s).(phase := Unloading) && At(rts, s).phase == Ready && At(rts, s).queue == []
      else At(after, s) == At(rts, s)
  }

  ghost predicate AnsweredAtTarget(was: Runtime, now: Runtime, admits: bool, look: Look, r: string, d: Decision) {
    var enabled := Enabled(look.services, look.serviceID);
    match d
    case Start(id) =>
      && id == r && enabled
      && if was.active == Some(r) then now == was && was.phase == Loading
         else && admits && was.phase == Stopped
              && now == was.(phase := Loading, active := Some(r), lastUsedMs := look.nowMs)
    case Run(id) =>
      && id == r && enabled
      && if was.active == Some(r) then now == was && was.phase != Loading
         else admits && was.phase == Ready && now == was.(phase := Busy, active := Some(r), lastUsedMs := look.nowMs)
    case Queued(position, unload) =>
      && enabled && !admits && was.active != Some(r) && was.phase != Unavailable
      && look.serviceID !in unload
      && 0 < position <= |now.queue| && now.queue[position - 1] == r
      && if r in was.queue then now == was && unload == []
         else now == was.(queue := was.queue + [r]) && |was.queue| < Limit(look.services.info[look.serviceID])
    case Refused(reason) =>
      && !admits && now == was
      && (reason == ServiceDisabled <==> !enabled)
      && (reason == ServiceUnavailable ==> was.phase == Unavailable)
      && (reason == QueueFull ==> was.phase != Unavailable && r !in was.queue
                                  && |was.queue| >= Limit(look.services.info[look.serviceID]))
    case NothingQueued => false
  }

  lemma EvictionMoves(rts: Runtimes, collate: string -> real, look: Look, required: nat)
    ensures var (after, unload) := IdleVictimsStep(rts, collate, look, required);
            && (forall s :: At(after, s) == if s in unload then At(rts, s).(phase := Unloading) else At(rts, s))
            && (forall s | s in unload :: Evictable(rts, look.serviceID, s))
  {
    IdleVictimsAreBest(rts, collate, look, required);
    IdleVictimsMove(rts, collate, look, required);
  }

  lemma EnqueueAnswered(rts: Runtimes, between: Runtimes, look: Look, r: string, unload: seq<string>)
    requires Enabled(look.services, look.serviceID) && !Admits(rts, look, r)
    requires At(rts, look.serviceID).active != Some(r) && At(rts, look.serviceID).phase != Unavailable
    requires r in At(rts, look.serviceID).queue
             || |At(rts, look.serviceID).queue| >= Limit(look.services.info[look.serviceID])
             ==> unload == []
    requires forall s :: At(between, s) == if s in unload then At(rts, s).(phase := Unloading) else At(rts, s)
    requires forall s | s in unload :: Evictable(rts, look.serviceID, s)
    ensures var (after, d) := EnqueueStep(between, look.serviceID, look.services.info[look.serviceID], r, unload);
            Answered(rts, after, look, r, d)
  {
    var was := At(rts, look.serviceID);
    assert look.serviceID !in unload;
    assert At(between, look.serviceID) == was;
  }

  lemma RequestAnswered(rts: Runtimes, collate: string -> real, look: Look, r: string)
    ensures var (after, d) := RequestStep(rts, collate, look, r); Answered(rts, after, look, r, d)
  {
    if Enabled(look.services, look.serviceID) {
      var here := Touch(rts, look.serviceID);
      var state := At(rts, look.serviceID);
      var info := look.services.info[look.serviceID];
      assert forall s :: At(here, s) == At(rts, s);
      if state.active == Some(r) || state.phase == Unavailable || Admits(rts, look, r) {
      } else if state.phase == Loading || state.phase == Busy || state.phase == Unloading {
        EnqueueAnswered(rts, here, look, r, []);
      } else if r in state.queue || |state.queue| >= Limit(info) {
      } else {
        EvictionMoves(here, collate, look, Required(state, info));
        var (there, unload) := IdleVictimsStep(here, collate, look, Required(state, info));
        EnqueueAnswered(rts, there, look, r, unload);
      }
    }
  }

  /** Whenever neighbours are evicted for a request, the choice is the best available one. */
  lemma EvictionsAreBest(rts: Runtimes, collate: string -> real, look: Look, r: string)
    requires RequestStep(rts, collate, look, r).1.Queued?
    ensures Enabled(look.services, look.serviceID)
    ensures BestEviction(rts, collate, look, Required(At(rts, look.serviceID), look.services.info[look.serviceID]),
                         RequestStep(rts, collate, look, r).1.unload)
  {
    var here := Touch(rts, look.serviceID);
    var state := At(rts, look.serviceID);
    var info := look.services.info[look.serviceID];
    var required := Required(state, info);
    assert forall s :: At(here, s) == At(rts, s);
    NobodyIsBestToo(rts, collate, look, required);
    if state.phase == Stopped || state.phase == Ready {
      assert RequestStep(rts, collate, look, r) == WaitStep(here, collate, look, info, r, required);
      WaitIsBest(here, rts, collate, look, info, r, required);
    }
  }

  lemma WaitIsBest(here: Runtimes, rts: Runtimes, collate: string -> real, look: Look, info: Info, r: string,
                   required: nat)
    requires forall s :: At(here, s) == At(rts, s)
    requires WaitStep(here, collate, look, info, r, required).1.Queued?
    ensures BestEviction(rts, collate, look, required, WaitStep(here, collate, look, info, r, required).1.unload)
  {
    WaitUnloads(here, collate, look, info, r, required);
    NobodyIsBestToo(rts, collate, look, required);
    SameVictims(here, rts, collate, look, required);
    IdleVictimsAreBest(rts, collate, look, required);
  }

  lemma WaitUnloads(here: Runtimes, collate: string -> real, look: Look, info: Info, r: string, required: nat)
    requires WaitStep(here, collate, look, info, r, required).1.Queued?
    ensures WaitStep(here, collate, look, info, r, required).1.unload == []
         || WaitStep(here, collate, look, info, r, required).1.unload
            == IdleVictimsStep(here, collate, look, required).1
  {
  }

  lemma NobodyIsBestToo(rts: Runtimes, collate: string -> real, look: Look, required: nat)
    ensures BestEviction(rts, collate, look, required, [])
  {
  }

  lemma SameVictims(a: Runtimes, b: Runtimes, collate: string -> real, look: Look, required: nat)
    requires forall s :: At(a, s) == At(b, s)
    ensures IdleVictimsStep(a, collate, look, required).1 == IdleVictimsStep(b, collate, look, required).1
  {
    IdleVictimsUnfold(a, collate, look, required);
    IdleVictimsUnfold(b, collate, look, required);
    SameCandidates(a, b, collate, look.services, look.serviceID);
  }

  /** The state in which a poll asks again: the head is off the queue. */
  function Popped(rts: Runtimes, s: string): Runtimes
    requires At(rts, s).queue != []
  {
    rts[s := At(rts, s).(queue := At(rts, s).queue[1..])]
  }

  /** A poll is a request of the head, made after the head left the queue. */
  ghost predicate PollAnswered(rts: Runtimes, after: Runtimes, look: Look, d: Decision) {
    if At(rts, look.serviceID).queue == [] then d == NothingQueued && forall s :: At(after, s) == At(rts, s)
    else Answered(Popped(rts, look.serviceID), after, look, At(rts, look.serviceID).queue[0], d)
  }

  lemma PollIsAnswered(rts: Runtimes, collate: string -> real, look: Look)
    ensures var (after, d) := PollStep(rts, collate, look); PollAnswered(rts, after, look, d)
  {
    var was := At(rts, look.serviceID);
    if was.queue != [] {
      assert Touch(rts, look.serviceID)[look.serviceID := was.(queue := was.queue[1..])] == Popped(rts, look.serviceID);
      RequestAnswered(Popped(rts, look.serviceID), collate, look, was.queue[0]);
    }
  }

  // ---- the joint invariant ----

  ghost predicate SoundRuntime(state: Runtime, bound: nat) {
    && (state.active.Some? <==> state.phase == Loading || state.phase == Busy)
    && NoDuplicates(state.queue)
    && (state.active.Some? ==> state.active.value !in state.queue)
    && (state.phase == Unavailable ==> state.queue == [])
    && |state.queue| <= bound
  }

  /** Every service is sound and no queue is longer than bound. */
  ghost predicate Sound(rts: Runtimes, bound: nat) {
    forall s :: SoundRuntime(At(rts, s), bound)
  }

  /** Every queue limit the operation presents for its target is within bound. */
  predicate Bounded(op: Op, bound: nat) {
    (op.Submit? || op.Poll?) && op.look.serviceID in op.look.services.info ==>
      Limit(op.look.services.info[op.look.serviceID]) <= bound
  }

  /** A caller that names a request already waiting, while the governor would admit it. */
  predicate Overtakes(rts: Runtimes, op: Op) {
    op.Submit? && op.requestID in At(rts, op.look.serviceID).queue && Admits(rts, op.look, op.requestID)
  }

  lemma AnswerKeepsSound(rts: Runtimes, after: Runtimes, look: Look, r: string, d: Decision, bound: nat)
    requires Sound(rts, bound) && Bounded(Submit(look, r), bound) && Answered(rts, after, look, r, d)
    ensures Sound(after, bound) <==> !Overtakes(rts, Submit(look, r))
  {
    var was := At(rts, look.serviceID);
    assert SoundRuntime(was, bound);
    if Overtakes(rts, Submit(look, r)) {
      assert !SoundRuntime(At(after, look.serviceID), bound);
    } else {
      forall s ensures SoundRuntime(At(after, s), bound) {
        assert SoundRuntime(At(rts, s), bound);
      }
    }
  }

  lemma PopKeepsSound(rts: Runtimes, s: string, bound: nat)
    requires Sound(rts, bound) && At(rts, s).queue != []
    ensures Sound(Popped(rts, s), bound)
    ensures At(rts, s).queue[0] !in At(Popped(rts, s), s).queue && At(rts, s).active != Some(At(rts, s).queue[0])
  {
    assert SoundRuntime(At(rts, s), bound);
    forall x ensures SoundRuntime(At(Popped(rts, s), x), bound) {
      assert SoundRuntime(At(rts, x), bound);
    }
  }

  lemma PollKeepsSound(rts: Runtimes, after: Runtimes, look: Look, d: Decision, bound: nat)
    requires Sound(rts, bound) && Bounded(Poll(look), bound) && PollAnswered(rts, after, look, d)
    ensures Sound(after, bound)
  {
    var was := At(rts, look.serviceID);
    if was.queue == [] {
      forall s ensures SoundRuntime(At(after, s), bound) {
        assert SoundRuntime(At(rts, s), bound);
      }
    } else {
      PopKeepsSound(rts, look.serviceID, bound);
      AnswerKeepsSound(Popped(rts, look.serviceID), after, look, was.queue[0], d, bound);
    }
  }

  lemma SweepEffect(rts: Runtimes, locale: Locale, services: Services, now: int)
    ensures var (after, ids) := SweepStep(rts, locale.codeUnits, services, now);
            && (forall s :: s in ids <==> Expired(rts, services, s, now))
            && forall s :: At(after, s) == if s in ids then At(rts, s).(phase := Unloading) else At(rts, s)
  {
    SortKeepsKeys(services.keys, ByCodeUnit(locale.codeUnits));
    var sorted := StableSort(services.keys, ByCodeUnit(locale.codeUnits));
    SweptAre(sorted, rts, services, now);
    var (after, ids) := SweepStep(rts, locale.codeUnits, services, now);
    var touched := TouchAll(rts, set id | id in services.info);
    assert forall s :: At(touched, s) == At(rts, s);
    UnloadOnlyPhases(touched, ids);
    forall s ensures s in ids <==> Expired(rts, services, s, now) {
    }
  }

  /**
   * Each operation keeps the joint invariant, whatever capacity and declarations it presents, with
   * one exception: a request that is submitted again while it waits and is admitted this time is
   * active and queued at once.
   */
  lemma StepKeepsSound(rts: Runtimes, locale: Locale, op: Op, bound: nat)
    requires Sound(rts, bound) && Bounded(op, bound)
    ensures Sound(Step(rts, locale, op).0, bound) <==> !Overtakes(rts, op)
  {
    var after := Step(rts, locale, op).0;
    match op
    case Submit(look, r) =>
      RequestAnswered(rts, locale.collate, look, r);
      AnswerKeepsSound(rts, after, look, r, RequestStep(rts, locale.collate, look, r).1, bound);
    case Poll(look) =>
      PollIsAnswered(rts, locale.collate, look);
      var d := PollStep(rts, locale.collate, look).1;
      PollKeepsSound(rts, after, look, d, bound);
    case Sweep(services, now) =>
      SweepEffect(rts, locale, services, now);
      forall s ensures SoundRuntime(At(after, s), bound) {
        assert SoundRuntime(At(rts, s), bound);
      }
    case Cancel(target, r) => CancelKeepsSound(rts, target, r, bound);
    case _ =>
      forall s ensures SoundRuntime(At(after, s), bound) {
        assert SoundRuntime(At(rts, s), bound);
      }
  }

  lemma CancelKeepsSound(rts: Runtimes, target: string, r: string, bound: nat)
    requires Sound(rts, bound)
    ensures Sound(CancelStep(rts, target, r).0, bound)
  {
    var was := At(rts, target);
    var after := CancelStep(rts, target, r).0;
    assert SoundRuntime(was, bound);
    if r in was.queue {
      RemovalKeepsDistinct(was.queue, IndexOf(was.queue, r));
    }
    assert SoundRuntime(At(after, target), bound);
    forall s ensures SoundRuntime(At(after, s), bound) {
      assert SoundRuntime(At(rts, s), bound);
    }
  }

  lemma RemovalKeepsDistinct<T>(q: seq<T>, at: nat)
    requires at < |q| && NoDuplicates(q)
    ensures var rest := q[..at] + q[at + 1..];
            NoDuplicates(rest) && forall x :: x in rest <==> x in q && x != q[at]
  {
    var rest := q[..at] + q[at + 1..];
    assert q == q[..at] + [q[at]] + q[at + 1..];
    forall x | x in rest ensures x != q[at] {
      var i :| 0 <= i < |rest| && rest[i] == x;
      assert x == q[if i < at then i else i + 1];
    }
    assert forall x :: x in q ==> x in q[..at] || x == q[at] || x in q[at + 1..];
  }

  /** The exception is real: a waiting request that its caller submits again when memory frees up. */
  lemma ResubmittingAWaitingRequestBreaksIt(locale: Locale)
    ensures exists rts, op :: Sound(rts, 8) && Bounded(op, 8) && !Sound(Step(rts, locale, op).0, 8)
  {
    var services: Services := ServiceRecord(["parser"], map["parser" := Info(false, 100, 200, None, None, "")]);
    var rts: Runtimes := map["parser" := INITIAL.(queue := ["r1"])];
    var roomy := Capacity(Finite(1000.0), Finite(100.0), 0.8);
    var op := Submit(Look(services, "parser", Some(roomy), 0), "r1");
    forall s ensures SoundRuntime(At(rts, s), 8) {
    }
    StepKeepsSound(rts, locale, op, 8);
    assert Overtakes(rts, op);
  }

  /**
   * A poll refuses exactly when a request waits and its service is not enabled, or its queue is
   * longer than today's limit and the head cannot start now.
   */
  lemma PollRefusesExactly(rts: Runtimes, collate: string -> real, look: Look, bound: nat)
    requires Sound(rts, bound)
    ensures var was := At(rts, look.serviceID);
            PollStep(rts, collate, look).1.Refused? <==>
            && was.queue != []
            && (|| !Enabled(look.services, look.serviceID)
                || (|was.queue| > Limit(look.services.info[look.serviceID]) && !Admits(rts, look, was.queue[0])))
  {
    PollIsAnswered(rts, collate, look);
    if At(rts, look.serviceID).queue != [] {
      assert SoundRuntime(At(rts, look.serviceID), bound);
      PopKeepsSound(rts, look.serviceID, bound);
    }
  }

  // ---- conservation of requests ----

  /** The requests the governor holds for one service. */
  ghost function Held(state: Runtime): multiset<string> {
    multiset(state.queue) + if state.active.Some? then multiset{state.active.value} else multiset{}
  }

  /** Operations other than the sweep concern one service. */
  function TargetOf(op: Op): Option<string> {
    match op
    case Submit(look, _) => Some(look.serviceID)
    case Poll(look) => Some(look.serviceID)
    case Sweep(_, _) => None
    case _ => Some(op.serviceID)
  }

  /** What an operation brings in for its target: a submission of a request not already held. */
  ghost function Arrivals(was: Runtime, op: Op, s: string): multiset<string> {
    if op.Submit? && TargetOf(op) == Some(s) && op.requestID !in Held(was) then multiset{op.requestID} else multiset{}
  }

  /** What an operation finishes at its target: refused, completed, canceled or listed by a failure. */
  ghost function Departures(was: Runtime, op: Op, reply: Reply, s: string): multiset<string> {
    if TargetOf(op) != Some(s) then multiset{}
    else
      var refused := reply.Decided? && reply.decision.Refused?;
      match op
      case Submit(_, r) => if refused && r !in Held(was) then multiset{r} else multiset{}
      case Poll(_) => if refused && was.queue != [] then multiset{was.queue[0]} else multiset{}
      case AckCompleted(_, _) =>
        if was.phase == Busy && was.active.Some? then multiset{was.active.value} else multiset{}
      case Cancel(_, r) => if r in was.queue || reply == Moved(Stop(s)) then multiset{r} else multiset{}
      case Fail(_, _) => if reply.Affected? then multiset(reply.ids) else multiset{}
      case _ => multiset{}
  }

  ghost predicate ConservesAt(was: Runtime, now: Runtime, op: Op, reply: Reply, s: string) {
    Held(now) + Departures(was, op, reply, s) == Held(was) + Arrivals(was, op, s)
  }

  ghost predicate Conserves(rts: Runtimes, after: Runtimes, op: Op, reply: Reply) {
    forall s :: ConservesAt(At(rts, s), At(after, s), op, reply, s)
  }

  /** Acknowledging a stop of a service that still runs a request: the request is dropped unseen. */
  predicate DropsActive(rts: Runtimes, op: Op) {
    op.AckStopped? && At(rts, op.serviceID).active.Some?
  }

  lemma HeldGrows(state: Runtime, r: string)
    ensures Held(state.(queue := state.queue + [r])) == Held(state) + multiset{r}
    ensures state.active == None ==>
              forall p, t :: Held(state.(active := Some(r), phase := p, lastUsedMs := t)) == Held(state) + multiset{r}
  {
  }

  lemma HeldWithoutHead(state: Runtime)
    requires state.queue != []
    ensures Held(state.(queue := state.queue[1..])) + multiset{state.queue[0]} == Held(state)
  {
    assert state.queue == [state.queue[0]] + state.queue[1..];
  }

  lemma Telescope(held: multiset<string>, next: multiset<string>, last: multiset<string>,
                  out1: multiset<string>, in1: multiset<string>, out2: multiset<string>, in2: multiset<string>)
    requires next + out1 == held + in1 && last + out2 == next + in2
    ensures last + (out1 + out2) == held + (in1 + in2)
  {
    forall x ensures (last + (out1 + out2))[x] == (held + (in1 + in2))[x] {
      assert (next + out1)[x] == (held + in1)[x] && (last + out2)[x] == (next + in2)[x];
    }
  }

  lemma ConservesElsewhere(was: Runtime, now: Runtime, op: Op, reply: Reply, s: string)
    requires TargetOf(op) != Some(s) && now.queue == was.queue && now.active == was.active
    ensures ConservesAt(was, now, op, reply, s)
  {
  }

  /** What is held after an answer: what was, and the request if it was taken in. */
  lemma AnswerHeld(was: Runtime, now: Runtime, admits: bool, look: Look, r: string, d: Decision, bound: nat)
    requires SoundRuntime(was, bound) && AnsweredAtTarget(was, now, admits, look, r, d)
    ensures Held(now) == if d.Refused? || was.active == Some(r) || (!admits && r in was.queue) then Held(was)
                         else Held(was) + multiset{r}
  {
    HeldGrows(was, r);
  }

  lemma AnswerConservesAt(was: Runtime, now: Runtime, admits: bool, look: Look, r: string, d: Decision, bound: nat)
    requires SoundRuntime(was, bound) && AnsweredAtTarget(was, now, admits, look, r, d)
    ensures ConservesAt(was, now, Submit(look, r), Decided(d), look.serviceID) <==> !(admits && r in was.queue)
  {
    var s, op, reply := look.serviceID, Submit(look, r), Decided(d);
    AnswerHeld(was, now, admits, look, r, d, bound);
    assert d.Refused? ==> !admits;
    if r in Held(was) {
      assert r in was.queue || was.active == Some(r);
      assert Arrivals(was, op, s) == multiset{} == Departures(was, op, reply, s);
      HeldMoves(Held(was), Held(now), r, multiset{}, multiset{});
    } else {
      assert r !in was.queue && was.active != Some(r);
      assert Arrivals(was, op, s) == multiset{r};
      assert Departures(was, op, reply, s) == if d.Refused? then multiset{r} else multiset{};
    }
  }

  /** One more held, with nothing coming or going, is no balance. */
  lemma HeldMoves(held: multiset<string>, next: multiset<string>, r: string, comes: multiset<string>,
                  goes: multiset<string>)
    requires comes == multiset{} == goes
    ensures next == held ==> next + goes == held + comes
    ensures next == held + multiset{r} ==> next + goes != held + comes
  {
    if next == held + multiset{r} {
      assert (next + goes)[r] == (held + comes)[r] + 1;
    }
  }

  lemma PollConservesAt(was: Runtime, now: Runtime, admits: bool, look: Look, d: Decision, bound: nat)
    requires SoundRuntime(was, bound) && was.queue != []
    requires AnsweredAtTarget(was.(queue := was.queue[1..]), now, admits, look, was.queue[0], d)
    ensures ConservesAt(was, now, Poll(look), Decided(d), look.serviceID)
  {
    var popped := was.(queue := was.queue[1..]);
    AnswerConservesAt(popped, now, admits, look, was.queue[0], d, bound);
    HeldWithoutHead(was);
    var head, s := was.queue[0], look.serviceID;
    assert head !in Held(popped);
    assert Arrivals(popped, Submit(look, head), s) == multiset{head} && Arrivals(was, Poll(look), s) == multiset{};
    assert Departures(popped, Submit(look, head), Decided(d), s) == Departures(was, Poll(look), Decided(d), s);
  }

  lemma HeldWithout(state: Runtime, at: nat)
    requires at < |state.queue|
    ensures Held(state.(queue := state.queue[..at] + state.queue[at + 1..])) + multiset{state.queue[at]} == Held(state)
  {
    assert state.queue == state.queue[..at] + [state.queue[at]] + state.queue[at + 1..];
  }

  lemma HeldWithoutActive(state: Runtime)
    requires state.active.Some?
    ensures forall p, t ::
              Held(state.(active := None, phase := p, lastUsedMs := t)) + multiset{state.active.value} == Held(state)
    ensures forall p, why ::
              Held(state.(active := None, phase := p, reason := why)) + multiset{state.active.value} == Held(state)
  {
  }

  lemma CancelConservesAt(was: Runtime, s: string, r: string, bound: nat)
    requires SoundRuntime(was, bound)
    ensures var (after, moved) := CancelStep(map[s := was], s, r);
            ConservesAt(was, after[s], Cancel(s, r), Moved(moved), s)
  {
    var (after, moved) := CancelStep(map[s := was], s, r);
    assert Arrivals(was, Cancel(s, r), s) == multiset{};
    if r in was.queue {
      var at := IndexOf(was.queue, r);
      HeldWithout(was, at);
      assert after[s] == was.(queue := was.queue[..at] + was.queue[at + 1..]);
      assert Departures(was, Cancel(s, r), Moved(moved), s) == multiset{was.queue[at]};
    } else if was.active == Some(r) {
      HeldWithoutActive(was);
      assert after[s] == was.(phase := Unloading, active := None, lastUsedMs := was.lastUsedMs);
      assert Departures(was, Cancel(s, r), Moved(moved), s) == multiset{was.active.value};
    } else {
      assert after[s] == was && Departures(was, Cancel(s, r), Moved(moved), s) == multiset{};
    }
  }

  lemma FailConservesAt(was: Runtime, s: string, reason: string)
    ensures var (after, ids) := FailedStep(map[s := was], s, reason);
            ConservesAt(was, after[s], Fail(s, reason), Affected(ids), s)
  {
    var (after, ids) := FailedStep(map[s := was], s, reason);
    assert multiset(ids) == Held(was) && Held(after[s]) == multiset{};
  }

  lemma OthersConserveAt(was: Runtime, op: Op, s: string, bound: nat, locale: Locale)
    requires SoundRuntime(was, bound) && TargetOf(op) == Some(s)
    requires op.AckLoaded? || op.AckCompleted? || op.AckStopped? || op.Retry?
    ensures var (after, reply) := Step(map[s := was], locale, op);
            ConservesAt(was, after[s], op, reply, s) <==> !(op.AckStopped? && was.active.Some?)
  {
    var (after, reply) := Step(map[s := was], locale, op);
    assert Arrivals(was, op, s) == multiset{};
    if op.AckStopped? && was.active.Some? {
      HeldWithoutActive(was);
      var lost := was.active.value;
      assert Departures(was, op, reply, s) == multiset{};
      assert after[s] == was.(active := None, phase := Stopped, reason := None);
      assert (Held(after[s]) + multiset{lost})[lost] == Held(was)[lost];
      assert (Held(after[s]) + Departures(was, op, reply, s))[lost] != (Held(was) + Arrivals(was, op, s))[lost];
    } else if op.AckCompleted? && was.phase == Busy {
      HeldWithoutActive(was);
      assert after[s] == was.(lastUsedMs := op.nowMs, phase := Ready, active := None);
      assert Departures(was, op, reply, s) == multiset{was.active.value};
    } else {
      assert Departures(was, op, reply, s) == multiset{};
      assert after[s].queue == was.queue && after[s].active == was.active;
    }
  }

  lemma AnswerConserves(rts: Runtimes, after: Runtimes, look: Look, r: string, d: Decision, bound: nat)
    requires Sound(rts, bound) && Answered(rts, after, look, r, d)
    ensures Conserves(rts, after, Submit(look, r), Decided(d)) <==> !Overtakes(rts, Submit(look, r))
  {
    var op := Submit(look, r);
    var was, now := At(rts, look.serviceID), At(after, look.serviceID);
    assert SoundRuntime(was, bound);
    AnswerConservesAt(was, now, Admits(rts, look, r), look, r, d, bound);
    forall s | s != look.serviceID ensures ConservesAt(At(rts, s), At(after, s), op, Decided(d), s) {
      ConservesElsewhere(At(rts, s), At(after, s), op, Decided(d), s);
    }
    assert ConservesAt(was, now, op, Decided(d), look.serviceID) <==> !Overtakes(rts, op);
  }

  lemma PollConserves(rts: Runtimes, after: Runtimes, look: Look, d: Decision, bound: nat)
    requires Sound(rts, bound) && PollAnswered(rts, after, look, d)
    ensures Conserves(rts, after, Poll(look), Decided(d))
  {
    forall s ensures ConservesAt(At(rts, s), At(after, s), Poll(look), Decided(d), s) {
      if s != look.serviceID {
        PollLeavesElsewhere(rts, after, look, d, s);
        ConservesElsewhere(At(rts, s), At(after, s), Poll(look), Decided(d), s);
      } else {
        PollConservesTarget(rts, after, look, d, bound);
      }
    }
  }

  lemma PollLeavesElsewhere(rts: Runtimes, after: Runtimes, look: Look, d: Decision, s: string)
    requires PollAnswered(rts, after, look, d) && s != look.serviceID
    ensures At(after, s).queue == At(rts, s).queue && At(after, s).active == At(rts, s).active
  {}

  lemma PollConservesTarget(rts: Runtimes, after: Runtimes, look: Look, d: Decision, bound: nat)
    requires Sound(rts, bound) && PollAnswered(rts, after, look, d)
    ensures ConservesAt(At(rts, look.serviceID), At(after, look.serviceID), Poll(look), Decided(d), look.serviceID)
  {
    var was := At(rts, look.serviceID);
    assert SoundRuntime(was, bound);
    if was.queue != [] {
      var admits := Admits(Popped(rts, look.serviceID), look, was.queue[0]);
      PollConservesAt(was, At(after, look.serviceID), admits, look, d, bound);
    }
  }

  /** The operations that look at one record only do the same to it in any state. */
  lemma LocalStep(rts: Runtimes, locale: Locale, op: Op, s: string)
    requires TargetOf(op) == Some(s) && !op.Submit? && !op.Poll?
    ensures var (after, reply) := Step(rts, locale, op);
            var (alone, same) := Step(map[s := At(rts, s)], locale, op);
            reply == same && s in alone && At(after, s) == alone[s] && forall t | t != s :: At(after, t) == At(rts, t)
  {
  }

  /**
   * In a sound state every operation conserves requests, whatever capacity and declarations it
   * presents, except the two that only a broken caller performs.
   */
  lemma StepConserves(rts: Runtimes, locale: Locale, op: Op, bound: nat)
    requires Sound(rts, bound)
    ensures var (after, reply) := Step(rts, locale, op);
            Conserves(rts, after, op, reply) <==> !Overtakes(rts, op) && !DropsActive(rts, op)
  {
    var (after, reply) := Step(rts, locale, op);
    match op
    case Submit(look, r) =>
      RequestAnswered(rts, locale.collate, look, r);
      AnswerConserves(rts, after, look, r, reply.decision, bound);
    case Poll(look) =>
      PollIsAnswered(rts, locale.collate, look);
      PollConserves(rts, after, look, reply.decision, bound);
    case Sweep(services, now) =>
      SweepEffect(rts, locale, services, now);
      forall s ensures ConservesAt(At(rts, s), At(after, s), op, reply, s) {
        ConservesElsewhere(At(rts, s), At(after, s), op, reply, s);
      }
    case _ =>
      LocalConserves(rts, locale, op, bound);
  }

  /** The second exception is real: a service that is stopped while it runs a request forgets the request. */
  lemma StoppingAnActiveServiceLosesIt(locale: Locale, s: string, r: string)
    ensures var rts: Runtimes := map[s := Runtime(Busy, Some(r), [], 0, None)];
            var (after, reply) := Step(rts, locale, AckStopped(s));
            && Sound(rts, 8) && !Conserves(rts, after, AckStopped(s), reply)
            && Held(At(rts, s)) == multiset{r} && Held(At(after, s)) == multiset{} && reply == Silent
  {
    var rts: Runtimes := map[s := Runtime(Busy, Some(r), [], 0, None)];
    StepConserves(rts, locale, AckStopped(s), 8);
  }

  lemma LocalConserves(rts: Runtimes, locale: Locale, op: Op, bound: nat)
    requires Sound(rts, bound) && !op.Submit? && !op.Poll? && !op.Sweep?
    ensures var (after, reply) := Step(rts, locale, op);
            Conserves(rts, after, op, reply) <==> !DropsActive(rts, op)
  {
    var (after, reply) := Step(rts, locale, op);
    var t := TargetOf(op).value;
    LocalStep(rts, locale, op, t);
    assert SoundRuntime(At(rts, t), bound);
    if op.Cancel? {
      CancelConservesAt(At(rts, t), t, op.requestID, bound);
    } else if op.Fail? {
      FailConservesAt(At(rts, t), t, op.reason);
    } else {
      OthersConserveAt(At(rts, t), op, t, bound, locale);
    }
    assert ConservesAt(At(rts, t), At(after, t), op, reply, t) <==> !DropsActive(rts, op);
    forall s | s != t ensures ConservesAt(At(rts, s), At(after, s), op, reply, s) {
      ConservesElsewhere(At(rts, s), At(after, s), op, reply, s);
    }
  }

  /** The operations of a run in which callers keep the two rules the governor relies on. */
  ghost predicate Disciplined(rts: Runtimes, locale: Locale, ops: seq<Op>, bound: nat)
    decreases |ops|
  {
    ops == [] ||
    (&& Bounded(ops[0], bound) && !Overtakes(rts, ops[0]) && !DropsActive(rts, ops[0])
     && Disciplined(Step(rts, locale, ops[0]).0, locale, ops[1..], bound))
  }

  ghost function Submitted(rts: Runtimes, locale: Locale, ops: seq<Op>, s: string): multiset<string>
    decreases |ops|
  {
    if ops == [] then multiset{}
    else Arrivals(At(rts, s), ops[0], s) + Submitted(Step(rts, locale, ops[0]).0, locale, ops[1..], s)
  }

  ghost function Finished(rts: Runtimes, locale: Locale, ops: seq<Op>, s: string): multiset<string>
    decreases |ops|
  {
    if ops == [] then multiset{}
    else
      var (after, reply) := Step(rts, locale, ops[0]);
      Departures(At(rts, s), ops[0], reply, s) + Finished(after, locale, ops[1..], s)
  }

  lemma {:induction false} RunConserves(rts: Runtimes, locale: Locale, ops: seq<Op>, bound: nat, s: string)
    requires Sound(rts, bound) && Disciplined(rts, locale, ops, bound)
    ensures Sound(After(rts, locale, ops), bound)
    ensures Held(At(After(rts, locale, ops), s)) + Finished(rts, locale, ops, s)
            == Held(At(rts, s)) + Submitted(rts, locale, ops, s)
    decreases |ops|
  {
    if ops != [] {
      StepKeepsSound(rts, locale, ops[0], bound);
      StepConserves(rts, locale, ops[0], bound);
      var next := Step(rts, locale, ops[0]).0;
      RunConserves(next, locale, ops[1..], bound, s);
      var reply := Step(rts, locale, ops[0]).1;
      assert ConservesAt(At(rts, s), At(next, s), ops[0], reply, s);
      Telescope(Held(At(rts, s)), Held(At(next, s)), Held(At(After(next, locale, ops[1..]), s)),
                Departures(At(rts, s), ops[0], reply, s), Arrivals(At(rts, s), ops[0], s),
                Finished(next, locale, ops[1..], s), Submitted(next, locale, ops[1..], s));
    }
  }

  /** Request IDs are fresh: what arrives for a service never arrived for it before. */
  ghost predicate FreshFor(rts: Runtimes, locale: Locale, ops: seq<Op>, s: string, seen: set<string>)
    decreases |ops|
  {
    ops == [] ||
    (&& (forall r | r in Arrivals(At(rts, s), ops[0], s) :: r !in seen)
     && FreshFor(Step(rts, locale, ops[0]).0, locale, ops[1..], s,
                 seen + (set r | r in Arrivals(At(rts, s), ops[0], s))))
  }

  lemma {:induction false} FreshArriveOnce(rts: Runtimes, locale: Locale, ops: seq<Op>, s: string, seen: set<string>,
                                           r: string)
    requires FreshFor(rts, locale, ops, s, seen)
    ensures Submitted(rts, locale, ops, s)[r] <= if r in seen then 0 else 1
    decreases |ops|
  {
    if ops != [] {
      FreshArriveOnce(Step(rts, locale, ops[0]).0, locale, ops[1..], s,
                      seen + (set x | x in Arrivals(At(rts, s), ops[0], s)), r);
    }
  }

  /**
   * From the empty governor, under any disciplined run with fresh IDs: a request that was submitted
   * is in exactly one place, active, waiting or finished, and there exactly once; nothing else is
   * anywhere. Every prefix of such a run is one, so this holds at every moment.
   */
  lemma EveryRequestIsInOnePlace(locale: Locale, ops: seq<Op>, bound: nat, s: string, r: string)
    requires Disciplined(map[], locale, ops, bound) && FreshFor(map[], locale, ops, s, {})
    ensures var state := At(After(map[], locale, ops), s);
            (if state.active == Some(r) then 1 else 0) + multiset(state.queue)[r] + Finished(map[], locale, ops, s)[r]
            == if r in Submitted(map[], locale, ops, s) then 1 else 0
  {
    forall x ensures SoundRuntime(At(map[], x), bound) {
    }
    RunConserves(map[], locale, ops, bound, s);
    FreshArriveOnce(map[], locale, ops, s, {}, r);
    var state := At(After(map[], locale, ops), s);
    assert Held(state)[r] == multiset(state.queue)[r] + if state.active == Some(r) then 1 else 0;
    assert Held(At(map[], s)) == multiset{};
    var last := Held(state) + Finished(map[], locale, ops, s);
    assert last == Submitted(map[], locale, ops, s);
    assert last[r] == Held(state)[r] + Finished(map[], locale, ops, s)[r];
  }

  // ---- outstanding stop obligations ----

  /** The services a caller was told to stop and has not yet reported on. */
  function Owed(owed: set<string>, op: Op, reply: Reply): set<string> {
    match reply
    case Decided(Queued(_, unload)) => owed + set s | s in unload
    case Moved(Stop(s)) => owed + {s}
    case Swept(ids) => owed + set s | s in ids
    case _ => if op.AckStopped? || op.Fail? then owed - {op.serviceID} else owed
  }

  ghost predicate OwedExactly(rts: Runtimes, owed: set<string>) {
    forall s :: s in owed <==> At(rts, s).phase == Unloading
  }

  lemma AnswerOwes(rts: Runtimes, after: Runtimes, look: Look, r: string, d: Decision, op: Op, owed: set<string>)
    requires OwedExactly(rts, owed) && Answered(rts, after, look, r, d) && (op.Submit? || op.Poll?)
    ensures OwedExactly(after, Owed(owed, op, Decided(d)))
  {
    var next := Owed(owed, op, Decided(d));
    forall s ensures s in next <==> At(after, s).phase == Unloading {
    }
  }

  lemma PollOwes(rts: Runtimes, after: Runtimes, look: Look, d: Decision, owed: set<string>)
    requires OwedExactly(rts, owed) && PollAnswered(rts, after, look, d)
    ensures OwedExactly(after, Owed(owed, Poll(look), Decided(d)))
  {
    if At(rts, look.serviceID).queue != [] {
      var popped := Popped(rts, look.serviceID);
      assert forall s :: At(popped, s).phase == At(rts, s).phase;
      AnswerOwes(popped, after, look, At(rts, look.serviceID).queue[0], d, Poll(look), owed);
    }
  }

  /** No rule of the caller is needed: the replies alone say which services are unloading. */
  lemma StepOwes(rts: Runtimes, locale: Locale, op: Op, owed: set<string>)
    requires OwedExactly(rts, owed)
    ensures OwedExactly(Step(rts, locale, op).0, Owed(owed, op, Step(rts, locale, op).1))
  {
    var (after, reply) := Step(rts, locale, op);
    match op
    case Submit(look, r) =>
      RequestAnswered(rts, locale.collate, look, r);
      AnswerOwes(rts, after, look, r, reply.decision, op, owed);
    case Poll(look) =>
      PollIsAnswered(rts, locale.collate, look);
      PollOwes(rts, after, look, reply.decision, owed);
    case Sweep(services, now) => SweepOwes(rts, locale, services, now, owed);
    case _ => OthersOwe(rts, locale, op, owed);
  }

  lemma SweepOwes(rts: Runtimes, locale: Locale, services: Services, now: int, owed: set<string>)
    requires OwedExactly(rts, owed)
    ensures var op := Sweep(services, now);
            OwedExactly(Step(rts, locale, op).0, Owed(owed, op, Step(rts, locale, op).1))
  {
    SweepEffect(rts, locale, services, now);
  }

  lemma OthersOwe(rts: Runtimes, locale: Locale, op: Op, owed: set<string>)
    requires OwedExactly(rts, owed) && !op.Submit? && !op.Poll? && !op.Sweep?
    ensures OwedExactly(Step(rts, locale, op).0, Owed(owed, op, Step(rts, locale, op).1))
  {}

  function OwedAfter(rts: Runtimes, locale: Locale, ops: seq<Op>, owed: set<string>): set<string>
    decreases |ops|
  {
    if ops == [] then owed
    else var (next, reply) := Step(rts, locale, ops[0]); OwedAfter(next, locale, ops[1..], Owed(owed, ops[0], reply))
  }

  lemma {:induction false} RunOwes(rts: Runtimes, locale: Locale, ops: seq<Op>, owed: set<string>)
    requires OwedExactly(rts, owed)
    ensures OwedExactly(After(rts, locale, ops), OwedAfter(rts, locale, ops, owed))
    decreases |ops|
  {
    if ops != [] {
      StepOwes(rts, locale, ops[0], owed);
      var (next, reply) := Step(rts, locale, ops[0]);
      RunOwes(next, locale, ops[1..], Owed(owed, ops[0], reply));
    }
  }

  /** A refused request moves nothing at all, and a refused poll only takes the head off its queue. */
  lemma RefusalsEvictNobody(rts: Runtimes, locale: Locale, op: Op, s: string)
    requires (op.Submit? || op.Poll?) && Step(rts, locale, op).1.decision.Refused?
    ensures var was, now := At(rts, s), At(Step(rts, locale, op).0, s);
            if op.Poll? && s == op.look.serviceID
            then was.queue != [] && now == was.(queue := was.queue[1..])
            else now == was
  {
    match op
    case Submit(look, r) => RequestAnswered(rts, locale.collate, look, r);
    case Poll(look) => PollIsAnswered(rts, locale.collate, look);
  }

  // ---- draining ----

  /** One round of a caller that has nothing else to do: poll, report the load, report completion. */
  function Round(rts: Runtimes, locale: Locale, look: Look, doneMs: int): (Runtimes, Decision) {
    var (polled, d) := PollStep(rts, locale.collate, look);
    var loaded := if d.Start? then LoadedStep(polled, look.serviceID).0 else polled;
    (CompletedStep(loaded, look.serviceID, doneMs), d)
  }

  function Drain(rts: Runtimes, locale: Locale, rounds: seq<(Look, int)>): (Runtimes, seq<Decision>)
    decreases |rounds|
  {
    if rounds == [] then (rts, [])
    else
      var (next, d) := Round(rts, locale, rounds[0].0, rounds[0].1);
      var (last, ds) := Drain(next, locale, rounds[1..]);
      (last, [d] + ds)
  }

  /** The service is enabled and there is room for its peak; each round may see different ones. */
  predicate Ample(look: Look, s: string) {
    && look.serviceID == s && Enabled(look.services, s)
    && Safe(look.capacity, look.services.info[s].peakBytes)
  }

  lemma RoundServesHead(rts: Runtimes, locale: Locale, look: Look, doneMs: int)
    requires Ample(look, look.serviceID)
    requires var was := At(rts, look.serviceID);
             was.active == None && was.queue != [] && (was.phase == Stopped || was.phase == Ready)
    ensures var was := At(rts, look.serviceID);
            var (after, d) := Round(rts, locale, look, doneMs);
            && d == (if was.phase == Stopped then Start(was.queue[0]) else Run(was.queue[0]))
            && At(after, look.serviceID) == was.(phase := Ready, active := None, queue := was.queue[1..],
                                                 lastUsedMs := doneMs)
            && forall s | s != look.serviceID :: At(after, s) == At(rts, s)
  {
    PollIsAnswered(rts, locale.collate, look);
  }

  /** One answer for each: the first starts a stopped service, every other finds it ready. */
  function Served(queue: seq<string>, cold: bool): seq<Decision> {
    if queue == [] then [] else [if cold then Start(queue[0]) else Run(queue[0])] + Served(queue[1..], false)
  }

  lemma {:induction false} ServedInOrder(queue: seq<string>, cold: bool)
    ensures |Served(queue, cold)| == |queue|
    ensures forall i | 0 <= i < |queue| ::
              Served(queue, cold)[i] == if i == 0 && cold then Start(queue[i]) else Run(queue[i])
  {
    if queue != [] {
      ServedInOrder(queue[1..], false);
    }
  }

  lemma {:induction false} DrainServes(rts: Runtimes, locale: Locale, s: string, rounds: seq<(Look, int)>)
    requires var was := At(rts, s);
             was.active == None && (was.phase == Stopped || was.phase == Ready) && |rounds| == |was.queue|
    requires forall i | 0 <= i < |rounds| :: Ample(rounds[i].0, s)
    ensures var was := At(rts, s);
            var (after, ds) := Drain(rts, locale, rounds);
            && ds == Served(was.queue, was.phase == Stopped)
            && At(after, s).queue == [] && At(after, s).active == None
            && At(after, s).phase == if was.queue == [] then was.phase else Ready
    decreases |rounds|
  {
    if rounds != [] {
      RoundServesHead(rts, locale, rounds[0].0, rounds[0].1);
      DrainServes(Round(rts, locale, rounds[0].0, rounds[0].1).0, locale, s, rounds[1..]);
    }
  }

  /** With room at every round, a waiting queue is served first in, first out, one request a round. */
  lemma DrainIsFirstInFirstOut(rts: Runtimes, locale: Locale, s: string, rounds: seq<(Look, int)>)
    requires var was := At(rts, s);
             was.active == None && (was.phase == Stopped || was.phase == Ready) && |rounds| == |was.queue|
    requires forall i | 0 <= i < |rounds| :: Ample(rounds[i].0, s)
    ensures var was := At(rts, s);
            var (after, ds) := Drain(rts, locale, rounds);
            && |ds| == |was.queue|
            && (forall i | 0 <= i < |ds| ::
                  ds[i] == if i == 0 && was.phase == Stopped then Start(was.queue[i]) else Run(was.queue[i]))
            && At(after, s).queue == [] && At(after, s).active == None
            && At(after, s).phase == if was.queue == [] then was.phase else Ready
  {
    DrainServes(rts, locale, s, rounds);
    ServedInOrder(At(rts, s).queue, At(rts, s).phase == Stopped);
  }
}
