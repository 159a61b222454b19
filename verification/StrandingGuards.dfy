/**
 * Which services a step of the driver strands, read off the state before the step: when the first
 * reading makes a request wait and evict, and the second, taken after the victims have stopped, still
 * does not hold the request at the head of the queue, the next candidates are evicted and never stopped.
 */
module StrandingGuards {
  import opened CapabilityServiceGovernor
  import opened CapabilityServiceRuntime
  import opened EvictionGuards
  import opened GovernorRuns
  import opened Ordering
  import opened RuntimeCoupling
  import opened StrandedServices
  import opened Wrappers

  /** What asking for a service strands, in a state in which the request is not yet waiting. */
  function Stranded(rts: Runtimes, env: Env, collate: string -> real, s: string): seq<string> {
    var all := Candidates(rts, collate, env.services, s);
    var first := Chosen(At(rts, s), env.Look(s), all);
    if first == [] then [] else Chosen(At(rts, s), env.LookAgain(s), all[|first|..])
  }

  /**
   * Something is stranded exactly when: the request has to wait on the first reading, and evicting all
   * candidates would make room; on the second it still has to wait, and evicting all that are left would
   * make room. Stranded are the oldest of those, as few as make room.
   */
  lemma StrandsExactlyWhen(rts: Runtimes, env: Env, collate: string -> real, s: string)
    ensures var all := Candidates(rts, collate, env.services, s);
            var first := Chosen(At(rts, s), env.Look(s), all);
            Stranded(rts, env, collate, s) != [] <==>
            && HasToWait(At(rts, s), env.Look(s)) && MakeRoom(At(rts, s), env.Look(s), all)
            && HasToWait(At(rts, s), env.LookAgain(s)) && MakeRoom(At(rts, s), env.LookAgain(s), all[|first|..])
  {
    var all := Candidates(rts, collate, env.services, s);
    var first := Chosen(At(rts, s), env.Look(s), all);
    ChosenExactly(At(rts, s), env.Look(s), all);
    ChosenExactly(At(rts, s), env.LookAgain(s), all[|first|..]);
  }

  /** An idle service runs nothing, its queue has no duplicates, and r is new to it. */
  ghost predicate New(state: Runtime, r: string) {
    && (state.phase == Stopped || state.phase == Ready ==> state.active == None)
    && NoDuplicates(state.queue)
    && state.active != Some(r) && r !in state.queue
  }

  lemma FirstAnswer(rts: Runtimes, collate: string -> real, look: Look, r: string)
    requires New(At(rts, look.serviceID), r)
    ensures var (after, d) := RequestStep(rts, collate, look, r);
            var all := Candidates(rts, collate, look.services, look.serviceID);
            var was := At(rts, look.serviceID);
            && Unloaded(d) == Chosen(was, look, all)
            && (Unloaded(d) != [] ==>
                  && d.Queued? && look.serviceID !in d.unload
                  && At(after, look.serviceID) == was.(queue := was.queue + [r])
                  && (was.phase == Stopped || was.phase == Ready)
                  && forall v | v != look.serviceID && v !in d.unload :: At(after, v) == At(rts, v))
  {
    RequestUnloads(rts, collate, look, r);
    RequestAnswered(rts, collate, look, r);
    ChosenExactly(At(rts, look.serviceID), look, Candidates(rts, collate, look.services, look.serviceID));
  }

  /** Only the length of a queue decides what is chosen, not who waits in it. */
  lemma ChosenByLength(a: Runtime, b: Runtime, look: Look, all: seq<string>)
    requires a.phase == b.phase && |a.queue| == |b.queue|
    ensures Chosen(a, look, all) == Chosen(b, look, all)
  {}

  /** A poll evicts what asking for the head anew evicts. */
  lemma PollUnloads(rts: Runtimes, collate: string -> real, look: Look)
    requires var was := At(rts, look.serviceID);
             was.queue != [] && was.queue[0] !in was.queue[1..] && was.active != Some(was.queue[0])
    ensures var popped := Popped(rts, look.serviceID);
            Unloaded(PollStep(rts, collate, look).1)
            == Chosen(At(popped, look.serviceID), look, Candidates(popped, collate, look.services, look.serviceID))
  {
    PollAsksAgain(rts, collate, look);
    RequestUnloads(Popped(rts, look.serviceID), collate, look, At(rts, look.serviceID).queue[0]);
  }

  /** Once r has joined the queue, whoever is at its head is new to the rest. */
  lemma HeadIsNew(was: Runtime, r: string)
    requires New(was, r)
    ensures (was.queue + [r])[0] !in (was.queue + [r])[1..]
    ensures was.phase == Stopped || was.phase == Ready ==> was.active != Some((was.queue + [r])[0])
  {}

  /** These services are down, and nobody else but s has changed. */
  ghost predicate Downed(before: Runtimes, after: Runtimes, s: string, gone: seq<string>) {
    && (forall v | v in gone :: Down(after, v))
    && forall v | v != s && v !in gone :: At(after, v) == At(before, v)
  }

  /** The service has not moved, but r has joined its queue. */
  ghost predicate Joined(was: Runtime, now: Runtime, r: string) {
    New(was, r) && (was.phase == Stopped || was.phase == Ready) && now == was.(queue := was.queue + [r])
  }

  lemma PoppedStays(before: Runtimes, after: Runtimes, s: string, gone: seq<string>)
    requires Downed(before, after, s, gone) && s !in gone && At(after, s).queue != []
    ensures Downed(before, Popped(after, s), s, gone)
    ensures At(Popped(after, s), s) == At(after, s).(queue := At(after, s).queue[1..])
  {
    assert forall v | v != s :: At(Popped(after, s), v) == At(after, v);
  }

  lemma CandidatesLeft(rts: Runtimes, after: Runtimes, collate: string -> real, services: Services, s: string, n: nat)
    requires var all := Candidates(rts, collate, services, s); n <= |all| && Downed(rts, after, s, all[..n])
    ensures Candidates(after, collate, services, s) == Candidates(rts, collate, services, s)[n..]
  {
    CandidatesWithout(rts, after, collate, services, s, n);
  }

  /** The second answer chooses among what the first has left. */
  lemma SecondAnswer(rts: Runtimes, stopped: Runtimes, collate: string -> real, look: Look, r: string, n: nat)
    requires var all := Candidates(rts, collate, look.services, look.serviceID);
             n <= |all| && look.serviceID !in all[..n] && Downed(rts, stopped, look.serviceID, all[..n])
    requires Joined(At(rts, look.serviceID), At(stopped, look.serviceID), r)
    ensures Unloaded(PollStep(stopped, collate, look).1)
         == Chosen(At(rts, look.serviceID), look, Candidates(rts, collate, look.services, look.serviceID)[n..])
  {
    var s := look.serviceID;
    HeadIsNew(At(rts, s), r);
    PollUnloads(stopped, collate, look);
    PoppedStays(rts, stopped, s, Candidates(rts, collate, look.services, s)[..n]);
    CandidatesLeft(rts, Popped(stopped, s), collate, look.services, s, n);
    ChosenByLength(At(Popped(stopped, s), s), At(rts, s), look, Candidates(rts, collate, look.services, s)[n..]);
  }

  lemma SecondEvictionIs(h: Host, env: Env, collate: string -> real, s: string, r: string)
    requires New(At(h.rts, s), r)
    ensures var (rts, d) := RequestStep(h.rts, collate, env.Look(s), r);
            SecondEviction(h.(rts := rts), env, collate, s, d) == Stranded(h.rts, env, collate, s)
  {
    var (rts, d) := RequestStep(h.rts, collate, env.Look(s), r);
    FirstAnswer(h.rts, collate, env.Look(s), r);
    if Unloaded(d) != [] {
      ChosenExactly(At(h.rts, s), env.Look(s), Candidates(h.rts, collate, env.services, s));
      VictimsAreDown(h.(rts := rts), h.rts, env, s, d.unload);
      SecondAnswer(h.rts, StopAll(h.(rts := rts), env, d.unload).rts, collate, env.LookAgain(s), r, |d.unload|);
    }
  }

  lemma VictimsAreDown(h: Host, before: Runtimes, env: Env, s: string, victims: seq<string>)
    requires s !in victims && forall v | v != s && v !in victims :: At(h.rts, v) == At(before, v)
    ensures Downed(before, StopAll(h, env, victims).rts, s, victims)
    ensures At(StopAll(h, env, victims).rts, s) == At(h.rts, s)
  {
    StopAllMoves(h, env, victims);
  }

  // ---- calls ----

  /** What a call strands. */
  function CallStranded(h: Host, env: Env, collate: string -> real, s: string, r: string): seq<string> {
    if TurnedAway(h, env, (s, r)) then [] else Stranded(Rearm(h, env, s).rts, env, collate, s)
  }

  lemma NewWhenNotPending(h: Host, env: Env, bound: nat, s: string, r: string)
    requires Coupled(h, env.services, bound) && !TurnedAway(h, env, (s, r))
    ensures New(At(Rearm(h, env, s).rts, s), r)
  {
    assert SoundRuntime(At(h.rts, s), bound);
    assert (s, r) in h.pending.Keys <==> Has(At(h.rts, s), r);
  }

  /** After a call, exactly the services that were unloading and those it strands are. */
  lemma CallStrandsExactly(h: Host, env: Env, bound: nat, collate: string -> real, s: string, r: string, v: string)
    requires Coupled(h, env.services, bound)
    ensures Unloads(Execute(h, env, collate, s, r, true).rts, v)
            <==> Unloads(h.rts, v) || v in CallStranded(h, env, collate, s, r)
  {
    if !TurnedAway(h, env, (s, r)) {
      NewWhenNotPending(h, env, bound, s, r);
      CallLeavesTheSecondEviction(h, env, collate, s, r, v);
      SecondEvictionIs(Issue(Rearm(h, env, s), (s, r)), env, collate, s, r);
    }
  }

  // ---- pumps ----

  /** What the turn of a pump for one service strands: as if its head were asked for anew. */
  function TurnStranded(h: Host, env: Env, collate: string -> real, s: string, stale: Runtime): seq<string> {
    if PumpAsks(h, s, stale) then Stranded(Popped(h.rts, s), env, collate, s) else []
  }

  lemma TurnStrandsExactly(h: Host, env: Env, bound: nat, collate: string -> real, s: string, stale: Runtime, v: string)
    requires Coupled(h, env.services, bound)
    ensures Unloads(PumpOne(h, env, collate, s, stale).rts, v)
            <==> Unloads(h.rts, v) || v in TurnStranded(h, env, collate, s, stale)
  {
    if PumpAsks(h, s, stale) {
      var head := At(h.rts, s).queue[0];
      assert SoundRuntime(At(h.rts, s), bound);
      assert New(At(Popped(h.rts, s), s), head);
      PollAsksAgain(h.rts, collate, env.Look(s));
      PumpOneMoves(h, env, collate, s, stale);
      SecondEvictionIs(h.(rts := Popped(h.rts, s)), env, collate, s, head);
    } else {
      PumpOneIdles(h, env, collate, s, stale);
    }
  }

  /** What a whole pump strands, turn by turn. */
  function PumpStranded(h: Host, envs: string -> Env, collate: string -> real, snapshot: Runtimes,
                        order: seq<string>): set<string>
    decreases |order|
  {
    if order == [] then {}
    else
      var s := order[0];
      (set v | v in TurnStranded(h, envs(s), collate, s, At(snapshot, s)))
      + PumpStranded(PumpOne(h, envs(s), collate, s, At(snapshot, s)), envs, collate, snapshot, order[1..])
  }

  lemma {:induction false} PumpStrandsExactly(h: Host, envs: string -> Env, services: Services, bound: nat,
                                              collate: string -> real,
                                              snapshot: Runtimes, order: seq<string>, v: string)
    requires Coupled(h, services, bound) && Bounds(services, bound) && forall s :: envs(s).services == services
    ensures Unloads(Pump(h, envs, collate, snapshot, order).rts, v)
            <==> Unloads(h.rts, v) || v in PumpStranded(h, envs, collate, snapshot, order)
    decreases |order|
  {
    if order != [] {
      var s := order[0];
      TurnStrandsExactly(h, envs(s), bound, collate, s, At(snapshot, s), v);
      PumpOneKeeps(h, envs(s), services, bound, collate, s, At(snapshot, s));
      PumpStrandsExactly(PumpOne(h, envs(s), collate, s, At(snapshot, s)), envs, services, bound, collate, snapshot,
                         order[1..], v);
    }
  }

  // ---- whole runs ----

  function ActStrands(h: Host, locale: Locale, act: Act): set<string> {
    match act
    case Call(env, s, r, ok) => if ok then set v | v in CallStranded(h, env, locale.collate, s, r) else {}
    case Turn(envs, order) => PumpStranded(h, envs, locale.collate, h.rts, order)
    case _ => {}
  }

  /** The services a reported failure brings down. */
  function Reported(act: Act): set<string> {
    if act.Failure? then {act.serviceID} else {}
  }

  lemma StepStrandsExactly(h: Host, locale: Locale, act: Act, services: Services, bound: nat, v: string)
    requires Coupled(h, services, bound) && Bounds(services, bound) && Sees(act, services)
    ensures Unloads(Take(h, locale, act).rts, v)
            <==> (Unloads(h.rts, v) && v !in Reported(act)) || v in ActStrands(h, locale, act)
  {
    match act
    case Call(env, s, r, ok) =>
      if ok {
        CallStrandsExactly(h, env, bound, locale.collate, s, r, v);
      } else if !TurnedAway(h, env, (s, r)) {
        RearmMoves(h, env, s);
      }
    case Turn(envs, order) => PumpStrandsExactly(h, envs, services, bound, locale.collate, h.rts, order, v);
    case _ => OthersStrandNobody(h, locale, act, v);
  }

  lemma OthersStrandNobody(h: Host, locale: Locale, act: Act, v: string)
    requires !act.Call? && !act.Turn?
    ensures Unloads(Take(h, locale, act).rts, v) <==> Unloads(h.rts, v) && v !in Reported(act)
  {
    match act
    case CancelCall(env, s, r) => CancelStrandsNobody(h, env, s, r, v);
    case Failure(s, reason) => FailServiceMoves(h, s, reason);
    case SweepCall(env) => SweepStrandsNobody(h, locale, env, v);
    case _ =>
  }

  lemma CancelStrandsNobody(h: Host, env: Env, s: string, r: string, v: string)
    ensures Unloads(CancelWaiter(h, env, s, r).rts, v) <==> Unloads(h.rts, v)
  {
    if (s, r) in h.pending {
      var settled := SettleKey(h, (s, r));
      var (rts, t) := CancelStep(settled.rts, s, r);
      if t.Stop? {
        StopOrFailMoves(settled.(rts := rts), env, s);
      }
    }
  }

  lemma SweepStrandsNobody(h: Host, locale: Locale, env: Env, v: string)
    ensures Unloads(SweepIdle(h, env, locale.codeUnits).rts, v) <==> Unloads(h.rts, v)
  {
    SweepEffect(h.rts, locale, env.services, env.nowMs);
    var (rts, victims) := SweepStep(h.rts, locale.codeUnits, env.services, env.nowMs);
    StopAllMoves(h.(rts := rts), env, victims);
  }

  /** What is stranded after a run, from what was stranded before it. */
  function StrandedAfter(h: Host, locale: Locale, acts: seq<Act>, was: set<string>): set<string>
    decreases |acts|
  {
    if acts == [] then was
    else StrandedAfter(Take(h, locale, acts[0]), locale, acts[1..],
                       was - Reported(acts[0]) + ActStrands(h, locale, acts[0]))
  }

  /**
   * After any run with fixed declarations and timely acknowledgements, the services unloading are those
   * that were and every one a call or a pump has stranded, less those whose failure was reported since.
   */
  lemma {:induction false} RunStrandsExactly(h: Host, locale: Locale, acts: seq<Act>, services: Services, bound: nat,
                                             was: set<string>)
    requires Coupled(h, services, bound) && Bounds(services, bound) && AllTimely(h, locale, acts, services)
    requires forall v :: v in was <==> Unloads(h.rts, v)
    ensures forall v :: Unloads(TakeAll(h, locale, acts).rts, v) <==> v in StrandedAfter(h, locale, acts, was)
    decreases |acts|
  {
    if acts != [] {
      var next := was - Reported(acts[0]) + ActStrands(h, locale, acts[0]);
      forall v ensures v in next <==> Unloads(Take(h, locale, acts[0]).rts, v) {
        StepStrandsExactly(h, locale, acts[0], services, bound, v);
      }
      StepKeepsCoupling(h, locale, acts[0], services, bound);
      RunStrandsExactly(Take(h, locale, acts[0]), locale, acts[1..], services, bound, next);
    }
  }
}
