/**
 * What the driver keeps over whole runs, with the declarations fixed: its waiting callers are
 * exactly the requests the governor holds, every waiter is settled exactly once, and no request is
 * executed twice.
 */
module RuntimeCoupling {
  import opened Ordering
  import opened Wrappers
  import opened CapabilityServiceGovernor
  import opened GovernorRuns
  import opened CapabilityServiceRuntime

  // ---- the invariant ----

  predicate Has(state: Runtime, r: string) {
    state.active == Some(r) || r in state.queue
  }

  /** The keys waited on are the requests held. */
  ghost predicate Linked(rts: Runtimes, keys: set<Key>) {
    forall s, r :: (s, r) in keys <==> Has(At(rts, s), r)
  }

  /** A ticket issued is waited on or settled, once; a run was made for it at most once, and for every success. */
  ghost predicate Books(pending: map<Key, Entry>, issued: nat, runs: seq<nat>, settled: seq<Settlement>) {
    && (forall k | k in pending ::
          pending[k].ticket < issued && pending[k].ticket !in SettledTickets(settled)
          && (pending[k].ticket in runs ==> pending[k].running))
    && (forall k, l | k in pending && l in pending && k != l :: pending[k].ticket != pending[l].ticket)
    && (forall t: nat | t < issued :: t in SettledTickets(settled) || Waits(pending, t))
    && NoDuplicates(SettledTickets(settled)) && (forall t | t in SettledTickets(settled) :: t < issued)
    && NoDuplicates(runs) && (forall t | t in runs :: t < issued)
    && (forall i | 0 <= i < |settled| :: settled[i].succeeded ==> settled[i].ticket in runs)
  }

  ghost predicate Ledger(h: Host) {
    Books(h.pending, h.issued, h.runs, h.settled)
  }

  ghost predicate Waits(pending: map<Key, Entry>, t: nat) {
    exists k :: k in pending && pending[k].ticket == t
  }

  /** Declared limits hold, and only enabled services hold requests. */
  ghost predicate Fit(rts: Runtimes, services: Services) {
    forall s :: FitAt(At(rts, s), services, s)
  }

  ghost predicate FitAt(state: Runtime, services: Services, s: string) {
    && (state.active.Some? || state.queue != [] ==> Enabled(services, s))
    && (Enabled(services, s) ==> |state.queue| <= Limit(services.info[s]))
  }

  predicate Bounds(services: Services, bound: nat) {
    forall s | s in services.info :: Limit(services.info[s]) <= bound
  }

  /** Between steps nothing is loading, and exactly the active request's run is under way. */
  ghost predicate CalmAt(h: Host, s: string) {
    && At(h.rts, s).phase != Loading
    && forall r | (s, r) in h.pending ::
         && (h.pending[(s, r)].running <==> At(h.rts, s).active == Some(r))
         && (h.pending[(s, r)].running ==> h.pending[(s, r)].ticket in h.runs)
  }

  ghost predicate Core(h: Host, services: Services, bound: nat) {
    && Sound(h.rts, bound) && Fit(h.rts, services) && Linked(h.rts, h.pending.Keys) && Ledger(h)
  }

  ghost predicate Coupled(h: Host, services: Services, bound: nat) {
    Core(h, services, bound) && forall s :: CalmAt(h, s)
  }

  /** Inside a step: what an answer for service s leaves to be done. */
  ghost predicate Posed(h: Host, services: Services, bound: nat, s: string, d: Decision) {
    && Core(h, services, bound)
    && (forall t | t != s :: CalmAt(h, t))
    && match d
       case Start(id) => At(h.rts, s).phase == Loading && At(h.rts, s).active == Some(id) && NoneRuns(h, s)
       case Run(id) => At(h.rts, s).phase == Busy && At(h.rts, s).active == Some(id) && NoneRuns(h, s)
       case _ => CalmAt(h, s)
  }

  ghost predicate NoneRuns(h: Host, s: string) {
    forall r | (s, r) in h.pending :: !h.pending[(s, r)].running
  }

  // ---- settling ----

  lemma TicketsGrow(settled: seq<Settlement>, t: nat, ok: bool)
    ensures SettledTickets(settled + [Settlement(t, ok)]) == SettledTickets(settled) + [t]
  {
  }

  lemma SettleKeyKeepsLedger(h: Host, key: Key)
    requires Ledger(h)
    ensures Ledger(SettleKey(h, key))
  {
    if key in h.pending {
      var t := h.pending[key].ticket;
      var after := SettleKey(h, key);
      TicketsGrow(h.settled, t, false);
      forall u: nat | u < h.issued ensures u in SettledTickets(after.settled) || Waits(after.pending, u) {
        if u != t && u !in SettledTickets(h.settled) {
          var k :| k in h.pending && h.pending[k].ticket == u;
          assert k in after.pending;
        }
      }
    }
  }

  lemma {:induction false} SettleAllKeepsLedger(h: Host, s: string, ids: seq<string>)
    requires Ledger(h)
    ensures Ledger(SettleAll(h, s, ids))
    decreases |ids|
  {
    if ids != [] {
      SettleKeyKeepsLedger(h, (s, ids[0]));
      SettleAllKeepsLedger(SettleKey(h, (s, ids[0])), s, ids[1..]);
    }
  }

  lemma {:induction false} SettleAllEffect(h: Host, s: string, ids: seq<string>)
    ensures var after := SettleAll(h, s, ids);
            && after == h.(pending := after.pending, settled := after.settled)
            && (forall k :: k in after.pending <==> k in h.pending && !(k.0 == s && k.1 in ids))
            && (forall k | k in after.pending :: after.pending[k] == h.pending[k])
    decreases |ids|
  {
    if ids != [] {
      SettleAllEffect(SettleKey(h, (s, ids[0])), s, ids[1..]);
      assert ids == [ids[0]] + ids[1..];
    }
  }

  // ---- failing and stopping a service ----

  lemma FailedEffect(rts: Runtimes, s: string, reason: string)
    ensures var (after, affected) := FailedStep(rts, s, reason);
            && (forall r :: r in affected <==> Has(At(rts, s), r))
            && At(after, s) == At(rts, s).(phase := Unavailable, active := None, queue := [], reason := Some(reason))
            && forall t | t != s :: At(after, t) == At(rts, t)
  {
  }

  /** Failing a service settles its waiters and leaves everything else as it was. */
  lemma FailServiceKeeps(h: Host, services: Services, bound: nat, s: string, reason: string)
    requires Core(h, services, bound) && forall t | t != s :: CalmAt(h, t)
    ensures Coupled(FailService(h, s, reason), services, bound)
    ensures forall r :: (s, r) !in FailService(h, s, reason).pending
    ensures At(FailService(h, s, reason).rts, s).active == None
    ensures forall t | t != s :: At(FailService(h, s, reason).rts, t) == At(h.rts, t)
  {
    var (rts, affected) := FailedStep(h.rts, s, reason);
    var mid := h.(rts := rts, loaded := h.loaded - {s});
    FailedEffect(h.rts, s, reason);
    assert Ledger(mid);
    SettleAllKeepsLedger(mid, s, affected);
    SettleAllEffect(mid, s, affected);
    var after := SettleAll(mid, s, affected);
    forall t, r ensures (t, r) in after.pending.Keys <==> Has(At(rts, t), r) {
      assert (t, r) in h.pending.Keys <==> Has(At(h.rts, t), r);
    }
    forall t ensures SoundRuntime(At(rts, t), bound) && FitAt(At(rts, t), services, t) {
      assert SoundRuntime(At(h.rts, t), bound) && FitAt(At(h.rts, t), services, t);
    }
    forall t ensures CalmAt(after, t) {
      if t != s { assert CalmAt(h, t); }
    }
  }

  /** A service that holds the same requests in another phase is coupled alike. */
  lemma PhaseIsFree(h: Host, rts: Runtimes, services: Services, bound: nat, s: string)
    requires Coupled(h, services, bound) && forall t | t != s :: At(rts, t) == At(h.rts, t)
    requires At(rts, s).active == At(h.rts, s).active && At(rts, s).queue == At(h.rts, s).queue
    requires SoundRuntime(At(rts, s), bound) && At(rts, s).phase != Loading
    ensures Coupled(h.(rts := rts), services, bound)
  {
    var after := h.(rts := rts);
    assert Ledger(after);
    forall t ensures FitAt(At(rts, t), services, t) && CalmAt(after, t) {
      assert FitAt(At(h.rts, t), services, t) && CalmAt(h, t);
    }
    forall t ensures SoundRuntime(At(rts, t), bound) {
      assert SoundRuntime(At(h.rts, t), bound);
    }
    forall t, r ensures (t, r) in after.pending.Keys <==> Has(At(rts, t), r) {
      assert (t, r) in h.pending.Keys <==> Has(At(h.rts, t), r);
    }
  }

  lemma StopKeeps(h: Host, services: Services, bound: nat, s: string)
    requires Coupled(h, services, bound) && At(h.rts, s).active == None
    ensures Coupled(h.(rts := StoppedStep(h.rts, s)), services, bound)
  {
    assert SoundRuntime(At(h.rts, s), bound);
    PhaseIsFree(h, StoppedStep(h.rts, s), services, bound, s);
  }

  /** Which declarations the worker holds does not matter to the coupling. */
  lemma LoadedIsFree(h: Host, services: Services, bound: nat, loaded: map<string, Info>, attempted: map<string, Info>)
    requires Coupled(h, services, bound)
    ensures Coupled(h.(loaded := loaded, attempted := attempted), services, bound)
  {
    var after := h.(loaded := loaded, attempted := attempted);
    assert Ledger(after);
    forall t ensures CalmAt(after, t) {
      assert CalmAt(h, t);
    }
  }

  lemma StopOrFailKeeps(h: Host, env: Env, services: Services, bound: nat, s: string)
    requires Coupled(h, services, bound) && At(h.rts, s).active == None
    ensures Coupled(StopOrFail(h, env, s), services, bound)
    ensures At(StopOrFail(h, env, s).rts, s).active == None
    ensures forall t | t != s :: At(StopOrFail(h, env, s).rts, t) == At(h.rts, t)
  {
    var quiet := h.(loaded := h.loaded - {s});
    LoadedIsFree(h, services, bound, quiet.loaded, h.attempted);
    if env.stopOk(s) {
      StopKeeps(quiet, services, bound, s);
    } else {
      FailServiceKeeps(quiet, services, bound, s, env.reason);
    }
  }

  lemma {:induction false} StopAllKeeps(h: Host, env: Env, services: Services, bound: nat, ids: seq<string>)
    requires Coupled(h, services, bound) && forall v | v in ids :: At(h.rts, v).active == None
    ensures Coupled(StopAll(h, env, ids), services, bound)
    decreases |ids|
  {
    if ids != [] {
      StopOrFailKeeps(h, env, services, bound, ids[0]);
      var next := StopOrFail(h, env, ids[0]);
      forall v | v in ids[1..] ensures At(next.rts, v).active == None {
      }
      StopAllKeeps(next, env, services, bound, ids[1..]);
    }
  }

  // ---- asking the governor ----

  /** The moment before the governor answers: everything is coupled but the entry of r, which it does not hold. */
  ghost predicate Asking(rts: Runtimes, h: Host, services: Services, s: string, r: string) {
    && r !in At(rts, s).queue && At(rts, s).active != Some(r)
    && Fit(rts, services) && Ledger(h)
    && (forall t, x :: (t, x) in h.pending.Keys <==> (Has(At(rts, t), x) || (t, x) == (s, r)))
    && (forall t :: At(rts, t).phase != Loading)
    && (forall k | k in h.pending ::
          && (h.pending[k].running <==> At(rts, k.0).active == Some(k.1))
          && (h.pending[k].running ==> h.pending[k].ticket in h.runs))
  }

  lemma AnswerHolds(was: Runtime, now: Runtime, admits: bool, look: Look, r: string, d: Decision, bound: nat)
    requires SoundRuntime(was, bound) && AnsweredAtTarget(was, now, admits, look, r, d) && !d.Refused?
    requires r !in was.queue && was.active != Some(r)
    ensures forall x :: Has(now, x) <==> Has(was, x) || x == r
  {
  }

  lemma AnswerLinks(rts: Runtimes, h: Host, services: Services, bound: nat, look: Look, r: string, d: Decision)
    requires Sound(rts, bound) && Answered(rts, h.rts, look, r, d) && !d.Refused? && look.services == services
    requires Asking(rts, h, services, look.serviceID, r)
    ensures Fit(h.rts, services) && Linked(h.rts, h.pending.Keys)
  {
    var s := look.serviceID;
    assert SoundRuntime(At(rts, s), bound);
    AnswerHolds(At(rts, s), At(h.rts, s), Admits(rts, look, r), look, r, d, bound);
    forall t ensures FitAt(At(h.rts, t), services, t) {
      assert FitAt(At(rts, t), services, t);
    }
    forall t, x ensures (t, x) in h.pending.Keys <==> Has(At(h.rts, t), x) {
      assert (t, x) in h.pending.Keys <==> (Has(At(rts, t), x) || (t, x) == (s, r));
    }
  }

  /** What an answer that is not a refusal leaves to be done. */
  lemma AnswerPoses(rts: Runtimes, h: Host, services: Services, bound: nat, look: Look, r: string, d: Decision)
    requires Sound(rts, bound) && Answered(rts, h.rts, look, r, d) && !d.Refused?
    requires look.services == services && Bounds(services, bound)
    requires Asking(rts, h, services, look.serviceID, r)
    ensures Posed(h, services, bound, look.serviceID, d)
    ensures d.Queued? ==> forall v | v in d.unload :: At(h.rts, v).active == None
  {
    var s := look.serviceID;
    AnswerKeepsSound(rts, h.rts, look, r, d, bound);
    AnswerLinks(rts, h, services, bound, look, r, d);
    forall t | t != s ensures CalmAt(h, t) {
    }
    assert SoundRuntime(At(rts, s), bound);
    if d.Queued? {
      assert CalmAt(h, s);
      forall v | v in d.unload ensures At(h.rts, v).active == None {
        assert SoundRuntime(At(rts, v), bound);
      }
    }
  }

  /** In a coupled state nothing but an entry of its own is missing for a new request. */
  lemma CoupledAsks(h: Host, services: Services, bound: nat, s: string, r: string)
    requires Coupled(h, services, bound) && (s, r) !in h.pending
    ensures Asking(h.rts, Issue(h, (s, r)), services, s, r)
  {
    var after := Issue(h, (s, r));
    assert (s, r) in h.pending.Keys <==> Has(At(h.rts, s), r);
    assert Ledger(after) by {
      IssueKeepsLedger(h, (s, r));
    }
    forall t ensures At(h.rts, t).phase != Loading {
      assert CalmAt(h, t);
    }
    forall t, x ensures (t, x) in after.pending.Keys <==> (Has(At(h.rts, t), x) || (t, x) == (s, r)) {
      assert (t, x) in h.pending.Keys <==> Has(At(h.rts, t), x);
    }
    forall k | k in after.pending
      ensures (after.pending[k].running <==> At(h.rts, k.0).active == Some(k.1))
              && (after.pending[k].running ==> after.pending[k].ticket in after.runs) {
      if k != (s, r) {
        assert CalmAt(h, k.0) && k == (k.0, k.1);
      }
    }
  }

  /** The head a poll took off is in the same position as a new request. */
  lemma PoppedAsks(h: Host, services: Services, bound: nat, s: string)
    requires Coupled(h, services, bound) && At(h.rts, s).queue != []
    ensures Asking(Popped(h.rts, s), h, services, s, At(h.rts, s).queue[0])
  {
    var popped := Popped(h.rts, s);
    var head := At(h.rts, s).queue[0];
    PopKeepsSound(h.rts, s, bound);
    PoppedHas(h.rts, s);
    forall t ensures FitAt(At(popped, t), services, t) && At(popped, t).phase != Loading {
      assert FitAt(At(h.rts, t), services, t) && CalmAt(h, t);
    }
    forall t, x ensures (t, x) in h.pending.Keys <==> (Has(At(popped, t), x) || (t, x) == (s, head)) {
      assert (t, x) in h.pending.Keys <==> Has(At(h.rts, t), x);
    }
    forall k | k in h.pending
      ensures (h.pending[k].running <==> At(popped, k.0).active == Some(k.1))
              && (h.pending[k].running ==> h.pending[k].ticket in h.runs) {
      assert CalmAt(h, k.0) && k == (k.0, k.1);
    }
  }

  lemma PollPoses(h: Host, services: Services, bound: nat, collate: string -> real, look: Look)
    requires Coupled(h, services, bound) && look.services == services && Bounds(services, bound)
    ensures var (rts, d) := PollStep(h.rts, collate, look);
            && Posed(h.(rts := rts), services, bound, look.serviceID, d) && !d.Refused?
            && (d.Queued? ==> forall v | v in d.unload :: At(rts, v).active == None)
  {
    var (rts, d) := PollStep(h.rts, collate, look);
    var s := look.serviceID;
    var was := At(h.rts, s);
    var after := h.(rts := rts);
    PollIsAnswered(h.rts, collate, look);
    PollRefusesExactly(h.rts, collate, look, bound);
    assert FitAt(was, services, s);
    if was.queue == [] {
      SameCoupling(h, after, services, bound);
    } else {
      PopKeepsSound(h.rts, s, bound);
      PoppedAsks(h, services, bound, s);
      assert Asking(Popped(h.rts, s), after, services, s, was.queue[0]);
      AnswerPoses(Popped(h.rts, s), after, services, bound, look, was.queue[0], d);
    }
  }

  lemma PoppedHas(rts: Runtimes, s: string)
    requires At(rts, s).queue != []
    ensures forall t, x :: Has(At(rts, t), x) <==> Has(At(Popped(rts, s), t), x) || (t, x) == (s, At(rts, s).queue[0])
  {
    var q := At(rts, s).queue;
    assert q == [q[0]] + q[1..];
  }

  // ---- the pieces of one step ----

  /** A new entry's request: refused, and then its entry is the one key too many, or an answer to act on. */
  lemma RequestPoses(h: Host, services: Services, bound: nat, collate: string -> real, look: Look, r: string)
    requires Coupled(h, services, bound) && look.services == services && Bounds(services, bound)
    requires (look.serviceID, r) !in h.pending
    ensures var (rts, d) := RequestStep(h.rts, collate, look, r);
            var after := Issue(h, (look.serviceID, r)).(rts := rts);
            if d.Refused? then Coupled(SettleKey(after, (look.serviceID, r)), services, bound)
            else && Posed(after, services, bound, look.serviceID, d)
                 && (d.Queued? ==> forall v | v in d.unload :: At(rts, v).active == None)
  {
    var s := look.serviceID;
    var (rts, d) := RequestStep(h.rts, collate, look, r);
    var after := Issue(h, (s, r)).(rts := rts);
    RequestAnswered(h.rts, collate, look, r);
    CoupledAsks(h, services, bound, s, r);
    assert Asking(h.rts, after, services, s, r);
    if d.Refused? {
      RefusalKeeps(h, services, bound, look, r, rts, d);
    } else {
      AnswerPoses(h.rts, after, services, bound, look, r, d);
    }
  }

  lemma RefusalKeeps(h: Host, services: Services, bound: nat, look: Look, r: string, rts: Runtimes, d: Decision)
    requires Coupled(h, services, bound) && (look.serviceID, r) !in h.pending
    requires Answered(h.rts, rts, look, r, d) && d.Refused?
    ensures Coupled(SettleKey(Issue(h, (look.serviceID, r)).(rts := rts), (look.serviceID, r)), services, bound)
  {
    var key := (look.serviceID, r);
    IssuedAndSettled(h, rts, key);
    SameCoupling(h, SettleKey(Issue(h, key).(rts := rts), key), services, bound);
  }

  /** A waiter made and settled at once leaves the books in order. */
  lemma IssuedAndSettled(h: Host, rts: Runtimes, key: Key)
    requires Ledger(h) && key !in h.pending
    ensures var done := SettleKey(Issue(h, key).(rts := rts), key);
            Ledger(done) && done.pending == h.pending && done.runs == h.runs && done.rts == rts
  {
    IssueKeepsLedger(h, key);
    SettleKeyKeepsLedger(Issue(h, key).(rts := rts), key);
  }

  /** Records that read the same and the same waiters are coupled alike. */
  lemma SameCoupling(h: Host, after: Host, services: Services, bound: nat)
    requires Coupled(h, services, bound) && Ledger(after)
    requires after.pending == h.pending && after.runs == h.runs && forall t :: At(after.rts, t) == At(h.rts, t)
    ensures Coupled(after, services, bound)
  {
    forall t ensures SoundRuntime(At(after.rts, t), bound) && FitAt(At(after.rts, t), services, t) && CalmAt(after, t) {
      assert SoundRuntime(At(h.rts, t), bound) && FitAt(At(h.rts, t), services, t) && CalmAt(h, t);
    }
  }

  lemma IssueKeepsLedger(h: Host, key: Key)
    requires Ledger(h) && key !in h.pending
    ensures Ledger(Issue(h, key))
  {
    var after := Issue(h, key);
    forall t: nat | t < after.issued ensures t in SettledTickets(after.settled) || Waits(after.pending, t) {
      if t == h.issued {
        assert after.pending[key].ticket == t;
      } else if t !in SettledTickets(h.settled) {
        var k :| k in h.pending && h.pending[k].ticket == t;
        assert k in after.pending && after.pending[k].ticket == t;
      }
    }
  }

  lemma LoadedPoses(h: Host, services: Services, bound: nat, s: string, id: string)
    requires Posed(h, services, bound, s, Start(id))
    ensures LoadedStep(h.rts, s).1 == RunNow(id)
    ensures Posed(h.(rts := LoadedStep(h.rts, s).0), services, bound, s, Run(id))
  {
    var after := h.(rts := LoadedStep(h.rts, s).0);
    forall t ensures SoundRuntime(At(after.rts, t), bound) && FitAt(At(after.rts, t), services, t) {
      assert SoundRuntime(At(h.rts, t), bound) && FitAt(At(h.rts, t), services, t);
    }
    forall t, r ensures (t, r) in after.pending.Keys <==> Has(At(after.rts, t), r) {
      assert (t, r) in h.pending.Keys <==> Has(At(h.rts, t), r);
    }
    forall t | t != s ensures CalmAt(after, t) {
      assert CalmAt(h, t);
    }
  }

  lemma StartPoses(h: Host, env: Env, services: Services, bound: nat, collate: string -> real, s: string, id: string)
    requires Posed(h, services, bound, s, Start(id)) && env.services == services
    ensures var (after, d) := Prepare(h, env, collate, s, Start(id));
            && Posed(after, services, bound, s, d) && !d.Start?
            && (d.Refused? ==> forall r :: (s, r) !in after.pending)
  {
    assert FitAt(At(h.rts, s), services, s);
    var tried := h.(attempted := h.attempted[s := services.info[s]]);
    assert forall t | t != s :: CalmAt(tried, t) by {
      forall t | t != s ensures CalmAt(tried, t) {
        assert CalmAt(h, t);
      }
    }
    if env.startOk {
      assert Posed(tried, services, bound, s, Start(id));
      LoadedPoses(tried, services, bound, s, id);
      var ran := tried.(rts := LoadedStep(tried.rts, s).0);
      var after := ran.(loaded := tried.loaded[s := services.info[s]]);
      forall t | t != s ensures CalmAt(after, t) {
        assert CalmAt(ran, t);
      }
    } else {
      FailServiceKeeps(tried, services, bound, s, env.reason);
    }
  }

  lemma PrepareKeeps(h: Host, env: Env, services: Services, bound: nat, collate: string -> real, s: string, d: Decision)
    requires Posed(h, services, bound, s, d) && env.services == services && Bounds(services, bound) && !d.Refused?
    requires d.Queued? ==> forall v | v in d.unload :: At(h.rts, v).active == None
    ensures var (after, d1) := Prepare(h, env, collate, s, d);
            && Posed(after, services, bound, s, d1) && !d1.Start?
            && (d1.Refused? ==> forall r :: (s, r) !in after.pending)
  {
    if d.Queued? && d.unload != [] {
      StopAllKeeps(h, env, services, bound, d.unload);
      var stopped := StopAll(h, env, d.unload);
      PollPoses(stopped, services, bound, collate, env.LookAgain(s));
      var (rts, again) := PollStep(stopped.rts, collate, env.LookAgain(s));
      var asked := stopped.(rts := rts);
      if again.Start? {
        StartPoses(asked, env, services, bound, collate, s, again.requestID);
        assert Prepare(h, env, collate, s, d) == Prepare(asked, env, collate, s, again);
      } else {
        assert Prepare(h, env, collate, s, d) == (asked, again);
      }
    } else if d.Start? {
      StartPoses(h, env, services, bound, collate, s, d.requestID);
    }
  }

  lemma BeginKeepsBooks(h: Host, key: Key)
    requires Ledger(h) && key in h.pending
    ensures Ledger(h.(pending := h.pending[key := h.pending[key].(running := true)]))
  {
    var begun := h.pending[key := h.pending[key].(running := true)];
    forall t: nat | t < h.issued ensures t in SettledTickets(h.settled) || Waits(begun, t) {
      if t !in SettledTickets(h.settled) {
        var k :| k in h.pending && h.pending[k].ticket == t;
        assert k in begun && begun[k].ticket == t;
      }
    }
  }

  lemma RunKeepsBooks(h: Host, key: Key)
    requires Ledger(h) && key in h.pending && h.pending[key].running && h.pending[key].ticket !in h.runs
    ensures Ledger(h.(runs := h.runs + [h.pending[key].ticket]))
  {
  }

  /** Marking the active entry as running, with its run recorded, is what makes the service calm. */
  lemma RunKeeps(h: Host, services: Services, bound: nat, s: string, id: string)
    requires Posed(h, services, bound, s, Run(id))
    ensures (s, id) in h.pending
    ensures var entry := h.pending[(s, id)];
            var ran := h.(pending := h.pending[(s, id) := entry.(running := true)], runs := h.runs + [entry.ticket]);
            Coupled(ran, services, bound)
  {
    assert (s, id) in h.pending.Keys <==> Has(At(h.rts, s), id);
    var entry := h.pending[(s, id)];
    assert entry.ticket !in h.runs;
    var ran := h.(pending := h.pending[(s, id) := entry.(running := true)], runs := h.runs + [entry.ticket]);
    assert ran.pending.Keys == h.pending.Keys;
    BeginKeepsBooks(h, (s, id));
    RunKeepsBooks(h.(pending := ran.pending), (s, id));
    assert Ledger(ran);
    forall t ensures CalmAt(ran, t) {
      if t != s { assert CalmAt(h, t); }
    }
  }

  /** Failing a service also clears an entry whose dispatch had begun. */
  lemma BegunFailKeeps(h: Host, services: Services, bound: nat, s: string, id: string, reason: string,
                       attempted: map<string, Info>)
    requires Posed(h, services, bound, s, Run(id)) && (s, id) in h.pending
    ensures var entry := h.pending[(s, id)];
            var begun := h.(pending := h.pending[(s, id) := entry.(running := true)], attempted := attempted);
            Coupled(FailService(begun, s, reason), services, bound)
  {
    var entry := h.pending[(s, id)];
    var begun := h.(pending := h.pending[(s, id) := entry.(running := true)], attempted := attempted);
    assert begun.pending.Keys == h.pending.Keys;
    BeginKeepsBooks(h, (s, id));
    assert Ledger(begun);
    forall t | t != s ensures CalmAt(begun, t) {
      assert CalmAt(h, t);
    }
    FailServiceKeeps(begun, services, bound, s, reason);
  }

  lemma DispatchKeeps(h: Host, env: Env, services: Services, bound: nat, s: string, id: string)
    requires Posed(h, services, bound, s, Run(id)) && env.services == services
    ensures (s, id) in h.pending && Coupled(Dispatch(h, env, (s, id)), services, bound)
  {
    RunKeeps(h, services, bound, s, id);
    assert FitAt(At(h.rts, s), services, s);
    var info := services.info[s];
    var entry := h.pending[(s, id)];
    var ran := h.(pending := h.pending[(s, id) := entry.(running := true)], runs := h.runs + [entry.ticket]);
    assert s in h.rts;
    if s in h.loaded && h.loaded[s] == info {
      assert Dispatch(h, env, (s, id)) == ran;
    } else if env.refreshOk {
      LoadedIsFree(ran, services, bound, h.loaded[s := info], h.attempted[s := info]);
    } else {
      BegunFailKeeps(h, services, bound, s, id, env.reason, h.attempted[s := info]);
    }
  }

  lemma LaunchKeeps(h: Host, env: Env, services: Services, bound: nat, s: string, r: string, d: Decision)
    requires Posed(h, services, bound, s, d) && env.services == services && !d.Start?
    requires d.Refused? ==> (s, r) !in h.pending
    ensures Coupled(Launch(h, env, s, r, d), services, bound)
  {
    if d.Run? {
      DispatchKeeps(h, env, services, bound, s, d.requestID);
    }
  }

  // ---- whole steps and whole runs ----

  datatype Act =
    | Call(env: Env, serviceID: string, requestID: string, payloadOk: bool)
    | Turn(envs: string -> Env, order: seq<string>)
    | CancelCall(env: Env, serviceID: string, requestID: string)
    | Failure(serviceID: string, reason: string)
    | Rearming(serviceID: string)
    | SweepCall(env: Env)
    | RunOk(key: Key, ticket: nat, nowMs: int)

  /** A failed run, a failed health check and the public `failed` are one and the same step, Failure. */
  function Take(h: Host, locale: Locale, act: Act): Host {
    match act
    case Call(env, s, r, ok) => Execute(h, env, locale.collate, s, r, ok)
    case Turn(envs, order) => Pump(h, envs, locale.collate, h.rts, order)
    case CancelCall(env, s, r) => CancelWaiter(h, env, s, r)
    case Failure(s, reason) => FailService(h, s, reason)
    case Rearming(s) => h.(rts := RetryStep(h.rts, s).0)
    case SweepCall(env) => SweepIdle(h, env, locale.codeUnits)
    case RunOk(key, ticket, now) => RunSucceeded(h, key, ticket, now)
  }

  /** The declarations a step sees are these. */
  ghost predicate Sees(act: Act, services: Services) {
    match act
    case Call(env, _, _, _) => env.services == services
    case Turn(envs, _) => forall s :: envs(s).services == services
    case CancelCall(env, _, _) => env.services == services
    case SweepCall(env) => env.services == services
    case _ => true
  }

  /** An acknowledgement for the request that is active and busy, or a late one that finds nothing left to do. */
  predicate Timely(h: Host, act: Act) {
    act.RunOk? ==>
      if At(h.rts, act.key.0).phase == Busy
      then At(h.rts, act.key.0).active == Some(act.key.1) && act.key in h.pending
        && h.pending[act.key].ticket == act.ticket
      else act.key !in h.pending && act.ticket in SettledTickets(h.settled)
  }

  lemma RetryKeeps(h: Host, services: Services, bound: nat, s: string)
    requires Coupled(h, services, bound)
    ensures Coupled(h.(rts := RetryStep(h.rts, s).0), services, bound)
  {
    assert SoundRuntime(At(h.rts, s), bound) && CalmAt(h, s);
    PhaseIsFree(h, RetryStep(h.rts, s).0, services, bound, s);
  }

  /** An answer that is no refusal, carried out and launched, couples the driver again. */
  lemma CarriedOutKeeps(h: Host, env: Env, services: Services, bound: nat, collate: string -> real, s: string,
                        r: string, d: Decision)
    requires Posed(h, services, bound, s, d) && env.services == services && Bounds(services, bound) && !d.Refused?
    requires d.Queued? ==> forall v | v in d.unload :: At(h.rts, v).active == None
    ensures var (ready, d1) := Prepare(h, env, collate, s, d); Coupled(Launch(ready, env, s, r, d1), services, bound)
  {
    PrepareKeeps(h, env, services, bound, collate, s, d);
    var (ready, d1) := Prepare(h, env, collate, s, d);
    LaunchKeeps(ready, env, services, bound, s, r, d1);
  }

  lemma ExecuteKeeps(h: Host, env: Env, services: Services, bound: nat, collate: string -> real, s: string, r: string,
                     ok: bool)
    requires Coupled(h, services, bound) && env.services == services && Bounds(services, bound)
    ensures Coupled(Execute(h, env, collate, s, r, ok), services, bound)
  {
    if !TurnedAway(h, env, (s, r)) {
      RetryKeeps(h, services, bound, s);
      if ok {
        AdmitKeeps(Rearm(h, env, s), env, services, bound, collate, s, r);
      }
    }
  }

  lemma AdmitKeeps(h: Host, env: Env, services: Services, bound: nat, collate: string -> real, s: string, r: string)
    requires Coupled(h, services, bound) && env.services == services && Bounds(services, bound) && (s, r) !in h.pending
    ensures Coupled(Admit(Issue(h, (s, r)), env, collate, s, r), services, bound)
  {
    RequestPoses(h, services, bound, collate, env.Look(s), r);
    var (rts, d) := RequestStep(h.rts, collate, env.Look(s), r);
    var asked := Issue(h, (s, r)).(rts := rts);
    if d.Refused? {
      assert Prepare(asked, env, collate, s, d) == (asked, d);
    } else {
      CarriedOutKeeps(asked, env, services, bound, collate, s, r, d);
    }
  }

  /** A head nobody waits for is no longer held, so withdrawing it changes nothing. */
  lemma StaleHeadKeeps(h: Host, services: Services, bound: nat, s: string, r: string)
    requires Coupled(h, services, bound) && (s, r) !in h.pending
    ensures Coupled(h.(rts := CancelStep(h.rts, s, r).0), services, bound)
  {
    assert (s, r) in h.pending.Keys <==> Has(At(h.rts, s), r);
    SameCoupling(h, h.(rts := CancelStep(h.rts, s, r).0), services, bound);
  }

  lemma PumpOneKeeps(h: Host, env: Env, services: Services, bound: nat, collate: string -> real, s: string,
                     stale: Runtime)
    requires Coupled(h, services, bound) && env.services == services && Bounds(services, bound)
    ensures Coupled(PumpOne(h, env, collate, s, stale), services, bound)
  {
    if stale.queue != [] && (stale.phase == Stopped || stale.phase == Ready) {
      var r := stale.queue[0];
      if (s, r) !in h.pending {
        StaleHeadKeeps(h, services, bound, s, r);
      } else {
        PollPoses(h, services, bound, collate, env.Look(s));
        var (rts, d) := PollStep(h.rts, collate, env.Look(s));
        CarriedOutKeeps(h.(rts := rts), env, services, bound, collate, s, r, d);
      }
    }
  }

  lemma {:induction false} PumpKeeps(h: Host, envs: string -> Env, services: Services, bound: nat,
                                     collate: string -> real, snapshot: Runtimes, order: seq<string>)
    requires Coupled(h, services, bound) && Bounds(services, bound) && forall s :: envs(s).services == services
    ensures Coupled(Pump(h, envs, collate, snapshot, order), services, bound)
    decreases |order|
  {
    if order != [] {
      PumpOneKeeps(h, envs(order[0]), services, bound, collate, order[0], At(snapshot, order[0]));
      PumpKeeps(PumpOne(h, envs(order[0]), collate, order[0], At(snapshot, order[0])), envs, services, bound, collate,
                snapshot, order[1..]);
    }
  }

  /** Settling a waiter and withdrawing its request keep step. */
  lemma WithdrawKeeps(h: Host, services: Services, bound: nat, s: string, r: string)
    requires Coupled(h, services, bound) && (s, r) in h.pending
    ensures var settled := SettleKey(h, (s, r));
            var (rts, t) := CancelStep(settled.rts, s, r);
            Coupled(settled.(rts := rts), services, bound) && (t.Stop? ==> At(rts, s).active == None)
  {
    var settled := SettleKey(h, (s, r));
    var rts := CancelStep(h.rts, s, r).0;
    var after := settled.(rts := rts);
    SettleKeyKeepsLedger(h, (s, r));
    assert Ledger(after);
    CancelKeepsSound(h.rts, s, r, bound);
    CancelWithdraws(h.rts, s, r, bound);
    assert (s, r) in h.pending.Keys <==> Has(At(h.rts, s), r);
    assert CalmAt(h, s) && SoundRuntime(At(h.rts, s), bound);
    forall t ensures FitAt(At(rts, t), services, t) && CalmAt(after, t) {
      assert FitAt(At(h.rts, t), services, t) && CalmAt(h, t);
    }
    forall t, x ensures (t, x) in after.pending.Keys <==> Has(At(rts, t), x) {
      assert (t, x) in h.pending.Keys <==> Has(At(h.rts, t), x);
    }
  }

  lemma CancelWithdraws(rts: Runtimes, s: string, r: string, bound: nat)
    requires Sound(rts, bound)
    ensures var (after, t) := CancelStep(rts, s, r);
            var was, now := At(rts, s), At(after, s);
            && (forall x :: Has(now, x) <==> Has(was, x) && x != r)
            && |now.queue| <= |was.queue| && (was.queue == [] ==> now.queue == [])
            && now.active == (if was.active == Some(r) then None else was.active)
            && (now.phase == Loading ==> was.phase == Loading)
            && forall o | o != s :: At(after, o) == At(rts, o)
  {
    var was := At(rts, s);
    var (after, t) := CancelStep(rts, s, r);
    assert SoundRuntime(was, bound);
    if r in was.queue {
      var at := IndexOf(was.queue, r);
      assert At(after, s) == was.(queue := was.queue[..at] + was.queue[at + 1..]);
      assert |At(after, s).queue| == |was.queue| - 1;
      RemovalKeepsDistinct(was.queue, at);
      forall x ensures Has(At(after, s), x) <==> Has(was, x) && x != r {
      }
    } else {
      assert At(after, s).queue == was.queue;
    }
  }

  lemma SweepKeeps(h: Host, env: Env, locale: Locale, services: Services, bound: nat)
    requires Coupled(h, services, bound) && env.services == services
    ensures Coupled(SweepIdle(h, env, locale.codeUnits), services, bound)
  {
    var (rts, victims) := SweepStep(h.rts, locale.codeUnits, env.services, env.nowMs);
    var after := h.(rts := rts);
    SweepEffect(h.rts, locale, env.services, env.nowMs);
    forall t ensures SoundRuntime(At(rts, t), bound) && FitAt(At(rts, t), services, t) && CalmAt(after, t) {
      assert SoundRuntime(At(h.rts, t), bound) && FitAt(At(h.rts, t), services, t) && CalmAt(h, t);
    }
    forall t, r ensures (t, r) in after.pending.Keys <==> Has(At(rts, t), r) {
      assert (t, r) in h.pending.Keys <==> Has(At(h.rts, t), r);
    }
    forall v | v in victims ensures At(rts, v).active == None {
      assert SoundRuntime(At(h.rts, v), bound);
    }
    StopAllKeeps(after, env, services, bound, victims);
  }

  lemma RunOkKeeps(h: Host, services: Services, bound: nat, key: Key, ticket: nat, now: int)
    requires Coupled(h, services, bound) && Timely(h, RunOk(key, ticket, now))
    ensures Coupled(RunSucceeded(h, key, ticket, now), services, bound)
  {
    var after := RunSucceeded(h, key, ticket, now);
    if At(h.rts, key.0).phase == Busy {
      ActiveEntryRuns(h, key);
      SuccessKeepsBooks(h, key);
      SuccessKeepsRest(h, after, services, bound, key.0, key.1, now);
    } else {
      LateRunOkIsHarmless(h, services, bound, key, ticket, now);
    }
  }

  lemma LateRunOkIsHarmless(h: Host, services: Services, bound: nat, key: Key, ticket: nat, now: int)
    requires Coupled(h, services, bound) && At(h.rts, key.0).phase != Busy
    requires key !in h.pending && ticket in SettledTickets(h.settled)
    ensures Coupled(RunSucceeded(h, key, ticket, now), services, bound)
  {
    var after := RunSucceeded(h, key, ticket, now);
    assert after.pending == h.pending && after.settled == h.settled;
    SameCoupling(h, after, services, bound);
  }

  lemma ActiveEntryRuns(h: Host, key: Key)
    requires CalmAt(h, key.0) && At(h.rts, key.0).active == Some(key.1) && key in h.pending
    ensures h.pending[key].running && h.pending[key].ticket in h.runs
  {
    assert key == (key.0, key.1);
  }

  /** The active request leaves its service, and its entry leaves with it. */
  lemma SuccessKeepsRest(h: Host, after: Host, services: Services, bound: nat, s: string, r: string, now: int)
    requires Coupled(h, services, bound) && At(h.rts, s).phase == Busy && At(h.rts, s).active == Some(r)
    requires At(after.rts, s) == At(h.rts, s).(lastUsedMs := now, phase := Ready, active := None)
    requires forall t | t != s :: At(after.rts, t) == At(h.rts, t)
    requires after.pending == h.pending - {(s, r)} && after.runs == h.runs && Ledger(after)
    ensures Coupled(after, services, bound)
  {
    forall t ensures SoundRuntime(At(after.rts, t), bound) && FitAt(At(after.rts, t), services, t) {
      assert SoundRuntime(At(h.rts, t), bound) && FitAt(At(h.rts, t), services, t);
    }
    forall t ensures CalmAt(after, t) {
      assert CalmAt(h, t) && SoundRuntime(At(h.rts, t), bound);
    }
    forall t, q ensures (t, q) in after.pending.Keys <==> Has(At(after.rts, t), q) {
      assert (t, q) in h.pending.Keys <==> Has(At(h.rts, t), q);
      assert SoundRuntime(At(h.rts, t), bound);
    }
  }

  lemma SuccessKeepsBooks(h: Host, key: Key)
    requires Ledger(h) && key in h.pending && h.pending[key].ticket in h.runs
    ensures Books(h.pending - {key}, h.issued, h.runs, Settle(h.settled, h.pending[key].ticket, true))
  {
    var t := h.pending[key].ticket;
    var pending := h.pending - {key};
    TicketsGrow(h.settled, t, true);
    forall u: nat | u < h.issued ensures u in SettledTickets(Settle(h.settled, t, true)) || Waits(pending, u) {
      if u != t && u !in SettledTickets(h.settled) {
        var k :| k in h.pending && h.pending[k].ticket == u;
        assert k in pending;
      }
    }
  }

  /** A late acknowledgement breaks the coupling, whatever it is late for. */
  lemma LateRunOkBreaks(h: Host, services: Services, bound: nat, key: Key, ticket: nat, now: int)
    requires Coupled(h, services, bound) && !Timely(h, RunOk(key, ticket, now))
    ensures !Coupled(RunSucceeded(h, key, ticket, now), services, bound)
  {
    var after := RunSucceeded(h, key, ticket, now);
    var s, state := key.0, At(h.rts, key.0);
    assert SoundRuntime(state, bound) && key == (s, key.1);
    if state.phase == Busy && state.active != Some(key.1) {
      // another request is running: it loses its place in the governor and keeps its entry
      var a := state.active.value;
      assert (s, a) in h.pending.Keys <==> Has(state, a);
      assert (s, a) in after.pending.Keys && !Has(At(after.rts, s), a);
    } else if state.phase == Busy {
      // an earlier call for the same request: today's waiter is dropped and never settled
      assert key in h.pending.Keys <==> Has(state, key.1);
      WaiterIsLost(h, key, ticket);
    } else if key in h.pending {
      assert (s, key.1) in h.pending.Keys <==> Has(state, key.1);
      assert key !in after.pending.Keys && At(after.rts, s) == state;
    } else {
      SettledTooEarly(h, key, ticket);
    }
  }

  lemma WaiterIsLost(h: Host, key: Key, ticket: nat)
    requires Ledger(h) && key in h.pending && h.pending[key].ticket != ticket
    ensures !Books(h.pending - {key}, h.issued, h.runs, Settle(h.settled, ticket, true))
  {
    var lost := h.pending[key].ticket;
    SettledOnlyThat(h.settled, ticket, true, lost);
    assert !Waits(h.pending - {key}, lost);
  }

  lemma SettledTooEarly(h: Host, key: Key, ticket: nat)
    requires Ledger(h) && key !in h.pending && ticket !in SettledTickets(h.settled)
    ensures !Books(h.pending - {key}, h.issued, h.runs, Settle(h.settled, ticket, true))
  {
    var settled := Settle(h.settled, ticket, true);
    TicketsGrow(h.settled, ticket, true);
    assert ticket in SettledTickets(settled);
    if ticket < h.issued {
      var k :| k in h.pending && h.pending[k].ticket == ticket;
      assert k in h.pending - {key};
    }
  }

  lemma SettledOnlyThat(settled: seq<Settlement>, ticket: nat, ok: bool, other: nat)
    requires other != ticket && other !in SettledTickets(settled)
    ensures other !in SettledTickets(Settle(settled, ticket, ok))
  {
    TicketsGrow(settled, ticket, ok);
  }

  /**
   * With the declarations fixed, every step keeps the coupling, except a run acknowledgement that
   * comes after its request lost its place.
   */
  lemma StepKeepsCoupling(h: Host, locale: Locale, act: Act, services: Services, bound: nat)
    requires Coupled(h, services, bound) && Bounds(services, bound) && Sees(act, services)
    ensures Coupled(Take(h, locale, act), services, bound) <==> Timely(h, act)
  {
    match act
    case Call(env, s, r, ok) => ExecuteKeeps(h, env, services, bound, locale.collate, s, r, ok);
    case Turn(envs, order) => PumpKeeps(h, envs, services, bound, locale.collate, h.rts, order);
    case CancelCall(env, s, r) =>
      if (s, r) in h.pending {
        WithdrawKeeps(h, services, bound, s, r);
        var settled := SettleKey(h, (s, r));
        var (rts, t) := CancelStep(settled.rts, s, r);
        if t.Stop? {
          StopOrFailKeeps(settled.(rts := rts), env, services, bound, s);
        }
      }
    case Failure(s, reason) => FailServiceKeeps(h, services, bound, s, reason);
    case Rearming(s) => RetryKeeps(h, services, bound, s);
    case SweepCall(env) => SweepKeeps(h, env, locale, services, bound);
    case RunOk(key, ticket, now) =>
      if Timely(h, act) {
        RunOkKeeps(h, services, bound, key, ticket, now);
      } else {
        LateRunOkBreaks(h, services, bound, key, ticket, now);
      }
  }

  function TakeAll(h: Host, locale: Locale, acts: seq<Act>): Host
    decreases |acts|
  {
    if acts == [] then h else TakeAll(Take(h, locale, acts[0]), locale, acts[1..])
  }

  ghost predicate AllTimely(h: Host, locale: Locale, acts: seq<Act>, services: Services)
    decreases |acts|
  {
    acts == [] ||
    (Sees(acts[0], services) && Timely(h, acts[0]) && AllTimely(Take(h, locale, acts[0]), locale, acts[1..], services))
  }

  lemma {:induction false} RunKeepsCoupling(h: Host, locale: Locale, acts: seq<Act>, services: Services, bound: nat)
    requires Coupled(h, services, bound) && Bounds(services, bound) && AllTimely(h, locale, acts, services)
    ensures Coupled(TakeAll(h, locale, acts), services, bound)
    decreases |acts|
  {
    if acts != [] {
      StepKeepsCoupling(h, locale, acts[0], services, bound);
      RunKeepsCoupling(Take(h, locale, acts[0]), locale, acts[1..], services, bound);
    }
  }

  lemma NewIsCoupled(services: Services, bound: nat)
    ensures Coupled(NEW_DRIVER, services, bound)
  {
    assert SettledTickets(NEW_DRIVER.settled) == [];
    forall s
      ensures SoundRuntime(At(NEW_DRIVER.rts, s), bound) && FitAt(At(NEW_DRIVER.rts, s), services, s)
      ensures CalmAt(NEW_DRIVER, s) {
    }
  }

  /**
   * From a new driver, after any run: the keys waited on are the active and queued requests; each
   * waiter ever made is waited on or has been settled, never both and never twice; no waiter's
   * request was run twice, and none succeeded without a run.
   */
  lemma EveryWaiterIsSettledOnce(locale: Locale, acts: seq<Act>, services: Services, bound: nat)
    requires Bounds(services, bound)
    requires AllTimely(NEW_DRIVER, locale, acts, services)
    ensures var h := TakeAll(NEW_DRIVER, locale, acts);
            && (forall s, r :: (s, r) in h.pending.Keys <==> Has(At(h.rts, s), r))
            && (forall t: nat :: t < h.issued <==> (Waits(h.pending, t) || t in SettledTickets(h.settled)))
            && (forall t: nat :: !(Waits(h.pending, t) && t in SettledTickets(h.settled)))
            && NoDuplicates(SettledTickets(h.settled)) && NoDuplicates(h.runs)
            && forall i | 0 <= i < |h.settled| :: h.settled[i].succeeded ==> h.settled[i].ticket in h.runs
  {
    NewIsCoupled(services, bound);
    RunKeepsCoupling(NEW_DRIVER, locale, acts, services, bound);
  }
}
