/**
 * The deterministic admission and lifecycle controller of capability services.
 *
 * The state is a map from service to a small record. Every operation has a transition function on
 * that map (`RequestStep`, `PollStep`, ...); the class `Governor` at the end of the module updates a
 * field the way the program does and is proved to follow those functions. What the operations mean
 * over whole runs is proved in GovernorRuns.dfy.
 */
module CapabilityServiceGovernor {
  import opened Wrappers
  import opened Ordering

  const DEFAULT_QUEUE_LIMIT: nat := 8

  /** A number the host reported; only finite ones may be reasoned with. */
  datatype Reading = Finite(value: real) | PosInfinity | NegInfinity | NotANumber {
    /** JavaScript's Math.max(0, this - bytes). */
    function Less(bytes: nat): Reading {
      match this
      case Finite(v) => Finite(if v - bytes as real < 0.0 then 0.0 else v - bytes as real)
      case NegInfinity => Finite(0.0)
      case _ => this
    }
  }

  datatype Capacity = Capacity(limit: Reading, used: Reading, floorUsedFraction: real)

  /** A service declaration: what the governor reads of it, and the remaining fields as serialized text. */
  datatype Info = Info(disabled: bool, residentBytes: nat, peakBytes: nat,
                       queueLimit: Option<nat>, idleTimeoutMs: Option<int>, rest: string)

  /** A JavaScript record: its keys in enumeration order and what each maps to. */
  datatype ServiceRecord = ServiceRecord(keys: seq<string>, info: map<string, Info>) {
    ghost predicate WellFormed() {
      && NoDuplicates(keys)
      && forall k :: k in keys <==> k in info
    }
  }
  type Services = r: ServiceRecord | r.WellFormed() witness ServiceRecord([], map[])

  datatype Phase = Stopped | Loading | Ready | Busy | Unloading | Unavailable

  datatype Runtime = Runtime(phase: Phase, active: Option<string>, queue: seq<string>,
                             lastUsedMs: int, reason: Option<string>)

  const INITIAL := Runtime(Stopped, None, [], 0, None)

  type Runtimes = map<string, Runtime>

  /** What a caller presents: the current declarations, a target, the host's headroom, the clock. */
  datatype Look = Look(services: Services, serviceID: string, capacity: Option<Capacity>, nowMs: int)

  datatype Refusal = ServiceDisabled | ServiceUnavailable | QueueFull

  /** The answer to a request or a poll; only a poll answers NothingQueued. */
  datatype Decision =
    | Start(requestID: string)
    | Run(requestID: string)
    | Queued(position: nat, unload: seq<string>)
    | Refused(reason: Refusal)
    | NothingQueued

  datatype Transition = RunNow(requestID: string) | Stop(serviceID: string) | Idle

  // ---- reading the state ----

  function At(rts: Runtimes, serviceID: string): Runtime {
    if serviceID in rts then rts[serviceID] else INITIAL
  }

  /** The state after a service's record was looked up, which creates a missing one. */
  function Touch(rts: Runtimes, serviceID: string): Runtimes {
    rts[serviceID := At(rts, serviceID)]
  }

  function TouchAll(rts: Runtimes, ids: set<string>): (r: Runtimes) {
    map id | id in rts.Keys + ids :: At(rts, id)
  }

  function UnloadAll(rts: Runtimes, ids: seq<string>): Runtimes {
    map id | id in rts.Keys + (set x | x in ids) :: if id in ids then At(rts, id).(phase := Unloading) else At(rts, id)
  }

  function Limit(info: Info): nat {
    if info.queueLimit.Some? then info.queueLimit.value else DEFAULT_QUEUE_LIMIT
  }

  predicate Enabled(services: Services, serviceID: string) {
    serviceID in services.info && !services.info[serviceID].disabled
  }

  predicate Safe(capacity: Option<Capacity>, bytes: int) {
    && capacity.Some?
    && var c := capacity.value;
    && c.limit.Finite? && c.used.Finite?
    && 0.0 < c.floorUsedFraction <= 1.0
    && c.used.value + bytes as real <= c.limit.value * c.floorUsedFraction
  }

  /** Bytes the next run adds: a loaded service already holds its resident share. */
  function Required(state: Runtime, info: Info): nat {
    if state.phase == Ready then
      if info.peakBytes > info.residentBytes then info.peakBytes - info.residentBytes else 0
    else info.peakBytes
  }

  // ---- choosing idle neighbours to evict ----

  predicate Evictable(rts: Runtimes, targetID: string, id: string) {
    id != targetID && At(rts, id).phase == Ready && At(rts, id).queue == []
  }

  function EvictableOf(keys: seq<string>, rts: Runtimes, targetID: string): seq<string> {
    if keys == [] then []
    else EvictableOf(keys[..|keys| - 1], rts, targetID)
         + if Evictable(rts, targetID, keys[|keys| - 1]) then [keys[|keys| - 1]] else []
  }

  /** Least recently used first; ties by the locale's collation, given as a sort key. */
  function Older(rts: Runtimes, collate: string -> real): (string, string) -> bool {
    (a, b) =>
      At(rts, a).lastUsedMs < At(rts, b).lastUsedMs
      || (At(rts, a).lastUsedMs == At(rts, b).lastUsedMs && collate(a) <= collate(b))
  }

  function Candidates(rts: Runtimes, collate: string -> real, services: Services, targetID: string): seq<string> {
    StableSort(EvictableOf(services.keys, rts, targetID), Older(rts, collate))
  }

  function ResidentBytes(services: Services, ids: seq<string>): nat {
    if ids == [] then 0
    else ResidentBytes(services, ids[..|ids| - 1])
         + if ids[|ids| - 1] in services.info then services.info[ids[|ids| - 1]].residentBytes else 0
  }

  predicate SafeWithout(capacity: Capacity, services: Services, ids: seq<string>, required: nat) {
    Safe(Some(capacity.(used := capacity.used.Less(ResidentBytes(services, ids)))), required)
  }

  /** The first k or more candidates whose eviction makes room; none if not even all of them do. */
  function Victims(capacity: Capacity, services: Services, candidates: seq<string>, required: nat, k: nat): seq<string>
    requires k <= |candidates|
    decreases |candidates| - k
  {
    if SafeWithout(capacity, services, candidates[..k], required) then candidates[..k]
    else if k == |candidates| then []
    else Victims(capacity, services, candidates, required, k + 1)
  }

  function IdleVictimsStep(rts: Runtimes, collate: string -> real, look: Look, required: nat): (Runtimes, seq<string>) {
    if look.capacity.None? then (rts, [])
    else
      var touched := TouchAll(rts, set id | id in look.services.info && id != look.serviceID);
      var candidates := Candidates(touched, collate, look.services, look.serviceID);
      var selected :=
        if candidates == [] then [] else Victims(look.capacity.value, look.services, candidates, required, 1);
      (UnloadAll(touched, selected), selected)
  }

  // ---- the operations ----

  function IndexOf(s: seq<string>, x: string): nat
    requires x in s
    ensures IndexOf(s, x) < |s| && s[IndexOf(s, x)] == x
  {
    if s[0] == x then 0 else 1 + IndexOf(s[1..], x)
  }

  function EnqueueStep(rts: Runtimes, serviceID: string, info: Info, requestID: string,
                       unload: seq<string>): (Runtimes, Decision) {
    var state := At(rts, serviceID);
    if requestID in state.queue then (rts, Queued(IndexOf(state.queue, requestID) + 1, []))
    else if |state.queue| >= Limit(info) then (rts, Refused(QueueFull))
    else (rts[serviceID := state.(queue := state.queue + [requestID])], Queued(|state.queue| + 1, unload))
  }

  /** No room now: wait, and evict idle neighbours if that makes room. */
  function WaitStep(rts: Runtimes, collate: string -> real, look: Look, info: Info, requestID: string,
                    required: nat): (Runtimes, Decision) {
    var state := At(rts, look.serviceID);
    if requestID in state.queue then (rts, Queued(IndexOf(state.queue, requestID) + 1, []))
    else if |state.queue| >= Limit(info) then (rts, Refused(QueueFull))
    else
      var (there, unload) := IdleVictimsStep(rts, collate, look, required);
      EnqueueStep(there, look.serviceID, info, requestID, unload)
  }

  function RequestStep(rts: Runtimes, collate: string -> real, look: Look, requestID: string): (Runtimes, Decision) {
    if !Enabled(look.services, look.serviceID) then (rts, Refused(ServiceDisabled))
    else
      var info := look.services.info[look.serviceID];
      var here := Touch(rts, look.serviceID);
      var state := here[look.serviceID];
      if state.active == Some(requestID) then
        (here, if state.phase == Loading then Start(requestID) else Run(requestID))
      else if state.phase == Unavailable then (here, Refused(ServiceUnavailable))
      else if state.phase == Loading || state.phase == Busy || state.phase == Unloading then
        EnqueueStep(here, look.serviceID, info, requestID, [])
      else if !Safe(look.capacity, Required(state, info)) then
        WaitStep(here, collate, look, info, requestID, Required(state, info))
      else
        var cold := state.phase == Stopped;
        (here[look.serviceID := state.(active := Some(requestID), lastUsedMs := look.nowMs,
                                       phase := if cold then Loading else Busy)],
         if cold then Start(requestID) else Run(requestID))
  }

  function PollStep(rts: Runtimes, collate: string -> real, look: Look): (Runtimes, Decision) {
    var here := Touch(rts, look.serviceID);
    var state := here[look.serviceID];
    if state.queue == [] then (here, NothingQueued)
    else RequestStep(here[look.serviceID := state.(queue := state.queue[1..])], collate, look, state.queue[0])
  }

  function LoadedStep(rts: Runtimes, serviceID: string): (Runtimes, Transition) {
    var here := Touch(rts, serviceID);
    var state := here[serviceID];
    if state.phase != Loading || state.active.None? then (here, Idle)
    else (here[serviceID := state.(phase := Busy)], RunNow(state.active.value))
  }

  function CompletedStep(rts: Runtimes, serviceID: string, nowMs: int): Runtimes {
    var here := Touch(rts, serviceID);
    var state := here[serviceID];
    if state.phase != Busy then here
    else here[serviceID := state.(lastUsedMs := nowMs, phase := Ready, active := None)]
  }

  function CancelStep(rts: Runtimes, serviceID: string, requestID: string): (Runtimes, Transition) {
    var here := Touch(rts, serviceID);
    var state := here[serviceID];
    if requestID in state.queue then
      var at := IndexOf(state.queue, requestID);
      (here[serviceID := state.(queue := state.queue[..at] + state.queue[at + 1..])], Idle)
    else if state.active != Some(requestID) || (state.phase != Loading && state.phase != Busy) then (here, Idle)
    else (here[serviceID := state.(phase := Unloading, active := None)], Stop(serviceID))
  }

  function FailedStep(rts: Runtimes, serviceID: string, reason: string): (Runtimes, seq<string>) {
    var here := Touch(rts, serviceID);
    var state := here[serviceID];
    (here[serviceID := state.(phase := Unavailable, active := None, queue := [], reason := Some(reason))],
     (if state.active.Some? then [state.active.value] else []) + state.queue)
  }

  function RetryStep(rts: Runtimes, serviceID: string): (Runtimes, bool) {
    var here := Touch(rts, serviceID);
    if here[serviceID].phase != Unavailable then (here, false) else (here[serviceID := INITIAL], true)
  }

  function StoppedStep(rts: Runtimes, serviceID: string): Runtimes {
    rts[serviceID := At(rts, serviceID).(phase := Stopped, active := None, reason := None)]
  }

  predicate Expired(rts: Runtimes, services: Services, id: string, nowMs: int) {
    && At(rts, id).phase == Ready
    && id in services.info && services.info[id].idleTimeoutMs.Some?
    && nowMs - At(rts, id).lastUsedMs >= services.info[id].idleTimeoutMs.value
  }

  function ExpiredOf(ids: seq<string>, rts: Runtimes, services: Services, nowMs: int): seq<string> {
    if ids == [] then []
    else ExpiredOf(ids[..|ids| - 1], rts, services, nowMs)
         + if Expired(rts, services, ids[|ids| - 1], nowMs) then [ids[|ids| - 1]] else []
  }

  /** The order Array.prototype.sort gives strings without a comparator, by a sort key as well. */
  function ByCodeUnit(codeUnits: string -> real): (string, string) -> bool {
    (a, b) => codeUnits(a) <= codeUnits(b)
  }

  function SweepStep(rts: Runtimes, codeUnits: string -> real, services: Services,
                     nowMs: int): (Runtimes, seq<string>) {
    var swept := ExpiredOf(StableSort(services.keys, ByCodeUnit(codeUnits)), rts, services, nowMs);
    (UnloadAll(TouchAll(rts, set id | id in services.info), swept), swept)
  }

  // ---- what idleVictims promises ----

  lemma {:induction false} EvictableAre(keys: seq<string>, rts: Runtimes, targetID: string)
    ensures forall id :: id in EvictableOf(keys, rts, targetID) <==> id in keys && Evictable(rts, targetID, id)
    ensures NoDuplicates(keys) ==> NoDuplicates(EvictableOf(keys, rts, targetID))
  {
    if keys != [] {
      var front := keys[..|keys| - 1];
      EvictableAre(front, rts, targetID);
      assert keys == front + [keys[|keys| - 1]];
    }
  }

  lemma NoDuplicatesByCount<T>(s: seq<T>)
    ensures NoDuplicates(s) <==> forall x :: x in s ==> multiset(s)[x] == 1
    decreases |s|
  {
    if s != [] {
      var last := s[|s| - 1];
      var front := s[..|s| - 1];
      assert s == front + [last];
      NoDuplicatesByCount(front);
      if NoDuplicates(s) {
        forall x | x in s ensures multiset(s)[x] == 1 {
          if x in front { assert x != last; }
        }
      } else {
        var i, j :| 0 <= i < j < |s| && s[i] == s[j];
        if j == |s| - 1 {
          assert last in front;
          assert multiset(s)[last] >= 2;
        } else {
          assert !NoDuplicates(front) by { assert front[i] == front[j]; }
          var x :| x in front && multiset(front)[x] != 1;
          assert multiset(front)[x] >= 1;
          assert multiset(s)[x] != 1;
        }
      }
    }
  }

  lemma {:induction false} CandidatesAre(rts: Runtimes, collate: string -> real, services: Services, targetID: string)
    ensures forall id :: id in Candidates(rts, collate, services, targetID) <==>
                         id in services.info && Evictable(rts, targetID, id)
    ensures NoDuplicates(Candidates(rts, collate, services, targetID))
    ensures SortedBy(Candidates(rts, collate, services, targetID), Older(rts, collate))
    ensures var all := Candidates(rts, collate, services, targetID);
            forall i, j | 0 <= i < j < |all| :: Earlier(rts, collate, all[i], all[j])
  {
    var chosen := EvictableOf(services.keys, rts, targetID);
    EvictableAre(services.keys, rts, targetID);
    var sorted := Candidates(rts, collate, services, targetID);
    StableSortIsStable(chosen, Older(rts, collate));
    NoDuplicatesByCount(chosen);
    NoDuplicatesByCount(sorted);
    forall id ensures id in sorted <==> id in chosen {
      assert id in multiset(sorted) <==> id in multiset(chosen);
    }
    forall i, j | 0 <= i < j < |sorted| ensures Earlier(rts, collate, sorted[i], sorted[j]) {
      assert Older(rts, collate)(sorted[i], sorted[j]);
    }
  }

  lemma {:induction false} ResidentBytesGrow(services: Services, ids: seq<string>, j: nat, k: nat)
    requires j <= k <= |ids|
    ensures ResidentBytes(services, ids[..j]) <= ResidentBytes(services, ids[..k])
    decreases k
  {
    if j < k {
      assert ids[..k][..k - 1] == ids[..k - 1];
      ResidentBytesGrow(services, ids, j, k - 1);
    }
  }

  /** Evicting more never turns a safe admission into an unsafe one. */
  lemma SafeGrows(capacity: Capacity, services: Services, ids: seq<string>, required: nat, j: nat, k: nat)
    requires j <= k <= |ids|
    requires SafeWithout(capacity, services, ids[..j], required)
    ensures SafeWithout(capacity, services, ids[..k], required)
  {
    ResidentBytesGrow(services, ids, j, k);
    SafeWithLess(capacity, ResidentBytes(services, ids[..j]), ResidentBytes(services, ids[..k]), required);
  }

  lemma SafeWithLess(capacity: Capacity, less: nat, more: nat, required: nat)
    requires less <= more && Safe(Some(capacity.(used := capacity.used.Less(less))), required)
    ensures Safe(Some(capacity.(used := capacity.used.Less(more))), required)
  {}

  lemma {:induction false} VictimsAreTheShortestPrefix(
    capacity: Capacity, services: Services, candidates: seq<string>, required: nat, k: nat)
    requires k <= |candidates|
    ensures var v := Victims(capacity, services, candidates, required, k);
            if SafeWithout(capacity, services, candidates, required)
            then && k <= |v| <= |candidates| && v == candidates[..|v|]
                 && (forall n | k <= n <= |candidates| ::
                       SafeWithout(capacity, services, candidates[..n], required) <==> |v| <= n)
            else v == []
    decreases |candidates| - k
  {
    assert candidates[..|candidates|] == candidates;
    if SafeWithout(capacity, services, candidates[..k], required) {
      forall n | k <= n <= |candidates| ensures SafeWithout(capacity, services, candidates[..n], required) {
        SafeGrows(capacity, services, candidates, required, k, n);
      }
    } else if k < |candidates| {
      VictimsAreTheShortestPrefix(capacity, services, candidates, required, k + 1);
    }
  }

  /** a was used before b, or at the same time and is named first. */
  predicate Earlier(rts: Runtimes, collate: string -> real, a: string, b: string) {
    && At(rts, a).lastUsedMs <= At(rts, b).lastUsedMs
    && (At(rts, a).lastUsedMs == At(rts, b).lastUsedMs ==> collate(a) <= collate(b))
  }

  /** What a caller may know about the services chosen for eviction, without naming the sort or the scan. */
  ghost predicate BestEviction(rts: Runtimes, collate: string -> real, look: Look, required: nat, unload: seq<string>) {
    && NoDuplicates(unload)
    && (forall id | id in unload :: id in look.services.info && Evictable(rts, look.serviceID, id))
       // least recently used first, and nobody left behind is older than anybody chosen
    && (forall i, j | 0 <= i < j < |unload| :: Earlier(rts, collate, unload[i], unload[j]))
    && (forall id, other | id in unload && other in look.services.info
                           && Evictable(rts, look.serviceID, other) && other !in unload ::
          Earlier(rts, collate, id, other))
       // it makes room, and no shorter run of the same services would
    && (unload != [] ==>
          && look.capacity.Some?
          && SafeWithout(look.capacity.value, look.services, unload, required)
          && forall n | 1 <= n < |unload| :: !SafeWithout(look.capacity.value, look.services, unload[..n], required))
  }

  /** Looking records up changes nothing the choice depends on. */
  lemma IdleVictimsUnfold(rts: Runtimes, collate: string -> real, look: Look, required: nat)
    ensures var all := Candidates(rts, collate, look.services, look.serviceID);
            IdleVictimsStep(rts, collate, look, required).1 ==
            if look.capacity.None? || all == [] then []
            else Victims(look.capacity.value, look.services, all, required, 1)
  {
    var touched := TouchAll(rts, set id | id in look.services.info && id != look.serviceID);
    assert forall id :: At(touched, id) == At(rts, id);
    SameCandidates(touched, rts, collate, look.services, look.serviceID);
  }

  lemma IdleVictimsMove(rts: Runtimes, collate: string -> real, look: Look, required: nat)
    ensures var (after, unload) := IdleVictimsStep(rts, collate, look, required);
            forall s :: At(after, s) == if s in unload then At(rts, s).(phase := Unloading) else At(rts, s)
  {
  }

  /**
   * Nobody is evicted exactly when capacity is unknown or evicting every candidate is not enough;
   * otherwise the choice is the best there is.
   */
  lemma IdleVictimsAreBest(rts: Runtimes, collate: string -> real, look: Look, required: nat)
    ensures BestEviction(rts, collate, look, required, IdleVictimsStep(rts, collate, look, required).1)
    ensures IdleVictimsStep(rts, collate, look, required).1 == [] <==>
            || look.capacity.None?
            || var all := Candidates(rts, collate, look.services, look.serviceID);
               all == [] || !SafeWithout(look.capacity.value, look.services, all, required)
  {
    IdleVictimsUnfold(rts, collate, look, required);
    CandidatesAre(rts, collate, look.services, look.serviceID);
    ChoiceIsBest(rts, collate, look, required, Candidates(rts, collate, look.services, look.serviceID),
                 IdleVictimsStep(rts, collate, look, required).1);
  }

  /** What is asked of the candidates: all that could go, once each, oldest first. */
  ghost predicate Lined(rts: Runtimes, collate: string -> real, look: Look, all: seq<string>) {
    && (forall id :: id in all <==> id in look.services.info && Evictable(rts, look.serviceID, id))
    && NoDuplicates(all) && forall i, j | 0 <= i < j < |all| :: Earlier(rts, collate, all[i], all[j])
  }

  lemma ChoiceIsBest(rts: Runtimes, collate: string -> real, look: Look, required: nat, all: seq<string>,
                     unload: seq<string>)
    requires Lined(rts, collate, look, all)
    requires unload == if look.capacity.None? || all == [] then []
                       else Victims(look.capacity.value, look.services, all, required, 1)
    ensures BestEviction(rts, collate, look, required, unload)
    ensures unload == [] <==>
            look.capacity.None? || all == [] || !SafeWithout(look.capacity.value, look.services, all, required)
  {
    if look.capacity.Some? && all != [] {
      VictimsAreTheShortestPrefix(look.capacity.value, look.services, all, required, 1);
      assert all[..|all|] == all;
      if unload != [] {
        assert unload == all[..|unload|];
        PrefixIsBest(rts, collate, look, required, all, |unload|);
      }
    }
  }

  lemma PrefixIsBest(rts: Runtimes, collate: string -> real, look: Look, required: nat, all: seq<string>, k: nat)
    requires look.capacity.Some? && 1 <= k <= |all| && Lined(rts, collate, look, all)
    requires SafeWithout(look.capacity.value, look.services, all[..k], required)
    requires forall n | 1 <= n < k :: !SafeWithout(look.capacity.value, look.services, all[..n], required)
    ensures BestEviction(rts, collate, look, required, all[..k])
  {
    var unload := all[..k];
    assert forall m | 0 <= m < k :: all[m] == unload[m];
    forall n | 1 <= n < k ensures unload[..n] == all[..n] {
    }
    forall id, other | id in unload && other in all && other !in unload ensures Earlier(rts, collate, id, other) {
      var i :| 0 <= i < k && all[i] == id;
      var j :| 0 <= j < |all| && all[j] == other;
      assert j >= k;
    }
    forall i, j | 0 <= i < j < k ensures Earlier(rts, collate, unload[i], unload[j]) {
      assert Earlier(rts, collate, all[i], all[j]);
    }
  }

  lemma {:induction false} SameEvictable(keys: seq<string>, a: Runtimes, b: Runtimes, targetID: string)
    requires forall id :: At(a, id) == At(b, id)
    ensures EvictableOf(keys, a, targetID) == EvictableOf(keys, b, targetID)
  {
    if keys != [] {
      SameEvictable(keys[..|keys| - 1], a, b, targetID);
    }
  }

  lemma EvictableOneMore(keys: seq<string>, i: nat, rts: Runtimes, targetID: string)
    requires i < |keys|
    ensures EvictableOf(keys[..i + 1], rts, targetID) ==
            EvictableOf(keys[..i], rts, targetID) + if Evictable(rts, targetID, keys[i]) then [keys[i]] else []
  {
    assert keys[..i + 1][..i] == keys[..i];
  }

  lemma {:induction false} SameInsert(x: string, s: seq<string>, a: Runtimes, b: Runtimes, collate: string -> real)
    requires forall id :: At(a, id) == At(b, id)
    ensures Insert(x, s, Older(a, collate)) == Insert(x, s, Older(b, collate))
  {
    if s != [] {
      SameInsert(x, s[1..], a, b, collate);
    }
  }

  lemma {:induction false} SameSort(s: seq<string>, a: Runtimes, b: Runtimes, collate: string -> real)
    requires forall id :: At(a, id) == At(b, id)
    ensures StableSort(s, Older(a, collate)) == StableSort(s, Older(b, collate))
  {
    if s != [] {
      SameSort(s[1..], a, b, collate);
      SameInsert(s[0], StableSort(s[1..], Older(a, collate)), a, b, collate);
    }
  }

  lemma SameCandidates(a: Runtimes, b: Runtimes, collate: string -> real, services: Services, targetID: string)
    requires forall id :: At(a, id) == At(b, id)
    ensures Candidates(a, collate, services, targetID) == Candidates(b, collate, services, targetID)
  {
    SameEvictable(services.keys, a, b, targetID);
    SameSort(EvictableOf(services.keys, a, targetID), a, b, collate);
  }

  lemma {:induction false} SweptAre(ids: seq<string>, rts: Runtimes, services: Services, nowMs: int)
    ensures forall id :: id in ExpiredOf(ids, rts, services, nowMs) <==> id in ids && Expired(rts, services, id, nowMs)
  {
    if ids != [] {
      var front := ids[..|ids| - 1];
      SweptAre(front, rts, services, nowMs);
      assert ids == front + [ids[|ids| - 1]];
    }
  }

  lemma {:induction false} SameExpired(ids: seq<string>, a: Runtimes, b: Runtimes, services: Services, nowMs: int)
    requires forall id | id in ids :: At(a, id) == At(b, id)
    ensures ExpiredOf(ids, a, services, nowMs) == ExpiredOf(ids, b, services, nowMs)
  {
    if ids != [] {
      SameExpired(ids[..|ids| - 1], a, b, services, nowMs);
    }
  }

  lemma KeysOneMore(keys: seq<string>, i: nat)
    requires i < |keys|
    ensures forall id :: id in keys[..i + 1] <==> id in keys[..i] || id == keys[i]
  {
    assert keys[..i + 1] == keys[..i] + [keys[i]];
  }

  lemma AllSeen(services: Services, seen: set<string>, targetID: string)
    requires forall id :: id in seen <==> id in services.keys[..|services.keys|] && id != targetID
    ensures services.keys[..|services.keys|] == services.keys
    ensures seen == set id | id in services.info && id != targetID
  {
    assert services.keys[..|services.keys|] == services.keys;
  }

  lemma TouchOneMore(rts: Runtimes, ids: set<string>, id: string)
    ensures TouchAll(rts, ids + {id}) == Touch(TouchAll(rts, ids), id)
  {
  }

  lemma UnloadOneMore(rts: Runtimes, ids: seq<string>, id: string)
    ensures UnloadAll(rts, ids + [id]) ==
            UnloadAll(rts, ids)[id := At(UnloadAll(rts, ids), id).(phase := Unloading)]
  {
    var one := UnloadAll(rts, ids);
    assert forall x :: x in ids + [id] <==> x in ids || x == id;
    assert At(one, id).(phase := Unloading) == At(rts, id).(phase := Unloading);
    assert UnloadAll(rts, ids + [id]).Keys == one.Keys + {id};
  }

  /** Touching and unloading different services commute. */
  lemma SweepOneMore(rts: Runtimes, seen: set<string>, swept: seq<string>, id: string)
    requires id !in swept
    ensures Touch(UnloadAll(TouchAll(rts, seen), swept), id) == UnloadAll(TouchAll(rts, seen + {id}), swept)
  {
    UnloadOnlyPhases(TouchAll(rts, seen), swept);
    UnloadOnlyPhases(TouchAll(rts, seen + {id}), swept);
    var l := Touch(UnloadAll(TouchAll(rts, seen), swept), id);
    var r := UnloadAll(TouchAll(rts, seen + {id}), swept);
    assert l.Keys == r.Keys;
    forall x | x in l ensures l[x] == r[x] {
    }
  }

  /** One turn of the sweep's filter: what looking up and marking the i-th service amounts to. */
  lemma SweepTurn(before: Runtimes, services: Services, nowMs: int, ids: seq<string>, i: nat, seen: set<string>,
                  swept: seq<string>)
    requires i < |ids| && NoDuplicates(ids) && forall id | id in ids :: id in services.info
    requires swept == ExpiredOf(ids[..i], before, services, nowMs)
    ensures var now := UnloadAll(TouchAll(before, seen), swept);
            var id := ids[i];
            var looked := UnloadAll(TouchAll(before, seen + {id}), swept);
            && ids[..i + 1] == ids[..i] + [id]
            && At(now, id) == At(before, id)
            && Touch(now, id) == looked
            && looked[id := At(before, id).(phase := Unloading)]
               == UnloadAll(TouchAll(before, seen + {id}), swept + [id])
            && ExpiredOf(ids[..i + 1], before, services, nowMs)
               == swept + if Expired(before, services, id, nowMs) then [id] else []
  {
    var id := ids[i];
    assert id !in swept by {
      SweptAre(ids[..i], before, services, nowMs);
    }
    SweepOneMore(before, seen, swept, id);
    var looked := UnloadAll(TouchAll(before, seen + {id}), swept);
    UnloadOneMore(TouchAll(before, seen + {id}), swept, id);
    assert At(looked, id) == At(before, id) == At(UnloadAll(TouchAll(before, seen), swept), id);
    assert ids[..i + 1] == ids[..i] + [id];
  }

  lemma UnloadOnlyPhases(rts: Runtimes, ids: seq<string>)
    ensures UnloadAll(rts, ids).Keys == rts.Keys + set id | id in ids
    ensures forall x :: At(UnloadAll(rts, ids), x) == if x in ids then At(rts, x).(phase := Unloading) else At(rts, x)
  {
  }

  lemma SortKeepsKeys(keys: seq<string>, le: (string, string) -> bool)
    ensures NoDuplicates(keys) ==> NoDuplicates(StableSort(keys, le))
    ensures forall id :: id in StableSort(keys, le) <==> id in keys
  {
    var ids := StableSort(keys, le);
    StableSortPermutes(keys, le);
    NoDuplicatesByCount(keys);
    NoDuplicatesByCount(ids);
    forall id ensures id in ids <==> id in keys {
      assert id in multiset(ids) <==> id in multiset(keys);
    }
  }

  // ---- the controller itself ----

  class Governor {
    var runtimes: Runtimes
    const collate: string -> real
    const codeUnits: string -> real

    constructor (collate: string -> real, codeUnits: string -> real)
      ensures runtimes == map[] && this.collate == collate && this.codeUnits == codeUnits
    {
      runtimes := map[];
      this.collate := collate;
      this.codeUnits := codeUnits;
    }

    method Lookup(serviceID: string) returns (state: Runtime)
      modifies this`runtimes
      ensures runtimes == Touch(old(runtimes), serviceID) && state == At(old(runtimes), serviceID)
    {
      if serviceID in runtimes {
        return runtimes[serviceID];
      }
      state := INITIAL;
      runtimes := runtimes[serviceID := state];
    }

    /** The filter over Object.keys, which looks every other service up. */
    method CollectEvictable(services: Services, targetID: string) returns (chosen: seq<string>)
      modifies this`runtimes
      ensures runtimes == TouchAll(old(runtimes), set id | id in services.info && id != targetID)
      ensures chosen == EvictableOf(services.keys, runtimes, targetID)
    {
      chosen := [];
      ghost var before := runtimes;
      ghost var seen: set<string> := {};
      assert runtimes == TouchAll(before, seen);
      for i := 0 to |services.keys|
        invariant runtimes == TouchAll(before, seen)
        invariant forall id :: id in seen <==> id in services.keys[..i] && id != targetID
        invariant chosen == EvictableOf(services.keys[..i], before, targetID)
      {
        var id := services.keys[i];
        if id != targetID {
          var state := Lookup(id);
          TouchOneMore(before, seen, id);
          seen := seen + {id};
          if state.phase == Ready && state.queue == [] {
            chosen := chosen + [id];
          }
        }
        EvictableOneMore(services.keys, i, before, targetID);
        KeysOneMore(services.keys, i);
      }
      AllSeen(services, seen, targetID);
      SameEvictable(services.keys, before, runtimes, targetID);
    }

    /** The accumulation loop of idleVictims, before anything is marked. */
    method SelectVictims(capacity: Capacity, services: Services, candidates: seq<string>, required: nat)
      returns (selected: seq<string>)
      requires forall id | id in candidates :: id in services.info
      ensures selected == if candidates == [] then [] else Victims(capacity, services, candidates, required, 1)
    {
      var reclaimed := 0;
      selected := [];
      var k := 0;
      while k < |candidates|
        invariant 0 <= k <= |candidates| && selected == candidates[..k]
        invariant reclaimed == ResidentBytes(services, candidates[..k])
        invariant candidates != [] ==>
            Victims(capacity, services, candidates, required, 1)
            == if k < |candidates| then Victims(capacity, services, candidates, required, k + 1) else []
        invariant 0 < k ==> !SafeWithout(capacity, services, candidates[..k], required)
      {
        var id := candidates[k];
        selected := selected + [id];
        reclaimed := reclaimed + services.info[id].residentBytes;
        k := k + 1;
        assert candidates[..k][..k - 1] == candidates[..k - 1] && selected == candidates[..k];
        if Safe(Some(capacity.(used := capacity.used.Less(reclaimed))), required) {
          break;
        }
      }
      if !Safe(Some(capacity.(used := capacity.used.Less(reclaimed))), required) {
        selected := [];
      }
    }

    method IdleVictims(look: Look, required: nat) returns (selected: seq<string>)
      modifies this`runtimes
      ensures (runtimes, selected) == IdleVictimsStep(old(runtimes), collate, look, required)
    {
      if look.capacity.None? {
        return [];
      }
      var chosen := CollectEvictable(look.services, look.serviceID);
      CandidatesAre(runtimes, collate, look.services, look.serviceID);
      var candidates := StableSort(chosen, Older(runtimes, collate));
      selected := SelectVictims(look.capacity.value, look.services, candidates, required);
      MarkUnloading(selected);
    }

    method MarkUnloading(ids: seq<string>)
      modifies this`runtimes
      ensures runtimes == UnloadAll(old(runtimes), ids)
    {
      for i := 0 to |ids|
        invariant runtimes == UnloadAll(old(runtimes), ids[..i])
      {
        UnloadOneMore(old(runtimes), ids[..i], ids[i]);
        assert ids[..i + 1] == ids[..i] + [ids[i]];
        runtimes := runtimes[ids[i] := At(runtimes, ids[i]).(phase := Unloading)];
      }
      assert ids[..|ids|] == ids;
    }

    method Enqueue(serviceID: string, info: Info, requestID: string, unload: seq<string>) returns (d: Decision)
      modifies this`runtimes
      ensures (runtimes, d) == EnqueueStep(old(runtimes), serviceID, info, requestID, unload)
    {
      var state := At(runtimes, serviceID);
      if requestID in state.queue {
        return Queued(IndexOf(state.queue, requestID) + 1, []);
      }
      if |state.queue| >= Limit(info) {
        return Refused(QueueFull);
      }
      state := state.(queue := state.queue + [requestID]);
      runtimes := runtimes[serviceID := state];
      d := Queued(|state.queue|, unload);
    }

    method Request(look: Look, requestID: string) returns (d: Decision)
      modifies this`runtimes
      ensures (runtimes, d) == RequestStep(old(runtimes), collate, look, requestID)
    {
      if !Enabled(look.services, look.serviceID) {
        return Refused(ServiceDisabled);
      }
      var info := look.services.info[look.serviceID];
      var state := Lookup(look.serviceID);
      if state.active == Some(requestID) {
        d := if state.phase == Loading then Start(requestID) else Run(requestID);
        return;
      }
      if state.phase == Unavailable {
        return Refused(ServiceUnavailable);
      }
      if state.phase == Loading || state.phase == Busy || state.phase == Unloading {
        d := Enqueue(look.serviceID, info, requestID, []);
        return;
      }
      var required := Required(state, info);
      if !Safe(look.capacity, required) {
        if requestID in state.queue {
          return Queued(IndexOf(state.queue, requestID) + 1, []);
        }
        if |state.queue| >= Limit(info) {
          return Refused(QueueFull);
        }
        var unload := IdleVictims(look, required);
        d := Enqueue(look.serviceID, info, requestID, unload);
        return;
      }
      state := state.(active := Some(requestID), lastUsedMs := look.nowMs);
      if state.phase == Stopped {
        runtimes := runtimes[look.serviceID := state.(phase := Loading)];
        return Start(requestID);
      }
      runtimes := runtimes[look.serviceID := state.(phase := Busy)];
      d := Run(requestID);
    }

    method Loaded(serviceID: string) returns (t: Transition)
      modifies this`runtimes
      ensures (runtimes, t) == LoadedStep(old(runtimes), serviceID)
    {
      var state := Lookup(serviceID);
      if state.phase != Loading || state.active.None? {
        return Idle;
      }
      runtimes := runtimes[serviceID := state.(phase := Busy)];
      t := RunNow(state.active.value);
    }

    method Completed(serviceID: string, nowMs: int)
      modifies this`runtimes
      ensures runtimes == CompletedStep(old(runtimes), serviceID, nowMs)
    {
      var state := Lookup(serviceID);
      if state.phase == Busy {
        runtimes := runtimes[serviceID := state.(lastUsedMs := nowMs, phase := Ready, active := None)];
      }
    }

    method Poll(look: Look) returns (d: Decision)
      modifies this`runtimes
      ensures (runtimes, d) == PollStep(old(runtimes), collate, look)
    {
      var state := Lookup(look.serviceID);
      if state.queue == [] {
        return NothingQueued;
      }
      runtimes := runtimes[look.serviceID := state.(queue := state.queue[1..])];
      d := Request(look, state.queue[0]);
    }

    method Cancel(serviceID: string, requestID: string) returns (t: Transition)
      modifies this`runtimes
      ensures (runtimes, t) == CancelStep(old(runtimes), serviceID, requestID)
    {
      var state := Lookup(serviceID);
      if requestID in state.queue {
        var at := IndexOf(state.queue, requestID);
        runtimes := runtimes[serviceID := state.(queue := state.queue[..at] + state.queue[at + 1..])];
        return Idle;
      }
      if state.active != Some(requestID) || (state.phase != Loading && state.phase != Busy) {
        return Idle;
      }
      runtimes := runtimes[serviceID := state.(phase := Unloading, active := None)];
      t := Stop(serviceID);
    }

    method Failed(serviceID: string, reason: string) returns (affected: seq<string>)
      modifies this`runtimes
      ensures (runtimes, affected) == FailedStep(old(runtimes), serviceID, reason)
    {
      var state := Lookup(serviceID);
      affected := (if state.active.Some? then [state.active.value] else []) + state.queue;
      runtimes := runtimes[serviceID := state.(phase := Unavailable, active := None, queue := [],
                                               reason := Some(reason))];
    }

    method Retry(serviceID: string) returns (rearmed: bool)
      modifies this`runtimes
      ensures (runtimes, rearmed) == RetryStep(old(runtimes), serviceID)
    {
      var state := Lookup(serviceID);
      if state.phase != Unavailable {
        return false;
      }
      runtimes := runtimes[serviceID := INITIAL];
      rearmed := true;
    }

    method Acknowledge(serviceID: string)
      modifies this`runtimes
      ensures runtimes == StoppedStep(old(runtimes), serviceID)
    {
      var state := Lookup(serviceID);
      runtimes := runtimes[serviceID := state.(phase := Stopped, active := None, reason := None)];
    }

    /** The idle sweep: every ready service whose timeout has run out begins to unload. */
    method Sweep(services: Services, nowMs: int) returns (swept: seq<string>)
      modifies this`runtimes
      ensures (runtimes, swept) == SweepStep(old(runtimes), codeUnits, services, nowMs)
    {
      ghost var before := runtimes;
      var ids := StableSort(services.keys, ByCodeUnit(codeUnits));
      SortKeepsKeys(services.keys, ByCodeUnit(codeUnits));
      swept := [];
      ghost var seen: set<string> := {};
      assert runtimes == UnloadAll(TouchAll(before, seen), swept);
      for i := 0 to |ids|
        invariant forall id :: id in seen <==> id in ids[..i]
        invariant swept == ExpiredOf(ids[..i], before, services, nowMs)
        invariant runtimes == UnloadAll(TouchAll(before, seen), swept)
      {
        var id := ids[i];
        SweepTurn(before, services, nowMs, ids, i, seen, swept);
        var state := Lookup(id);
        seen := seen + {id};
        var timeout := services.info[id].idleTimeoutMs;
        if state.phase == Ready && timeout.Some? && nowMs - state.lastUsedMs >= timeout.value {
          runtimes := runtimes[id := state.(phase := Unloading)];
          swept := swept + [id];
        }
      }
      assert ids[..|ids|] == ids;
      assert seen == set id | id in services.info;
    }
  }
}
