/**
 * What a request will evict, read off the state before it is made, and what is left to evict when its
 * victims are gone.
 */
module EvictionGuards {
  import opened CapabilityServiceGovernor
  import opened Ordering
  import opened Wrappers

  /** The services an answer evicts. */
  function Unloaded(d: Decision): seq<string> {
    if d.Queued? then d.unload else []
  }

  /** A request of this service that is not waiting yet would have to wait for memory, and may. */
  predicate HasToWait(state: Runtime, look: Look) {
    && Enabled(look.services, look.serviceID)
    && (state.phase == Stopped || state.phase == Ready)
    && var info := look.services.info[look.serviceID];
    && |state.queue| < Limit(info) && !Safe(look.capacity, Required(state, info))
  }

  /** Evicting all of these services would make room for it. */
  predicate MakeRoom(state: Runtime, look: Look, all: seq<string>) {
    && look.serviceID in look.services.info && look.capacity.Some? && all != []
    && SafeWithout(look.capacity.value, look.services, all, Required(state, look.services.info[look.serviceID]))
  }

  /** The shortest run of these services, from the front, that makes room, if one is needed and there is one. */
  function Chosen(state: Runtime, look: Look, all: seq<string>): (chosen: seq<string>)
    ensures |chosen| <= |all|
  {
    if HasToWait(state, look) && look.capacity.Some? && all != [] then
      var required := Required(state, look.services.info[look.serviceID]);
      VictimsAreTheShortestPrefix(look.capacity.value, look.services, all, required, 1);
      Victims(look.capacity.value, look.services, all, required, 1)
    else []
  }

  lemma ChosenExactly(state: Runtime, look: Look, all: seq<string>)
    ensures var chosen := Chosen(state, look, all);
            && (chosen != [] <==> HasToWait(state, look) && MakeRoom(state, look, all))
            && |chosen| <= |all| && chosen == all[..|chosen|]
  {
    if HasToWait(state, look) && look.capacity.Some? && all != [] {
      var required := Required(state, look.services.info[look.serviceID]);
      VictimsAreTheShortestPrefix(look.capacity.value, look.services, all, required, 1);
      assert all[..|all|] == all;
    }
  }

  /** A request evicts exactly what its state and the oldest candidates call for. */
  lemma RequestUnloads(rts: Runtimes, collate: string -> real, look: Look, r: string)
    requires At(rts, look.serviceID).active != Some(r) && r !in At(rts, look.serviceID).queue
    ensures Unloaded(RequestStep(rts, collate, look, r).1)
         == Chosen(At(rts, look.serviceID), look, Candidates(rts, collate, look.services, look.serviceID))
  {
    if HasToWait(At(rts, look.serviceID), look) {
      var here := Touch(rts, look.serviceID);
      assert forall id :: At(here, id) == At(rts, id);
      SameCandidates(here, rts, collate, look.services, look.serviceID);
      AsksToWait(rts, collate, look, r);
      WaitingUnloads(here, collate, look, r, Required(At(rts, look.serviceID), look.services.info[look.serviceID]));
    } else {
      AnswersAtOnce(rts, collate, look, r);
    }
  }

  lemma AsksToWait(rts: Runtimes, collate: string -> real, look: Look, r: string)
    requires HasToWait(At(rts, look.serviceID), look) && At(rts, look.serviceID).active != Some(r)
    ensures var info := look.services.info[look.serviceID];
            RequestStep(rts, collate, look, r)
            == WaitStep(Touch(rts, look.serviceID), collate, look, info, r, Required(At(rts, look.serviceID), info))
  {}

  lemma AnswersAtOnce(rts: Runtimes, collate: string -> real, look: Look, r: string)
    requires !HasToWait(At(rts, look.serviceID), look) && r !in At(rts, look.serviceID).queue
    ensures Unloaded(RequestStep(rts, collate, look, r).1) == []
  {}

  lemma WaitingUnloads(here: Runtimes, collate: string -> real, look: Look, r: string, required: nat)
    requires Enabled(look.services, look.serviceID) && r !in At(here, look.serviceID).queue
    requires |At(here, look.serviceID).queue| < Limit(look.services.info[look.serviceID])
    ensures var all := Candidates(here, collate, look.services, look.serviceID);
            Unloaded(WaitStep(here, collate, look, look.services.info[look.serviceID], r, required).1)
            == if look.capacity.None? || all == [] then []
               else Victims(look.capacity.value, look.services, all, required, 1)
  {
    IdleVictimsUnfold(here, collate, look, required);
    IdleVictimsAreBest(here, collate, look, required);
    IdleVictimsMove(here, collate, look, required);
  }

  // ---- when some candidates are gone ----

  function Minus(s: seq<string>, gone: seq<string>): seq<string> {
    if s == [] then [] else (if s[0] in gone then [] else [s[0]]) + Minus(s[1..], gone)
  }

  lemma {:induction false} MinusAdd(a: seq<string>, b: seq<string>, gone: seq<string>)
    ensures Minus(a + b, gone) == Minus(a, gone) + Minus(b, gone)
  {
    if a == [] {
      assert a + b == b;
    } else {
      assert (a + b)[1..] == a[1..] + b;
      MinusAdd(a[1..], b, gone);
    }
  }

  lemma {:induction false} MinusAre(s: seq<string>, gone: seq<string>)
    ensures forall x :: x in Minus(s, gone) <==> x in s && x !in gone
    ensures (forall x | x in s :: x !in gone) ==> Minus(s, gone) == s
    ensures (forall x | x in s :: x in gone) ==> Minus(s, gone) == []
  {
    if s != [] {
      MinusAre(s[1..], gone);
      assert s == [s[0]] + s[1..];
    }
  }

  /** Taking a prefix of distinct elements away leaves the rest. */
  lemma MinusPrefix(s: seq<string>, n: nat)
    requires n <= |s| && NoDuplicates(s)
    ensures Minus(s, s[..n]) == s[n..]
  {
    assert s == s[..n] + s[n..];
    MinusAdd(s[..n], s[n..], s[..n]);
    MinusAre(s[..n], s[..n]);
    forall x | x in s[n..] ensures x !in s[..n] {
      var j :| n <= j < |s| && s[j] == x;
    }
    MinusAre(s[n..], s[..n]);
  }

  lemma {:induction false} MinusTies(s: seq<string>, gone: seq<string>, t: string, le: (string, string) -> bool)
    ensures Ties(Minus(s, gone), t, le) == Minus(Ties(s, t, le), gone)
  {
    if s != [] {
      MinusTies(s[1..], gone, t, le);
      var tie := if le(s[0], t) && le(t, s[0]) then [s[0]] else [];
      MinusAdd(tie, Ties(s[1..], t, le), gone);
      MinusAre(tie, gone);
      if s[0] in gone {
        assert Minus(s, gone) == Minus(s[1..], gone) && Minus(tie, gone) == [];
      } else {
        TiesCons(s[0], Minus(s[1..], gone), t, le);
      }
    }
  }

  lemma {:induction false} MinusStaysSorted(s: seq<string>, gone: seq<string>, le: (string, string) -> bool)
    requires SortedBy(s, le)
    ensures SortedBy(Minus(s, gone), le)
  {
    if s != [] {
      MinusStaysSorted(s[1..], gone, le);
      MinusAre(s[1..], gone);
      var rest := Minus(s[1..], gone);
      forall j | 0 <= j < |rest| ensures le(s[0], rest[j]) {
        assert rest[j] in rest && rest[j] in s[1..];
        var m :| 0 <= m < |s[1..]| && s[1..][m] == rest[j];
        assert s[m + 1] == rest[j];
      }
    }
  }

  /** Sorting what is left is taking away from what was sorted. */
  lemma SortOfMinus(s: seq<string>, gone: seq<string>, le: (string, string) -> bool)
    requires TotalPreorder(le)
    ensures StableSort(Minus(s, gone), le) == Minus(StableSort(s, le), gone)
  {
    StableSortIsStable(s, le);
    StableSortIsStable(Minus(s, gone), le);
    MinusStaysSorted(StableSort(s, le), gone, le);
    forall t ensures Ties(StableSort(Minus(s, gone), le), t, le) == Ties(Minus(StableSort(s, le), gone), t, le) {
      MinusTies(StableSort(s, le), gone, t, le);
      MinusTies(s, gone, t, le);
    }
    StableSortIsUnique(StableSort(Minus(s, gone), le), Minus(StableSort(s, le), gone), le);
  }

  lemma {:induction false} SameInsertOn(x: string, s: seq<string>, a: Runtimes, b: Runtimes, collate: string -> real)
    requires forall id | id == x || id in s :: At(a, id).lastUsedMs == At(b, id).lastUsedMs
    ensures Insert(x, s, Older(a, collate)) == Insert(x, s, Older(b, collate))
  {
    if s != [] {
      assert s[0] in s;
      SameInsertOn(x, s[1..], a, b, collate);
    }
  }

  lemma {:induction false} SameSortOn(s: seq<string>, a: Runtimes, b: Runtimes, collate: string -> real)
    requires forall id | id in s :: At(a, id).lastUsedMs == At(b, id).lastUsedMs
    ensures StableSort(s, Older(a, collate)) == StableSort(s, Older(b, collate))
  {
    if s != [] {
      SameSortOn(s[1..], a, b, collate);
      var rest := StableSort(s[1..], Older(a, collate));
      SortKeepsKeys(s[1..], Older(a, collate));
      assert s[0] in s && forall id :: id in rest ==> id in s[1..];
      SameInsertOn(s[0], rest, a, b, collate);
    }
  }

  /** In the second state these services are gone and the other candidates are as they were. */
  ghost predicate Gone(before: Runtimes, after: Runtimes, targetID: string, gone: seq<string>) {
    forall id :: Evictable(after, targetID, id) <==> Evictable(before, targetID, id) && id !in gone
  }

  lemma {:induction false} EvictableWithout(keys: seq<string>, before: Runtimes, after: Runtimes, targetID: string,
                                            gone: seq<string>)
    requires Gone(before, after, targetID, gone)
    ensures EvictableOf(keys, after, targetID) == Minus(EvictableOf(keys, before, targetID), gone)
    decreases |keys|
  {
    if keys != [] {
      var front, id := keys[..|keys| - 1], keys[|keys| - 1];
      EvictableWithout(front, before, after, targetID, gone);
      var last := if Evictable(before, targetID, id) then [id] else [];
      MinusAdd(EvictableOf(front, before, targetID), last, gone);
      MinusAre(last, gone);
    }
  }

  /** Once the first n candidates are gone, the candidates are the others, in the order they had. */
  lemma CandidatesWithout(before: Runtimes, after: Runtimes, collate: string -> real, services: Services,
                          targetID: string, n: nat)
    requires n <= |Candidates(before, collate, services, targetID)|
    requires Gone(before, after, targetID, Candidates(before, collate, services, targetID)[..n])
    requires forall id | Evictable(after, targetID, id) :: At(after, id).lastUsedMs == At(before, id).lastUsedMs
    ensures Candidates(after, collate, services, targetID) == Candidates(before, collate, services, targetID)[n..]
  {
    var all := Candidates(before, collate, services, targetID);
    CandidatesAre(before, collate, services, targetID);
    EvictableWithout(services.keys, before, after, targetID, all[..n]);
    EvictableAre(services.keys, after, targetID);
    SameSortOn(EvictableOf(services.keys, after, targetID), after, before, collate);
    SortOfMinus(EvictableOf(services.keys, before, targetID), all[..n], Older(before, collate));
    MinusPrefix(all, n);
  }
}
