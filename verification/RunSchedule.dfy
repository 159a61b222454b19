/**
 * Scheduling decisions of the test pool, as functions: the order of the units, the room one more of
 * them needs, and the cap on how many there may be.
 *
 * A reservation is held from start to end, and all of them come out of one budget, read off an idle host.
 */
module RunSchedule {
  import opened Wrappers
  import opened Ordering
  import opened MemoryPlan

  datatype Reservation = Reservation(unit: string, commitBytes: int, residentBytes: int, profiled: bool)

  type Budget = Headroom

  datatype Verdict = Admit | AtTheCap | CandidateUnprofiled | NeighbourUnprofiled | CommitBudget | ResidentBudget

  const DEFAULT_MAX_CONCURRENCY: int := 4
  const RESERVED_CORES: int := 2

  function Less(b: Bytes, slackBytes: int): Bytes {
    match b
    case Finite(n) => Finite(if n - slackBytes > 0 then n - slackBytes else 0)
    case Unlimited => Unlimited
  }

  /** The headroom less the test runner's own slack, charged once. */
  function PoolBudget(headroom: Headroom, slackBytes: int): Budget {
    Headroom(Less(headroom.commit, slackBytes), Less(headroom.resident, slackBytes))
  }

  predicate Fits(n: int, b: Bytes) {
    b.Finite? ==> n <= b.n
  }

  function Commit(held: seq<Reservation>): int {
    if held == [] then 0 else held[0].commitBytes + Commit(held[1..])
  }

  function Resident(held: seq<Reservation>): int {
    if held == [] then 0 else held[0].residentBytes + Resident(held[1..])
  }

  /** forced is the number the environment names, if it names one; cpus is not always known. */
  function ConcurrencyCap(cpus: Option<real>, forced: Option<real>): (cap: int)
    // a number forced from outside is kept, whatever the machine
    ensures forced.Some? && forced.value >= 1.0 ==> 1 <= cap && cap as real <= forced.value < cap as real + 1.0
    // otherwise one, or the most up to the default that leaves the reserved cores free
    ensures forced.None? || forced.value < 1.0 ==>
              && 1 <= cap <= 4
              && (cap > 1 ==> cpus.Some? && (cap + 2) as real <= cpus.value)
              && (cap < 4 ==> cpus.None? || (cap + 3) as real > cpus.value)
  {
    if forced.Some? && forced.value >= 1.0 then forced.value.Floor
    else
      var usable := if cpus.Some? then cpus.value.Floor - RESERVED_CORES else 0;
      var most := if usable < DEFAULT_MAX_CONCURRENCY then usable else DEFAULT_MAX_CONCURRENCY;
      if most > 1 then most else 1
  }

  function Admits(budget: Budget, inFlight: seq<Reservation>, candidate: Reservation, cap: int): Verdict {
    if inFlight == [] then Admit
    else if |inFlight| >= cap then AtTheCap
    else if !candidate.profiled then CandidateUnprofiled
    else if exists r :: r in inFlight && !r.profiled then NeighbourUnprofiled
    else if !Fits(Commit(inFlight) + candidate.commitBytes, budget.commit) then CommitBudget
    else if !Fits(Resident(inFlight) + candidate.residentBytes, budget.resident) then ResidentBudget
    else Admit
  }

  /** What holds of the units in flight together: two or more are all measured, within the cap and the budget. */
  ghost predicate Within(budget: Budget, held: seq<Reservation>, cap: int) {
    |held| >= 2 ==>
      && |held| <= cap
      && (forall r | r in held :: r.profiled)
      && Fits(Commit(held), budget.commit) && Fits(Resident(held), budget.resident)
  }

  lemma {:induction false} HeldTogether(a: seq<Reservation>, b: seq<Reservation>)
    ensures Commit(a + b) == Commit(a) + Commit(b) && Resident(a + b) == Resident(a) + Resident(b)
  {
    if a == [] {
      assert a + b == b;
    } else {
      assert (a + b)[1..] == a[1..] + b;
      HeldTogether(a[1..], b);
    }
  }

  /** Beside others, exactly the candidates that keep the whole pool within its bounds are admitted. */
  lemma AdmitsExactlyWhatStaysWithin(budget: Budget, inFlight: seq<Reservation>, candidate: Reservation, cap: int)
    ensures Admits(budget, inFlight, candidate, cap) == Admit <==> Within(budget, inFlight + [candidate], cap)
  {
    var all := inFlight + [candidate];
    HeldTogether(inFlight, [candidate]);
    assert Commit([candidate]) == candidate.commitBytes && Resident([candidate]) == candidate.residentBytes;
    assert candidate in all && forall r :: r in inFlight ==> r in all;
    assert forall r :: r in all ==> r in inFlight || r == candidate;
  }

  /** Beside one other unit: both are measured, there is a second place, and both kinds of memory last. */
  lemma TwoFitTogether(budget: Budget, a: Reservation, b: Reservation, cap: int)
    ensures Admits(budget, [a], b, cap) == Admit <==>
            && cap >= 2 && a.profiled && b.profiled
            && (match budget.commit case Finite(n) => a.commitBytes + b.commitBytes <= n case Unlimited => true)
            && (match budget.resident case Finite(n) => a.residentBytes + b.residentBytes <= n case Unlimited => true)
  {
    assert [a][1..] == [] && Commit([]) == 0 == Resident([]);
    assert Commit([a]) == a.commitBytes && Resident([a]) == a.residentBytes;
    assert a in [a] && forall r :: r in [a] ==> r == a;
  }

  /** A refusal names a bound that the pool with the candidate would break, the first in this order. */
  lemma RefusalsNameABrokenBound(budget: Budget, inFlight: seq<Reservation>, candidate: Reservation, cap: int)
    ensures var verdict, full := Admits(budget, inFlight, candidate, cap), |inFlight| + 1 > cap;
            inFlight != [] ==>
              && (verdict == AtTheCap <==> full)
              && (verdict == CandidateUnprofiled <==> !full && !candidate.profiled)
              && (verdict == NeighbourUnprofiled ==> exists i :: 0 <= i < |inFlight| && !inFlight[i].profiled)
              && (verdict == CommitBudget ==>
                    budget.commit.Finite? && Commit(inFlight + [candidate]) > budget.commit.n)
              && (verdict == ResidentBudget ==>
                    budget.resident.Finite? && Resident(inFlight + [candidate]) > budget.resident.n)
  {
    HeldTogether(inFlight, [candidate]);
    assert [candidate][1..] == [] && Commit([]) == 0 == Resident([]);
    assert Commit([candidate]) == candidate.commitBytes && Resident([candidate]) == candidate.residentBytes;
  }

  lemma {:induction false} HoldingLessIsWithin(held: seq<Reservation>, i: nat, budget: Budget, cap: int)
    requires i < |held| && Within(budget, held, cap) && held[i].commitBytes >= 0 && held[i].residentBytes >= 0
    ensures Within(budget, held[..i] + held[i + 1..], cap)
  {
    var less := held[..i] + held[i + 1..];
    assert held == held[..i] + ([held[i]] + held[i + 1..]);
    HeldTogether(held[..i], [held[i]] + held[i + 1..]);
    HeldTogether([held[i]], held[i + 1..]);
    HeldTogether(held[..i], held[i + 1..]);
    assert Commit([held[i]]) == held[i].commitBytes && Resident([held[i]]) == held[i].residentBytes;
    assert forall r :: r in less ==> r in held;
  }

  // ---- the planner and the pool agree ----

  predicate ReservationFits(demand: Demand, headroom: Headroom) {
    var budget := PoolBudget(headroom, SLACK_BYTES);
    Fits(ReservedBytes(demand.commitPeakMb), budget.commit)
      && Fits(ReservedBytes(demand.residentPeakMb), budget.resident)
  }

  /** This reading would be clamped to a budget of nothing, and nothing is asked of it. */
  predicate AsksNothingOfLessThanTheSlack(peakMb: nat, b: Bytes) {
    b.Finite? && b.n < SLACK_BYTES && peakMb == 0
  }

  predicate FitsWithSlack(peakMb: nat, b: Bytes) {
    b.Finite? ==> RequiredBytes(peakMb) <= b.n
  }

  /**
   * On a host that reports both kinds of memory, a unit runs whole exactly when its reservation fits
   * the budget the same reading yields, except when a reading is under the slack and the unit's peak
   * of that kind is zero: the clamped budget then admits what the planner does not run whole.
   */
  lemma WholeExactlyWhenTheReservationFits(demand: Demand, headroom: Headroom)
    requires headroom.commit.Finite? && headroom.resident.Finite?
    ensures var c, r := AsksNothingOfLessThanTheSlack(demand.commitPeakMb, headroom.commit),
                        AsksNothingOfLessThanTheSlack(demand.residentPeakMb, headroom.resident);
            (PlanFor(demand, headroom).mode.Whole? <==> ReservationFits(demand, headroom))
            <==> !(|| (c && r) || (c && FitsWithSlack(demand.residentPeakMb, headroom.resident))
                   || (r && FitsWithSlack(demand.commitPeakMb, headroom.commit)))
  {
    ReservedIsZeroExactly(demand.commitPeakMb);
    ReservedIsZeroExactly(demand.residentPeakMb);
  }

  /** It happens: a unit with no peak fits the empty budget of an empty host and is refused by the planner. */
  lemma ANothingFitsButIsRefused()
    ensures var demand, headroom := Demand(0, 0), Headroom(Finite(0), Finite(0));
            ReservationFits(demand, headroom) && PlanFor(demand, headroom).mode == Refuse
  {}

  lemma ReservedIsZeroExactly(peakMb: nat)
    ensures 0 <= ReservedBytes(peakMb) && (ReservedBytes(peakMb) == 0 <==> peakMb == 0)
  {}

  // ---- longest first ----

  datatype Indexed<T> = Indexed(unit: T, index: nat, cost: Option<real>)

  function Decorate<T>(units: seq<T>, costOf: T -> Option<real>, start: nat): seq<Indexed<T>> {
    if units == [] then [] else [Indexed(units[0], start, costOf(units[0]))] + Decorate(units[1..], costOf, start + 1)
  }

  function Undecorate<T>(s: seq<Indexed<T>>): seq<T> {
    if s == [] then [] else [s[0].unit] + Undecorate(s[1..])
  }

  /** The comparator's order, with the index for what it ties. */
  predicate NoLater<T>(a: Indexed<T>, b: Indexed<T>) {
    if a.cost.None? && b.cost.None? then a.index <= b.index
    else if a.cost.None? then false
    else if b.cost.None? then true
    else a.cost.value > b.cost.value || (a.cost.value == b.cost.value && a.index <= b.index)
  }

  function OrderByCost<T>(units: seq<T>, costOf: T -> Option<real>): seq<T> {
    Undecorate(StableSort(Decorate(units, costOf, 0), (a, b) => NoLater(a, b)))
  }

  /** Longer first, unmeasured last, and nothing else. */
  predicate CostsNoLess(a: Option<real>, b: Option<real>) {
    b.None? || (a.Some? && a.value >= b.value)
  }

  function ByCost<T>(costOf: T -> Option<real>): (T, T) -> bool {
    (a, b) => CostsNoLess(costOf(a), costOf(b))
  }

  lemma ByCostIsAPreorder<T(!new)>(costOf: T -> Option<real>)
    ensures TotalPreorder(ByCost(costOf))
  {}

  /** Inserted before later ones, an earlier unit goes where its cost alone would put it. */
  lemma {:induction false} InsertByCost<T>(x: Indexed<T>, s: seq<Indexed<T>>, costOf: T -> Option<real>)
    requires x.cost == costOf(x.unit) && forall y | y in s :: y.cost == costOf(y.unit) && x.index < y.index
    ensures Undecorate(Insert(x, s, (a, b) => NoLater(a, b))) == Insert(x.unit, Undecorate(s), ByCost(costOf))
  {
    if s == [] {
      assert [x][1..] == [];
    } else {
      assert s[0] in s && forall y | y in s[1..] :: y in s;
      assert NoLater(x, s[0]) <==> ByCost(costOf)(x.unit, s[0].unit);
      if NoLater(x, s[0]) {
        assert ([x] + s)[1..] == s;
      } else {
        InsertByCost(x, s[1..], costOf);
        assert ([s[0]] + Insert(x, s[1..], (a, b) => NoLater(a, b)))[1..] == Insert(x, s[1..], (a, b) => NoLater(a, b));
        assert Undecorate(s)[1..] == Undecorate(s[1..]);
      }
    }
  }

  lemma {:induction false} DecoratedAre<T>(units: seq<T>, costOf: T -> Option<real>, start: nat)
    ensures forall y | y in Decorate(units, costOf, start) :: y.cost == costOf(y.unit) && start <= y.index
  {
    if units != [] {
      DecoratedAre(units[1..], costOf, start + 1);
    }
  }

  lemma {:induction false} SortedByCostAlone<T>(units: seq<T>, costOf: T -> Option<real>, start: nat)
    ensures Undecorate(StableSort(Decorate(units, costOf, start), (a, b) => NoLater(a, b)))
         == StableSort(units, ByCost(costOf))
  {
    if units != [] {
      var x := Indexed(units[0], start, costOf(units[0]));
      var rest := Decorate(units[1..], costOf, start + 1);
      var sorted := StableSort(rest, (a, b) => NoLater(a, b));
      SortedByCostAlone(units[1..], costOf, start + 1);
      DecoratedAre(units[1..], costOf, start + 1);
      StableSortPermutes(rest, (a, b) => NoLater(a, b));
      forall y | y in sorted ensures y in rest {
        assert y in multiset(sorted);
      }
      InsertByCost(x, sorted, costOf);
      assert ([x] + rest)[1..] == rest;
    }
  }

  /**
   * The order is the stable longest-first order of the units, unmeasured ones last, and it is the
   * only one there is.
   */
  lemma OrderIsTheStableLongestFirst<T(!new)>(units: seq<T>, costOf: T -> Option<real>)
    ensures IsStableSort(units, OrderByCost(units, costOf), ByCost(costOf))
    ensures forall other :: IsStableSort(units, other, ByCost(costOf)) ==> other == OrderByCost(units, costOf)
  {
    SortedByCostAlone(units, costOf, 0);
    ByCostIsAPreorder(costOf);
    StableSortIsStable(units, ByCost(costOf));
    forall other | IsStableSort(units, other, ByCost(costOf)) ensures other == OrderByCost(units, costOf) {
      StableSortIsUnique(other, OrderByCost(units, costOf), ByCost(costOf));
    }
  }

  /** The units of this cost, in the order they have. */
  function OfCost<T>(units: seq<T>, costOf: T -> Option<real>, cost: Option<real>): seq<T> {
    if units == [] then []
    else (if costOf(units[0]) == cost then [units[0]] else []) + OfCost(units[1..], costOf, cost)
  }

  lemma {:induction false} TiesAreOfOneCost<T>(units: seq<T>, t: T, costOf: T -> Option<real>)
    ensures Ties(units, t, ByCost(costOf)) == OfCost(units, costOf, costOf(t))
  {
    if units != [] {
      TiesAreOfOneCost(units[1..], t, costOf);
    }
  }

  lemma {:induction false} NoneOfThatCost<T>(units: seq<T>, costOf: T -> Option<real>, cost: Option<real>)
    ensures (forall u | u in units :: costOf(u) != cost) ==> OfCost(units, costOf, cost) == []
  {
    if units != [] {
      assert units[0] in units && forall u | u in units[1..] :: u in units;
      NoneOfThatCost(units[1..], costOf, cost);
    }
  }

  /** Every unit once as often as before, the dearest first, those without a cost last, and ties as they were. */
  lemma TheDearestGoFirst<T(!new)>(units: seq<T>, costOf: T -> Option<real>, cost: Option<real>)
    ensures var order := OrderByCost(units, costOf);
            && multiset(order) == multiset(units)
            && (forall i, j | 0 <= i < j < |order| && costOf(order[i]).None? :: costOf(order[j]).None?)
            && (forall i, j | 0 <= i < j < |order| && costOf(order[i]).Some? && costOf(order[j]).Some? ::
                  costOf(order[i]).value >= costOf(order[j]).value)
            && OfCost(order, costOf, cost) == OfCost(units, costOf, cost)
  {
    var order := OrderByCost(units, costOf);
    OrderIsTheStableLongestFirst(units, costOf);
    forall i, j | 0 <= i < j < |order| ensures CostsNoLess(costOf(order[i]), costOf(order[j])) {
      assert ByCost(costOf)(order[i], order[j]);
    }
    forall u ensures u in order <==> u in units {
      assert u in multiset(order) <==> u in multiset(units);
    }
    if t :| t in units && costOf(t) == cost {
      TiesAreOfOneCost(order, t, costOf);
      TiesAreOfOneCost(units, t, costOf);
    } else {
      NoneOfThatCost(order, costOf, cost);
      NoneOfThatCost(units, costOf, cost);
    }
  }

  // ---- the costs that history shows ----

  /** One row of the series; a field of the wrong type is absent. */
  datatype Row = Row(unit: Option<string>, isTest: bool, ok: bool, ms: Option<real>)

  predicate Counts(line: Option<Row>) {
    line.Some? && line.value.isTest && line.value.ok && line.value.unit.Some? && line.value.ms.Some?
  }

  /** What the lines say this unit took, in order; a line that cannot be read says nothing. */
  function Samples(lines: seq<Option<Row>>, unit: string): seq<real> {
    if lines == [] then []
    else
      var line := lines[|lines| - 1];
      Samples(lines[..|lines| - 1], unit)
      + if Counts(line) && line.value.unit.value == unit then [line.value.ms.value] else []
  }

  function Ascending(s: seq<real>): (r: seq<real>)
    ensures |r| == |s|
  {
    StableSortPermutes(s, (a: real, b: real) => a <= b);
    assert |multiset(StableSort(s, (a: real, b: real) => a <= b))| == |multiset(s)|;
    StableSort(s, (a: real, b: real) => a <= b)
  }

  /** The middle of the samples in ascending order, the upper one of two. */
  function Median(s: seq<real>): real
    requires s != []
  {
    Ascending(s)[|s| / 2]
  }

  /** How many of the samples are below c, and how many are not above it. */
  function Below(s: seq<real>, c: real): nat {
    if s == [] then 0 else (if s[0] < c then 1 else 0) + Below(s[1..], c)
  }

  function NotAbove(s: seq<real>, c: real): nat {
    if s == [] then 0 else (if s[0] <= c then 1 else 0) + NotAbove(s[1..], c)
  }

  /** One of the samples, with at most half of them below it and more than half not above it. */
  ghost predicate IsMiddle(c: real, s: seq<real>) {
    c in s && 2 * Below(s, c) <= |s| < 2 * NotAbove(s, c)
  }

  /** If nothing from place k on is below c, at most k are; if nothing before it is above c, k are not. */
  lemma {:induction false} CountsUpTo(s: seq<real>, k: nat, c: real)
    requires k <= |s|
    ensures (forall i | k <= i < |s| :: s[i] >= c) ==> Below(s, c) <= k
    ensures (forall i | 0 <= i < k :: s[i] <= c) ==> NotAbove(s, c) >= k
  {
    if s != [] {
      assert forall i | 0 <= i < |s[1..]| :: s[1..][i] == s[i + 1];
      CountsUpTo(s[1..], if k > 0 then k - 1 else 0, c);
    }
  }

  lemma {:induction false} InsertCounts(x: real, s: seq<real>, c: real)
    ensures var after := Insert(x, s, (a: real, b: real) => a <= b);
            && Below(after, c) == (if x < c then 1 else 0) + Below(s, c)
            && NotAbove(after, c) == (if x <= c then 1 else 0) + NotAbove(s, c)
  {
    if s == [] || x <= s[0] {
      assert ([x] + s)[1..] == s;
    } else {
      InsertCounts(x, s[1..], c);
      var rest := Insert(x, s[1..], (a: real, b: real) => a <= b);
      assert ([s[0]] + rest)[1..] == rest;
    }
  }

  /** Sorting changes no count. */
  lemma {:induction false} SortCounts(s: seq<real>, c: real)
    ensures var sorted := StableSort(s, (a: real, b: real) => a <= b);
            Below(sorted, c) == Below(s, c) && NotAbove(sorted, c) == NotAbove(s, c)
  {
    if s != [] {
      SortCounts(s[1..], c);
      InsertCounts(s[0], StableSort(s[1..], (a: real, b: real) => a <= b), c);
    }
  }

  lemma SortedCounts(r: seq<real>, k: nat)
    requires k < |r| && forall i, j | 0 <= i < j < |r| :: r[i] <= r[j]
    ensures Below(r, r[k]) <= k < NotAbove(r, r[k])
  {
    CountsUpTo(r, k, r[k]);
    CountsUpTo(r, k + 1, r[k]);
  }

  lemma MedianIsMiddle(s: seq<real>)
    requires s != []
    ensures IsMiddle(Median(s), s)
  {
    var r, le := Ascending(s), (a: real, b: real) => a <= b;
    StableSortIsStable(s, le);
    forall i, j | 0 <= i < j < |r| ensures r[i] <= r[j] {
      assert le(r[i], r[j]);
    }
    SortedCounts(r, |s| / 2);
    SortCounts(s, r[|s| / 2]);
    assert r[|s| / 2] in multiset(r) && multiset(r) == multiset(s);
  }

  lemma {:induction false} LessIsBelow(s: seq<real>, b: real, c: real)
    requires b < c
    ensures NotAbove(s, b) <= Below(s, c)
  {
    if s != [] {
      LessIsBelow(s[1..], b, c);
    }
  }

  /** There is only one such sample. */
  lemma MiddleIsUnique(b: real, c: real, s: seq<real>)
    requires IsMiddle(b, s) && IsMiddle(c, s)
    ensures b == c
  {
    if b < c {
      LessIsBelow(s, b, c);
    } else if c < b {
      LessIsBelow(s, c, b);
    }
  }

  /** One more line adds its time to the samples of the unit it names, if it is a passing test's, and to no other. */
  lemma OneMoreLine(lines: seq<Option<Row>>, line: Option<Row>, unit: string)
    ensures Samples(lines + [line], unit)
         == if line.Some? && line.value.isTest && line.value.ok && line.value.unit == Some(unit) && line.value.ms.Some?
            then Samples(lines, unit) + [line.value.ms.value]
            else Samples(lines, unit)
  {
    assert (lines + [line])[..|lines|] == lines;
    assert Samples(lines, unit) + [] == Samples(lines, unit);
  }

  method ObservedCosts(lines: seq<Option<Row>>) returns (costs: map<string, real>)
    ensures forall unit :: unit in costs <==> Samples(lines, unit) != []
    ensures forall unit :: unit in costs ==> IsMiddle(costs[unit], Samples(lines, unit))
  {
    var samples: map<string, seq<real>> := map[];
    for n := 0 to |lines|
      invariant forall unit :: unit in samples <==> Samples(lines[..n], unit) != []
      invariant forall unit :: unit in samples ==> samples[unit] == Samples(lines[..n], unit)
    {
      assert lines[..n + 1][..n] == lines[..n];
      if Counts(lines[n]) {
        var unit, ms := lines[n].value.unit.value, lines[n].value.ms.value;
        samples := samples[unit := (if unit in samples then samples[unit] else []) + [ms]];
      }
    }
    assert lines[..|lines|] == lines;
    costs := map[];
    var left := samples.Keys;
    while left != {}
      invariant left <= samples.Keys
      invariant forall unit :: unit in costs <==> unit in samples && unit !in left
      invariant forall unit :: unit in costs ==> IsMiddle(costs[unit], samples[unit])
    {
      var unit :| unit in left;
      MedianIsMiddle(samples[unit]);
      costs := costs[unit := Median(samples[unit])];
      left := left - {unit};
    }
  }
}
