/**
 * How a test unit is run in the memory there is: whole, in shards, or not at all.
 *
 * Peaks are whole megabytes and memory is in whole bytes, so the 1.3 of the headroom factor is the
 * fraction 13/10 and rounding is exact, half up, as JavaScript's Math.round is for positive numbers.
 */
module MemoryPlan {
  const MB: int := 1024 * 1024
  const SLACK_BYTES: int := 512 * MB
  const MIN_VIABLE_BYTES: int := 1200 * MB
  const UNPROFILED_PEAK_MB: nat := 1200
  const UNPROFILED_RESIDENT_MB: nat := 1200
  const MAX_SHARDS: int := 8

  /** A unit's recorded peak, in MB. */
  type PeakProfile = map<string, nat>

  datatype Demand = Demand(commitPeakMb: nat, residentPeakMb: nat)

  /** A reading of free memory; a host that reports none has no limit. */
  datatype Bytes = Finite(n: int) | Unlimited

  datatype Headroom = Headroom(commit: Bytes, resident: Bytes)

  datatype Mode = Whole | Sharded(shards: int) | Refuse

  datatype Plan = Plan(mode: Mode, commitRequired: int, residentRequired: int)

  function ReservedBytes(peakMb: nat): int {
    (peakMb * MB * 13 + 5) / 10
  }

  function RequiredBytes(peakMb: nat): int {
    ReservedBytes(peakMb) + SLACK_BYTES
  }

  function Ceil(x: real): int {
    -((-x).Floor)
  }

  function Max(a: real, b: real): real { if a >= b then a else b }

  function Pressure(required: int, free: int): real
    requires free > 0
  {
    required as real / free as real
  }

  function Shards(pressure: real): int {
    var wanted := if Ceil(pressure) > 2 then Ceil(pressure) else 2;
    if wanted < MAX_SHARDS then wanted else MAX_SHARDS
  }

  function ModeFor(commitRequired: int, residentRequired: int, headroom: Headroom): Mode {
    match headroom
    case Headroom(Finite(commit), Finite(resident)) =>
      if commit >= commitRequired && resident >= residentRequired then Whole
      else if commit < MIN_VIABLE_BYTES || resident < MIN_VIABLE_BYTES then Refuse
      else Sharded(Shards(Max(Pressure(commitRequired, commit), Pressure(residentRequired, resident))))
    case _ => Whole
  }

  function PlanFor(demand: Demand, headroom: Headroom): Plan {
    var commitRequired := RequiredBytes(demand.commitPeakMb);
    var residentRequired := RequiredBytes(demand.residentPeakMb);
    Plan(ModeFor(commitRequired, residentRequired, headroom), commitRequired, residentRequired)
  }

  function DemandFor(commit: PeakProfile, resident: PeakProfile, unit: string): Demand {
    Demand(if unit in commit then commit[unit] else UNPROFILED_PEAK_MB,
           if unit in resident then resident[unit] else UNPROFILED_RESIDENT_MB)
  }

  // ---- more memory is never worse, and more demand is never better ----

  function Rung(m: Mode): int {
    match m
    case Refuse => 0
    case Sharded(_) => 1
    case Whole => 2
  }

  /** m is no worse than n: a higher rung, or the same rung in no more shards. */
  predicate NoWorse(m: Mode, n: Mode) {
    Rung(m) > Rung(n) || (Rung(m) == Rung(n) && (m.Sharded? ==> m.shards <= n.shards))
  }

  lemma FloorMonotone(x: real, y: real)
    requires x <= y
    ensures x.Floor <= y.Floor
  {}

  lemma CeilMonotone(x: real, y: real)
    requires x <= y
    ensures Ceil(x) <= Ceil(y)
  {
    FloorMonotone(-y, -x);
  }

  lemma QuotientMonotone(a: real, a': real, b: real, b': real)
    requires 0.0 <= a <= a' && 0.0 < b' <= b
    ensures a / b <= a' / b'
  {
    var q, q' := a / b, a' / b';
    assert q * b == a && q' * b' == a';
    ProductMonotone(q, b', b);
    if q > q' {
      ProductStrict(q', q, b');
    }
  }

  lemma ProductMonotone(q: real, x: real, y: real)
    requires q >= 0.0 && x <= y
    ensures q * x <= q * y
  {}

  lemma ProductStrict(p: real, q: real, x: real)
    requires p < q && x > 0.0
    ensures p * x < q * x
  {}

  lemma RequiredMonotone(p: nat, q: nat)
    requires p <= q
    ensures 0 <= RequiredBytes(p) <= RequiredBytes(q)
  {}

  /**
   * Under more memory of either kind and no more demand, a plan is never on a lower rung and never
   * in more shards; and a sharded plan always has from two to eight of them.
   */
  lemma PlanIsMonotone(less: Demand, more: Demand, large: Headroom, small: Headroom)
    requires less.commitPeakMb <= more.commitPeakMb && less.residentPeakMb <= more.residentPeakMb
    requires large.commit.Finite? && large.resident.Finite? && small.commit.Finite? && small.resident.Finite?
    requires large.commit.n >= small.commit.n && large.resident.n >= small.resident.n
    ensures var m := PlanFor(less, large).mode;
            NoWorse(m, PlanFor(more, small).mode) && (m.Sharded? ==> 2 <= m.shards <= MAX_SHARDS)
  {
    RequiredMonotone(less.commitPeakMb, more.commitPeakMb);
    RequiredMonotone(less.residentPeakMb, more.residentPeakMb);
    if PlanFor(less, large).mode.Sharded? && PlanFor(more, small).mode.Sharded? {
      var c, c' := RequiredBytes(less.commitPeakMb), RequiredBytes(more.commitPeakMb);
      var r, r' := RequiredBytes(less.residentPeakMb), RequiredBytes(more.residentPeakMb);
      QuotientMonotone(c as real, c' as real, large.commit.n as real, small.commit.n as real);
      QuotientMonotone(r as real, r' as real, large.resident.n as real, small.resident.n as real);
      CeilMonotone(Max(Pressure(c, large.commit.n), Pressure(r, large.resident.n)),
                   Max(Pressure(c', small.commit.n), Pressure(r', small.resident.n)));
    }
  }

  /** The fewest shards from two on that let an equal share of each requirement fit, up to the cap. */
  lemma ShardsCoverThePressure(demand: Demand, headroom: Headroom)
    requires PlanFor(demand, headroom).mode.Sharded?
    ensures var plan := PlanFor(demand, headroom);
            var n := plan.mode.shards;
            && (n < MAX_SHARDS ==>
                  && plan.commitRequired <= n * headroom.commit.n
                  && plan.residentRequired <= n * headroom.resident.n)
            && (n > 2 ==>
                  || plan.commitRequired > (n - 1) * headroom.commit.n
                  || plan.residentRequired > (n - 1) * headroom.resident.n)
  {
    var plan := PlanFor(demand, headroom);
    ShardsCover(plan.commitRequired, headroom.commit.n, plan.residentRequired, headroom.resident.n);
    ShardsAreFewest(plan.commitRequired, headroom.commit.n, plan.residentRequired, headroom.resident.n);
  }

  lemma ShardsCover(c: int, commit: int, r: int, resident: int)
    requires commit > 0 && resident > 0
    ensures var n := Shards(Max(Pressure(c, commit), Pressure(r, resident)));
            n < MAX_SHARDS ==> c <= n * commit && r <= n * resident
  {
    var pressure := Max(Pressure(c, commit), Pressure(r, resident));
    CeilMonotone(Pressure(c, commit), pressure);
    CeilMonotone(Pressure(r, resident), pressure);
    if Shards(pressure) < MAX_SHARDS {
      FitsIn(c, commit, Shards(pressure));
      FitsIn(r, resident, Shards(pressure));
    }
  }

  lemma ShardsAreFewest(c: int, commit: int, r: int, resident: int)
    requires commit > 0 && resident > 0
    ensures var n := Shards(Max(Pressure(c, commit), Pressure(r, resident)));
            n > 2 ==> c > (n - 1) * commit || r > (n - 1) * resident
  {
    var n := Shards(Max(Pressure(c, commit), Pressure(r, resident)));
    if n > 2 && c <= (n - 1) * commit {
      FitsOnlyIn(c, commit, n - 1);
      if r <= (n - 1) * resident {
        FitsOnlyIn(r, resident, n - 1);
      }
    }
  }

  lemma FitsIn(required: int, free: int, n: int)
    requires free > 0 && n >= Ceil(Pressure(required, free))
    ensures required <= n * free
  {
    var q := Pressure(required, free);
    assert q * free as real == required as real;
    assert q <= n as real;
    assert q * free as real <= n as real * free as real by { ProductMonotone(free as real, q, n as real); }
    assert n as real * free as real == (n * free) as real;
  }

  lemma FitsOnlyIn(required: int, free: int, n: int)
    requires free > 0 && required <= n * free
    ensures Ceil(Pressure(required, free)) <= n
  {
    var q := Pressure(required, free);
    assert q * free as real == required as real <= (n * free) as real == n as real * free as real;
    if q > n as real {
      ProductStrict(n as real, q, free as real);
    }
  }

  /** The reservation is the exact 1.3 of the peak, to the nearest byte. */
  lemma ReservationIsTheNearestByte(peakMb: nat)
    ensures -5 <= 10 * ReservedBytes(peakMb) - 13 * (peakMb * MB) <= 5
    ensures forall n: int :: -5 < 10 * n - 13 * (peakMb * MB) < 5 ==> n == ReservedBytes(peakMb)
  {}

  /** This much free memory is 1.3 of the peak, to the nearest byte, and 512 MB more. */
  predicate Covers(peakMb: nat, free: int) {
    10 * (free - 536870912) > 13 * 1048576 * peakMb - 5
  }

  /** Whole where both kinds cover the unit, else refused where either is under 1200 MB, else in two to eight shards. */
  lemma PlanInNumbers(demand: Demand, commit: int, resident: int)
    ensures var mode := PlanFor(demand, Headroom(Finite(commit), Finite(resident))).mode;
            if Covers(demand.commitPeakMb, commit) && Covers(demand.residentPeakMb, resident) then mode == Whole
            else if commit < 1258291200 || resident < 1258291200 then mode == Refuse
            else mode.Sharded? && 2 <= mode.shards <= 8
  {}

  /** Without both readings every unit runs whole; a unit that was never measured counts as 1200 MB. */
  lemma UnknownMemoryAndUnits(demand: Demand, headroom: Headroom, commit: PeakProfile, resident: PeakProfile,
                              unit: string)
    ensures headroom.commit.Unlimited? || headroom.resident.Unlimited? ==> PlanFor(demand, headroom).mode == Whole
    ensures unit !in commit ==> DemandFor(commit, resident, unit).commitPeakMb == 1200
    ensures unit !in resident ==> DemandFor(commit, resident, unit).residentPeakMb == 1200
    ensures unit in commit ==> DemandFor(commit, resident, unit).commitPeakMb == commit[unit]
    ensures unit in resident ==> DemandFor(commit, resident, unit).residentPeakMb == resident[unit]
  {}
}
