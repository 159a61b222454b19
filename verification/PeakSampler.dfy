/**
 * Attributing a sampled timeline of processes to one window, by when each process was born.
 *
 * A row is one tick of the sampler, already split into fields; a field that is not a number is absent.
 */
module PeakSampler {
  import opened Wrappers

  datatype Entry = Entry(startMs: Option<real>, mb: Option<real>, resident: Option<real>)

  datatype Row = Row(ts: Option<real>, hostCommitPct: Option<real>, entries: seq<Entry>)

  datatype Sample = Sample(ticks: nat, ownTicks: nat, treeMb: Option<real>, workingSetMb: Option<real>,
                           foreignMb: Option<real>, hostCommitPct: Option<real>)

  // ---- what belongs to whom ----

  predicate Readable(e: Entry) {
    e.startMs.Some? && e.mb.Some? && e.resident.Some?
  }

  /** Born in the window. A negative birth time means the sampler could not read it. */
  predicate Own(e: Entry, fromMs: real) {
    Readable(e) && e.startMs.value >= 0.0 && e.startMs.value >= fromMs
  }

  predicate Foreign(e: Entry, fromMs: real) {
    Readable(e) && (e.startMs.value < 0.0 || e.startMs.value < fromMs)
  }

  predicate InWindow(row: Row, fromMs: real, toMs: real) {
    row.ts.Some? && fromMs <= row.ts.value <= toMs
  }

  function Mb(e: Entry): real { if e.mb.Some? then e.mb.value else 0.0 }
  function ResidentMb(e: Entry): real { if e.resident.Some? then e.resident.value else 0.0 }
  function Pct(row: Row): real { if row.hostCommitPct.Some? then row.hostCommitPct.value else 0.0 }

  /** The sum over the entries that belong. */
  function Sum(entries: seq<Entry>, belongs: Entry -> bool, size: Entry -> real): real {
    if entries == [] then 0.0
    else
      var e := entries[|entries| - 1];
      Sum(entries[..|entries| - 1], belongs, size) + if belongs(e) then size(e) else 0.0
  }

  function OwnMb(row: Row, fromMs: real): real { Sum(row.entries, e => Own(e, fromMs), e => Mb(e)) }
  function OwnResidentMb(row: Row, fromMs: real): real { Sum(row.entries, e => Own(e, fromMs), e => ResidentMb(e)) }
  function ForeignMb(row: Row, fromMs: real): real { Sum(row.entries, e => Foreign(e, fromMs), e => Mb(e)) }

  function Window(rows: seq<Row>, fromMs: real, toMs: real): seq<Row> {
    if rows == [] then []
    else
      var row := rows[|rows| - 1];
      Window(rows[..|rows| - 1], fromMs, toMs) + if InWindow(row, fromMs, toMs) then [row] else []
  }

  predicate HasOwn(row: Row, fromMs: real) {
    exists e :: e in row.entries && Own(e, fromMs)
  }

  function CountOwn(rows: seq<Row>, fromMs: real): nat {
    if rows == [] then 0
    else CountOwn(rows[..|rows| - 1], fromMs) + if HasOwn(rows[|rows| - 1], fromMs) then 1 else 0
  }

  /** p is the largest size of any row, or zero when none is larger. */
  ghost predicate IsPeak(p: real, rows: seq<Row>, size: Row -> real) {
    && p >= 0.0
    && (forall row | row in rows :: size(row) <= p)
    && (p == 0.0 || exists row :: row in rows && size(row) == p)
  }

  function OrZero(o: Option<real>): real { if o.Some? then o.value else 0.0 }

  /** A reported peak is a positive one. */
  ghost predicate Reports(o: Option<real>, rows: seq<Row>, size: Row -> real) {
    (o.Some? ==> o.value > 0.0) && IsPeak(OrZero(o), rows, size)
  }

  function Tree(fromMs: real): Row -> real { row => OwnMb(row, fromMs) }
  function WorkingSet(fromMs: real): Row -> real { row => OwnResidentMb(row, fromMs) }
  function Others(fromMs: real): Row -> real { row => ForeignMb(row, fromMs) }
  function Host(): Row -> real { row => Pct(row) }

  ghost predicate IsSample(s: Sample, rows: seq<Row>, fromMs: real, toMs: real) {
    var window := Window(rows, fromMs, toMs);
    && s.ticks == |window| && s.ownTicks == CountOwn(window, fromMs)
    && Reports(s.treeMb, window, Tree(fromMs))
    && Reports(s.workingSetMb, window, WorkingSet(fromMs))
    && Reports(s.foreignMb, window, Others(fromMs))
    && Reports(s.hostCommitPct, window, Host())
  }

  // ---- the pass ----

  function Larger(a: real, b: real): real { if a >= b then a else b }

  function Positive(x: real): Option<real> { if x > 0.0 then Some(x) else None }

  method Tally(row: Row, fromMs: real) returns (own: real, ownResident: real, foreign: real, sawOwn: bool)
    ensures own == OwnMb(row, fromMs) && ownResident == OwnResidentMb(row, fromMs) && foreign == ForeignMb(row, fromMs)
    ensures sawOwn == HasOwn(row, fromMs)
  {
    own, ownResident, foreign, sawOwn := 0.0, 0.0, 0.0, false;
    var entries := row.entries;
    for n := 0 to |entries|
      invariant own == Sum(entries[..n], e => Own(e, fromMs), e => Mb(e))
      invariant ownResident == Sum(entries[..n], e => Own(e, fromMs), e => ResidentMb(e))
      invariant foreign == Sum(entries[..n], e => Foreign(e, fromMs), e => Mb(e))
      invariant sawOwn <==> exists i :: 0 <= i < n && Own(entries[i], fromMs)
    {
      var e := entries[n];
      assert entries[..n + 1][..n] == entries[..n];
      if Readable(e) {
        if e.startMs.value >= 0.0 && e.startMs.value >= fromMs {
          own := own + e.mb.value;
          ownResident := ownResident + e.resident.value;
          sawOwn := true;
        } else {
          foreign := foreign + e.mb.value;
        }
      }
    }
    assert entries[..|entries|] == entries;
  }

  lemma PeakGrows(p: real, rows: seq<Row>, row: Row, size: Row -> real)
    requires IsPeak(p, rows, size)
    ensures IsPeak(Larger(p, size(row)), rows + [row], size)
  {
    assert row in rows + [row] && forall r | r in rows :: r in rows + [row];
    assert forall r | r in rows + [row] :: r in rows || r == row;
  }

  lemma PeakIsReported(p: real, rows: seq<Row>, size: Row -> real)
    requires IsPeak(p, rows, size)
    ensures Reports(Positive(p), rows, size)
  {}

  /** The four maxima so far are those of the rows seen. */
  ghost predicate Peaks(tree: real, workingSet: real, others: real, host: real, seen: seq<Row>, fromMs: real) {
    && IsPeak(tree, seen, Tree(fromMs)) && IsPeak(workingSet, seen, WorkingSet(fromMs))
    && IsPeak(others, seen, Others(fromMs)) && IsPeak(host, seen, Host())
  }

  lemma PeaksGrow(tree: real, workingSet: real, others: real, host: real, seen: seq<Row>, fromMs: real, row: Row)
    requires Peaks(tree, workingSet, others, host, seen, fromMs)
    ensures Peaks(Larger(tree, OwnMb(row, fromMs)), Larger(workingSet, OwnResidentMb(row, fromMs)),
                  Larger(others, ForeignMb(row, fromMs)), Larger(host, Pct(row)), seen + [row], fromMs)
  {
    PeakGrows(tree, seen, row, Tree(fromMs));
    PeakGrows(workingSet, seen, row, WorkingSet(fromMs));
    PeakGrows(others, seen, row, Others(fromMs));
    PeakGrows(host, seen, row, Host());
  }

  lemma PeaksAreReported(tree: real, workingSet: real, others: real, host: real, rows: seq<Row>, fromMs: real,
                         toMs: real)
    requires Peaks(tree, workingSet, others, host, Window(rows, fromMs, toMs), fromMs)
    ensures var window := Window(rows, fromMs, toMs);
            IsSample(Sample(|window|, CountOwn(window, fromMs), Positive(tree), Positive(workingSet), Positive(others),
                            Positive(host)),
                     rows, fromMs, toMs)
  {
    var window := Window(rows, fromMs, toMs);
    PeakIsReported(tree, window, Tree(fromMs));
    PeakIsReported(workingSet, window, WorkingSet(fromMs));
    PeakIsReported(others, window, Others(fromMs));
    PeakIsReported(host, window, Host());
  }

  /** What the pass knows after these rows. */
  datatype Running = Running(ticks: nat, ownTicks: nat, tree: real, workingSet: real, foreign: real, host: real)

  ghost predicate Scanned(now: Running, rows: seq<Row>, fromMs: real, toMs: real) {
    var seen := Window(rows, fromMs, toMs);
    && now.ticks == |seen| && now.ownTicks == CountOwn(seen, fromMs)
    && Peaks(now.tree, now.workingSet, now.foreign, now.host, seen, fromMs)
  }

  lemma NothingScanned(fromMs: real, toMs: real)
    ensures Scanned(Running(0, 0, 0.0, 0.0, 0.0, 0.0), [], fromMs, toMs)
  {}

  lemma ScannedNext(now: Running, rows: seq<Row>, n: nat, fromMs: real, toMs: real)
    requires n < |rows| && Scanned(now, rows[..n], fromMs, toMs)
    ensures InWindow(rows[n], fromMs, toMs) ==> Scanned(Counting(now, rows[n], fromMs), rows[..n + 1], fromMs, toMs)
    ensures !InWindow(rows[n], fromMs, toMs) ==> Scanned(now, rows[..n + 1], fromMs, toMs)
  {
    var row, seen := rows[n], Window(rows[..n], fromMs, toMs);
    WindowNext(rows, n, fromMs, toMs);
    if InWindow(row, fromMs, toMs) {
      PeaksGrow(now.tree, now.workingSet, now.foreign, now.host, seen, fromMs, row);
      CountOwnAdd(seen, row, fromMs);
    } else {
      assert seen + [] == seen;
    }
  }

  /** One more tick of the window. */
  ghost function Counting(now: Running, row: Row, fromMs: real): Running {
    Running(now.ticks + 1, now.ownTicks + if HasOwn(row, fromMs) then 1 else 0,
            Larger(now.tree, OwnMb(row, fromMs)), Larger(now.workingSet, OwnResidentMb(row, fromMs)),
            Larger(now.foreign, ForeignMb(row, fromMs)), Larger(now.host, Pct(row)))
  }

  lemma ScannedIsSample(now: Running, rows: seq<Row>, fromMs: real, toMs: real)
    requires Scanned(now, rows, fromMs, toMs)
    ensures IsSample(Sample(now.ticks, now.ownTicks, Positive(now.tree), Positive(now.workingSet),
                            Positive(now.foreign), Positive(now.host)), rows, fromMs, toMs)
    ensures now.ticks == 0 ==> now.tree == now.workingSet == now.foreign == now.host == 0.0
  {
    PeaksAreReported(now.tree, now.workingSet, now.foreign, now.host, rows, fromMs, toMs);
    if now.ticks == 0 {
      NothingSeen(now.tree, now.workingSet, now.foreign, now.host, fromMs);
    }
  }

  /** One pass over the timeline. */
  method Attribute(rows: seq<Row>, fromMs: real, toMs: real) returns (s: Sample)
    ensures IsSample(s, rows, fromMs, toMs)
  {
    var treeMb, workingSetMb, foreignMb, hostCommitPct := 0.0, 0.0, 0.0, 0.0;
    var ticks, ownTicks := 0, 0;
    NothingScanned(fromMs, toMs);
    for n := 0 to |rows|
      invariant ticks >= 0 && ownTicks >= 0
      invariant Scanned(Running(ticks, ownTicks, treeMb, workingSetMb, foreignMb, hostCommitPct), rows[..n], fromMs,
                        toMs)
    {
      ScannedNext(Running(ticks, ownTicks, treeMb, workingSetMb, foreignMb, hostCommitPct), rows, n, fromMs, toMs);
      if InWindow(rows[n], fromMs, toMs) {
        ticks := ticks + 1;
        var own, ownResident, foreign, sawOwn := Tally(rows[n], fromMs);
        hostCommitPct := Larger(hostCommitPct, Pct(rows[n]));
        if sawOwn {
          ownTicks := ownTicks + 1;
        }
        treeMb := Larger(treeMb, own);
        workingSetMb := Larger(workingSetMb, ownResident);
        foreignMb := Larger(foreignMb, foreign);
      }
    }
    assert rows[..|rows|] == rows;
    ScannedIsSample(Running(ticks, ownTicks, treeMb, workingSetMb, foreignMb, hostCommitPct), rows, fromMs, toMs);
    if ticks == 0 {
      return Sample(0, 0, None, None, None, None);
    }
    s := Sample(ticks, ownTicks, Positive(treeMb), Positive(workingSetMb), Positive(foreignMb),
                Positive(hostCommitPct));
  }

  lemma NothingSeen(tree: real, workingSet: real, others: real, host: real, fromMs: real)
    requires Peaks(tree, workingSet, others, host, [], fromMs)
    ensures tree == workingSet == others == host == 0.0
  {}

  lemma WindowNext(rows: seq<Row>, n: nat, fromMs: real, toMs: real)
    requires n < |rows|
    ensures Window(rows[..n + 1], fromMs, toMs)
         == Window(rows[..n], fromMs, toMs) + if InWindow(rows[n], fromMs, toMs) then [rows[n]] else []
  {
    assert rows[..n + 1][..n] == rows[..n];
  }

  // ---- what the attribution promises ----

  /** The specification leaves no choice. */
  lemma SampleIsUnique(a: Sample, b: Sample, rows: seq<Row>, fromMs: real, toMs: real)
    requires IsSample(a, rows, fromMs, toMs) && IsSample(b, rows, fromMs, toMs)
    ensures a == b
  {}

  /** Nothing readable is lost or counted twice: own and foreign make up each tick's total. */
  lemma {:induction false} OwnAndForeignAreAll(entries: seq<Entry>, fromMs: real)
    ensures Sum(entries, e => Own(e, fromMs), e => Mb(e)) + Sum(entries, e => Foreign(e, fromMs), e => Mb(e))
         == Sum(entries, e => Readable(e), e => Mb(e))
  {
    if entries != [] {
      OwnAndForeignAreAll(entries[..|entries| - 1], fromMs);
    }
  }

  lemma {:induction false} WindowAre(rows: seq<Row>, fromMs: real, toMs: real)
    ensures forall row :: row in Window(rows, fromMs, toMs) <==> row in rows && InWindow(row, fromMs, toMs)
  {
    if rows != [] {
      WindowAre(rows[..|rows| - 1], fromMs, toMs);
      assert rows == rows[..|rows| - 1] + [rows[|rows| - 1]];
    }
  }

  lemma {:induction false} LaterEndsCountMore(rows: seq<Row>, fromMs: real, toMs: real, later: real)
    requires toMs <= later
    ensures |Window(rows, fromMs, toMs)| <= |Window(rows, fromMs, later)|
    ensures CountOwn(Window(rows, fromMs, toMs), fromMs) <= CountOwn(Window(rows, fromMs, later), fromMs)
  {
    if rows != [] {
      var front, row := rows[..|rows| - 1], rows[|rows| - 1];
      LaterEndsCountMore(front, fromMs, toMs, later);
      CountOwnAdd(Window(front, fromMs, toMs), row, fromMs);
      CountOwnAdd(Window(front, fromMs, later), row, fromMs);
      assert Window(front, fromMs, toMs) + [] == Window(front, fromMs, toMs);
      assert Window(front, fromMs, later) + [] == Window(front, fromMs, later);
    }
  }

  lemma CountOwnAdd(rows: seq<Row>, row: Row, fromMs: real)
    ensures CountOwn(rows + [row], fromMs) == CountOwn(rows, fromMs) + if HasOwn(row, fromMs) then 1 else 0
  {
    assert (rows + [row])[..|rows|] == rows;
  }

  lemma PeakOfMore(p: real, q: real, rows: seq<Row>, more: seq<Row>, size: Row -> real)
    requires IsPeak(p, rows, size) && IsPeak(q, more, size) && forall row | row in rows :: row in more
    ensures p <= q
  {}

  /** A window that ends later sees no fewer ticks and no lower peak of anything. */
  lemma LaterEndsNeverLower(a: Sample, b: Sample, rows: seq<Row>, fromMs: real, toMs: real, later: real)
    requires toMs <= later && IsSample(a, rows, fromMs, toMs) && IsSample(b, rows, fromMs, later)
    ensures a.ticks <= b.ticks && a.ownTicks <= b.ownTicks
    ensures OrZero(a.treeMb) <= OrZero(b.treeMb) && OrZero(a.workingSetMb) <= OrZero(b.workingSetMb)
    ensures OrZero(a.foreignMb) <= OrZero(b.foreignMb) && OrZero(a.hostCommitPct) <= OrZero(b.hostCommitPct)
  {
    WindowAre(rows, fromMs, toMs);
    WindowAre(rows, fromMs, later);
    LaterEndsCountMore(rows, fromMs, toMs, later);
    var window, more := Window(rows, fromMs, toMs), Window(rows, fromMs, later);
    PeakOfMore(OrZero(a.treeMb), OrZero(b.treeMb), window, more, Tree(fromMs));
    PeakOfMore(OrZero(a.workingSetMb), OrZero(b.workingSetMb), window, more, WorkingSet(fromMs));
    PeakOfMore(OrZero(a.foreignMb), OrZero(b.foreignMb), window, more, Others(fromMs));
    PeakOfMore(OrZero(a.hostCommitPct), OrZero(b.hostCommitPct), window, more, Host());
  }

  /** One tick of one process, in numbers: both ends of the window count, and so does a birth at its start. */
  lemma OneTick(ts: real, pct: real, e: Entry, fromMs: real, toMs: real, s: Sample)
    requires IsSample(s, [Row(Some(ts), Some(pct), [e])], fromMs, toMs)
    ensures var inside := fromMs <= ts && ts <= toMs;
            var readable := inside && e.startMs.Some? && e.mb.Some? && e.resident.Some?;
            var own := readable && e.startMs.value >= 0.0 && e.startMs.value >= fromMs;
            && s.ticks == (if inside then 1 else 0) && s.ownTicks == (if own then 1 else 0)
            && s.treeMb == (if own && e.mb.value > 0.0 then e.mb else None)
            && s.workingSetMb == (if own && e.resident.value > 0.0 then e.resident else None)
            && s.foreignMb == (if readable && !own && e.mb.value > 0.0 then e.mb else None)
            && s.hostCommitPct == (if inside && pct > 0.0 then Some(pct) else None)
  {
    var row := Row(Some(ts), Some(pct), [e]);
    OneEntry(row, e, fromMs);
    OneRow(row, fromMs, toMs);
    if InWindow(row, fromMs, toMs) {
      OnePeak(s.treeMb, row, Tree(fromMs));
      OnePeak(s.workingSetMb, row, WorkingSet(fromMs));
      OnePeak(s.foreignMb, row, Others(fromMs));
      OnePeak(s.hostCommitPct, row, Host());
    }
  }

  lemma OneRow(row: Row, fromMs: real, toMs: real)
    ensures Window([row], fromMs, toMs) == if InWindow(row, fromMs, toMs) then [row] else []
    ensures CountOwn([row], fromMs) == if HasOwn(row, fromMs) then 1 else 0
  {
    assert [row][..0] == [] && CountOwn([], fromMs) == 0 && Window([], fromMs, toMs) == [];
  }

  lemma SumOfOne(entries: seq<Entry>, belongs: Entry -> bool, size: Entry -> real)
    requires |entries| == 1
    ensures Sum(entries, belongs, size) == if belongs(entries[0]) then size(entries[0]) else 0.0
  {
    assert Sum(entries[..0], belongs, size) == 0.0;
  }

  lemma OneEntry(row: Row, e: Entry, fromMs: real)
    requires row.entries == [e]
    ensures OwnMb(row, fromMs) == (if Own(e, fromMs) then Mb(e) else 0.0)
    ensures OwnResidentMb(row, fromMs) == (if Own(e, fromMs) then ResidentMb(e) else 0.0)
    ensures ForeignMb(row, fromMs) == (if Foreign(e, fromMs) then Mb(e) else 0.0)
    ensures HasOwn(row, fromMs) <==> Own(e, fromMs)
  {
    SumOfOne(row.entries, e => Own(e, fromMs), e => Mb(e));
    SumOfOne(row.entries, e => Own(e, fromMs), e => ResidentMb(e));
    SumOfOne(row.entries, e => Foreign(e, fromMs), e => Mb(e));
    assert e in row.entries && forall x :: x in row.entries ==> x == e;
  }

  lemma OnePeak(o: Option<real>, row: Row, size: Row -> real)
    requires Reports(o, [row], size)
    ensures o == if size(row) > 0.0 then Some(size(row)) else None
  {
    assert row in [row];
  }
}
