/**
 * The chain of command: reporting lines taken from arbitrary configuration, resolved so that they
 * form a tree under Nova and the owner, and pauses inherited down that tree.
 */
module ChainOfCommand {
  import opened Wrappers

  const NOVA_ID: string := "nova"
  const OWNER_ID: string := "owner"
  const POSTURE_IDS: set<string> := {"build", "plan"}
  const RETIRED_ROLE_IDS: set<string> := {"general", "explore", "messenger", "recipe"}

  datatype Agent = Agent(id: string, superior: Option<string>, subagent: bool, hidden: bool, service: bool,
                         paused: bool)

  type Directory = d: map<string, Agent> | forall id | id in d :: d[id].id == id witness map[]

  /** A JavaScript Map built from [id, agent] pairs: a later duplicate replaces an earlier one. */
  function ById(roster: seq<Agent>): Directory {
    if roster == [] then map[]
    else ById(roster[..|roster| - 1])[roster[|roster| - 1].id := roster[|roster| - 1]]
  }

  predicate IsColleague(a: Agent) {
    !a.subagent && !a.hidden && !a.service && a.id !in POSTURE_IDS && a.id !in RETIRED_ROLE_IDS
  }

  predicate AtTop(id: string) {
    id == NOVA_ID || id == OWNER_ID
  }

  function Find(dir: Directory, id: string): Option<Agent> {
    if id in dir then Some(dir[id]) else None
  }

  /** The raw line a directory entry declares, before anything is resolved. */
  function Line(dir: Directory, id: string): string
    requires id in dir
  {
    if dir[id].superior.Some? then dir[id].superior.value else NOVA_ID
  }

  predicate Stands(dir: Directory, includePaused: bool, id: string) {
    id in dir && (includePaused || !dir[id].paused)
  }

  /** Following raw lines from id reaches the top in n steps, over standing agents, never through self. */
  ghost predicate Reaches(dir: Directory, includePaused: bool, self: string, id: string, n: nat)
    decreases n
  {
    && id != self && Stands(dir, includePaused, id)
    && if AtTop(id) then n == 0 else n > 0 && Reaches(dir, includePaused, self, Line(dir, id), n - 1)
  }

  ghost predicate Accepts(dir: Directory, includePaused: bool, self: string, requested: string) {
    requested in dir && IsColleague(dir[requested]) && ReachesTop(dir, includePaused, self, requested)
  }

  ghost predicate ReachesTop(dir: Directory, includePaused: bool, self: string, id: string) {
    exists n: nat :: Reaches(dir, includePaused, self, id, n)
  }

  /** What a reporting line resolves to: the superior asked for if its own line holds up, or else Nova. */
  ghost function Resolved(dir: Directory, includePaused: bool, self: string,
                          configured: Option<string>): Option<Agent> {
    var requested := if configured.Some? then configured.value else NOVA_ID;
    if AtTop(self) then Find(dir, OWNER_ID)
    else if Accepts(dir, includePaused, self, requested) then Some(dir[requested])
    else Find(dir, NOVA_ID)
  }

  // ---- the walk agrees with the specification ----

  ghost predicate Leads(dir: Directory, from: string, to: string, p: nat)
    decreases p
  {
    if p == 0 then from == to else from in dir && !AtTop(from) && Leads(dir, Line(dir, from), to, p - 1)
  }

  lemma {:induction false} ReachIsUnique(dir: Directory, inc: bool, s1: string, s2: string, id: string, n: nat, m: nat)
    requires Reaches(dir, inc, s1, id, n) && Reaches(dir, inc, s2, id, m)
    ensures n == m
    decreases n
  {
    if !AtTop(id) {
      ReachIsUnique(dir, inc, s1, s2, Line(dir, id), n - 1, m - 1);
    }
  }

  lemma {:induction false} ReachFromFurther(dir: Directory, inc: bool, self: string, from: string, to: string, p: nat,
                                            n: nat)
    requires Reaches(dir, inc, self, from, n) && Leads(dir, from, to, p)
    ensures p <= n && Reaches(dir, inc, self, to, n - p)
    decreases p
  {
    if p > 0 {
      ReachFromFurther(dir, inc, self, Line(dir, from), to, p - 1, n - 1);
    }
  }

  /** There is at least one step from one to the other. */
  ghost predicate LeadsTo(dir: Directory, from: string, to: string) {
    exists p: nat :: p > 0 && Leads(dir, from, to, p)
  }

  /** A line that comes back to where it was never reaches the top. */
  lemma NoReachAroundACycle(dir: Directory, inc: bool, self: string, id: string)
    requires LeadsTo(dir, id, id)
    ensures !ReachesTop(dir, inc, self, id)
  {
    var p: nat :| p > 0 && Leads(dir, id, id, p);
    if n: nat :| Reaches(dir, inc, self, id, n) {
      ReachFromFurther(dir, inc, self, id, id, p, n);
      ReachIsUnique(dir, inc, self, self, id, n, n - p);
    }
  }

  lemma {:induction false} LeadsOn(dir: Directory, from: string, to: string, p: nat)
    requires Leads(dir, from, to, p) && to in dir && !AtTop(to)
    ensures Leads(dir, from, Line(dir, to), p + 1)
    decreases p
  {
    if p > 0 {
      LeadsOn(dir, Line(dir, from), to, p - 1);
    }
  }

  lemma LeadsToNext(dir: Directory, from: string, to: string)
    requires to in dir && !AtTop(to) && (from == to || LeadsTo(dir, from, to))
    ensures LeadsTo(dir, from, Line(dir, to))
  {
    var p: nat := 0;
    if from != to {
      p :| p > 0 && Leads(dir, from, to, p);
    }
    LeadsOn(dir, from, to, p);
    assert Leads(dir, from, Line(dir, to), p + 1);
  }

  lemma ReachOneOn(dir: Directory, inc: bool, self: string, id: string)
    requires Stands(dir, inc, id) && id != self && !AtTop(id)
    ensures ReachesTop(dir, inc, self, id) <==> ReachesTop(dir, inc, self, Line(dir, id))
  {
    if ReachesTop(dir, inc, self, id) {
      var n: nat :| Reaches(dir, inc, self, id, n);
      assert Reaches(dir, inc, self, Line(dir, id), n - 1);
    }
    if ReachesTop(dir, inc, self, Line(dir, id)) {
      var n: nat :| Reaches(dir, inc, self, Line(dir, id), n);
      var m := n + 1;
      assert Reaches(dir, inc, self, Line(dir, id), m - 1);
      assert Reaches(dir, inc, self, id, m);
    }
  }

  method ResolveSuperior(self: string, configured: Option<string>, roster: seq<Agent>,
                         includePaused: bool) returns (r: Option<Agent>)
    ensures r == Resolved(ById(roster), includePaused, self, configured)
  {
    var dir := ById(roster);
    if AtTop(self) {
      return Find(dir, OWNER_ID);
    }
    var fallback := Find(dir, NOVA_ID);
    var requested := if configured.Some? then configured.value else NOVA_ID;
    if requested == self {
      return fallback;
    }
    if requested !in dir || !IsColleague(dir[requested]) || (dir[requested].paused && !includePaused) {
      return fallback;
    }
    var seen := {self};
    var cursor := requested;
    while !AtTop(cursor)
      invariant Stands(dir, includePaused, cursor) && self in seen
      invariant ReachesTop(dir, includePaused, self, requested) <==> ReachesTop(dir, includePaused, self, cursor)
      invariant forall v | v in seen && v != self :: LeadsTo(dir, v, cursor)
      decreases dir.Keys - seen
    {
      if cursor in seen {
        if cursor != self {
          NoReachAroundACycle(dir, includePaused, self, cursor);
        }
        return fallback;
      }
      ReachOneOn(dir, includePaused, self, cursor);
      seen := seen + {cursor};
      var next := Line(dir, cursor);
      forall v | v in seen && v != self ensures LeadsTo(dir, v, next) {
        LeadsToNext(dir, v, cursor);
      }
      if next !in dir || (dir[next].paused && !includePaused) {
        return fallback;
      }
      cursor := next;
    }
    if cursor != self {
      assert Reaches(dir, includePaused, self, cursor, 0);
    }
    r := Some(dir[requested]);
  }

  // ---- resolved lines form a tree ----

  /** The agent an entry of the directory resolves its own line to. */
  ghost function Up(dir: Directory, includePaused: bool, id: string): Option<string> {
    if id in dir && Resolved(dir, includePaused, id, dir[id].superior).Some?
    then Some(Resolved(dir, includePaused, id, dir[id].superior).value.id) else None
  }

  /** How far from the top a resolved line starts: the measure every step up lowers. */
  ghost function Rank(dir: Directory, includePaused: bool, id: string): nat {
    if id == OWNER_ID then 0
    else if id == NOVA_ID then 1
    else if id in dir && Accepts(dir, includePaused, id, Line(dir, id)) then
      var n: nat :| Reaches(dir, includePaused, id, Line(dir, id), n);
      2 + n
    else 2
  }

  lemma RankOf(dir: Directory, inc: bool, id: string, n: nat)
    requires id in dir && !AtTop(id) && Accepts(dir, inc, id, Line(dir, id)) && Reaches(dir, inc, id, Line(dir, id), n)
    ensures Rank(dir, inc, id) == 2 + n
  {
    var m: nat :| Reaches(dir, inc, id, Line(dir, id), m) && Rank(dir, inc, id) == 2 + m;
    ReachIsUnique(dir, inc, id, id, Line(dir, id), n, m);
  }

  lemma UpDescends(dir: Directory, inc: bool, id: string)
    requires Up(dir, inc, id).Some?
    ensures var up := Up(dir, inc, id).value;
            up in dir && (if id == OWNER_ID then up == OWNER_ID else Rank(dir, inc, up) < Rank(dir, inc, id))
  {
    if !AtTop(id) && Accepts(dir, inc, id, Line(dir, id)) {
      var s := Line(dir, id);
      var n: nat :| Reaches(dir, inc, id, s, n);
      RankOf(dir, inc, id, n);
      if !AtTop(s) && Accepts(dir, inc, s, Line(dir, s)) {
        var m: nat :| Reaches(dir, inc, s, Line(dir, s), m);
        RankOf(dir, inc, s, m);
        ReachIsUnique(dir, inc, id, s, Line(dir, s), n - 1, m);
      }
    }
  }

  /** k steps up the resolved line; nothing once the line has run out. */
  ghost function Ascend(dir: Directory, includePaused: bool, id: string, k: nat): Option<string>
    decreases k
  {
    if k == 0 then (if id in dir then Some(id) else None)
    else
      var before := Ascend(dir, includePaused, id, k - 1);
      if before.Some? then Up(dir, includePaused, before.value) else None
  }

  lemma {:induction false} AscendDescends(dir: Directory, inc: bool, id: string, i: nat, j: nat)
    requires i < j && Ascend(dir, inc, id, j).Some?
    ensures Ascend(dir, inc, id, i).Some? && Ascend(dir, inc, id, i).value in dir
            && Ascend(dir, inc, id, j).value in dir
    ensures var x, y := Ascend(dir, inc, id, i).value, Ascend(dir, inc, id, j).value;
            if x == OWNER_ID then y == OWNER_ID else Rank(dir, inc, y) < Rank(dir, inc, x)
    decreases j
  {
    var mid := Ascend(dir, inc, id, j - 1).value;
    UpDescends(dir, inc, mid);
    if i < j - 1 {
      AscendDescends(dir, inc, id, i, j - 1);
    } else if i > 0 {
      AscendDescends(dir, inc, id, i - 1, i);
    }
  }

  /** No agent but the owner is met twice on the way up, whatever the configuration says. */
  lemma NeverRevisits(dir: Directory, inc: bool, id: string, i: nat, j: nat)
    requires i < j && Ascend(dir, inc, id, i) == Ascend(dir, inc, id, j) && Ascend(dir, inc, id, i).Some?
    ensures Ascend(dir, inc, id, i) == Some(OWNER_ID)
  {
    AscendDescends(dir, inc, id, i, j);
  }

  /** The agents met in the first k steps. */
  ghost function Met(dir: Directory, inc: bool, id: string, k: nat): set<string>
    decreases k
  {
    var here := Ascend(dir, inc, id, k);
    (if k == 0 then {} else Met(dir, inc, id, k - 1)) + if here.Some? then {here.value} else {}
  }

  ghost predicate MetBy(dir: Directory, inc: bool, id: string, k: nat, x: string) {
    exists i: nat :: i <= k && Ascend(dir, inc, id, i) == Some(x)
  }

  lemma {:induction false} MetAreMet(dir: Directory, inc: bool, id: string, k: nat)
    ensures Met(dir, inc, id, k) <= dir.Keys
    ensures forall x | x in Met(dir, inc, id, k) :: MetBy(dir, inc, id, k, x)
    decreases k
  {
    if k > 0 {
      MetAreMet(dir, inc, id, k - 1);
    }
    var here := Ascend(dir, inc, id, k);
    if here.Some? && k > 0 {
      AscendDescends(dir, inc, id, k - 1, k);
    }
    forall x | x in Met(dir, inc, id, k) ensures MetBy(dir, inc, id, k, x) {
      if k > 0 && x in Met(dir, inc, id, k - 1) {
        var i: nat :| i <= k - 1 && Ascend(dir, inc, id, i) == Some(x);
        assert i <= k && Ascend(dir, inc, id, i) == Some(x);
      } else {
        assert Ascend(dir, inc, id, k) == Some(x);
      }
    }
  }

  lemma {:induction false} MetGrows(dir: Directory, inc: bool, id: string, k: nat)
    requires Ascend(dir, inc, id, k).Some? && Ascend(dir, inc, id, k) != Some(OWNER_ID)
    ensures |Met(dir, inc, id, k)| == k + 1
    decreases k
  {
    if k > 0 {
      AscendDescends(dir, inc, id, k - 1, k);
      MetGrows(dir, inc, id, k - 1);
      TheNextIsNew(dir, inc, id, k);
      OneMore(Met(dir, inc, id, k - 1), Ascend(dir, inc, id, k).value);
    }
  }

  lemma TheNextIsNew(dir: Directory, inc: bool, id: string, k: nat)
    requires k > 0 && Ascend(dir, inc, id, k).Some? && Ascend(dir, inc, id, k) != Some(OWNER_ID)
    ensures Ascend(dir, inc, id, k).value !in Met(dir, inc, id, k - 1)
  {
    forall i: nat | i <= k - 1 ensures Ascend(dir, inc, id, i) != Ascend(dir, inc, id, k) {
      EarlierIsAnother(dir, inc, id, i, k);
    }
    NotMet(dir, inc, id, k - 1, Ascend(dir, inc, id, k).value);
  }

  lemma NotMet(dir: Directory, inc: bool, id: string, k: nat, x: string)
    requires forall i: nat | i <= k :: Ascend(dir, inc, id, i) != Some(x)
    ensures x !in Met(dir, inc, id, k)
  {
    MetAreMet(dir, inc, id, k);
  }

  lemma EarlierIsAnother(dir: Directory, inc: bool, id: string, i: nat, k: nat)
    requires i < k && Ascend(dir, inc, id, k).Some? && Ascend(dir, inc, id, k) != Some(OWNER_ID)
    ensures Ascend(dir, inc, id, i) != Ascend(dir, inc, id, k)
  {
    if Ascend(dir, inc, id, i) == Ascend(dir, inc, id, k) {
      NeverRevisits(dir, inc, id, i, k);
    }
  }

  lemma OneMore<T>(s: set<T>, x: T)
    requires x !in s
    ensures |s + {x}| == |s| + 1
  {}

  /** Within as many steps as there are agents every line is at the owner or has run out. */
  lemma EveryLineEnds(dir: Directory, inc: bool, id: string, k: nat)
    requires k >= |dir|
    ensures Ascend(dir, inc, id, k) == None || Ascend(dir, inc, id, k) == Some(OWNER_ID)
  {
    if Ascend(dir, inc, id, k).Some? && Ascend(dir, inc, id, k) != Some(OWNER_ID) {
      MetGrows(dir, inc, id, k);
      MetAreMet(dir, inc, id, k);
      SubsetIsSmaller(Met(dir, inc, id, k), dir.Keys);
      assert false;
    }
  }

  lemma SubsetIsSmaller<T>(a: set<T>, b: set<T>)
    requires a <= b
    ensures |a| <= |b|
  {
    assert b == a + (b - a);
  }

  /** A line runs out only at the top of a directory in which the owner, or Nova, is missing. */
  lemma LinesRunOutAtTheTop(dir: Directory, inc: bool, id: string)
    requires id in dir
    ensures Up(dir, inc, id) == None <==>
            if AtTop(id) then OWNER_ID !in dir
            else NOVA_ID !in dir && !Accepts(dir, inc, id, Line(dir, id))
  {
  }

  // ---- direct reports ----

  /** The roster entries that report to id, pauses aside. */
  ghost function DirectReports(id: string, roster: seq<Agent>): seq<Agent> {
    if roster == [] then [] else ReportsIn(id, roster, ById(roster))
  }

  ghost function ReportsIn(id: string, roster: seq<Agent>, dir: Directory): seq<Agent>
    decreases |roster|
  {
    if roster == [] then []
    else (if ReportsTo(roster[0], id, dir) then [roster[0]] else []) + ReportsIn(id, roster[1..], dir)
  }

  ghost predicate ReportsTo(a: Agent, id: string, dir: Directory) {
    && a.id != id && IsColleague(a)
    && Resolved(dir, true, a.id, a.superior).Some? && Resolved(dir, true, a.id, a.superior).value.id == id
  }

  method CollectReports(id: string, roster: seq<Agent>) returns (reports: seq<Agent>)
    ensures reports == DirectReports(id, roster)
  {
    reports := [];
    ghost var dir := ById(roster);
    for i := 0 to |roster|
      invariant reports + ReportsIn(id, roster[i..], dir) == ReportsIn(id, roster, dir)
    {
      var a := roster[i];
      assert roster[i..][1..] == roster[i + 1..];
      ghost var later := ReportsIn(id, roster[i + 1..], dir);
      Regroup(reports, [a], later);
      assert [] + later == later;
      if a.id != id && IsColleague(a) {
        var superior := ResolveSuperior(a.id, a.superior, roster, true);
        if superior.Some? && superior.value.id == id {
          reports := reports + [a];
        }
      }
    }
  }

  lemma {:induction false} ReportsAre(id: string, roster: seq<Agent>, dir: Directory)
    ensures forall a :: a in ReportsIn(id, roster, dir) <==> a in roster && ReportsTo(a, id, dir)
    decreases |roster|
  {
    if roster != [] {
      ReportsAre(id, roster[1..], dir);
      assert roster == [roster[0]] + roster[1..];
    }
  }

  /** Each colleague with a resolved superior other than itself reports to that one agent and to nobody else. */
  lemma OneSuperiorEach(roster: seq<Agent>, a: Agent, id: string)
    requires a in roster && IsColleague(a)
    ensures a in DirectReports(id, roster) <==>
            var s := Resolved(ById(roster), true, a.id, a.superior);
            s.Some? && s.value.id == id && s.value.id != a.id
  {
    ReportsAre(id, roster, ById(roster));
  }

  // ---- pauses ----

  /** Paused itself or anywhere up its resolved line. */
  ghost predicate PausedOnLine(dir: Directory, id: string) {
    exists k: nat, x :: Ascend(dir, true, id, k) == Some(x) && x in dir && dir[x].paused
  }

  /** The same, one step at a time. */
  ghost predicate InheritsPause(dir: Directory, id: string)
    requires id in dir
    decreases Rank(dir, true, id)
  {
    dir[id].paused ||
    (UpDescendsIf(dir, id); var up := Up(dir, true, id); up.Some? && up.value != id && InheritsPause(dir, up.value))
  }

  lemma UpDescendsIf(dir: Directory, id: string)
    ensures Up(dir, true, id).Some? ==>
              var up := Up(dir, true, id).value;
              up in dir && (up != id ==> Rank(dir, true, up) < Rank(dir, true, id))
  {
    if Up(dir, true, id).Some? {
      UpDescends(dir, true, id);
    }
  }

  lemma {:induction false} AscendFromUp(dir: Directory, id: string, k: nat)
    requires Up(dir, true, id).Some?
    ensures Ascend(dir, true, id, k + 1) == Ascend(dir, true, Up(dir, true, id).value, k)
    decreases k
  {
    UpDescends(dir, true, id);
    if k > 0 {
      AscendFromUp(dir, id, k - 1);
    } else {
      assert Ascend(dir, true, id, 0) == Some(id);
    }
  }

  lemma {:induction false} InheritsIsOnLine(dir: Directory, id: string)
    requires id in dir
    ensures InheritsPause(dir, id) <==> PausedOnLine(dir, id)
    decreases Rank(dir, true, id)
  {
    UpDescendsIf(dir, id);
    assert Ascend(dir, true, id, 0) == Some(id);
    var up := Up(dir, true, id);
    if up.Some? && up.value != id {
      InheritsIsOnLine(dir, up.value);
      if InheritsPause(dir, up.value) {
        var k: nat, x :| Ascend(dir, true, up.value, k) == Some(x) && x in dir && dir[x].paused;
        AscendFromUp(dir, id, k);
        assert Ascend(dir, true, id, k + 1) == Some(x);
      }
    }
    if PausedOnLine(dir, id) && !dir[id].paused {
      var k: nat, x :| Ascend(dir, true, id, k) == Some(x) && x in dir && dir[x].paused;
      StepsUp(dir, id, k, x);
    }
  }

  /** Whoever else is on the line of id is on the line of its superior. */
  lemma {:induction false} StepsUp(dir: Directory, id: string, k: nat, x: string)
    requires id in dir && Ascend(dir, true, id, k) == Some(x) && x != id
    ensures Up(dir, true, id).Some? && Up(dir, true, id).value != id
    ensures k > 0 && Ascend(dir, true, Up(dir, true, id).value, k - 1) == Some(x)
  {
    assert k > 0;
    AscendDescends(dir, true, id, 0, k);
    if k > 1 { AscendDescends(dir, true, id, 1, k); }
    assert Ascend(dir, true, id, 0) == Some(id);
    assert Ascend(dir, true, id, 1) == Up(dir, true, id);
    AscendFromUp(dir, id, k - 1);
    if Up(dir, true, id).value == id {
      NeverRevisits(dir, true, id, 0, 1);
      assert false;
    }
  }

  /** One memoised scan over a roster: answers already known, and the agents of the current descent. */
  class PauseScan {
    const roster: seq<Agent>
    const dir: Directory
    var memo: map<string, bool>
    var seen: set<string>

    constructor (roster: seq<Agent>)
      ensures this.roster == roster && Valid()
    {
      this.roster := roster;
      dir := ById(roster);
      memo, seen := map[], {};
    }

    ghost predicate Valid()
      reads this`memo
    {
      dir == ById(roster) && forall x | x in memo :: x in dir && (memo[x] <==> InheritsPause(dir, x))
    }

    /** The guard on seen agents never cuts a real answer short: everyone seen is strictly further down. */
    method Paused(id: string) returns (value: bool)
      requires Valid()
      requires forall x | x in seen :: Rank(dir, true, id) < Rank(dir, true, x)
      modifies this
      ensures Valid() && memo.Keys >= old(memo.Keys)
      ensures value <==> id in dir && InheritsPause(dir, id)
      decreases Rank(dir, true, id)
    {
      if id in memo {
        return memo[id];
      }
      if id !in dir || id in seen {
        return false;
      }
      seen := seen + {id};
      var superior := ResolveSuperior(id, dir[id].superior, roster, true);
      UpDescendsIf(dir, id);
      var inherited := false;
      if superior.Some? && superior.value.id != id {
        inherited := Paused(superior.value.id);
      }
      value := dir[id].paused || inherited;
      memo := memo[id := value];
    }
  }

  /** Exactly the colleagues with a pause on their resolved line, their own included. */
  method EffectivePaused(roster: seq<Agent>) returns (pausedIDs: set<string>)
    ensures pausedIDs == PausedColleagues(roster)
  {
    ghost var dir := ById(roster);
    ByIdHolds(roster);
    var scan := new PauseScan(roster);
    pausedIDs := {};
    for i := 0 to |roster|
      invariant scan.roster == roster && scan.Valid()
      invariant pausedIDs == PausedAmong(roster[..i], dir)
    {
      PausedOneMore(roster, i, dir);
      if IsColleague(roster[i]) {
        scan.seen := {};
        var value := scan.Paused(roster[i].id);
        InheritsIsOnLine(dir, roster[i].id);
        if value {
          pausedIDs := pausedIDs + {roster[i].id};
        }
      }
    }
    assert roster[..|roster|] == roster;
  }

  ghost function PausedAmong(roster: seq<Agent>, dir: Directory): set<string> {
    set a | a in roster && IsColleague(a) && PausedOnLine(dir, a.id) :: a.id
  }

  lemma PausedOneMore(roster: seq<Agent>, i: nat, dir: Directory)
    requires i < |roster|
    ensures PausedAmong(roster[..i + 1], dir) == PausedAmong(roster[..i], dir)
         + if IsColleague(roster[i]) && PausedOnLine(dir, roster[i].id) then {roster[i].id} else {}
  {
    assert roster[..i + 1] == roster[..i] + [roster[i]];
  }

  ghost function PausedColleagues(roster: seq<Agent>): set<string> {
    PausedAmong(roster, ById(roster))
  }

  lemma {:induction false} ByIdHolds(roster: seq<Agent>)
    ensures forall a | a in roster :: a.id in ById(roster)
    ensures forall id | id in ById(roster) :: ById(roster)[id] in roster
  {
    if roster != [] {
      var front := roster[..|roster| - 1];
      ByIdHolds(front);
      assert roster == front + [roster[|roster| - 1]];
    }
  }

  ghost predicate DistinctIds(roster: seq<Agent>) {
    forall i, j | 0 <= i < j < |roster| :: roster[i].id != roster[j].id
  }

  lemma DistinctDirectory(roster: seq<Agent>)
    requires DistinctIds(roster)
    ensures forall a | a in roster :: a.id in ById(roster) && ById(roster)[a.id] == a
  {
    ByIdHolds(roster);
    forall a | a in roster ensures ById(roster)[a.id] == a {
      var i :| 0 <= i < |roster| && roster[i] == a;
      var j :| 0 <= j < |roster| && roster[j] == ById(roster)[a.id];
    }
  }

  /** The order of the roster does not matter. */
  lemma RosterOrderIsFree(a: seq<Agent>, b: seq<Agent>)
    requires DistinctIds(a) && DistinctIds(b) && forall x :: x in a <==> x in b
    ensures PausedColleagues(a) == PausedColleagues(b)
  {
    DistinctDirectory(a);
    DistinctDirectory(b);
    ByIdHolds(a);
    ByIdHolds(b);
    assert ById(a) == ById(b) by {
      forall id ensures id in ById(a) <==> id in ById(b) {
      }
    }
  }

  // ---- pausing one more agent ----

  lemma {:induction false} PauseLeavesReach(dir: Directory, x: string, self: string, id: string, n: nat)
    requires x in dir
    ensures Reaches(dir, true, self, id, n) <==> Reaches(dir[x := dir[x].(paused := true)], true, self, id, n)
    decreases n
  {
    if id in dir && !AtTop(id) && n > 0 {
      PauseLeavesReach(dir, x, self, Line(dir, id), n - 1);
    }
  }

  lemma PauseLeavesUp(dir: Directory, x: string, id: string)
    requires x in dir
    ensures Up(dir[x := dir[x].(paused := true)], true, id) == Up(dir, true, id)
  {
    var after: Directory := dir[x := dir[x].(paused := true)];
    if id in dir {
      PauseLeavesTop(dir, x, id, Line(dir, id));
    }
  }

  lemma PauseLeavesTop(dir: Directory, x: string, self: string, id: string)
    requires x in dir
    ensures ReachesTop(dir, true, self, id) <==> ReachesTop(dir[x := dir[x].(paused := true)], true, self, id)
  {
    var after: Directory := dir[x := dir[x].(paused := true)];
    forall n: nat ensures Reaches(dir, true, self, id, n) <==> Reaches(after, true, self, id, n) {
      PauseLeavesReach(dir, x, self, id, n);
    }
  }

  lemma {:induction false} PauseLeavesAscend(dir: Directory, x: string, id: string, k: nat)
    requires x in dir
    ensures Ascend(dir[x := dir[x].(paused := true)], true, id, k) == Ascend(dir, true, id, k)
    decreases k
  {
    if k > 0 {
      PauseLeavesAscend(dir, x, id, k - 1);
      if Ascend(dir, true, id, k - 1).Some? {
        PauseLeavesUp(dir, x, Ascend(dir, true, id, k - 1).value);
      }
    }
  }

  ghost predicate OnLine(dir: Directory, id: string, x: string) {
    exists k: nat :: Ascend(dir, true, id, k) == Some(x)
  }

  /** Pausing x adds exactly the agents whose resolved line goes through x, x itself included. */
  lemma PauseAddsTheSubtree(dir: Directory, x: string, id: string)
    requires x in dir
    ensures PausedOnLine(dir[x := dir[x].(paused := true)], id) <==> PausedOnLine(dir, id) || OnLine(dir, id, x)
  {
    var after: Directory := dir[x := dir[x].(paused := true)];
    forall k: nat ensures Ascend(after, true, id, k) == Ascend(dir, true, id, k) {
      PauseLeavesAscend(dir, x, id, k);
    }
    if PausedOnLine(dir, id) {
      var k: nat, y :| Ascend(dir, true, id, k) == Some(y) && y in dir && dir[y].paused;
      assert Ascend(after, true, id, k) == Some(y) && after[y].paused;
    }
    if OnLine(dir, id, x) {
      var k: nat :| Ascend(dir, true, id, k) == Some(x);
      assert Ascend(after, true, id, k) == Some(x) && after[x].paused;
    }
    if PausedOnLine(after, id) {
      var k: nat, y :| Ascend(after, true, id, k) == Some(y) && y in after && after[y].paused;
      assert Ascend(dir, true, id, k) == Some(y);
    }
  }

  lemma {:induction false} PausedDirectory(roster: seq<Agent>, i: nat)
    requires i < |roster| && DistinctIds(roster)
    ensures roster[i].id in ById(roster) && ById(roster)[roster[i].id] == roster[i]
    ensures ById(roster[i := roster[i].(paused := true)])
         == ById(roster)[roster[i].id := roster[i].(paused := true)]
    decreases |roster|
  {
    var last := |roster| - 1;
    var next := roster[i := roster[i].(paused := true)];
    if i == last {
      assert next[..last] == roster[..last];
    } else {
      PausedDirectory(roster[..last], i);
      assert next[..last] == roster[..last][i := roster[i].(paused := true)];
      UpdatesSwap(ById(roster[..last]), roster[i].id, roster[i].(paused := true), roster[last].id, roster[last]);
    }
  }

  lemma UpdatesSwap<K, V>(m: map<K, V>, x: K, a: V, y: K, b: V)
    requires x != y
    ensures m[x := a][y := b] == m[y := b][x := a]
  {
  }

  /** On a roster: setting one agent's own pause adds its subtree's colleagues and changes nobody else. */
  lemma PausingOneAgent(roster: seq<Agent>, i: nat)
    requires i < |roster| && DistinctIds(roster)
    ensures PausedColleagues(roster[i := roster[i].(paused := true)])
         == PausedColleagues(roster) + set a | a in roster && IsColleague(a)
           && OnLine(ById(roster), a.id, roster[i].id) :: a.id
  {
    var x := roster[i];
    var next := roster[i := x.(paused := true)];
    PausedDirectory(roster, i);
    var dir := ById(roster);
    forall id ensures PausedOnLine(ById(next), id) <==> PausedOnLine(dir, id) || OnLine(dir, id, x.id) {
      PauseAddsTheSubtree(dir, x.id, id);
    }
    SameColleagues(roster, next, i);
    forall id ensures id in PausedColleagues(next) <==>
        (|| id in PausedColleagues(roster)
         || exists a :: a in roster && IsColleague(a) && OnLine(dir, a.id, x.id) && a.id == id) {
    }
  }

  lemma SameColleagues(roster: seq<Agent>, next: seq<Agent>, i: nat)
    requires i < |roster| && next == roster[i := roster[i].(paused := true)]
    ensures forall a | a in roster && IsColleague(a) :: exists b :: b in next && IsColleague(b) && b.id == a.id
    ensures forall b | b in next && IsColleague(b) :: exists a :: a in roster && IsColleague(a) && a.id == b.id
  {
    forall a | a in roster && IsColleague(a) ensures exists b :: b in next && IsColleague(b) && b.id == a.id {
      var j :| 0 <= j < |roster| && roster[j] == a;
      assert next[j] in next && IsColleague(next[j]) && next[j].id == a.id;
    }
    forall b | b in next && IsColleague(b) ensures exists a :: a in roster && IsColleague(a) && a.id == b.id {
      var j :| 0 <= j < |next| && next[j] == b;
      assert roster[j] in roster && IsColleague(roster[j]) && roster[j].id == b.id;
    }
  }
}
