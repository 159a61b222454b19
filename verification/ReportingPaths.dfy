/**
 * What a reporting line resolves to, told by the paths in the roster itself: which agents a line passes,
 * which of them are paused, and who may be a superior at all.
 */
module ReportingPaths {
  import opened ChainOfCommand
  import opened Wrappers

  /** A line of agents, each named by the one before it, or Nova where it names none, up to the top. */
  ghost predicate IsPath(dir: Directory, path: seq<string>) {
    && path != [] && (path[|path| - 1] == "nova" || path[|path| - 1] == "owner")
    && (forall i | 0 <= i < |path| :: path[i] in dir)
    && (forall i | 0 <= i < |path| - 1 ::
          && path[i] != "nova" && path[i] != "owner"
          && path[i + 1] == match dir[path[i]].superior case Some(above) => above case None => "nova")
  }

  /** The asker is not on the path, and unless pauses are let pass nobody on it is paused. */
  ghost predicate IsOpen(dir: Directory, includePaused: bool, self: string, path: seq<string>)
    requires IsPath(dir, path)
  {
    self !in path && (includePaused || forall id | id in path :: !dir[id].paused)
  }

  /** Not staff, not machinery, and not one of the names that are no colleagues. */
  predicate MayLead(a: Agent) {
    && !a.subagent && !a.hidden && !a.service
    && a.id != "build" && a.id != "plan"
    && a.id != "general" && a.id != "explore" && a.id != "messenger" && a.id != "recipe"
  }

  lemma ColleaguesMayLead(a: Agent)
    ensures IsColleague(a) <==> MayLead(a)
  {}

  lemma {:induction false} ReachIsAPath(dir: Directory, inc: bool, self: string, id: string, n: nat)
    returns (path: seq<string>)
    requires Reaches(dir, inc, self, id, n)
    ensures IsPath(dir, path) && path[0] == id && IsOpen(dir, inc, self, path)
    decreases n
  {
    if AtTop(id) {
      path := [id];
    } else {
      var rest := ReachIsAPath(dir, inc, self, Line(dir, id), n - 1);
      path := [id] + rest;
      forall i | 0 <= i < |path| - 1
        ensures path[i] != "nova" && path[i] != "owner"
        ensures path[i + 1] == match dir[path[i]].superior case Some(above) => above case None => "nova" {
        if i > 0 { assert path[i] == rest[i - 1] && path[i + 1] == rest[i]; }
      }
    }
  }

  lemma {:induction false} PathReaches(dir: Directory, inc: bool, self: string, path: seq<string>)
    requires IsPath(dir, path) && IsOpen(dir, inc, self, path)
    ensures Reaches(dir, inc, self, path[0], |path| - 1)
    decreases |path|
  {
    assert path[0] in path;
    if |path| > 1 {
      var rest := path[1..];
      assert IsPath(dir, rest);
      assert forall id | id in rest :: id in path;
      PathReaches(dir, inc, self, rest);
      assert path[1] == Line(dir, path[0]) == rest[0];
    }
  }

  /** There is an open path to the top that begins with this agent. */
  ghost predicate HasOpenPath(dir: Directory, includePaused: bool, self: string, from: string) {
    exists path :: IsPath(dir, path) && path[0] == from && IsOpen(dir, includePaused, self, path)
  }

  lemma ReachesByPaths(dir: Directory, inc: bool, self: string, id: string)
    ensures ReachesTop(dir, inc, self, id) <==> HasOpenPath(dir, inc, self, id)
  {
    if ReachesTop(dir, inc, self, id) {
      var n: nat :| Reaches(dir, inc, self, id, n);
      var path := ReachIsAPath(dir, inc, self, id, n);
    }
    if HasOpenPath(dir, inc, self, id) {
      var path :| IsPath(dir, path) && path[0] == id && IsOpen(dir, inc, self, path);
      PathReaches(dir, inc, self, path);
    }
  }

  /**
   * The superior asked for is the answer exactly when it may lead and an open path begins with it; Nova
   * answers otherwise, and over Nova and the owner there is the owner.
   */
  lemma ResolvedByPaths(dir: Directory, inc: bool, self: string, configured: Option<string>)
    ensures var asked := match configured case Some(id) => id case None => "nova";
            var answer := Resolved(dir, inc, self, configured);
            if self == "nova" || self == "owner" then
              answer == if "owner" in dir then Some(dir["owner"]) else None
            else if asked in dir && MayLead(dir[asked]) && HasOpenPath(dir, inc, self, asked) then
              answer == Some(dir[asked])
            else
              answer == if "nova" in dir then Some(dir["nova"]) else None
  {
    var asked := match configured case Some(id) => id case None => "nova";
    ReachesByPaths(dir, inc, self, asked);
    if asked in dir {
      ColleaguesMayLead(dir[asked]);
    }
    AcceptedOrNova(dir, inc, self, configured, asked);
  }

  lemma AcceptedOrNova(dir: Directory, inc: bool, self: string, configured: Option<string>, asked: string)
    requires asked == if configured.Some? then configured.value else NOVA_ID
    ensures !AtTop(self) ==>
              Resolved(dir, inc, self, configured)
              == if asked in dir && IsColleague(dir[asked]) && ReachesTop(dir, inc, self, asked) then Some(dir[asked])
                 else Find(dir, NOVA_ID)
  {}

  // ---- pauses ----

  /** With a paused agent anywhere on the line asked for, Nova answers, unless pauses are let pass. */
  lemma APausedLineFallsToNova(dir: Directory, self: string, configured: Option<string>, x: string, p: nat)
    requires self != "nova" && self != "owner"
    requires Leads(dir, if configured.Some? then configured.value else "nova", x, p) && x in dir && dir[x].paused
    ensures Resolved(dir, false, self, configured) == if "nova" in dir then Some(dir["nova"]) else None
  {
    var asked := if configured.Some? then configured.value else "nova";
    if n: nat :| Reaches(dir, false, self, asked, n) {
      ReachFromFurther(dir, false, self, asked, x, p, n);
    }
  }

  lemma {:induction false} UnpausedReaches(dir: Directory, self: string, from: string, id: string, p: nat, n: nat)
    requires Leads(dir, from, id, p) && Reaches(dir, true, self, id, n)
    requires forall x, q: nat :: Leads(dir, from, x, q) && x in dir ==> !dir[x].paused
    ensures Reaches(dir, false, self, id, n)
    decreases n
  {
    if !AtTop(id) {
      LeadsOn(dir, from, id, p);
      UnpausedReaches(dir, self, from, Line(dir, id), p + 1, n - 1);
    }
  }

  lemma {:induction false} FewerStand(dir: Directory, self: string, id: string, n: nat)
    requires Reaches(dir, false, self, id, n)
    ensures Reaches(dir, true, self, id, n)
    decreases n
  {
    if !AtTop(id) {
      FewerStand(dir, self, Line(dir, id), n - 1);
    }
  }

  /** With nobody paused on it, a line resolves alike whether pauses are let pass or not. */
  lemma AnUnpausedLineResolvesAlike(dir: Directory, self: string, configured: Option<string>)
    requires var asked := if configured.Some? then configured.value else "nova";
             forall x, p: nat :: Leads(dir, asked, x, p) && x in dir ==> !dir[x].paused
    ensures Resolved(dir, false, self, configured) == Resolved(dir, true, self, configured)
  {
    var asked := if configured.Some? then configured.value else "nova";
    assert Leads(dir, asked, asked, 0);
    if n: nat :| Reaches(dir, true, self, asked, n) {
      UnpausedReaches(dir, self, asked, asked, 0, n);
    }
    if n: nat :| Reaches(dir, false, self, asked, n) {
      FewerStand(dir, self, asked, n);
    }
  }

  // ---- the roster ----

  /** Of entries with one id the last counts. */
  lemma {:induction false} TheLastEntryCounts(roster: seq<Agent>, i: nat)
    requires i < |roster| && forall j | i < j < |roster| :: roster[j].id != roster[i].id
    ensures roster[i].id in ById(roster) && ById(roster)[roster[i].id] == roster[i]
    decreases |roster|
  {
    if i < |roster| - 1 {
      TheLastEntryCounts(roster[..|roster| - 1], i);
    }
  }
}
