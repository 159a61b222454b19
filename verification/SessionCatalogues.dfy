/**
 * A session's catalogue of ad-hoc tools, kept in one file, and what saving, removing and copying do.
 *
 * `Apply` is an operation as one indivisible change to the files; the methods of `Store` carry it
 * out the way the program does, reading, checking, filtering and writing in turn. A file is named
 * by its rank in the order file names sort in.
 */
module SessionCatalogues {
  import opened Wrappers

  datatype Recipe = Recipe(name: string, description: string, manual: string, enabled: Option<bool>)

  /** Absent is a file that is missing, empty or cannot be read; Torn is one that does not parse. */
  datatype Content = Absent | Torn | Holds(recipes: seq<Recipe>)

  type Files = map<int, Content>

  datatype Op = Save(file: int, recipe: Recipe) | Remove(file: int, name: string) | Copy(source: int, target: int)

  datatype Result = Saved(recipe: Recipe) | Removed(found: bool) | Copied(count: nat) | Unreadable | Failed

  predicate IsNameStart(c: char) {
    'a' <= c <= 'z' || '0' <= c <= '9'
  }

  predicate IsValidName(name: string) {
    1 <= |name| <= 64 && IsNameStart(name[0]) && forall c | c in name :: IsNameStart(c) || c == '-' || c == '_'
  }

  function At(files: Files, file: int): Content {
    if file in files then files[file] else Absent
  }

  /** The recipes with a valid name; a file that cannot be read or parsed has none. */
  function Valid(recipes: seq<Recipe>): seq<Recipe> {
    if recipes == [] then [] else (if IsValidName(recipes[0].name) then [recipes[0]] else []) + Valid(recipes[1..])
  }

  function Stored(c: Content): seq<Recipe> {
    if c.Holds? then Valid(c.recipes) else []
  }

  function Without(recipes: seq<Recipe>, name: string): seq<Recipe> {
    if recipes == [] then [] else (if recipes[0].name != name then [recipes[0]] else []) + Without(recipes[1..], name)
  }

  /** What an operation does once it has read: nothing, or one file rewritten or removed. */
  datatype Decision = Leave(result: Result) | Write(file: int, content: Content, result: Result)

  function Decide(op: Op, files: Files): Decision {
    match op
    case Save(file, recipe) =>
      if At(files, file).Torn? then Leave(Unreadable)
      else Write(file, Holds(Without(Stored(At(files, file)), recipe.name) + [recipe]), Saved(recipe))
    case Remove(file, name) =>
      if At(files, file).Torn? then Leave(Unreadable)
      else
        var stored := Stored(At(files, file));
        var next := Without(stored, name);
        if |next| == |stored| then Leave(Removed(false))
        else Write(file, if next == [] then Absent else Holds(next), Removed(true))
    case Copy(source, target) =>
      if At(files, source).Torn? then Leave(Unreadable)
      else
        var stored := Stored(At(files, source));
        if stored == [] then Leave(Copied(0)) else Write(target, Holds(stored), Copied(|stored|))
  }

  function Commit(d: Decision, files: Files): Files {
    match d
    case Leave(_) => files
    case Write(file, content, _) => files[file := content]
  }

  function Apply(op: Op, files: Files): (Files, Result) {
    (Commit(Decide(op, files), files), Decide(op, files).result)
  }

  // ---- what the operations mean for the catalogue ----

  lemma {:induction false} ValidAre(recipes: seq<Recipe>)
    ensures forall r :: r in Valid(recipes) <==> r in recipes && IsValidName(r.name)
    ensures Valid(Valid(recipes)) == Valid(recipes)
  {
    if recipes != [] {
      ValidAre(recipes[1..]);
      if IsValidName(recipes[0].name) {
        assert ([recipes[0]] + Valid(recipes[1..]))[1..] == Valid(recipes[1..]);
      } else {
        assert [] + Valid(recipes[1..]) == Valid(recipes[1..]);
      }
    }
  }

  /** A stored recipe is read exactly if its name has 1 to 64 small letters, digits, - and _, the first no sign. */
  lemma NamesThatAreRead(recipes: seq<Recipe>, r: Recipe)
    ensures r in Stored(Holds(recipes)) <==>
            && r in recipes && 0 < |r.name| && |r.name| <= 64 && r.name[0] != '-' && r.name[0] != '_'
            && forall c | c in r.name :: ('a' <= c && c <= 'z') || ('0' <= c && c <= '9') || c == '-' || c == '_'
  {
    ValidAre(recipes);
    if |r.name| > 0 {
      assert r.name[0] in r.name;
    }
  }

  lemma {:induction false} ValidAdd(a: seq<Recipe>, b: seq<Recipe>)
    ensures Valid(a + b) == Valid(a) + Valid(b)
  {
    if a == [] {
      assert a + b == b;
    } else {
      assert (a + b)[1..] == a[1..] + b;
      ValidAdd(a[1..], b);
      Regroup(if IsValidName(a[0].name) then [a[0]] else [], Valid(a[1..]), Valid(b));
    }
  }

  lemma {:induction false} WithoutAre(recipes: seq<Recipe>, name: string)
    ensures forall r :: r in Without(recipes, name) <==> r in recipes && r.name != name
    ensures |Without(recipes, name)| <= |recipes|
    ensures |Without(recipes, name)| == |recipes| <==> forall r | r in recipes :: r.name != name
    ensures |Without(recipes, name)| == |recipes| ==> Without(recipes, name) == recipes
  {
    if recipes != [] {
      WithoutAre(recipes[1..], name);
      assert recipes == [recipes[0]] + recipes[1..];
    }
  }

  lemma {:induction false} WithoutStaysValid(recipes: seq<Recipe>, name: string)
    requires Valid(recipes) == recipes
    ensures Valid(Without(recipes, name)) == Without(recipes, name)
  {
    if recipes != [] {
      var rest := recipes[1..];
      ValidIsNoLonger(rest);
      assert Valid(rest) == rest;
      WithoutStaysValid(rest, name);
      ValidAdd(if recipes[0].name != name then [recipes[0]] else [], Without(rest, name));
      assert Valid([recipes[0]]) == [recipes[0]];
    }
  }

  lemma {:induction false} ValidIsNoLonger(recipes: seq<Recipe>)
    ensures |Valid(recipes)| <= |recipes|
  {
    if recipes != [] {
      ValidIsNoLonger(recipes[1..]);
    }
  }

  lemma {:induction false} WithoutAdd(a: seq<Recipe>, b: seq<Recipe>, name: string)
    ensures Without(a + b, name) == Without(a, name) + Without(b, name)
  {
    if a == [] {
      assert a + b == b;
    } else {
      assert (a + b)[1..] == a[1..] + b;
      WithoutAdd(a[1..], b, name);
    }
  }

  /** Saving leaves the recipe as the only one of its name, last, and every other where it was. */
  lemma SaveUpserts(files: Files, file: int, recipe: Recipe)
    requires !At(files, file).Torn? && IsValidName(recipe.name)
    ensures var (after, result) := Apply(Save(file, recipe), files);
            && result == Saved(recipe)
            && Stored(At(after, file)) == Without(Stored(At(files, file)), recipe.name) + [recipe]
            && (forall r :: r in Stored(At(after, file)) <==>
                            r == recipe || (r in Stored(At(files, file)) && r.name != recipe.name))
            && forall other | other != file :: At(after, other) == At(files, other)
  {
    var stored := Stored(At(files, file));
    if At(files, file).Holds? {
      ValidAre(At(files, file).recipes);
    }
    WithoutAre(stored, recipe.name);
    WithoutStaysValid(stored, recipe.name);
    ValidAdd(Without(stored, recipe.name), [recipe]);
    assert Valid([recipe]) == [recipe];
  }

  /** Removing says whether the name was there, and leaves the rest; with nothing left, no file. */
  lemma RemoveRemoves(files: Files, file: int, name: string)
    requires !At(files, file).Torn?
    ensures var (after, result) := Apply(Remove(file, name), files);
            && result == Removed(exists r :: r in Stored(At(files, file)) && r.name == name)
            && Stored(At(after, file)) == Without(Stored(At(files, file)), name)
            && (result == Removed(true) && Stored(At(after, file)) == [] ==> At(after, file) == Absent)
            && (result == Removed(false) ==> after == files)
  {
    if At(files, file).Holds? {
      ValidAre(At(files, file).recipes);
    }
    WithoutAre(Stored(At(files, file)), name);
    WithoutStaysValid(Stored(At(files, file)), name);
  }

  /** Removing what was just saved under a new name leaves every catalogue reading as before. */
  lemma SaveThenRemoveRestores(files: Files, file: int, recipe: Recipe)
    requires !At(files, file).Torn? && IsValidName(recipe.name)
    requires forall r | r in Stored(At(files, file)) :: r.name != recipe.name
    ensures var saved := Apply(Save(file, recipe), files).0;
            var (after, result) := Apply(Remove(file, recipe.name), saved);
            result == Removed(true) && forall f :: Stored(At(after, f)) == Stored(At(files, f))
  {
    var stored := Stored(At(files, file));
    var saved := Apply(Save(file, recipe), files).0;
    SaveUpserts(files, file, recipe);
    RemoveRemoves(saved, file, recipe.name);
    WithoutAre(stored, recipe.name);
    assert Without(stored, recipe.name) == stored;
    WithoutAdd(stored, [recipe], recipe.name);
    assert Without([recipe], recipe.name) == [];
    assert stored + [] == stored;
    assert recipe in Stored(At(saved, file));
  }

  /** A child that is handed a catalogue reads exactly its parent's; an empty one hands over nothing. */
  lemma CopyCopies(files: Files, source: int, target: int)
    requires !At(files, source).Torn?
    ensures var (after, result) := Apply(Copy(source, target), files);
            && result == Copied(|Stored(At(files, source))|)
            && (Stored(At(files, source)) != [] ==> Stored(At(after, target)) == Stored(At(files, source)))
            && (Stored(At(files, source)) == [] ==> after == files)
            && (source == target ==> forall f :: Stored(At(after, f)) == Stored(At(files, f)))
  {
    if At(files, source).Holds? {
      ValidAre(At(files, source).recipes);
    }
  }

  /** This operation replaces the content of f without ever having read it. */
  predicate Overwrites(op: Op, files: Files, f: int) {
    op.Copy? && op.target == f && op.source != f && Stored(At(files, op.source)) != []
  }

  /**
   * A file that does not parse is kept for recovery by every operation but one: the copy checks the
   * file it reads and not the file it replaces.
   */
  lemma TornStaysTornExactly(op: Op, files: Files, f: int)
    requires At(files, f).Torn?
    ensures At(Apply(op, files).0, f).Torn? <==> !Overwrites(op, files, f)
  {}

  /** It does happen: one recipe copied onto a torn file, and what could be recovered is gone. */
  lemma ACopyOverwritesATornFile(recipe: Recipe)
    requires IsValidName(recipe.name)
    ensures var files: Files := map[1 := Holds([recipe]), 2 := Torn];
            var (after, result) := Apply(Copy(1, 2), files);
            result == Copied(1) && At(files, 2) == Torn && At(after, 2) == Holds([recipe])
  {
    assert Valid([recipe]) == [recipe] + Valid([]);
  }

  // ---- the operations step by step ----

  lemma ValidNext(recipes: seq<Recipe>, n: nat)
    requires n < |recipes|
    ensures Valid(recipes[..n + 1]) == Valid(recipes[..n]) + if IsValidName(recipes[n].name) then [recipes[n]] else []
  {
    assert recipes[..n + 1] == recipes[..n] + [recipes[n]];
    ValidAdd(recipes[..n], [recipes[n]]);
  }

  lemma WithoutNext(recipes: seq<Recipe>, n: nat, name: string)
    requires n < |recipes|
    ensures Without(recipes[..n + 1], name)
         == Without(recipes[..n], name) + if recipes[n].name != name then [recipes[n]] else []
  {
    assert recipes[..n + 1] == recipes[..n] + [recipes[n]];
    WithoutAdd(recipes[..n], [recipes[n]], name);
  }

  class Store {
    var files: Files

    method ReadStored(file: int) returns (recipes: seq<Recipe>, corrupt: bool)
      ensures recipes == Stored(At(files, file)) && corrupt == At(files, file).Torn?
    {
      var raw := At(files, file);
      if !raw.Holds? {
        return [], raw.Torn?;
      }
      recipes, corrupt := [], false;
      for n := 0 to |raw.recipes|
        invariant recipes == Valid(raw.recipes[..n])
      {
        var recipe := raw.recipes[n];
        ValidNext(raw.recipes, n);
        if IsValidName(recipe.name) {
          recipes := recipes + [recipe];
        }
      }
      assert raw.recipes[..|raw.recipes|] == raw.recipes;
    }

    method Filter(recipes: seq<Recipe>, name: string) returns (others: seq<Recipe>)
      ensures others == Without(recipes, name)
    {
      others := [];
      for n := 0 to |recipes|
        invariant others == Without(recipes[..n], name)
      {
        WithoutNext(recipes, n, name);
        if recipes[n].name != name {
          others := others + [recipes[n]];
        }
      }
      assert recipes[..|recipes|] == recipes;
    }

    method SaveRecipe(file: int, recipe: Recipe) returns (result: Result)
      modifies this
      ensures (files, result) == Apply(Save(file, recipe), old(files))
    {
      var stored, corrupt := ReadStored(file);
      if corrupt {
        return Unreadable;
      }
      var others := Filter(stored, recipe.name);
      files := files[file := Holds(others + [recipe])];
      return Saved(recipe);
    }

    method RemoveRecipe(file: int, name: string) returns (result: Result)
      modifies this
      ensures (files, result) == Apply(Remove(file, name), old(files))
    {
      var stored, corrupt := ReadStored(file);
      if corrupt {
        return Unreadable;
      }
      var next := Filter(stored, name);
      if |next| == |stored| {
        return Removed(false);
      }
      if |next| == 0 {
        files := files[file := Absent];
        return Removed(true);
      }
      files := files[file := Holds(next)];
      return Removed(true);
    }

    method CopyRecipes(source: int, target: int) returns (result: Result)
      modifies this
      ensures (files, result) == Apply(Copy(source, target), old(files))
    {
      var stored, corrupt := ReadStored(source);
      if corrupt {
        return Unreadable;
      }
      if |stored| == 0 {
        return Copied(0);
      }
      files := files[target := Holds(stored)];
      return Copied(|stored|);
    }
  }
}
