/**
 * Stable sorting by a total preorder, the contract of JavaScript's Array.prototype.sort and
 * toSorted, and the proof that this contract has exactly one solution.
 */
module Ordering {

  ghost predicate NoDuplicates<T>(s: seq<T>) {
    forall i, j | 0 <= i < j < |s| :: s[i] != s[j]
  }

  ghost predicate TotalPreorder<T(!new)>(le: (T, T) -> bool) {
    && (forall a, b :: le(a, b) || le(b, a))
    && (forall a, b, c :: le(a, b) && le(b, c) ==> le(a, c))
  }

  ghost predicate SortedBy<T>(s: seq<T>, le: (T, T) -> bool) {
    forall i, j | 0 <= i < j < |s| :: le(s[i], s[j])
  }

  /** The elements of s that le cannot tell from t, in the order s has them. */
  ghost function Ties<T>(s: seq<T>, t: T, le: (T, T) -> bool): seq<T> {
    if s == [] then []
    else (if le(s[0], t) && le(t, s[0]) then [s[0]] else []) + Ties(s[1..], t, le)
  }

  /** r is a sorted rearrangement of s that keeps the order of elements le ties. */
  ghost predicate IsStableSort<T(!new)>(s: seq<T>, r: seq<T>, le: (T, T) -> bool) {
    && SortedBy(r, le)
    && multiset(r) == multiset(s)
    && forall t :: Ties(r, t, le) == Ties(s, t, le)
  }

  function Insert<T>(x: T, s: seq<T>, le: (T, T) -> bool): seq<T> {
    if s == [] || le(x, s[0]) then [x] + s else [s[0]] + Insert(x, s[1..], le)
  }

  function StableSort<T>(s: seq<T>, le: (T, T) -> bool): seq<T> {
    if s == [] then [] else Insert(s[0], StableSort(s[1..], le), le)
  }

  lemma {:induction false} InsertPermutes<T>(x: T, s: seq<T>, le: (T, T) -> bool)
    ensures multiset(Insert(x, s, le)) == multiset{x} + multiset(s)
  {
    if s != [] && !le(x, s[0]) {
      InsertPermutes(x, s[1..], le);
      assert s == [s[0]] + s[1..];
    } else {
      assert multiset([x] + s) == multiset{x} + multiset(s);
    }
  }

  lemma {:induction false} InsertSorts<T(!new)>(x: T, s: seq<T>, le: (T, T) -> bool)
    requires TotalPreorder(le) && SortedBy(s, le)
    ensures SortedBy(Insert(x, s, le), le)
  {
    if s == [] {
    } else if le(x, s[0]) {
      forall j | 0 <= j < |s| ensures le(x, s[j]) {
        assert le(s[0], s[j]);
      }
    } else {
      InsertSorts(x, s[1..], le);
      InsertPermutes(x, s[1..], le);
      var tail := Insert(x, s[1..], le);
      forall j | 0 <= j < |tail| ensures le(s[0], tail[j]) {
        assert tail[j] in multiset(tail);
        assert tail[j] == x || tail[j] in s[1..];
      }
    }
  }

  ghost function Tie<T>(x: T, t: T, le: (T, T) -> bool): seq<T> {
    if le(x, t) && le(t, x) then [x] else []
  }

  lemma TiesCons<T>(x: T, s: seq<T>, t: T, le: (T, T) -> bool)
    ensures Ties([x] + s, t, le) == Tie(x, t, le) + Ties(s, t, le)
  {
    assert ([x] + s)[1..] == s;
  }

  lemma {:induction false} InsertKeepsTies<T(!new)>(x: T, s: seq<T>, t: T, le: (T, T) -> bool)
    requires TotalPreorder(le)
    ensures Ties(Insert(x, s, le), t, le) == Tie(x, t, le) + Ties(s, t, le)
  {
    if s == [] || le(x, s[0]) {
      TiesCons(x, s, t, le);
    } else {
      InsertKeepsTies(x, s[1..], t, le);
      TiesCons(s[0], Insert(x, s[1..], le), t, le);
      assert Tie(x, t, le) == [] || Tie(s[0], t, le) == [];
    }
  }

  lemma {:induction false} StableSortPermutes<T>(s: seq<T>, le: (T, T) -> bool)
    ensures multiset(StableSort(s, le)) == multiset(s)
  {
    if s != [] {
      StableSortPermutes(s[1..], le);
      InsertPermutes(s[0], StableSort(s[1..], le), le);
      assert s == [s[0]] + s[1..];
    }
  }

  lemma {:induction false} StableSortIsStable<T(!new)>(s: seq<T>, le: (T, T) -> bool)
    requires TotalPreorder(le)
    ensures IsStableSort(s, StableSort(s, le), le)
  {
    StableSortPermutes(s, le);
    if s != [] {
      StableSortIsStable(s[1..], le);
      InsertSorts(s[0], StableSort(s[1..], le), le);
      forall t ensures Ties(StableSort(s, le), t, le) == Ties(s, t, le) {
        InsertKeepsTies(s[0], StableSort(s[1..], le), t, le);
      }
    }
  }

  lemma {:induction false} TiesAreMembers<T>(s: seq<T>, t: T, le: (T, T) -> bool)
    ensures forall x :: x in Ties(s, t, le) <==> x in s && le(x, t) && le(t, x)
  {
    if s != [] {
      TiesAreMembers(s[1..], t, le);
    }
  }

  /** The head of a is no later than the head of b once every group of ties of b is one of a. */
  lemma HeadsTie<T(!new)>(a: seq<T>, b: seq<T>, le: (T, T) -> bool)
    requires TotalPreorder(le) && SortedBy(a, le) && b != []
    requires Ties(a, b[0], le) == Ties(b, b[0], le)
    ensures a != [] && le(a[0], b[0])
  {
    TiesAreMembers(a, b[0], le);
    TiesAreMembers(b, b[0], le);
    assert b[0] in Ties(b, b[0], le);
    assert b[0] in a;
    var j :| 0 <= j < |a| && a[j] == b[0];
    assert le(a[0], a[j]);
  }

  /** No freedom is left: two sorted sequences that agree on every group of ties are equal. */
  lemma {:induction false} StableSortIsUnique<T(!new)>(a: seq<T>, b: seq<T>, le: (T, T) -> bool)
    requires TotalPreorder(le) && SortedBy(a, le) && SortedBy(b, le)
    requires forall t :: Ties(a, t, le) == Ties(b, t, le)
    ensures a == b
  {
    if a == [] && b == [] {
      return;
    }
    if a != [] { HeadsTie(b, a, le); }
    if b != [] { HeadsTie(a, b, le); }
    assert le(a[0], a[0]) && le(b[0], a[0]) && le(a[0], b[0]);
    assert Ties(a, a[0], le)[0] == a[0] && Ties(b, a[0], le)[0] == b[0];
    forall t ensures Ties(a[1..], t, le) == Ties(b[1..], t, le) {
      var skip := |Tie(a[0], t, le)|;
      assert Ties(a, t, le)[skip..] == Ties(a[1..], t, le);
      assert Ties(b, t, le)[skip..] == Ties(b[1..], t, le);
    }
    StableSortIsUnique(a[1..], b[1..], le);
    assert a == [a[0]] + a[1..] && b == [b[0]] + b[1..];
  }
}
