/** `sorted(...)`: a stable insertion sort by a key order, and the code-point order of strings. */
module Sorting {
  ghost predicate IsTotalOrder<T(!new)>(le: (T, T) -> bool) {
    && (forall x, y :: le(x, y) || le(y, x))
    && (forall x, y, z :: le(x, y) && le(y, z) ==> le(x, z))
  }

  ghost predicate IsAntisymmetric<T(!new)>(le: (T, T) -> bool) {
    forall x, y :: le(x, y) && le(y, x) ==> x == y
  }

  predicate IsSorted<T>(xs: seq<T>, le: (T, T) -> bool) {
    forall i :: 1 <= i < |xs| ==> le(xs[i - 1], xs[i])
  }

  function Insert<T>(x: T, xs: seq<T>, le: (T, T) -> bool): seq<T> {
    if xs == [] || le(x, xs[0]) then [x] + xs else [xs[0]] + Insert(x, xs[1..], le)
  }

  function Sort<T>(xs: seq<T>, le: (T, T) -> bool): seq<T> {
    if xs == [] then [] else Insert(xs[0], Sort(xs[1..], le), le)
  }

  lemma {:induction false} InsertContents<T>(x: T, xs: seq<T>, le: (T, T) -> bool)
    ensures multiset(Insert(x, xs, le)) == multiset{x} + multiset(xs)
  {
    if xs != [] && !le(x, xs[0]) {
      InsertContents(x, xs[1..], le);
      assert xs == [xs[0]] + xs[1..];
    }
  }

  lemma {:induction false} SortContents<T>(xs: seq<T>, le: (T, T) -> bool)
    ensures multiset(Sort(xs, le)) == multiset(xs) && |Sort(xs, le)| == |xs|
  {
    if xs != [] {
      SortContents(xs[1..], le);
      InsertContents(xs[0], Sort(xs[1..], le), le);
      assert xs == [xs[0]] + xs[1..];
    }
    assert |multiset(Sort(xs, le))| == |Sort(xs, le)| && |multiset(xs)| == |xs|;
  }

  lemma SortedCons<T>(x: T, xs: seq<T>, le: (T, T) -> bool)
    requires IsSorted(xs, le) && (xs != [] ==> le(x, xs[0]))
    ensures IsSorted([x] + xs, le)
  {}

  lemma {:induction false} InsertSorts<T(!new)>(x: T, xs: seq<T>, le: (T, T) -> bool)
    requires forall y, z :: le(y, z) || le(z, y)
    requires IsSorted(xs, le)
    ensures IsSorted(Insert(x, xs, le), le)
    ensures xs != [] && !le(x, xs[0]) ==> Insert(x, xs, le)[0] == xs[0]
  {
    if xs == [] || le(x, xs[0]) {
      SortedCons(x, xs, le);
    } else {
      InsertSorts(x, xs[1..], le);
      SortedCons(xs[0], Insert(x, xs[1..], le), le);
    }
  }

  lemma {:induction false} SortSorts<T(!new)>(xs: seq<T>, le: (T, T) -> bool)
    requires forall y, z :: le(y, z) || le(z, y)
    ensures IsSorted(Sort(xs, le), le)
  {
    if xs != [] {
      SortSorts(xs[1..], le);
      InsertSorts(xs[0], Sort(xs[1..], le), le);
    }
  }

  /** Sorting what is sorted changes nothing, equal keys included. */
  lemma {:induction false} SortedIsFixed<T>(xs: seq<T>, le: (T, T) -> bool)
    requires IsSorted(xs, le)
    ensures Sort(xs, le) == xs
  {
    if xs != [] {
      SortedIsFixed(xs[1..], le);
      assert xs == [xs[0]] + xs[1..];
    }
  }

  lemma {:induction false} FirstIsLeast<T(!new)>(xs: seq<T>, i: nat, le: (T, T) -> bool)
    requires IsTotalOrder(le) && IsSorted(xs, le) && i < |xs|
    ensures le(xs[0], xs[i])
  {
    if i > 0 {
      FirstIsLeast(xs, i - 1, le);
    } else {
      assert le(xs[0], xs[0]);
    }
  }

  lemma SameHead<T(!new)>(xs: seq<T>, ys: seq<T>, le: (T, T) -> bool)
    requires IsTotalOrder(le) && IsAntisymmetric(le)
    requires IsSorted(xs, le) && IsSorted(ys, le) && multiset(xs) == multiset(ys) && xs != []
    ensures ys != [] && xs[0] == ys[0]
  {
    assert xs[0] in multiset(ys);
    assert ys[0] in multiset(xs);
    var i :| 0 <= i < |ys| && ys[i] == xs[0];
    var j :| 0 <= j < |xs| && xs[j] == ys[0];
    FirstIsLeast(ys, i, le);
    FirstIsLeast(xs, j, le);
  }

  lemma TailContents<T>(xs: seq<T>)
    requires xs != []
    ensures multiset(xs[1..]) == multiset(xs) - multiset{xs[0]}
  {
    assert xs == [xs[0]] + xs[1..];
  }

  /** Two sorted arrangements of the same items are the same. */
  lemma {:induction false} SortedIsUnique<T(!new)>(xs: seq<T>, ys: seq<T>, le: (T, T) -> bool)
    requires IsTotalOrder(le) && IsAntisymmetric(le)
    requires IsSorted(xs, le) && IsSorted(ys, le) && multiset(xs) == multiset(ys)
    ensures xs == ys
  {
    if xs == [] {
      assert |multiset(ys)| == 0;
    } else {
      SameHead(xs, ys, le);
      TailContents(xs);
      TailContents(ys);
      SortedIsUnique(xs[1..], ys[1..], le);
      assert xs == [xs[0]] + xs[1..] && ys == [ys[0]] + ys[1..];
    }
  }

  lemma SortIgnoresOrder<T(!new)>(xs: seq<T>, ys: seq<T>, le: (T, T) -> bool)
    requires IsTotalOrder(le) && IsAntisymmetric(le) && multiset(xs) == multiset(ys)
    ensures Sort(xs, le) == Sort(ys, le)
  {
    SortContents(xs, le);
    SortContents(ys, le);
    SortSorts(xs, le);
    SortSorts(ys, le);
    SortedIsUnique(Sort(xs, le), Sort(ys, le), le);
  }

  // ---------------------------------------------------------------- mapping

  function Map<T, U>(f: T -> U, xs: seq<T>): (ys: seq<U>)
    ensures |ys| == |xs| && forall i :: 0 <= i < |ys| ==> ys[i] == f(xs[i])
  {
    seq(|xs|, i requires 0 <= i < |xs| => f(xs[i]))
  }

  function Removed<T>(xs: seq<T>, i: nat): (ys: seq<T>)
    requires i < |xs|
    ensures |ys| == |xs| - 1
  {
    xs[..i] + xs[i + 1..]
  }

  lemma RemovedContents<T>(xs: seq<T>, i: nat)
    requires i < |xs|
    ensures multiset(xs) == multiset(Removed(xs, i)) + multiset{xs[i]}
    ensures multiset(Removed(xs, i)) == multiset(xs) - multiset{xs[i]}
  {
    assert xs == xs[..i] + [xs[i]] + xs[i + 1..];
  }

  lemma MapRemoved<T, U>(f: T -> U, xs: seq<T>, i: nat)
    requires i < |xs|
    ensures Map(f, Removed(xs, i)) == Removed(Map(f, xs), i)
  {}

  /** The images of the same items in another order. */
  lemma {:induction false} MapIgnoresOrder<T, U>(f: T -> U, xs: seq<T>, ys: seq<T>)
    requires multiset(xs) == multiset(ys)
    ensures multiset(Map(f, xs)) == multiset(Map(f, ys))
    decreases |xs|
  {
    assert |multiset(ys)| == |ys|;
    if xs != [] {
      assert xs[0] in multiset(ys);
      var i :| 0 <= i < |ys| && ys[i] == xs[0];
      RemovedContents(xs, 0);
      RemovedContents(ys, i);
      MapIgnoresOrder(f, Removed(xs, 0), Removed(ys, i));
      MapRemoved(f, xs, 0);
      MapRemoved(f, ys, i);
      RemovedContents(Map(f, xs), 0);
      RemovedContents(Map(f, ys), i);
    }
  }

  // ---------------------------------------------------------------- strings

  predicate TextLe(s: string, t: string) {
    s == "" || (t != "" && (s[0] < t[0] || (s[0] == t[0] && TextLe(s[1..], t[1..]))))
  }

  lemma {:induction false} TextLeTotal(s: string, t: string)
    ensures TextLe(s, t) || TextLe(t, s)
  {
    if s != "" && t != "" {
      TextLeTotal(s[1..], t[1..]);
    }
  }

  lemma {:induction false} TextLeTransitive(s: string, t: string, u: string)
    requires TextLe(s, t) && TextLe(t, u)
    ensures TextLe(s, u)
  {
    if s != "" && t != "" && u != "" && s[0] == t[0] && t[0] == u[0] {
      TextLeTransitive(s[1..], t[1..], u[1..]);
    }
  }

  lemma {:induction false} TextLeAntisymmetric(s: string, t: string)
    requires TextLe(s, t) && TextLe(t, s)
    ensures s == t
  {
    if s != "" && t != "" {
      TextLeAntisymmetric(s[1..], t[1..]);
      assert s == [s[0]] + s[1..] && t == [t[0]] + t[1..];
    }
  }
}
