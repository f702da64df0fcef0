/** Sequence and set helpers shared by the log stores and the poll parsers. */
module Collections {

  /** The elements of a list, as a set (Kotlin's `toSet`/`toHashSet`). */
  function ToSet<T>(s: seq<T>): set<T> {
    set x | x in s
  }

  /** Only the empty sequence has no elements. */
  lemma EmptyToSet<T>(s: seq<T>)
    ensures ToSet(s) == {} <==> s == []
  {
    if s != [] {
      assert s[0] in ToSet(s);
    }
  }

  lemma ToSetAppend<T>(a: seq<T>, b: seq<T>)
    ensures ToSet(a + b) == ToSet(a) + ToSet(b)
  {
    assert forall x :: x in a + b <==> x in a || x in b;
  }

  ghost predicate NoDuplicates<T>(s: seq<T>) {
    forall i, j :: 0 <= i < j < |s| ==> s[i] != s[j]
  }

  /** The distinct elements of `s`, each at the position of its first occurrence
      (the iteration order of Kotlin's `toMutableSet`, a `LinkedHashSet`). */
  function Distinct<T(==)>(s: seq<T>): (r: seq<T>)
    ensures ToSet(r) == ToSet(s)
    ensures NoDuplicates(r)
    ensures |r| <= |s|
  {
    if s == [] then []
    else
      var p := Distinct(s[..|s| - 1]);
      assert s == s[..|s| - 1] + [s[|s| - 1]];
      ToSetAppend(s[..|s| - 1], [s[|s| - 1]]);
      ToSetAppend(p, [s[|s| - 1]]);
      if s[|s| - 1] in p then p else p + [s[|s| - 1]]
  }

  /** The elements of `s` that are not in `removed`, in their order (`removeAll`). */
  function Except<T(==)>(s: seq<T>, removed: set<T>): (r: seq<T>)
    ensures ToSet(r) == ToSet(s) - removed
    ensures NoDuplicates(s) ==> NoDuplicates(r)
    ensures |r| <= |s|
  {
    if s == [] then []
    else
      var p := Except(s[..|s| - 1], removed);
      assert s == s[..|s| - 1] + [s[|s| - 1]];
      ToSetAppend(s[..|s| - 1], [s[|s| - 1]]);
      ToSetAppend(p, [s[|s| - 1]]);
      assert NoDuplicates(s) ==> NoDuplicates(s[..|s| - 1]) && s[|s| - 1] !in ToSet(p);
      assert forall i :: 0 <= i < |p| ==> p[i] in ToSet(p);
      if s[|s| - 1] in removed then p else p + [s[|s| - 1]]
  }

  /** The elements of `s` that satisfy `keep`, in their order (Kotlin's `filter`). */
  function Filter<T>(keep: T -> bool, s: seq<T>): (r: seq<T>)
    ensures forall i :: 0 <= i < |r| ==> r[i] in s && keep(r[i])
    ensures forall i :: 0 <= i < |s| && keep(s[i]) ==> s[i] in r
    ensures |r| <= |s|
  {
    if s == [] then []
    else if keep(s[0]) then [s[0]] + Filter(keep, s[1..])
    else Filter(keep, s[1..])
  }

  /** Filtering a concatenation filters each part: the kept elements keep their order. */
  lemma {:induction false} FilterAppend<T>(keep: T -> bool, a: seq<T>, b: seq<T>)
    ensures Filter(keep, a + b) == Filter(keep, a) + Filter(keep, b)
  {
    if a == [] {
      assert a + b == b;
    } else {
      assert (a + b)[0] == a[0];
      assert (a + b)[1..] == a[1..] + b;
      FilterAppend(keep, a[1..], b);
    }
  }

  /** `Distinct` is the identity on a list that has no duplicates. */
  lemma {:induction false} DistinctOfDistinct<T>(s: seq<T>)
    requires NoDuplicates(s)
    ensures Distinct(s) == s
  {
    if s != [] {
      var init := s[..|s| - 1];
      assert NoDuplicates(init);
      DistinctOfDistinct(init);
      assert s[|s| - 1] !in init;
      assert s == init + [s[|s| - 1]];
    }
  }

  /** Appending a list of fresh, distinct elements keeps a list free of duplicates. */
  lemma AppendNoDuplicates<T>(a: seq<T>, b: seq<T>)
    requires NoDuplicates(a) && NoDuplicates(b)
    requires ToSet(a) !! ToSet(b)
    ensures NoDuplicates(a + b)
  {
    forall i, j | 0 <= i < j < |a + b| ensures (a + b)[i] != (a + b)[j] {
      if j >= |a| && i < |a| {
        assert (a + b)[i] in ToSet(a);
        assert (a + b)[j] in ToSet(b);
      }
    }
  }
}
