/** Sequence operations the forms share: set-based de-duplication and removal by index. */
module Lists {

  predicate NoDuplicates<T(==)>(s: seq<T>) {
    forall i, j :: 0 <= i < j < |s| ==> s[i] != s[j]
  }

  /** Index of the first occurrence of `x` in `s`. */
  function IndexOf<T(==)>(s: seq<T>, x: T): (k: nat)
    requires x in s
    ensures k < |s| && s[k] == x
    ensures forall j :: 0 <= j < k ==> s[j] != x
  {
    if s[0] == x then 0 else 1 + IndexOf(s[1..], x)
  }

  /**
   * De-duplication through a JavaScript `Set`: a Set remembers insertion order, so this is
   * every element of `s` once, at its first appearance.
   */
  function Distinct<T(==)>(s: seq<T>): (d: seq<T>)
    ensures forall k :: 0 <= k < |d| ==> d[k] in s
    ensures forall k :: 0 <= k < |s| ==> s[k] in d
    ensures NoDuplicates(d)
    ensures |d| <= |s|
    decreases |s|
  {
    if |s| == 0 then []
    else
      var init, last := s[..|s| - 1], s[|s| - 1];
      assert s == init + [last];
      var d := Distinct(init);
      if last in d then d else d + [last]
  }

  lemma IndexOfAppend<T>(s: seq<T>, y: T, x: T)
    requires x in s
    ensures IndexOf(s + [y], x) == IndexOf(s, x)
  {
    var k := IndexOf(s, x);
    var k' := IndexOf(s + [y], x);
    assert (s + [y])[k] == x;
    assert k' <= k;
  }

  /** Distinct keeps first-appearance order. */
  lemma {:induction false} DistinctFirstAppearance<T>(s: seq<T>, i: nat, j: nat)
    requires i < j < |Distinct(s)|
    ensures IndexOf(s, Distinct(s)[i]) < IndexOf(s, Distinct(s)[j])
    decreases |s|
  {
    var init, last := s[..|s| - 1], s[|s| - 1];
    assert s == init + [last];
    var d := Distinct(init);
    var x, y := Distinct(s)[i], Distinct(s)[j];
    assert x in d;
    IndexOfAppend(init, last, x);
    if j < |d| {
      DistinctFirstAppearance(init, i, j);
      IndexOfAppend(init, last, y);
    } else {
      assert y == last && last !in init;
      assert IndexOf(s, y) == |init|;
    }
  }

  /** Distinct of a list without duplicates is the list itself. */
  lemma {:induction false} DistinctOfDistinct<T>(s: seq<T>)
    requires NoDuplicates(s)
    ensures Distinct(s) == s
    decreases |s|
  {
    if |s| > 0 {
      var init := s[..|s| - 1];
      assert NoDuplicates(init);
      DistinctOfDistinct(init);
      assert s == init + [s[|s| - 1]];
    }
  }

  /**
   * Filtering out one position: the element at position `i` goes, the rest keep their
   * order; an index outside the list removes nothing.
   */
  function RemoveAt<T>(s: seq<T>, i: int): (r: seq<T>)
    ensures 0 <= i < |s| ==> |r| == |s| - 1
    ensures 0 <= i < |s| ==> forall k :: 0 <= k < |r| ==> r[k] == s[if k < i then k else k + 1]
    ensures !(0 <= i < |s|) ==> r == s
  {
    if 0 <= i < |s| then s[..i] + s[i + 1..] else s
  }

  /** A `reduce` that adds up `f`: the sum of `f` over the list, left to right. */
  function SumOf<T>(s: seq<T>, f: T -> int): int
    decreases |s|
  {
    if |s| == 0 then 0 else SumOf(s[..|s| - 1], f) + f(s[|s| - 1])
  }

  lemma {:induction false} SumOfConcat<T>(a: seq<T>, b: seq<T>, f: T -> int)
    ensures SumOf(a + b, f) == SumOf(a, f) + SumOf(b, f)
    decreases |b|
  {
    if |b| == 0 {
      assert a + b == a;
    } else {
      assert (a + b)[..|a + b| - 1] == a + b[..|b| - 1];
      SumOfConcat(a, b[..|b| - 1], f);
    }
  }

  lemma SumOfSingleton<T>(x: T, f: T -> int)
    ensures SumOf([x], f) == f(x)
  {
    assert [x][..0] == [];
  }

  /** The sum splits around any position. */
  lemma SumOfSplit<T>(s: seq<T>, i: nat, f: T -> int)
    requires i < |s|
    ensures SumOf(s, f) == SumOf(s[..i], f) + f(s[i]) + SumOf(s[i + 1..], f)
  {
    var a, b := s[..i], s[i + 1..];
    assert s == (a + [s[i]]) + b;
    SumOfConcat(a + [s[i]], b, f);
    SumOfConcat(a, [s[i]], f);
    SumOfSingleton(s[i], f);
  }

  /** Replacing one element changes the sum by exactly the difference at that element. */
  lemma SumOfUpdate<T>(s: seq<T>, i: nat, x: T, f: T -> int)
    requires i < |s|
    ensures SumOf(s[i := x], f) == SumOf(s, f) - f(s[i]) + f(x)
  {
    SumOfSplit(s, i, f);
    SumOfSplit(s[i := x], i, f);
    assert s[i := x][..i] == s[..i];
    assert s[i := x][i + 1..] == s[i + 1..];
  }

  /** Removing one element takes exactly its value off the sum. */
  lemma SumOfRemoveAt<T>(s: seq<T>, i: nat, f: T -> int)
    requires i < |s|
    ensures SumOf(RemoveAt(s, i), f) == SumOf(s, f) - f(s[i])
  {
    SumOfSplit(s, i, f);
    SumOfConcat(s[..i], s[i + 1..], f);
  }

}
