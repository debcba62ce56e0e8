/** slices.Sort on strings: the lexicographic order, and a sorted permutation of a list. */
module Sorting {
  /** Code points compare like the bytes of their UTF-8 encoding. */
  predicate AtMost(a: string, b: string) {
    a == [] || (b != [] && (a[0] < b[0] || (a[0] == b[0] && AtMost(a[1..], b[1..]))))
  }

  predicate IsSorted(list: seq<string>) {
    forall i, j :: 0 <= i < j < |list| ==> AtMost(list[i], list[j])
  }

  lemma {:induction false} AtMostTotal(a: string, b: string)
    ensures AtMost(a, b) || AtMost(b, a)
  {
    if a != [] && b != [] && a[0] == b[0] {
      AtMostTotal(a[1..], b[1..]);
    }
  }

  lemma {:induction false} AtMostTransitive(a: string, b: string, c: string)
    requires AtMost(a, b) && AtMost(b, c)
    ensures AtMost(a, c)
  {
    if a != [] && a[0] == b[0] == c[0] {
      AtMostTransitive(a[1..], b[1..], c[1..]);
    }
  }

  lemma {:induction false} AtMostAntisymmetric(a: string, b: string)
    requires AtMost(a, b) && AtMost(b, a)
    ensures a == b
  {
    if a != [] {
      AtMostAntisymmetric(a[1..], b[1..]);
    }
  }

  /** The list with `x` in front of the first element that is not smaller. */
  method Insert(list: seq<string>, x: string) returns (r: seq<string>)
    requires IsSorted(list)
    ensures IsSorted(r) && multiset(r) == multiset(list) + multiset{x}
  {
    var i := 0;
    while i < |list| && !AtMost(x, list[i])
      invariant i <= |list|
      invariant forall k :: 0 <= k < i ==> AtMost(list[k], x)
    {
      AtMostTotal(x, list[i]);
      i := i + 1;
    }
    r := list[..i] + [x] + list[i..];
    assert list == list[..i] + list[i..];
    forall k | i <= k < |list| ensures AtMost(x, list[k]) {
      if k > i {
        AtMostTransitive(x, list[i], list[k]);
      }
    }
  }

  method Sort(list: seq<string>) returns (r: seq<string>)
    ensures IsSorted(r) && multiset(r) == multiset(list)
  {
    r := [];
    for i := 0 to |list|
      invariant IsSorted(r) && multiset(r) == multiset(list[..i])
    {
      r := Insert(r, list[i]);
      assert list[..i + 1] == list[..i] + [list[i]];
    }
    assert list[..|list|] == list;
  }

  lemma SameFirst(a: seq<string>, b: seq<string>)
    requires IsSorted(a) && IsSorted(b) && multiset(a) == multiset(b) && a != [] && b != []
    ensures a[0] == b[0]
  {
    assert a[0] in multiset(b) && b[0] in multiset(a);
    var i :| 0 <= i < |b| && b[i] == a[0];
    var j :| 0 <= j < |a| && a[j] == b[0];
    if i > 0 && j > 0 {
      AtMostAntisymmetric(a[0], b[0]);
    }
  }

  lemma RestOf(a: seq<string>)
    requires IsSorted(a) && a != []
    ensures IsSorted(a[1..]) && multiset(a[1..]) == multiset(a) - multiset{a[0]}
  {
    assert a == [a[0]] + a[1..];
  }

  /** The result of sorting is unique. */
  lemma {:induction false} SortedIsUnique(a: seq<string>, b: seq<string>)
    requires IsSorted(a) && IsSorted(b) && multiset(a) == multiset(b)
    ensures a == b
    decreases |a|
  {
    assert |multiset(a)| == |a| && |multiset(b)| == |b|;
    if a != [] {
      SameFirst(a, b);
      RestOf(a);
      RestOf(b);
      SortedIsUnique(a[1..], b[1..]);
      assert a == [a[0]] + a[1..] && b == [b[0]] + b[1..];
    }
  }
}
