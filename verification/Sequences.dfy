/** The two bounded views of a growing sequence that the operator's logs keep. */
module Sequences {
  /** The last `n` elements, or everything if there are fewer. */
  function LastN<T>(s: seq<T>, n: nat): (r: seq<T>)
    ensures |r| == if |s| <= n then |s| else n
  {
    if |s| <= n then s else s[|s| - n..]
  }

  /** Trimming after every append is the same as trimming once at the end. */
  lemma LastNAppend<T>(s: seq<T>, x: T, n: nat)
    ensures LastN(LastN(s, n) + [x], n) == LastN(s + [x], n)
  {
  }

  lemma LastNReplace<T>(s: seq<T>, x: T, n: nat)
    requires s != [] && n > 0
    ensures var t := LastN(s, n); t != [] && t[|t| - 1] == s[|s| - 1]
    ensures var t := LastN(s, n); t[..|t| - 1] + [x] == LastN(s[..|s| - 1] + [x], n)
  {
  }

  predicate AllQuiet<T>(list: seq<T>, quiet: T -> bool) {
    forall k :: 0 <= k < |list| ==> quiet(list[k])
  }

  /** The first element that is not quiet is a hit. */
  predicate FirstHit<T>(list: seq<T>, quiet: T -> bool, hit: T -> bool) {
    exists j :: 0 <= j < |list| && hit(list[j]) && AllQuiet(list[..j], quiet)
  }

  /** A quiet first element can be left out. */
  lemma FirstHitShift<T>(list: seq<T>, quiet: T -> bool, hit: T -> bool)
    requires list != []
    ensures FirstHit(list, quiet, hit) <==> hit(list[0]) || (quiet(list[0]) && FirstHit(list[1..], quiet, hit))
  {
    var rest := list[1..];
    assert AllQuiet(list[..0], quiet);
    if quiet(list[0]) && FirstHit(rest, quiet, hit) {
      var j :| 0 <= j < |rest| && hit(rest[j]) && AllQuiet(rest[..j], quiet);
      AllQuietShift(list[..j + 1], quiet);
      assert list[..j + 1][1..] == rest[..j];
    }
    if FirstHit(list, quiet, hit) {
      var j :| 0 <= j < |list| && hit(list[j]) && AllQuiet(list[..j], quiet);
      if j > 0 {
        AllQuietShift(list[..j], quiet);
        assert list[..j][1..] == rest[..j - 1];
        assert hit(rest[j - 1]);
      }
    }
  }

  lemma AllQuietShift<T>(list: seq<T>, quiet: T -> bool)
    requires list != []
    ensures AllQuiet(list, quiet) <==> quiet(list[0]) && AllQuiet(list[1..], quiet)
  {
    assert forall k :: 0 < k < |list| ==> list[k] == list[1..][k - 1];
    if quiet(list[0]) && AllQuiet(list[1..], quiet) {
      forall k | 0 <= k < |list| ensures quiet(list[k]) {
        assert k > 0 ==> quiet(list[1..][k - 1]);
      }
    }
  }
}
