/**
  Environment variable overriding: MergeEnv of internal/util/env.go, GetEnv and
  OverriddenOperatorEnvs of api/v1/store_env.go. The operator's own list is arbitrary, it may repeat
  names.
*/
module Env {
  datatype EnvVar = EnvVar(name: string, value: string)

  datatype EnvOverride = EnvOverride(operator: EnvVar, extra: EnvVar)

  // ---------------------------------------------------------------- specification

  /** The first index from `k` on that has the name, or the length of the list. */
  function FirstFrom(list: seq<EnvVar>, name: string, k: nat): (i: nat)
    requires k <= |list|
    ensures k <= i <= |list| && (i < |list| ==> list[i].name == name)
    ensures forall j :: k <= j < i ==> list[j].name != name
    decreases |list| - k
  {
    if k == |list| || list[k].name == name then k else FirstFrom(list, name, k + 1)
  }

  function First(list: seq<EnvVar>, name: string): nat {
    FirstFrom(list, name, 0)
  }

  predicate Has(list: seq<EnvVar>, name: string) {
    First(list, name) < |list|
  }

  /** The last index below `k` that has the name, or -1. */
  function Last(list: seq<EnvVar>, k: nat, name: string): (i: int)
    requires k <= |list|
    ensures -1 <= i < k && (i >= 0 ==> list[i].name == name)
    ensures forall j :: i < j < k ==> list[j].name != name
  {
    if k == 0 then -1 else if list[k - 1].name == name then k - 1 else Last(list, k - 1, name)
  }

  /** Each name of the base is overridden at its first occurrence, by the last of the first `k` source entries with that name. */
  function OverrideAt(base: seq<EnvVar>, src: seq<EnvVar>, k: nat, i: nat): (v: EnvVar)
    requires i < |base| && k <= |src|
    ensures v.name == base[i].name
  {
    var last := Last(src, k, base[i].name);
    if i == First(base, base[i].name) && last >= 0 then src[last] else base[i]
  }

  /** The source entries whose name the base does not have, repeated names included. */
  function Unmatched(base: seq<EnvVar>, src: seq<EnvVar>, k: nat): seq<EnvVar>
    requires k <= |src|
  {
    if k == 0 then []
    else Unmatched(base, src, k - 1) + if Has(base, src[k - 1].name) then [] else [src[k - 1]]
  }

  ghost predicate IsOverride(base: seq<EnvVar>, src: seq<EnvVar>, k: nat, r: seq<EnvVar>)
    requires k <= |src|
  {
    |r| >= |base| && forall i :: 0 <= i < |base| ==> r[i] == OverrideAt(base, src, k, i)
  }

  /** The result of MergeEnv: the base with overrides in place, then everything the base does not have. */
  ghost predicate IsMerge(base: seq<EnvVar>, src: seq<EnvVar>, r: seq<EnvVar>) {
    IsOverride(base, src, |src|, r) && r[|base|..] == Unmatched(base, src, |src|)
  }

  /** Where the source first mentions each name that the base has (or lacks). */
  function FirstSeen(base: seq<EnvVar>, src: seq<EnvVar>, k: nat, inBase: bool): (seen: seq<nat>)
    requires k <= |src|
    ensures forall j :: 0 <= j < |seen| ==> seen[j] < k && (Has(base, src[seen[j]].name) <==> inBase)
    ensures forall i, j :: 0 <= i < j < |seen| ==> seen[i] < seen[j] && src[seen[i]].name != src[seen[j]].name
  {
    if k == 0 then []
    else
      var before, name := FirstSeen(base, src, k - 1, inBase), src[k - 1].name;
      if (Has(base, name) <==> inBase) && Last(src, k - 1, name) < 0 then before + [k - 1] else before
  }

  /** GetEnv after `k` extras: overrides in place, then each new name once, with its latest value. */
  ghost predicate IsEnv(operator: seq<EnvVar>, extras: seq<EnvVar>, k: nat, r: seq<EnvVar>)
    requires k <= |extras|
  {
    var added := FirstSeen(operator, extras, k, false);
    && |r| == |operator| + |added|
    && IsOverride(operator, extras, k, r)
    && forall j :: 0 <= j < |added| ==> IsLatest(extras, k, extras[added[j]].name, r[|operator| + j])
  }

  predicate IsLatest(src: seq<EnvVar>, k: nat, name: string, v: EnvVar)
    requires k <= |src|
  {
    var last := Last(src, k, name);
    last >= 0 && v == src[last]
  }

  /** OverriddenOperatorEnvs: each common name once, in first-seen order, first operator entry with latest extra. */
  ghost predicate AreOverrides(operator: seq<EnvVar>, extras: seq<EnvVar>, k: nat, r: seq<EnvOverride>)
    requires k <= |extras|
  {
    var common := FirstSeen(operator, extras, k, true);
    && |r| == |common|
    && forall j :: 0 <= j < |common| ==>
         && r[j].operator == operator[First(operator, extras[common[j]].name)]
         && IsLatest(extras, k, extras[common[j]].name, r[j].extra)
  }

  // ---------------------------------------------------------------- one more source entry

  lemma FirstIs(list: seq<EnvVar>, name: string, i: nat)
    requires i <= |list| && (i < |list| ==> list[i].name == name)
    requires forall j :: 0 <= j < i ==> list[j].name != name
    ensures First(list, name) == i
  {
  }

  /** Every name of the right kind that the source mentions is in the list, by its first mention. */
  lemma {:induction false} FirstSeenComplete(base: seq<EnvVar>, src: seq<EnvVar>, k: nat, inBase: bool, i: nat)
    requires i < k <= |src| && (Has(base, src[i].name) <==> inBase)
    ensures exists j :: 0 <= j < |FirstSeen(base, src, k, inBase)| && src[FirstSeen(base, src, k, inBase)[j]].name == src[i].name
  {
    var seen := FirstSeen(base, src, k, inBase);
    var before := FirstSeen(base, src, k - 1, inBase);
    var earlier := Last(src, k - 1, src[i].name);
    if earlier >= 0 {
      FirstSeenComplete(base, src, k - 1, inBase, earlier);
      var j :| 0 <= j < |before| && src[before[j]].name == src[earlier].name;
      assert seen[j] == before[j];
    } else {
      assert i == k - 1 && seen == before + [k - 1];
      assert seen[|before|] == k - 1;
    }
  }

  /** Adding the entry `k` to the source replaces the first base entry of its name and no other. */
  lemma OverrideStep(base: seq<EnvVar>, src: seq<EnvVar>, k: nat, i: nat)
    requires i < |base| && k < |src|
    ensures OverrideAt(base, src, k + 1, i) ==
      if i == First(base, src[k].name) then src[k] else OverrideAt(base, src, k, i)
  {
  }

  lemma OverrideKeepsNames(base: seq<EnvVar>, src: seq<EnvVar>, k: nat, r: seq<EnvVar>)
    requires k <= |src| && IsOverride(base, src, k, r)
    ensures forall j :: 0 <= j < |base| ==> r[j].name == base[j].name
  {
  }

  // ---------------------------------------------------------------- the three operations

  /** slices.IndexFunc on the name, with the length of the list for "not found". */
  method FindName(list: seq<EnvVar>, name: string) returns (at: nat)
    ensures at == First(list, name)
  {
    at := 0;
    while at < |list| && list[at].name != name
      invariant at <= |list| && forall j :: 0 <= j < at ==> list[j].name != name
    {
      at := at + 1;
    }
    FirstIs(list, name, at);
  }

  /** The inner loop of MergeEnv, up to its break. */
  method FindInSlice(dst: array<EnvVar>, name: string) returns (at: nat)
    ensures at == First(dst[..], name)
  {
    at := 0;
    while at < dst.Length && dst[at].name != name
      invariant at <= dst.Length && forall j :: 0 <= j < at ==> dst[j].name != name
    {
      at := at + 1;
    }
    FirstIs(dst[..], name, at);
  }

  lemma MergeStep(base: seq<EnvVar>, src: seq<EnvVar>, k: nat, d: seq<EnvVar>)
    requires k < |src| && |d| == |base| && IsOverride(base, src, k, d)
    ensures var i := First(base, src[k].name);
      && IsOverride(base, src, k + 1, if i < |d| then d[i := src[k]] else d)
      && Unmatched(base, src, k + 1) == Unmatched(base, src, k) + if i < |d| then [] else [src[k]]
  {
    var i := First(base, src[k].name);
    var d' := if i < |d| then d[i := src[k]] else d;
    forall j | 0 <= j < |base| ensures d'[j] == OverrideAt(base, src, k + 1, j) {
      OverrideStep(base, src, k, j);
    }
  }

  lemma MergeDone(base: seq<EnvVar>, src: seq<EnvVar>, d: seq<EnvVar>)
    requires |d| == |base| && IsOverride(base, src, |src|, d)
    ensures IsMerge(base, src, d + Unmatched(base, src, |src|))
  {
    var merged := d + Unmatched(base, src, |src|);
    forall j | 0 <= j < |base| ensures merged[j] == OverrideAt(base, src, |src|, j) {
      assert merged[j] == d[j];
    }
  }

  /** One round of MergeEnv: overwrites the first entry of that name, if there is one. */
  method OverwriteOne(dst: array<EnvVar>, src: seq<EnvVar>, si: nat, ghost base: seq<EnvVar>) returns (found: bool)
    requires si < |src| && dst.Length == |base| && IsOverride(base, src, si, dst[..])
    modifies dst
    ensures IsOverride(base, src, si + 1, dst[..])
    ensures Unmatched(base, src, si + 1) == Unmatched(base, src, si) + if found then [] else [src[si]]
  {
    ghost var d := dst[..];
    var di := FindInSlice(dst, src[si].name);
    EnvFirst(base, src, si, d, src[si].name);
    MergeStep(base, src, si, d);
    found := di < dst.Length;
    if found {
      dst[di] := src[si];
      assert dst[..] == d[di := src[si]];
    }
  }

  /** Overwrites `dst` in place, like the slice it is handed in the source. */
  method MergeEnv(dst: array<EnvVar>, src: seq<EnvVar>) returns (merged: seq<EnvVar>)
    modifies dst
    ensures IsMerge(old(dst[..]), src, merged)
    ensures dst[..] == merged[..dst.Length]
  {
    ghost var base := dst[..];
    var toAppend: seq<EnvVar> := [];
    for si := 0 to |src|
      invariant IsOverride(base, src, si, dst[..])
      invariant toAppend == Unmatched(base, src, si)
    {
      var found := OverwriteOne(dst, src, si, base);
      if !found {
        toAppend := toAppend + [src[si]];
      }
    }
    MergeDone(base, src, dst[..]);
    merged := dst[..] + toAppend;
  }

  /** Replaces the first entry of that name, or appends. */
  function Put(c: seq<EnvVar>, v: EnvVar): seq<EnvVar> {
    var i := First(c, v.name);
    if i < |c| then c[i := v] else c + [v]
  }

  lemma EnvFirst(operator: seq<EnvVar>, extras: seq<EnvVar>, k: nat, c: seq<EnvVar>, name: string)
    requires k < |extras| && IsOverride(operator, extras, k, c)
    ensures First(operator, name) == if First(c, name) < |operator| then First(c, name) else |operator|
  {
    OverrideKeepsNames(operator, extras, k, c);
    FirstIs(operator, name, if First(c, name) < |operator| then First(c, name) else |operator|);
  }

  lemma EnvOverrideStep(operator: seq<EnvVar>, extras: seq<EnvVar>, k: nat, c: seq<EnvVar>)
    requires k < |extras| && IsOverride(operator, extras, k, c)
    ensures IsOverride(operator, extras, k + 1, Put(c, extras[k]))
  {
    EnvFirst(operator, extras, k, c, extras[k].name);
    forall j | 0 <= j < |operator| ensures Put(c, extras[k])[j] == OverrideAt(operator, extras, k + 1, j) {
      OverrideStep(operator, extras, k, j);
    }
  }

  /** The names appended so far, after one more extra that is or is not among them. */
  lemma EnvAddedStep(operator: seq<EnvVar>, extras: seq<EnvVar>, k: nat, c: seq<EnvVar>)
    requires k < |extras| && IsEnv(operator, extras, k, c)
    ensures var added := FirstSeen(operator, extras, k, false);
      FirstSeen(operator, extras, k + 1, false) == if Has(c, extras[k].name) then added else added + [k]
  {
    EnvFirst(operator, extras, k, c, extras[k].name);
    var name, i, n := extras[k].name, First(c, extras[k].name), |operator|;
    var added := FirstSeen(operator, extras, k, false);
    if n <= i < |c| {
      assert IsLatest(extras, k, extras[added[i - n]].name, c[n + (i - n)]);
    } else if i == |c| && Last(extras, k, name) >= 0 {
      FirstSeenComplete(operator, extras, k, false, Last(extras, k, name));
    }
  }

  /** The value of one appended name: replaced if the extra has that name, kept otherwise. */
  lemma EnvValueStep(operator: seq<EnvVar>, extras: seq<EnvVar>, k: nat, c: seq<EnvVar>, j: nat)
    requires k < |extras| && IsEnv(operator, extras, k, c)
    requires j < |FirstSeen(operator, extras, k, false)|
    ensures IsLatest(extras, k + 1, extras[FirstSeen(operator, extras, k, false)[j]].name, Put(c, extras[k])[|operator| + j])
  {
    EnvFirst(operator, extras, k, c, extras[k].name);
    var added, i, n := FirstSeen(operator, extras, k, false), First(c, extras[k].name), |operator|;
    assert IsLatest(extras, k, extras[added[j]].name, c[n + j]);
    if n <= i < |c| {
      assert IsLatest(extras, k, extras[added[i - n]].name, c[n + (i - n)]);
    }
  }

  lemma EnvValuesStep(operator: seq<EnvVar>, extras: seq<EnvVar>, k: nat, c: seq<EnvVar>)
    requires k < |extras| && IsEnv(operator, extras, k, c)
    ensures var added := FirstSeen(operator, extras, k + 1, false);
      && |Put(c, extras[k])| == |operator| + |added|
      && forall j :: 0 <= j < |added| ==> IsLatest(extras, k + 1, extras[added[j]].name, Put(c, extras[k])[|operator| + j])
  {
    var added, added' := FirstSeen(operator, extras, k, false), FirstSeen(operator, extras, k + 1, false);
    EnvAddedStep(operator, extras, k, c);
    forall j | 0 <= j < |added'| ensures IsLatest(extras, k + 1, extras[added'[j]].name, Put(c, extras[k])[|operator| + j]) {
      if j < |added| {
        EnvValueStep(operator, extras, k, c, j);
      }
    }
  }

  method GetEnv(operator: seq<EnvVar>, extras: seq<EnvVar>) returns (c: seq<EnvVar>)
    ensures IsEnv(operator, extras, |extras|, c)
  {
    c := operator;
    for k := 0 to |extras|
      invariant IsEnv(operator, extras, k, c)
    {
      EnvOverrideStep(operator, extras, k, c);
      EnvValuesStep(operator, extras, k, c);
      var i := FindName(c, extras[k].name);
      if i < |c| {
        c := c[i := extras[k]];
      } else {
        c := c + [extras[k]];
      }
    }
  }

  method FindOverride(os: seq<EnvOverride>, name: string) returns (i: nat)
    ensures i <= |os| && (i < |os| ==> os[i].extra.name == name)
    ensures forall j :: 0 <= j < i ==> os[j].extra.name != name
  {
    i := 0;
    while i < |os| && os[i].extra.name != name
      invariant i <= |os| && forall j :: 0 <= j < i ==> os[j].extra.name != name
    {
      i := i + 1;
    }
  }

  /** The common names after one more extra: a new one only if the operator has it and it is new. */
  lemma CommonStep(operator: seq<EnvVar>, extras: seq<EnvVar>, k: nat, os: seq<EnvOverride>, i: nat)
    requires k < |extras| && AreOverrides(operator, extras, k, os) && i <= |os|
    requires i < |os| ==> os[i].extra.name == extras[k].name
    requires forall j :: 0 <= j < i ==> os[j].extra.name != extras[k].name
    ensures var common := FirstSeen(operator, extras, k, true);
      FirstSeen(operator, extras, k + 1, true) ==
        if i == |os| && Has(operator, extras[k].name) then common + [k] else common
  {
    var common, name := FirstSeen(operator, extras, k, true), extras[k].name;
    if i < |os| {
      assert IsLatest(extras, k, extras[common[i]].name, os[i].extra);
    } else if Has(operator, name) && Last(extras, k, name) >= 0 {
      FirstSeenComplete(operator, extras, k, true, Last(extras, k, name));
    }
  }

  lemma OverrideValueStep(operator: seq<EnvVar>, extras: seq<EnvVar>, k: nat, os: seq<EnvOverride>, i: nat, j: nat)
    requires k < |extras| && AreOverrides(operator, extras, k, os) && i <= |os| && j < |os|
    requires i < |os| ==> os[i].extra.name == extras[k].name
    requires forall j :: 0 <= j < i ==> os[j].extra.name != extras[k].name
    ensures IsLatest(extras, k + 1, extras[FirstSeen(operator, extras, k, true)[j]].name, if j == i then extras[k] else os[j].extra)
  {
    var common := FirstSeen(operator, extras, k, true);
    assert IsLatest(extras, k, extras[common[j]].name, os[j].extra);
    if i < |os| {
      assert IsLatest(extras, k, extras[common[i]].name, os[i].extra);
    }
  }

  lemma OverrideReplaced(operator: seq<EnvVar>, extras: seq<EnvVar>, k: nat, os: seq<EnvOverride>, i: nat)
    requires k < |extras| && AreOverrides(operator, extras, k, os) && i < |os|
    requires os[i].extra.name == extras[k].name
    requires forall j :: 0 <= j < i ==> os[j].extra.name != extras[k].name
    ensures AreOverrides(operator, extras, k + 1, os[i := os[i].(extra := extras[k])])
  {
    CommonStep(operator, extras, k, os, i);
    var common, os' := FirstSeen(operator, extras, k, true), os[i := os[i].(extra := extras[k])];
    assert FirstSeen(operator, extras, k + 1, true) == common;
    forall j | 0 <= j < |common|
      ensures os'[j].operator == operator[First(operator, extras[common[j]].name)]
      ensures IsLatest(extras, k + 1, extras[common[j]].name, os'[j].extra)
    {
      OverrideValueStep(operator, extras, k, os, i, j);
      assert os'[j].operator == os[j].operator;
    }
  }

  lemma OverrideKept(operator: seq<EnvVar>, extras: seq<EnvVar>, k: nat, os: seq<EnvOverride>)
    requires k < |extras| && AreOverrides(operator, extras, k, os)
    requires forall j :: 0 <= j < |os| ==> os[j].extra.name != extras[k].name
    ensures var common := FirstSeen(operator, extras, k, true);
      forall j :: 0 <= j < |common| ==> IsLatest(extras, k + 1, extras[common[j]].name, os[j].extra)
  {
    var common := FirstSeen(operator, extras, k, true);
    forall j | 0 <= j < |common| ensures IsLatest(extras, k + 1, extras[common[j]].name, os[j].extra) {
      OverrideValueStep(operator, extras, k, os, |os|, j);
    }
  }

  lemma OverrideAdded(operator: seq<EnvVar>, extras: seq<EnvVar>, k: nat, os: seq<EnvOverride>)
    requires k < |extras| && AreOverrides(operator, extras, k, os) && Has(operator, extras[k].name)
    requires forall j :: 0 <= j < |os| ==> os[j].extra.name != extras[k].name
    ensures AreOverrides(operator, extras, k + 1, os + [EnvOverride(operator[First(operator, extras[k].name)], extras[k])])
  {
    CommonStep(operator, extras, k, os, |os|);
    OverrideKept(operator, extras, k, os);
    assert Last(extras, k + 1, extras[k].name) == k;
  }

  lemma OverridesStep(operator: seq<EnvVar>, extras: seq<EnvVar>, k: nat, os: seq<EnvOverride>, i: nat)
    requires k < |extras| && AreOverrides(operator, extras, k, os) && i <= |os|
    requires i < |os| ==> os[i].extra.name == extras[k].name
    requires forall j :: 0 <= j < i ==> os[j].extra.name != extras[k].name
    ensures var at := First(operator, extras[k].name);
      AreOverrides(operator, extras, k + 1,
        if i < |os| then os[i := os[i].(extra := extras[k])]
        else if at < |operator| then os + [EnvOverride(operator[at], extras[k])]
        else os)
  {
    if i < |os| {
      OverrideReplaced(operator, extras, k, os, i);
    } else if Has(operator, extras[k].name) {
      OverrideAdded(operator, extras, k, os);
    } else {
      CommonStep(operator, extras, k, os, i);
      OverrideKept(operator, extras, k, os);
    }
  }

  method OverriddenOperatorEnvs(operator: seq<EnvVar>, extras: seq<EnvVar>) returns (overridden: seq<EnvOverride>)
    ensures AreOverrides(operator, extras, |extras|, overridden)
  {
    overridden := [];
    for k := 0 to |extras|
      invariant AreOverrides(operator, extras, k, overridden)
    {
      var i := FindOverride(overridden, extras[k].name);
      OverridesStep(operator, extras, k, overridden, i);
      if i < |overridden| {
        overridden := overridden[i := overridden[i].(extra := extras[k])];
      } else {
        var at := FindName(operator, extras[k].name);
        if at < |operator| {
          overridden := overridden + [EnvOverride(operator[at], extras[k])];
        }
      }
    }
  }

  // ---------------------------------------------------------------- properties

  predicate Mentions(os: seq<EnvOverride>, name: string) {
    exists i :: 0 <= i < |os| && os[i].extra.name == name
  }

  /** The overrides name exactly the variables in both lists, and each of them once. */
  lemma OverridesAreTheCommonNames(operator: seq<EnvVar>, extras: seq<EnvVar>, os: seq<EnvOverride>)
    requires AreOverrides(operator, extras, |extras|, os)
    ensures forall name :: Mentions(os, name) <==> Has(operator, name) && Has(extras, name)
    ensures forall i, j :: 0 <= i < j < |os| ==> os[i].extra.name != os[j].extra.name
  {
    var common := FirstSeen(operator, extras, |extras|, true);
    forall name ensures Mentions(os, name) <==> Has(operator, name) && Has(extras, name) {
      if Has(operator, name) && Has(extras, name) {
        FirstSeenComplete(operator, extras, |extras|, true, First(extras, name));
        var j :| 0 <= j < |common| && extras[common[j]].name == name;
        assert os[j].extra.name == name;
      }
    }
  }

  /** Each override pairs the first operator entry with the entry GetEnv puts at that very index. */
  lemma OverridesAreEffective(operator: seq<EnvVar>, extras: seq<EnvVar>, os: seq<EnvOverride>, c: seq<EnvVar>, i: nat)
    requires AreOverrides(operator, extras, |extras|, os) && IsEnv(operator, extras, |extras|, c)
    requires i < |os|
    ensures var at := First(operator, os[i].extra.name);
      at < |operator| && os[i].operator == operator[at] && c[at] == os[i].extra
  {
  }

  predicate Distinct(list: seq<EnvVar>) {
    forall i, j :: 0 <= i < j < |list| ==> list[i].name != list[j].name
  }

  /** A list of variables as a mapping from names. */
  ghost predicate MapsTo(list: seq<EnvVar>, name: string, v: EnvVar) {
    Has(list, name) && list[First(list, name)] == v
  }

  lemma {:induction false} UnmatchedFrom(base: seq<EnvVar>, src: seq<EnvVar>, k: nat)
    requires k <= |src| && Distinct(src)
    ensures Distinct(Unmatched(base, src, k))
    ensures forall v :: v in Unmatched(base, src, k) <==> v in src[..k] && !Has(base, v.name)
  {
    if k > 0 {
      UnmatchedFrom(base, src, k - 1);
      assert src[..k] == src[..k - 1] + [src[k - 1]];
    }
  }

  lemma MergeIsDistinct(base: seq<EnvVar>, src: seq<EnvVar>, merged: seq<EnvVar>)
    requires Distinct(base) && Distinct(src) && IsMerge(base, src, merged)
    ensures Distinct(merged)
    ensures forall i :: 0 <= i < |base| ==> merged[i] == OverrideAt(base, src, |src|, i)
    ensures forall v :: v in merged[|base|..] <==> v in src && !Has(base, v.name)
  {
    UnmatchedFrom(base, src, |src|);
    assert src[..|src|] == src;
    var rest := Unmatched(base, src, |src|);
    forall i, j | 0 <= i < j < |merged| ensures merged[i].name != merged[j].name {
      if j >= |base| {
        assert merged[j] == rest[j - |base|] && rest[j - |base|] in rest;
        if i >= |base| {
          assert merged[i] == rest[i - |base|];
        } else {
          assert merged[i].name == base[i].name;
        }
      }
    }
  }

  lemma DistinctMapsTo(list: seq<EnvVar>, v: EnvVar)
    requires Distinct(list)
    ensures MapsTo(list, v.name, v) <==> v in list
  {
    if v in list {
      var i :| 0 <= i < |list| && list[i] == v;
      FirstIs(list, v.name, i);
    }
  }

  /** The merged list holds the source, and of the base what the source does not name. */
  lemma MergedHas(base: seq<EnvVar>, src: seq<EnvVar>, merged: seq<EnvVar>, v: EnvVar)
    requires Distinct(base) && Distinct(src) && IsMerge(base, src, merged)
    requires v in src || (v in base && !Has(src, v.name))
    ensures v in merged
  {
    MergeIsDistinct(base, src, merged);
    var i := First(base, v.name);
    if i < |base| {
      FirstIs(base, base[i].name, i);
      assert merged[i] == v;
    } else {
      assert v in merged[|base|..];
    }
  }

  lemma MergedHasOnly(base: seq<EnvVar>, src: seq<EnvVar>, merged: seq<EnvVar>, i: nat)
    requires Distinct(base) && Distinct(src) && IsMerge(base, src, merged) && i < |merged|
    ensures merged[i] in src || (merged[i] in base && !Has(src, merged[i].name))
  {
    MergeIsDistinct(base, src, merged);
    if i < |base| {
      FirstIs(base, base[i].name, i);
    } else {
      assert merged[i] == merged[|base|..][i - |base|];
    }
  }

  /**
    For lists without repeated names, MergeEnv is map override: the source wins, the base fills in,
    no name is repeated, and the names of the base keep their positions.
  */
  lemma MergeIsMapOverride(base: seq<EnvVar>, src: seq<EnvVar>, merged: seq<EnvVar>, v: EnvVar)
    requires Distinct(base) && Distinct(src) && IsMerge(base, src, merged)
    ensures Distinct(merged)
    ensures forall i :: 0 <= i < |base| ==> merged[i].name == base[i].name
    ensures MapsTo(merged, v.name, v) <==> if Has(src, v.name) then MapsTo(src, v.name, v) else MapsTo(base, v.name, v)
  {
    MergeIsDistinct(base, src, merged);
    DistinctMapsTo(merged, v);
    DistinctMapsTo(src, v);
    DistinctMapsTo(base, v);
    if v in merged {
      var i :| 0 <= i < |merged| && merged[i] == v;
      MergedHasOnly(base, src, merged, i);
    } else if v in src || (v in base && !Has(src, v.name)) {
      MergedHas(base, src, merged, v);
    }
  }

  // ---------------------------------------------------------------- lists with repeated names

  predicate IsFirstOf(list: seq<EnvVar>, i: nat) {
    i < |list| && forall j :: 0 <= j < i ==> list[j].name != list[i].name
  }

  predicate IsLastOf(list: seq<EnvVar>, i: nat) {
    i < |list| && forall j :: i < j < |list| ==> list[j].name != list[i].name
  }

  predicate Mentioned(list: seq<EnvVar>, name: string) {
    exists i :: 0 <= i < |list| && list[i].name == name
  }

  /** The first base entry of a name gets the last source entry of that name; all others stay. */
  lemma MergedEntry(base: seq<EnvVar>, src: seq<EnvVar>, merged: seq<EnvVar>, i: nat)
    requires IsMerge(base, src, merged) && i < |base|
    ensures IsFirstOf(base, i) && Mentioned(src, base[i].name) ==> exists j: nat :: IsLastOf(src, j) && src[j].name == base[i].name && merged[i] == src[j]
    ensures !(IsFirstOf(base, i) && Mentioned(src, base[i].name)) ==> merged[i] == base[i]
  {
    var last := Last(src, |src|, base[i].name);
    if last >= 0 {
      assert IsLastOf(src, last);
    }
  }

  lemma MentionedIsHas(list: seq<EnvVar>, name: string)
    ensures Mentioned(list, name) <==> Has(list, name)
  {
  }

  function Count(list: seq<EnvVar>, v: EnvVar): nat {
    multiset(list)[v]
  }

  lemma CountSnoc(list: seq<EnvVar>, x: EnvVar, v: EnvVar)
    ensures Count(list + [x], v) == Count(list, v) + if v == x then 1 else 0
  {
  }

  /** What follows are the unmatched source entries, as often as the source has them. */
  lemma {:induction false} AppendedEntries(base: seq<EnvVar>, src: seq<EnvVar>, k: nat, v: EnvVar)
    requires k <= |src|
    ensures Count(Unmatched(base, src, k), v) == if Mentioned(base, v.name) then 0 else Count(src[..k], v)
  {
    if k > 0 {
      var rest, last := Unmatched(base, src, k - 1), src[k - 1];
      AppendedEntries(base, src, k - 1, v);
      assert src[..k] == src[..k - 1] + [last];
      MentionedIsHas(base, last.name);
      CountSnoc(src[..k - 1], last, v);
      CountSnoc(rest, last, v);
      assert rest + [] == rest;
    }
  }

  /** `at` gives increasing positions of the source at which the entries of `list` stand. */
  predicate StandAt(list: seq<EnvVar>, src: seq<EnvVar>, at: seq<nat>) {
    && |at| == |list|
    && (forall i :: 0 <= i < |at| ==> at[i] < |src| && src[at[i]] == list[i])
    && (forall i, j :: 0 <= i < j < |at| ==> at[i] < at[j])
  }

  lemma StandAtSnoc(list: seq<EnvVar>, src: seq<EnvVar>, at: seq<nat>)
    requires src != [] && StandAt(list, src[..|src| - 1], at)
    ensures StandAt(list, src, at) && StandAt(list + [src[|src| - 1]], src, at + [|src| - 1])
  {
    assert forall k :: 0 <= k < |src| - 1 ==> src[..|src| - 1][k] == src[k];
  }

  /** And in the order of the source. */
  lemma {:induction false} AppendedInOrder(base: seq<EnvVar>, src: seq<EnvVar>, k: nat) returns (at: seq<nat>)
    requires k <= |src|
    ensures StandAt(Unmatched(base, src, k), src[..k], at)
  {
    if k == 0 {
      at := [];
    } else {
      var rest, prefix := Unmatched(base, src, k - 1), src[..k];
      at := AppendedInOrder(base, src, k - 1);
      assert prefix[..|prefix| - 1] == src[..k - 1];
      StandAtSnoc(rest, prefix, at);
      if Has(base, src[k - 1].name) {
        assert rest + [] == rest;
      } else {
        at := at + [k - 1];
      }
    }
  }

  /** GetEnv, for a name that only the extras have: one entry, behind the operator's, with the last value. */
  lemma AddedByGetEnv(operator: seq<EnvVar>, extras: seq<EnvVar>, c: seq<EnvVar>, name: string)
    requires IsEnv(operator, extras, |extras|, c) && Mentioned(extras, name) && !Mentioned(operator, name)
    ensures exists i, j: nat ::
      |operator| <= i < |c| && IsLastOf(extras, j) && extras[j].name == name && c[i] == extras[j]
    ensures forall i, j :: |operator| <= i < j < |c| ==> c[i].name != c[j].name
  {
    var added := FirstSeen(operator, extras, |extras|, false);
    MentionedIsHas(operator, name);
    MentionedIsHas(extras, name);
    FirstSeenComplete(operator, extras, |extras|, false, First(extras, name));
    var k :| 0 <= k < |added| && extras[added[k]].name == name;
    assert IsLatest(extras, |extras|, extras[added[k]].name, c[|operator| + k]);
    assert IsLastOf(extras, Last(extras, |extras|, name));
    forall i, j | |operator| <= i < j < |c| ensures c[i].name != c[j].name {
      assert IsLatest(extras, |extras|, extras[added[i - |operator|]].name, c[|operator| + (i - |operator|)]);
      assert IsLatest(extras, |extras|, extras[added[j - |operator|]].name, c[|operator| + (j - |operator|)]);
    }
  }

  /** And at the operator's own indices: the last extra at the first entry of a name, everything else unchanged. */
  lemma OverriddenByGetEnv(operator: seq<EnvVar>, extras: seq<EnvVar>, c: seq<EnvVar>, i: nat)
    requires IsEnv(operator, extras, |extras|, c) && i < |operator|
    ensures IsFirstOf(operator, i) && Mentioned(extras, operator[i].name) ==>
      exists j: nat :: IsLastOf(extras, j) && extras[j].name == operator[i].name && c[i] == extras[j]
    ensures !(IsFirstOf(operator, i) && Mentioned(extras, operator[i].name)) ==> c[i] == operator[i]
  {
    var last := Last(extras, |extras|, operator[i].name);
    if last >= 0 {
      assert IsLastOf(extras, last);
    }
  }
}
