/**
  Change detection against apply in internal/k8s/utils.go: DetectObjectChange decides whether an
  object must be applied, EnsureObjectWithHash applies it and decides again on its own. The kinds
  are those whose hash covers only the spec or the data (extractRelevantData).
*/
module ChangeDetection {
  import opened Wrappers
  import opened Sorting

  datatype Kind = Deployment | Job | OtherKind(name: string)

  type Content = string                          // the marshalled spec or data
  type Annotations = map<string, string>

  /** An md5 sum in hexadecimal notation. */
  type Digest = s: string | |s| == 32 witness seq(32, _ => '0')

  /** `succeeded` is Status.Succeeded of a Job. */
  datatype Object = Object(
    kind: Kind,
    content: Content,
    labels: map<string, string>,
    annotations: Annotations,
    succeeded: int)

  const LAST_CONFIG_HASH := "shopware.com/last-config-hash"
  const REVISION := "deployment.kubernetes.io/revision"

  /** Why an object must be applied. */
  datatype Change =
    | Unchanged
    | NotFound
    | HashMissing
    | HashChanged
    | MetadataChanged(keys: seq<string>)

  // ---------------------------------------------------------------- differences of maps

  predicate DiffersAt(was: map<string, string>, now: map<string, string>, k: string) {
    (k in now && (k !in was || was[k] != now[k])) || (k in was && k !in now)
  }

  ghost function DiffSet(was: map<string, string>, now: map<string, string>): set<string> {
    set k | k in was.Keys + now.Keys && DiffersAt(was, now, k)
  }

  lemma NoDiffMeansEqual(was: map<string, string>, now: map<string, string>)
    ensures DiffSet(was, now) == {} <==> was == now
  {
    if DiffSet(was, now) == {} {
      forall k | k in was.Keys + now.Keys ensures k in was && k in now && was[k] == now[k] {
        assert k !in DiffSet(was, now);
      }
      assert was.Keys == now.Keys;
    }
  }

  function Labelled(prefix: string, k: string): string {
    prefix + ":" + k
  }

  lemma LabelledInjective(prefix: string, j: string, k: string)
    requires Labelled(prefix, j) == Labelled(prefix, k)
    ensures j == k
  {
    assert Labelled(prefix, j)[|prefix| + 1..] == j;
    assert Labelled(prefix, k)[|prefix| + 1..] == k;
  }

  ghost predicate Names(key: string, prefix: string, diff: set<string>) {
    exists k :: k in diff && key == Labelled(prefix, k)
  }

  /** Each differing key is reported once, and nothing else. */
  ghost predicate Reports(keys: seq<string>, prefix: string, diff: set<string>) {
    && (forall k :: k in diff ==> Labelled(prefix, k) in keys)
    && (forall i :: 0 <= i < |keys| ==> Names(keys[i], prefix, diff))
    && (forall key :: multiset(keys)[key] <= 1)
  }

  lemma ReportsOneMore(keys: seq<string>, prefix: string, diff: set<string>, k: string)
    requires Reports(keys, prefix, diff) && k !in diff
    ensures Reports(keys + [Labelled(prefix, k)], prefix, diff + {k})
  {
    var added, more := Labelled(prefix, k), keys + [Labelled(prefix, k)];
    if added in keys {
      var i :| 0 <= i < |keys| && keys[i] == added;
      assert Names(keys[i], prefix, diff);
      var j :| j in diff && keys[i] == Labelled(prefix, j);
      LabelledInjective(prefix, j, k);
    }
    assert multiset(more) == multiset(keys) + multiset{added};
    forall i | 0 <= i < |more| ensures Names(more[i], prefix, diff + {k}) {
      if i < |keys| {
        assert Names(keys[i], prefix, diff);
        var j :| j in diff && keys[i] == Labelled(prefix, j);
        assert j in diff + {k} && more[i] == Labelled(prefix, j);
      } else {
        assert k in diff + {k} && more[i] == Labelled(prefix, k);
      }
    }
  }

  lemma ReportsPermuted(keys: seq<string>, sorted: seq<string>, prefix: string, diff: set<string>)
    requires Reports(keys, prefix, diff) && multiset(sorted) == multiset(keys)
    ensures Reports(sorted, prefix, diff)
  {
    forall i | 0 <= i < |sorted| ensures Names(sorted[i], prefix, diff) {
      assert sorted[i] in multiset(keys);
      var j :| 0 <= j < |keys| && keys[j] == sorted[i];
      assert Names(keys[j], prefix, diff);
    }
    forall k | k in diff ensures Labelled(prefix, k) in sorted {
      assert Labelled(prefix, k) in multiset(sorted);
    }
  }

  /** The sorted list of the differing keys. */
  ghost predicate Lists(keys: seq<string>, prefix: string, was: map<string, string>, now: map<string, string>) {
    IsSorted(keys) && Reports(keys, prefix, DiffSet(was, now))
  }

  ghost function DiffIn(keys: set<string>, was: map<string, string>, now: map<string, string>): set<string> {
    set k | k in keys && DiffersAt(was, now, k)
  }

  /** The first loop; Go iterates over maps in no particular order. */
  method NewOrChanged(prefix: string, was: map<string, string>, now: map<string, string>) returns (keys: seq<string>)
    ensures Reports(keys, prefix, DiffIn(now.Keys, was, now))
  {
    keys := [];
    var todo := now.Keys;
    while todo != {}
      invariant todo <= now.Keys
      invariant Reports(keys, prefix, DiffIn(now.Keys - todo, was, now))
      decreases todo
    {
      var k :| k in todo;
      ghost var diff := DiffIn(now.Keys - todo, was, now);
      todo := todo - {k};
      if k !in was || was[k] != now[k] {
        ReportsOneMore(keys, prefix, diff, k);
        keys := keys + [Labelled(prefix, k)];
        assert DiffIn(now.Keys - todo, was, now) == diff + {k};
      } else {
        assert DiffIn(now.Keys - todo, was, now) == diff;
      }
    }
  }

  /** The second loop: what is gone. */
  method Gone(prefix: string, was: map<string, string>, now: map<string, string>, found: seq<string>) returns (keys: seq<string>)
    requires Reports(found, prefix, DiffIn(now.Keys, was, now))
    ensures Reports(keys, prefix, DiffSet(was, now))
  {
    keys := found;
    var todo := was.Keys;
    assert now.Keys + (was.Keys - todo) == now.Keys;
    while todo != {}
      invariant todo <= was.Keys
      invariant Reports(keys, prefix, DiffIn(now.Keys + (was.Keys - todo), was, now))
      decreases todo
    {
      var k :| k in todo;
      ghost var diff := DiffIn(now.Keys + (was.Keys - todo), was, now);
      todo := todo - {k};
      if k !in now {
        ReportsOneMore(keys, prefix, diff, k);
        keys := keys + [Labelled(prefix, k)];
        assert DiffIn(now.Keys + (was.Keys - todo), was, now) == diff + {k};
      } else {
        assert DiffIn(now.Keys + (was.Keys - todo), was, now) == diff;
      }
    }
    assert DiffIn(now.Keys + was.Keys, was, now) == DiffSet(was, now);
  }

  method DiffKeys(prefix: string, was: map<string, string>, now: map<string, string>) returns (keys: seq<string>)
    ensures Lists(keys, prefix, was, now)
  {
    keys := NewOrChanged(prefix, was, now);
    keys := Gone(prefix, was, now, keys);
    ghost var unsorted := keys;
    keys := Sort(keys);
    ReportsPermuted(unsorted, keys, prefix, DiffSet(was, now));
  }

  lemma NothingReported(keys: seq<string>, prefix: string, was: map<string, string>, now: map<string, string>)
    requires Lists(keys, prefix, was, now)
    ensures keys == [] <==> was == now
  {
    NoDiffMeansEqual(was, now);
    if keys != [] {
      assert Names(keys[0], prefix, DiffSet(was, now));
    }
  }

  lemma ReportsSame(a: seq<string>, b: seq<string>, prefix: string, diff: set<string>, i: nat)
    requires Reports(a, prefix, diff) && Reports(b, prefix, diff) && i < |a|
    ensures a[i] in b
  {
    assert Names(a[i], prefix, diff);
  }

  /** The report is determined by the two maps, in spite of the random iteration. */
  lemma ReportIsDetermined(a: seq<string>, b: seq<string>, prefix: string, was: map<string, string>, now: map<string, string>)
    requires Lists(a, prefix, was, now) && Lists(b, prefix, was, now)
    ensures a == b
  {
    var diff := DiffSet(was, now);
    forall key ensures multiset(a)[key] == multiset(b)[key] {
      if key in a {
        var i :| 0 <= i < |a| && a[i] == key;
        ReportsSame(a, b, prefix, diff, i);
      }
      if key in b {
        var j :| 0 <= j < |b| && b[j] == key;
        ReportsSame(b, a, prefix, diff, j);
      }
    }
    assert multiset(a) == multiset(b);
    SortedIsUnique(a, b);
  }

  // ---------------------------------------------------------------- specification

  function Filtered(a: Annotations): Annotations {
    a - {LAST_CONFIG_HASH, REVISION}
  }

  /** Labels and annotations agree, apart from the hash and the ignored annotations. */
  predicate SameMeta(a: Object, b: Object) {
    a.labels == b.labels && Filtered(a.annotations) == Filtered(b.annotations)
  }

  /** The differing labels in order, then the differing annotations in order. */
  ghost predicate ChangedKeys(keys: seq<string>, was: Object, now: Object) {
    exists n :: 0 <= n <= |keys|
      && Lists(keys[..n], "label", was.labels, now.labels)
      && Lists(keys[n..], "annotation", Filtered(was.annotations), Filtered(now.annotations))
  }

  /** The stored object carries a hash, but of other content. */
  predicate OtherHash(stored: Object, desired: Object, hash: Content -> Digest) {
    LAST_CONFIG_HASH in stored.annotations && stored.annotations[LAST_CONFIG_HASH] != hash(desired.content)
  }

  /** The stored object was applied from the same content and metadata. */
  predicate UpToDate(stored: Object, desired: Object, hash: Content -> Digest) {
    && LAST_CONFIG_HASH in stored.annotations
    && stored.annotations[LAST_CONFIG_HASH] == hash(desired.content)
    && SameMeta(stored, desired)
  }

  /** What is sent to the cluster: the hash replaced, and the revision of a live Deployment kept. */
  function Prepared(stored: Option<Object>, desired: Object, hash: Content -> Digest): Object {
    var hashed := (desired.annotations - {LAST_CONFIG_HASH})[LAST_CONFIG_HASH := hash(desired.content)];
    desired.(annotations :=
      if stored.Some? && desired.kind.Deployment? && REVISION in stored.value.annotations
      then hashed[REVISION := stored.value.annotations[REVISION]]
      else hashed)
  }

  /** Jobs are never patched; a desired Job that already counts a success is left alone. */
  predicate SkipsJob(stored: Option<Object>, desired: Object) {
    stored.Some? && desired.kind.Job? && desired.succeeded != 0
  }

  /**
    The decision as EnsureObjectWithHash takes it, on the prepared object; a missing hash annotation
    reads as the empty string.
  */
  predicate SeesDifference(stored: Object, desired: Object, hash: Content -> Digest) {
    || (if LAST_CONFIG_HASH in stored.annotations then stored.annotations[LAST_CONFIG_HASH] else "") != hash(desired.content)
    || !SameMeta(Prepared(Some(stored), desired, hash), stored)
  }

  predicate Writes(stored: Option<Object>, desired: Object, hash: Content -> Digest) {
    (stored.Some? ==> SeesDifference(stored.value, desired, hash)) && !SkipsJob(stored, desired)
  }

  /** Which API calls succeed. A deleted Job may be gone, or still terminating when it is recreated. */
  datatype Api = Api(get: bool, create: bool, patch: bool, delete: bool, jobGone: bool)

  /** The outcome of writing over a stored object. */
  function Replaced(stored: Object, prepared: Object, api: Api): (Option<Object>, bool) {
    if prepared.kind.Job? && prepared.succeeded != 0 then (Some(stored), true)
    else if prepared.kind.Job? then
      if !api.delete then (Some(stored), false)
      else if api.jobGone && api.create then (Some(prepared), true)
      else (if api.jobGone then None else Some(stored), false)
    else (Some(if api.patch then prepared else stored), api.patch)
  }

  /** The stored object after EnsureObjectWithHash, and whether it succeeded. */
  function Ensured(stored: Option<Object>, desired: Object, hash: Content -> Digest, api: Api): (Option<Object>, bool) {
    if !api.get then (stored, false)
    else if !Writes(stored, desired, hash) then (stored, true)
    else
      var prepared := Prepared(stored, desired, hash);
      if stored.None? then (if api.create then Some(prepared) else None, api.create)
      else Replaced(stored.value, prepared, api)
  }

  lemma AnnotationsDiffer()
    ensures REVISION != LAST_CONFIG_HASH
  {
    assert REVISION[0] != LAST_CONFIG_HASH[0];
  }

  /** Preparing an object changes only annotations that the comparison ignores. */
  lemma PreparedSameMeta(stored: Object, desired: Object, hash: Content -> Digest)
    ensures SameMeta(Prepared(Some(stored), desired, hash), stored) <==> SameMeta(stored, desired)
  {
    assert Filtered(Prepared(Some(stored), desired, hash).annotations) == Filtered(desired.annotations);
  }

  /** The two separately written comparisons agree. */
  lemma ComparisonsAgree(stored: Object, desired: Object, hash: Content -> Digest)
    ensures SeesDifference(stored, desired, hash) <==> !UpToDate(stored, desired, hash)
  {
    PreparedSameMeta(stored, desired, hash);
    assert |hash(desired.content)| == 32;
  }

  /** Whether the desired object already carries a hash annotation makes no difference. */
  lemma SameDesired(stored: Object, desired: Object, hash: Content -> Digest)
    ensures var cleaned := desired.(annotations := desired.annotations - {LAST_CONFIG_HASH});
      UpToDate(stored, cleaned, hash) <==> UpToDate(stored, desired, hash)
  {
    assert Filtered(desired.annotations - {LAST_CONFIG_HASH}) == Filtered(desired.annotations);
  }

  function Put<K, V>(m: map<K, V>, k: K, v: Option<V>): map<K, V> {
    if v.Some? then m[k := v.value] else m - {k}
  }

  function Lookup<K, V>(m: map<K, V>, k: K): Option<V> {
    if k in m then Some(m[k]) else None
  }

  // ---------------------------------------------------------------- the two operations

  class Cluster {
    var objects: map<string, Object>

    constructor (initial: map<string, Object>)
      ensures objects == initial
    {
      objects := initial;
    }

    method ChangedMetaKeys(was: Object, now: Object) returns (keys: seq<string>)
      ensures ChangedKeys(keys, was, now)
      ensures keys == [] <==> SameMeta(was, now)
    {
      var labels := DiffKeys("label", was.labels, now.labels);
      var annotations := DiffKeys("annotation", Filtered(was.annotations), Filtered(now.annotations));
      NothingReported(labels, "label", was.labels, now.labels);
      NothingReported(annotations, "annotation", Filtered(was.annotations), Filtered(now.annotations));
      keys := labels + annotations;
      assert keys[..|labels|] == labels && keys[|labels|..] == annotations;
    }

    /** Also removes the hash annotation from the desired object, which the caller passes on. */
    method DetectObjectChange(name: string, desired: Object, hash: Content -> Digest, getSucceeds: bool)
      returns (change: Result<Change>, cleaned: Object)
      ensures cleaned == desired.(annotations := desired.annotations - {LAST_CONFIG_HASH})
      ensures change.Ok? <==> getSucceeds
      ensures change.Ok? ==>
        && (change.value.NotFound? <==> name !in objects)
        && (change.value.Unchanged? <==> name in objects && UpToDate(objects[name], desired, hash))
        && (change.value.HashMissing? <==> name in objects && LAST_CONFIG_HASH !in objects[name].annotations)
        && (change.value.HashChanged? <==> name in objects && OtherHash(objects[name], desired, hash))
        && (change.value.MetadataChanged? <==>
              && name in objects && LAST_CONFIG_HASH in objects[name].annotations
              && !OtherHash(objects[name], desired, hash) && !SameMeta(objects[name], desired))
        && (change.value.MetadataChanged? ==> ChangedKeys(change.value.keys, objects[name], desired))
    {
      cleaned := desired.(annotations := desired.annotations - {LAST_CONFIG_HASH});
      assert Filtered(cleaned.annotations) == Filtered(desired.annotations);
      if !getSucceeds {
        return Err("get"), cleaned;
      }
      if name !in objects {
        return Ok(NotFound), cleaned;
      }
      var was := objects[name];
      if LAST_CONFIG_HASH !in was.annotations {
        return Ok(HashMissing), cleaned;
      }
      if was.annotations[LAST_CONFIG_HASH] != hash(cleaned.content) {
        return Ok(HashChanged), cleaned;
      }
      var keys := ChangedMetaKeys(was, cleaned);
      change := if |keys| == 0 then Ok(Unchanged) else Ok(MetadataChanged(keys));
    }

    /** Sets the hash annotation and, for a live Deployment, carries the ignored annotations over. */
    method Prepare(name: string, desired: Object, hash: Content -> Digest) returns (obj: Object)
      ensures obj == Prepared(Lookup(objects, name), desired, hash)
    {
      obj := desired.(annotations := desired.annotations - {LAST_CONFIG_HASH});
      obj := obj.(annotations := obj.annotations[LAST_CONFIG_HASH := hash(obj.content)]);
      if name in objects && obj.kind.Deployment? && REVISION in objects[name].annotations {
        obj := obj.(annotations := obj.annotations[REVISION := objects[name].annotations[REVISION]]);
      }
    }

    /** The second detector: a missing hash annotation reads as the empty string, which is never a hash. */
    method NeedsWrite(obj: Object, stored: Object, digest: Digest) returns (changed: bool)
      ensures !changed <==>
        LAST_CONFIG_HASH in stored.annotations && stored.annotations[LAST_CONFIG_HASH] == digest && SameMeta(obj, stored)
    {
      var storedHash := if LAST_CONFIG_HASH in stored.annotations then stored.annotations[LAST_CONFIG_HASH] else "";
      var keys := ChangedMetaKeys(obj, stored);
      changed := storedHash != digest || |keys| != 0;
    }

    method EnsureObjectWithHash(name: string, desired: Object, hash: Content -> Digest, api: Api) returns (ok: bool)
      modifies this
      ensures var (stored, succeeded) := Ensured(Lookup(old(objects), name), desired, hash, api);
        ok == succeeded && objects == Put(old(objects), name, stored)
    {
      var obj := Prepare(name, desired, hash);
      if !api.get {
        return false;
      }
      if name !in objects {
        if api.create {
          objects := objects[name := obj];
        }
        return api.create;
      }
      var changed := NeedsWrite(obj, objects[name], hash(desired.content));
      if changed {
        ok := Replace(name, obj, api);
        return;
      }
      return true;
    }

    /** The write itself: delete and create for a Job, a patch for everything else. */
    method Replace(name: string, obj: Object, api: Api) returns (ok: bool)
      requires name in objects
      modifies this
      ensures var (stored, succeeded) := Replaced(old(objects)[name], obj, api);
        ok == succeeded && objects == Put(old(objects), name, stored)
    {
      if obj.kind.Job? {
        if obj.succeeded != 0 {
          return true;
        }
        if !api.delete {
          return false;
        }
        if api.jobGone {
          objects := objects - {name};
        }
        if api.jobGone && api.create {
          objects := objects[name := obj];
          return true;
        }
        return false;
      }
      if api.patch {
        objects := objects[name := obj];
      }
      return api.patch;
    }

    /** The pattern of every Reconcile function: look first, apply only if something changed. */
    method ApplyIfChanged(name: string, desired: Object, hash: Content -> Digest, look: bool, api: Api) returns (ok: bool)
      modifies this
      ensures forall other :: other != name ==> Lookup(objects, other) == Lookup(old(objects), other)
      ensures !look ==> !ok && objects == old(objects)
      ensures name in old(objects) && UpToDate(old(objects)[name], desired, hash) ==> objects == old(objects)
      ensures ok ==> name in objects && (UpToDate(objects[name], desired, hash) || SkipsJob(Lookup(old(objects), name), desired))
    {
      var change, cleaned := DetectObjectChange(name, desired, hash, look);
      if change.Err? {
        return false;
      }
      if change.value.Unchanged? {
        return true;
      }
      assert Prepared(Lookup(objects, name), cleaned, hash) == Prepared(Lookup(objects, name), desired, hash);
      if name in objects {
        SameDesired(objects[name], desired, hash);
      }
      ok := EnsureObjectWithHash(name, cleaned, hash, api);
      if ok && !SkipsJob(Lookup(old(objects), name), desired) {
        ApplyConverges(Lookup(old(objects), name), desired, hash, api);
      }
    }
  }

  // ---------------------------------------------------------------- the two detectors agree

  /** DetectObjectChange reports a change for a stored object and a desired one. */
  predicate Detects(stored: Option<Object>, desired: Object, hash: Content -> Digest) {
    stored.Some? ==> !UpToDate(stored.value, desired, hash)
  }

  /** The two decisions differ exactly on a Job that exists, differs and is handed in as succeeded. */
  lemma DetectorsAgreeExactly(stored: Option<Object>, desired: Object, hash: Content -> Digest)
    ensures (Detects(stored, desired, hash) <==> Writes(stored, desired, hash)) <==>
      !(stored.Some? && desired.kind.Job? && desired.succeeded != 0 && Detects(stored, desired, hash))
  {
    if stored.Some? {
      ComparisonsAgree(stored.value, desired, hash);
    }
  }

  /** Such a job exists: the change is reported again and again, and never written. */
  lemma SucceededJobIsNeverReplaced(hash: Content -> Digest)
    ensures exists stored: Object, desired: Object ::
      Detects(Some(stored), desired, hash)
      && forall api: Api :: api.get ==> Ensured(Some(stored), desired, hash, api) == (Some(stored), true)
  {
    var stored := Object(Job, "", map[], map[], 0);
    var desired := stored.(succeeded := 1);
    assert SkipsJob(Some(stored), desired) && !Writes(Some(stored), desired, hash);
    assert Detects(Some(stored), desired, hash);
  }

  const ALL_SUCCEED := Api(true, true, true, true, true)

  /**
    With every call succeeding, a stored job is left alone exactly if it is up to date or the desired
    job counts a success; whether the stored job has succeeded plays no part.
  */
  lemma JobIsKeptExactly(stored: Object, desired: Object, hash: Content -> Digest)
    requires desired.kind.Job?
    ensures Ensured(Some(stored), desired, hash, ALL_SUCCEED).0 == Some(stored) <==>
      UpToDate(stored, desired, hash) || desired.succeeded != 0
  {
    ComparisonsAgree(stored, desired, hash);
    var prepared := Prepared(Some(stored), desired, hash);
    assert Filtered(prepared.annotations) == Filtered(desired.annotations);
    assert UpToDate(prepared, desired, hash);
  }

  /** In particular a job that has succeeded is replaced by a freshly built one whenever the two differ. */
  lemma SucceededJobIsReplaced(stored: Object, desired: Object, hash: Content -> Digest)
    requires stored.kind.Job? && stored.succeeded > 0 && !UpToDate(stored, desired, hash)
    requires desired.kind.Job? && desired.succeeded == 0
    ensures var (after, ok) := Ensured(Some(stored), desired, hash, ALL_SUCCEED);
      ok && after.Some? && after.value.content == desired.content && after.value.succeeded == 0
  {
    ComparisonsAgree(stored, desired, hash);
  }

  /** After a successful apply a second look reports nothing, and a second apply writes nothing. */
  lemma ApplyConverges(stored: Option<Object>, desired: Object, hash: Content -> Digest, api: Api)
    requires !SkipsJob(stored, desired) && Ensured(stored, desired, hash, api).1
    ensures var after := Ensured(stored, desired, hash, api).0;
      && after.Some? && !Detects(after, desired, hash) && !Writes(after, desired, hash)
      && forall again: Api :: again.get ==> Ensured(after, desired, hash, again) == (after, true)
  {
    var prepared := Prepared(stored, desired, hash);
    assert Filtered(prepared.annotations) == Filtered(desired.annotations);
    assert prepared.annotations[LAST_CONFIG_HASH] == hash(desired.content);
    if stored.Some? {
      ComparisonsAgree(stored.value, desired, hash);
    }
    ComparisonsAgree(Ensured(stored, desired, hash, api).0.value, desired, hash);
  }

  /** Every annotation but the operator's hash and the cluster's revision is that of the other object. */
  predicate SameOtherAnnotations(a: Annotations, b: Annotations) {
    && (forall k :: k in a && k != LAST_CONFIG_HASH && k != REVISION ==> k in b && b[k] == a[k])
    && (forall k :: k in b && k != LAST_CONFIG_HASH && k != REVISION ==> k in a)
  }

  /** What counts as the same metadata, spelled out. */
  lemma SameMetaExactly(a: Object, b: Object)
    ensures SameMeta(a, b) <==> a.labels == b.labels && SameOtherAnnotations(a.annotations, b.annotations)
  {
    if SameMeta(a, b) {
      forall k | k in a.annotations && k != LAST_CONFIG_HASH && k != REVISION ensures k in b.annotations && b.annotations[k] == a.annotations[k] {
        assert k in Filtered(a.annotations);
      }
      forall k | k in b.annotations && k != LAST_CONFIG_HASH && k != REVISION ensures k in a.annotations {
        assert k in Filtered(b.annotations);
      }
    } else if SameOtherAnnotations(a.annotations, b.annotations) {
      assert Filtered(a.annotations) == Filtered(b.annotations);
    }
  }

  /** The revision of a live Deployment; for everything else whatever the desired object says. */
  function KeptRevision(stored: Option<Object>, desired: Object): Option<string> {
    if desired.kind.Deployment? && stored.Some? && REVISION in stored.value.annotations
    then Some(stored.value.annotations[REVISION])
    else Lookup(desired.annotations, REVISION)
  }

  /** The object is the desired one, under the hash of its content. */
  predicate IsDesired(after: Object, desired: Object, revision: Option<string>, hash: Content -> Digest) {
    && after.kind == desired.kind && after.content == desired.content && after.labels == desired.labels
    && after.succeeded == desired.succeeded
    && SameOtherAnnotations(after.annotations, desired.annotations)
    && LAST_CONFIG_HASH in after.annotations && after.annotations[LAST_CONFIG_HASH] == hash(desired.content)
    && Lookup(after.annotations, REVISION) == revision
  }

  /** A successful apply of a change stores the desired object, for every kind: its content as well as its metadata. */
  lemma ApplyStoresDesired(stored: Option<Object>, desired: Object, hash: Content -> Digest, api: Api)
    requires !SkipsJob(stored, desired) && Detects(stored, desired, hash) && Ensured(stored, desired, hash, api).1
    ensures var after := Ensured(stored, desired, hash, api).0;
      after.Some? && IsDesired(after.value, desired, KeptRevision(stored, desired), hash)
  {
    if stored.Some? {
      ComparisonsAgree(stored.value, desired, hash);
    }
    AnnotationsDiffer();
  }

  /** The hash annotation is the hash of the content. */
  predicate IsHonest(stored: Option<Object>, hash: Content -> Digest) {
    stored.Some? ==>
      LAST_CONFIG_HASH in stored.value.annotations && stored.value.annotations[LAST_CONFIG_HASH] == hash(stored.value.content)
  }

  lemma EnsureKeepsHonest(stored: Option<Object>, desired: Object, hash: Content -> Digest, api: Api)
    requires IsHonest(stored, hash)
    ensures IsHonest(Ensured(stored, desired, hash, api).0, hash)
  {
    AnnotationsDiffer();
  }

  /** A failed apply leaves the object as it was, or a Job deleted; it never looks applied when it was not. */
  lemma FailureIsDetectedAgain(stored: Option<Object>, desired: Object, hash: Content -> Digest, api: Api)
    requires api.get && !Ensured(stored, desired, hash, api).1
    ensures var after := Ensured(stored, desired, hash, api).0;
      Detects(after, desired, hash) && (after == stored || (desired.kind.Job? && after.None?))
  {
    if stored.Some? {
      ComparisonsAgree(stored.value, desired, hash);
    }
  }

  /** Call by call: what a failing apply leaves behind. Only a job whose deletion went through can be gone. */
  lemma FailedApplyExactly(stored: Object, desired: Object, hash: Content -> Digest, api: Api)
    requires !UpToDate(stored, desired, hash) && !SkipsJob(Some(stored), desired)
    ensures var (after, ok) := Ensured(Some(stored), desired, hash, api);
      && (ok <==> api.get && if desired.kind.Job? then api.delete && api.jobGone && api.create else api.patch)
      && (!ok ==> after == if desired.kind.Job? && api.get && api.delete && api.jobGone then None else Some(stored))
    ensures var (after, ok) := Ensured(None, desired, hash, api);
      (ok <==> api.get && api.create) && (!ok ==> after.None?)
  {
    ComparisonsAgree(stored, desired, hash);
  }

  /** A change of the revision annotation alone is neither reported nor written. */
  lemma RevisionIsIgnored(stored: Object, desired: Object, hash: Content -> Digest, revision: Option<string>)
    ensures var touched := stored.(annotations := Put(stored.annotations, REVISION, revision));
      && (Detects(Some(touched), desired, hash) <==> Detects(Some(stored), desired, hash))
      && (Writes(Some(touched), desired, hash) <==> Writes(Some(stored), desired, hash))
  {
    var touched := stored.(annotations := Put(stored.annotations, REVISION, revision));
    AnnotationsDiffer();
    assert Filtered(touched.annotations) == Filtered(stored.annotations);
    ComparisonsAgree(touched, desired, hash);
    ComparisonsAgree(stored, desired, hash);
  }

  /** Applying a Deployment never loses or changes the revision the cluster gave it. */
  lemma RevisionIsKept(stored: Object, desired: Object, hash: Content -> Digest, api: Api)
    requires desired.kind.Deployment? && REVISION in stored.annotations
    ensures var after := Ensured(Some(stored), desired, hash, api).0;
      after.Some? && REVISION in after.value.annotations && after.value.annotations[REVISION] == stored.annotations[REVISION]
  {
  }

  // ---------------------------------------------------------------- over every run

  /** The operator applies the object again, or the cluster numbers a new revision of it. */
  datatype Event = Attempt(api: Api) | Renumber(revision: Option<string>)

  function Renumbered(stored: Object, revision: Option<string>): Object {
    stored.(annotations := Put(stored.annotations, REVISION, revision))
  }

  /** The stored object after a run of events. */
  function Survivor(stored: Option<Object>, desired: Object, hash: Content -> Digest, events: seq<Event>): Option<Object> {
    if events == [] then stored
    else
      var before := Survivor(stored, desired, hash, events[..|events| - 1]);
      match events[|events| - 1]
      case Attempt(api) => Ensured(before, desired, hash, api).0
      case Renumber(revision) => if before.None? then None else Some(Renumbered(before.value, revision))
  }

  /** The revision the cluster gave last, `first` if it gave none. */
  function LastRevision(first: Option<string>, events: seq<Event>): Option<string> {
    if events == [] then first
    else match events[|events| - 1]
         case Attempt(_) => LastRevision(first, events[..|events| - 1])
         case Renumber(revision) => revision
  }

  /** An object that is up to date is never written again; the cluster's revision is all that moves. */
  lemma {:induction false} UpToDateForGood(stored: Object, desired: Object, hash: Content -> Digest, events: seq<Event>)
    requires UpToDate(stored, desired, hash)
    ensures var now := Survivor(Some(stored), desired, hash, events);
      && now == Some(Renumbered(stored, LastRevision(Lookup(stored.annotations, REVISION), events)))
      && UpToDate(now.value, desired, hash)
  {
    if events == [] {
      assert Put(stored.annotations, REVISION, Lookup(stored.annotations, REVISION)) == stored.annotations;
    } else {
      var before, e := events[..|events| - 1], events[|events| - 1];
      UpToDateForGood(stored, desired, hash, before);
      var was := Survivor(Some(stored), desired, hash, before).value;
      match e {
        case Attempt(api) => ComparisonsAgree(was, desired, hash);
        case Renumber(revision) =>
          RevisionIsIgnored(was, desired, hash, revision);
          assert Renumbered(was, revision) == Renumbered(stored, revision);
      }
    }
  }

  /**
    Whatever happened before, one successful apply settles the object: after any further events it is
    what that apply left behind, with the revision the cluster gave last.
  */
  lemma OneSuccessSettles(stored: Option<Object>, desired: Object, hash: Content -> Digest, before: seq<Event>, api: Api, events: seq<Event>)
    requires var was := Survivor(stored, desired, hash, before);
      !SkipsJob(was, desired) && Ensured(was, desired, hash, api).1
    ensures var applied := Ensured(Survivor(stored, desired, hash, before), desired, hash, api).0;
      && applied.Some?
      && Survivor(applied, desired, hash, events) ==
           Some(Renumbered(applied.value, LastRevision(Lookup(applied.value.annotations, REVISION), events)))
      && !Detects(Survivor(applied, desired, hash, events), desired, hash)
  {
    var was := Survivor(stored, desired, hash, before);
    ApplyConverges(was, desired, hash, api);
    UpToDateForGood(Ensured(was, desired, hash, api).0.value, desired, hash, events);
  }

  /** The stored object after a run in which the desired object may change from one attempt to the next. */
  function Lived(stored: Option<Object>, hash: Content -> Digest, steps: seq<(Object, Event)>): Option<Object> {
    if steps == [] then stored
    else
      var before, (desired, e) := Lived(stored, hash, steps[..|steps| - 1]), steps[|steps| - 1];
      match e
      case Attempt(api) => Ensured(before, desired, hash, api).0
      case Renumber(revision) => if before.None? then None else Some(Renumbered(before.value, revision))
  }

  /** An object the operator created carries the hash of its own content for good, whatever fails on the way. */
  lemma {:induction false} HashStaysHonest(stored: Option<Object>, hash: Content -> Digest, steps: seq<(Object, Event)>)
    requires IsHonest(stored, hash)
    ensures IsHonest(Lived(stored, hash, steps), hash)
  {
    if steps != [] {
      var rest, last := steps[..|steps| - 1], steps[|steps| - 1];
      HashStaysHonest(stored, hash, rest);
      match last.1 {
        case Attempt(api) => EnsureKeepsHonest(Lived(stored, hash, rest), last.0, hash, api);
        case Renumber(_) => AnnotationsDiffer();
      }
    }
  }

  predicate Injective(hash: Content -> Digest, a: Content, b: Content) {
    hash(a) == hash(b) ==> a == b
  }

  /**
    On every run from creation, "no change" means no difference: with a collision-free hash, an object for
    which nothing is reported has the desired content, labels and annotations.
  */
  lemma NoChangeMeansNoDifference(stored: Option<Object>, hash: Content -> Digest, steps: seq<(Object, Event)>, desired: Object)
    requires IsHonest(stored, hash)
    requires forall a, b :: Injective(hash, a, b)
    ensures var now := Lived(stored, hash, steps);
      !Detects(now, desired, hash) ==>
        && now.Some? && now.value.content == desired.content && now.value.labels == desired.labels
        && SameOtherAnnotations(now.value.annotations, desired.annotations)
  {
    HashStaysHonest(stored, hash, steps);
    var now := Lived(stored, hash, steps);
    if !Detects(now, desired, hash) {
      assert Injective(hash, now.value.content, desired.content);
      SameMetaExactly(now.value, desired);
    }
  }
}
