/**
  The trigger recorder of internal/trigger/recorder.go: three maps under a mutex that explain, per
  object, why a reconcile runs. Each method is one critical section, so the recorder is specified
  over the history of its completed calls.
*/
module TriggerRecorder {
  import opened Wrappers
  import opened Sequences

  const MAX_PENDING_PER_KEY: nat := 20

  datatype Key = Key(namespace: string, name: string)

  datatype Change = Text(text: string) | RequeueAfter(duration: int)

  /** `at` is 0 for a trigger that carries no time yet. */
  datatype Trigger = Trigger(source: string, event: string, name: string, reason: string, changes: seq<Change>, at: int)

  datatype Requeue = Requeue(reason: string, after: int, at: int)

  /** A completed call; Finished carries the requeue it left behind. */
  datatype Call =
    | Added(key: Key, trigger: Trigger)
    | Drained(key: Key)
    | Forgotten(key: Key)
    | Finished(key: Key, requeue: Option<Requeue>)

  // ---------------------------------------------------------------- unbounded specification

  predicate Resets(c: Call, key: Key) {
    c.key == key && (c.Drained? || c.Forgotten?)
  }

  /** Everything added for the key since its last Drain or Forget. */
  function PendingSince(history: seq<Call>, key: Key): seq<Trigger> {
    if history == [] then []
    else
      var before, c := history[..|history| - 1], history[|history| - 1];
      if Resets(c, key) then []
      else if c.Added? && c.key == key then PendingSince(before, key) + [c.trigger]
      else PendingSince(before, key)
  }

  /** The requeue left by the latest Finish, unless it was drained, forgotten or replaced. */
  function Scheduled(history: seq<Call>, key: Key): Option<Requeue> {
    if history == [] then None
    else
      var before, c := history[..|history| - 1], history[|history| - 1];
      if Resets(c, key) then None
      else if c.Finished? && c.key == key then c.requeue
      else Scheduled(before, key)
  }

  /** The key was drained since it was created or forgotten. */
  predicate SeenBefore(history: seq<Call>, key: Key) {
    history != [] &&
      var before, c := history[..|history| - 1], history[|history| - 1];
      if Resets(c, key) then c.Drained? else SeenBefore(before, key)
  }

  function RequeueTrigger(key: Key, r: Requeue): Trigger {
    Trigger("Requeue", "requeue", key.name, r.reason, [RequeueAfter(r.after)], r.at + r.after)
  }

  function StartupTrigger(key: Key, now: int): Trigger {
    Trigger("Controller", "startup", key.name, "first reconcile since operator start", [], now)
  }

  function ResyncTrigger(key: Key, now: int): Trigger {
    Trigger("Controller", "resync", key.name, "no watch event and no requeue scheduled, periodic cache resync", [], now)
  }

  /** What Drain answers, from the history alone. */
  function Cause(history: seq<Call>, key: Key, now: int): seq<Trigger> {
    if PendingSince(history, key) != [] then LastN(PendingSince(history, key), MAX_PENDING_PER_KEY)
    else if Scheduled(history, key).Some? then [RequeueTrigger(key, Scheduled(history, key).value)]
    else if !SeenBefore(history, key) then [StartupTrigger(key, now)]
    else [ResyncTrigger(key, now)]
  }

  lemma OneMoreAdd(history: seq<Call>, key: Key, t: Trigger, k: Key)
    ensures var after := history + [Added(key, t)];
      && PendingSince(after, k) == PendingSince(history, k) + (if k == key then [t] else [])
      && Scheduled(after, k) == Scheduled(history, k)
      && SeenBefore(after, k) == SeenBefore(history, k)
  {
    var after := history + [Added(key, t)];
    assert after[..|after| - 1] == history;
  }

  // ---------------------------------------------------------------- the recorder

  class Recorder {
    var pending: map<Key, seq<Trigger>>
    var requeues: map<Key, Requeue>
    var seen: set<Key>
    ghost var history: seq<Call>

    ghost predicate Valid()
      reads this
    {
      forall key: Key :: KeyInv(key)
    }

    /** The entries of one key are exactly what the history of that key calls for. */
    ghost predicate KeyInv(key: Key)
      reads this
    {
      && (key in pending <==> PendingSince(history, key) != [])
      && (key in pending ==> pending[key] == LastN(PendingSince(history, key), MAX_PENDING_PER_KEY))
      && (key in requeues <==> Scheduled(history, key).Some?)
      && (key in requeues ==> requeues[key] == Scheduled(history, key).value)
      && (key in seen <==> SeenBefore(history, key))
    }

    constructor ()
      ensures Valid() && history == []
    {
      pending, requeues, seen, history := map[], map[], {}, [];
    }

    method Add(key: Key, t: Trigger, now: int)
      requires Valid()
      modifies this
      ensures Valid()
      ensures history == old(history) + [Added(key, if t.at == 0 then t.(at := now) else t)]
    {
      var stamped := if t.at == 0 then t.(at := now) else t;
      var triggers := (if key in pending then pending[key] else []) + [stamped];
      LastNAppend(PendingSince(history, key), stamped, MAX_PENDING_PER_KEY);
      assert KeyInv(key);
      if |triggers| > MAX_PENDING_PER_KEY {
        triggers := triggers[|triggers| - MAX_PENDING_PER_KEY..];
      }
      pending := pending[key := triggers];
      history := history + [Added(key, stamped)];
      forall k: Key ensures KeyInv(k) {
        assert old(KeyInv(k));
        OneMoreAdd(old(history), key, stamped, k);
      }
    }

    method Drain(key: Key, now: int) returns (triggers: seq<Trigger>)
      requires Valid()
      modifies this
      ensures Valid() && history == old(history) + [Drained(key)]
      ensures triggers == Cause(old(history), key, now)
    {
      assert KeyInv(key);
      var waiting := if key in pending then pending[key] else [];
      pending := pending - {key};
      var scheduled := key in requeues;
      var requeue := if scheduled then requeues[key] else Requeue("", 0, 0);
      requeues := requeues - {key};
      var wasSeen := key in seen;
      seen := seen + {key};
      history := history + [Drained(key)];
      assert history[..|history| - 1] == old(history);
      forall k: Key ensures KeyInv(k) {
        assert old(KeyInv(k));
      }
      if |waiting| != 0 {
        return waiting;
      }
      if scheduled {
        triggers := [RequeueTrigger(key, requeue)];
      } else if !wasSeen {
        triggers := [StartupTrigger(key, now)];
      } else {
        triggers := [ResyncTrigger(key, now)];
      }
    }

    method Forget(key: Key)
      requires Valid()
      modifies this
      ensures Valid() && history == old(history) + [Forgotten(key)]
    {
      pending := pending - {key};
      requeues := requeues - {key};
      seen := seen - {key};
      history := history + [Forgotten(key)];
      assert history[..|history| - 1] == old(history);
      forall k: Key ensures KeyInv(k) {
        assert old(KeyInv(k));
      }
    }

    method Finish(key: Key, reason: string, requeueAfter: int, failed: bool, now: int)
      requires Valid()
      modifies this
      ensures Valid()
      ensures history == old(history) + [Finished(key,
        if failed then Some(Requeue("previous reconcile returned an error, rate limited retry", 0, now))
        else if requeueAfter > 0 then Some(Requeue(reason, requeueAfter, now))
        else None)]
    {
      var left: Option<Requeue>;
      if failed {
        left := Some(Requeue("previous reconcile returned an error, rate limited retry", 0, now));
        requeues := requeues[key := left.value];
      } else if requeueAfter > 0 {
        left := Some(Requeue(reason, requeueAfter, now));
        requeues := requeues[key := left.value];
      } else {
        left := None;
        requeues := requeues - {key};
      }
      history := history + [Finished(key, left)];
      assert history[..|history| - 1] == old(history);
      forall k: Key ensures KeyInv(k) {
        assert old(KeyInv(k));
      }
    }
  }

  // ---------------------------------------------------------------- properties of the specification

  function CallsOf(history: seq<Call>, key: Key): seq<Call> {
    if history == [] then []
    else CallsOf(history[..|history| - 1], key) + if history[|history| - 1].key == key then [history[|history| - 1]] else []
  }

  /** Keys never interfere: the calls on other keys can be erased from the history. */
  lemma {:induction false} KeysAreIndependent(history: seq<Call>, key: Key, now: int)
    ensures PendingSince(CallsOf(history, key), key) == PendingSince(history, key)
    ensures Scheduled(CallsOf(history, key), key) == Scheduled(history, key)
    ensures SeenBefore(CallsOf(history, key), key) == SeenBefore(history, key)
    ensures Cause(CallsOf(history, key), key, now) == Cause(history, key, now)
  {
    if history != [] {
      var before, c := history[..|history| - 1], history[|history| - 1];
      KeysAreIndependent(before, key, now);
      if c.key == key {
        var own := CallsOf(before, key) + [c];
        assert own[..|own| - 1] == CallsOf(before, key);
      } else {
        assert CallsOf(history, key) == CallsOf(before, key);
      }
    }
  }

  function AddsOf(history: seq<Call>, key: Key): seq<Trigger> {
    if history == [] then []
    else
      AddsOf(history[..|history| - 1], key)
      + if history[|history| - 1].Added? && history[|history| - 1].key == key then [history[|history| - 1].trigger] else []
  }

  predicate NoReset(calls: seq<Call>, key: Key) {
    forall i :: 0 <= i < |calls| ==> !Resets(calls[i], key)
  }

  /** Everything but a reset leaves pending what was pending, and adds to it what was added. */
  lemma {:induction false} AddsPileUp(history: seq<Call>, more: seq<Call>, key: Key)
    requires NoReset(more, key)
    ensures PendingSince(history + more, key) == PendingSince(history, key) + AddsOf(more, key)
    ensures SeenBefore(history + more, key) == SeenBefore(history, key)
  {
    if more == [] {
      assert history + more == history;
    } else {
      var before := more[..|more| - 1];
      var all := history + more;
      assert all[..|all| - 1] == history + before;
      AddsPileUp(history, before, key);
    }
  }

  /** The requeue of the last Finish among the calls, if there is one. */
  function LastFinish(calls: seq<Call>, key: Key): Option<Option<Requeue>> {
    if calls == [] then None
    else
      var c := calls[|calls| - 1];
      if c.Finished? && c.key == key then Some(c.requeue) else LastFinish(calls[..|calls| - 1], key)
  }

  lemma {:induction false} LastFinishSchedules(history: seq<Call>, more: seq<Call>, key: Key)
    requires NoReset(more, key)
    ensures Scheduled(history + more, key) ==
      if LastFinish(more, key).Some? then LastFinish(more, key).value else Scheduled(history, key)
  {
    if more == [] {
      assert history + more == history;
    } else {
      var before := more[..|more| - 1];
      var all := history + more;
      assert all[..|all| - 1] == history + before;
      LastFinishSchedules(history, before, key);
    }
  }

  /** The trigger for a requeue that has come due: due its delay after it was scheduled. */
  predicate IsRequeue(t: Trigger, key: Key, r: Requeue) {
    && t.source == "Requeue" && t.event == "requeue" && t.name == key.name && t.reason == r.reason
    && t.changes == [RequeueAfter(r.after)] && t.at == r.at + r.after
  }

  /** A trigger of the controller itself, at the time of the Drain. */
  predicate IsControllers(t: Trigger, key: Key, event: string, now: int) {
    t.source == "Controller" && t.event == event && t.name == key.name && t.changes == [] && t.at == now
  }

  /**
    What Drain returns, counted from the last Drain or Forget of the key: the last twenty events added
    since; without one, the requeue of the latest Finish since; without that, startup if the key was
    forgotten and resync if it was drained.
  */
  lemma DrainReturnsLatestEvents(history: seq<Call>, reset: Call, more: seq<Call>, key: Key, now: int)
    requires Resets(reset, key) && NoReset(more, key)
    ensures var adds, finish := AddsOf(more, key), LastFinish(more, key);
      var cause := Cause(history + [reset] + more, key, now);
      if adds != [] then cause == LastN(adds, 20)
      else if finish.Some? && finish.value.Some? then |cause| == 1 && IsRequeue(cause[0], key, finish.value.value)
      else if reset.Forgotten? then |cause| == 1 && IsControllers(cause[0], key, "startup", now)
      else |cause| == 1 && IsControllers(cause[0], key, "resync", now)
  {
    var base := history + [reset];
    assert base[..|base| - 1] == history;
    AddsPileUp(base, more, key);
    LastFinishSchedules(base, more, key);
  }

  /** The same from the creation of the recorder on, before any Drain or Forget of the key. */
  lemma FirstDrainReturnsLatestEvents(calls: seq<Call>, key: Key, now: int)
    requires NoReset(calls, key)
    ensures var adds, finish := AddsOf(calls, key), LastFinish(calls, key);
      var cause := Cause(calls, key, now);
      if adds != [] then cause == LastN(adds, 20)
      else if finish.Some? && finish.value.Some? then |cause| == 1 && IsRequeue(cause[0], key, finish.value.value)
      else |cause| == 1 && IsControllers(cause[0], key, "startup", now)
  {
    assert [] + calls == calls;
    AddsPileUp([], calls, key);
    LastFinishSchedules([], calls, key);
  }

  /**
    A reconcile of a missing object (Drain, Forget, Finish without requeue), with any calls before the
    Forget and any but another reset of the key after it, leaves no entry for its key except events
    that arrived after the Forget.
  */
  lemma NotFoundLeavesNothing(history: seq<Call>, key: Key, early: seq<Call>, late: seq<Call>)
    requires NoReset(late, key)
    ensures var h := history + [Drained(key)] + early + [Forgotten(key)] + late + [Finished(key, None)];
      && PendingSince(h, key) == AddsOf(late, key)
      && Scheduled(h, key).None?
      && !SeenBefore(h, key)
  {
    var forgot := history + [Drained(key)] + early + [Forgotten(key)];
    assert forgot[|forgot| - 1] == Forgotten(key);
    AddsPileUp(forgot, late, key);
    var h := forgot + late + [Finished(key, None)];
    assert h[..|h| - 1] == forgot + late;
    assert PendingSince(forgot, key) == [] && !SeenBefore(forgot, key);
  }
}
