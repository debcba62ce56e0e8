/**
  The queue statistics cache of internal/metrics/queue_handler.go (transports, queueCacheSlot):
  double-checked locking with a time to live, one slot per store, shared by any number of request
  goroutines. Times are readings of one monotonic clock.
*/
module QueueCache {
  import opened Wrappers

  type Store = nat
  type Thread = nat
  type Stats = nat   // a list of transport statistics, opaque to the cache

  datatype Entry = Entry(fetchedAt: int, stats: Stats)

  /** `holder` is the thread that holds fetchMu, `entry` what the atomic pointer refers to. */
  datatype Slot = Slot(holder: Option<Thread>, entry: Option<Entry>)

  datatype Answer =
    | FromCache(entry: Entry, checkedAt: int)
    | Fresh(startedAt: int, stats: Stats)
    | Fallback(stats: Stats)

  /** Program counter of a request; `locked` tells the second look at the cache from the first. */
  datatype Pc =
    | Loading(locked: bool)
    | Loaded(locked: bool, seen: Option<Entry>)
    | Waiting                                      // in fetchMu.Lock
    | Missed                                       // under the lock, about to fetch
    | Fetching(startedAt: int)
    | Fetched(startedAt: int, stats: Stats)
    | Stamped(startedAt: int, entry: Entry)        // the new entry is built, not yet stored
    | Releasing(answer: Answer)                    // the deferred Unlock
    | Answered(answer: Answer)

  /** `reconciled` is the queue state in the Store object the request was served with. */
  datatype Request = Request(store: Store, reconciled: Stats, arrivedAt: int, pc: Pc, fetchFailed: bool)

  /** A successful fetch, recorded when its entry is stored. */
  datatype Fetch = Fetch(store: Store, startedAt: int, entry: Entry)

  datatype State = State(
    ttl: int,
    connected: bool,   // Clientset and RestConfig are configured
    now: int,
    slots: map<Store, Slot>,
    requests: map<Thread, Request>,
    log: seq<Fetch>)

  function Init(ttl: int, connected: bool, now: int): State {
    State(ttl, connected, now, map[], map[], [])
  }

  predicate IsFresh(s: State, e: Entry) {
    s.now - e.fetchedAt < s.ttl
  }

  predicate NothingFresh(s: State, store: Store)
    requires store in s.slots
  {
    s.slots[store].entry.Some? ==> !IsFresh(s, s.slots[store].entry.value)
  }

  // ---------------------------------------------------------------- steps

  datatype Action =
    | Tick(passed: nat)
    | Arrive(t: Thread, store: Store, reconciled: Stats)
    | Load(t: Thread)
    | Check(t: Thread)
    | Lock(t: Thread)
    | StartFetch(t: Thread)
    | FetchSucceeds(t: Thread, stats: Stats)
    | FetchFails(t: Thread)
    | Stamp(t: Thread)
    | Publish(t: Thread)
    | Release(t: Thread)

  predicate At(s: State, t: Thread) {
    t in s.requests && s.requests[t].store in s.slots
  }

  predicate Enabled(s: State, a: Action) {
    match a
    case Tick(_) => true
    case Arrive(t, _, _) => t !in s.requests
    case Load(t) => At(s, t) && s.requests[t].pc.Loading?
    case Check(t) => At(s, t) && s.requests[t].pc.Loaded?
    case Lock(t) => At(s, t) && s.requests[t].pc.Waiting? && s.slots[s.requests[t].store].holder.None?
    case StartFetch(t) => At(s, t) && s.requests[t].pc.Missed?
    case FetchSucceeds(t, _) => At(s, t) && s.requests[t].pc.Fetching?
    case FetchFails(t) => At(s, t) && s.requests[t].pc.Fetching?
    case Stamp(t) => At(s, t) && s.requests[t].pc.Fetched?
    case Publish(t) => At(s, t) && s.requests[t].pc.Stamped?
    case Release(t) => At(s, t) && s.requests[t].pc.Releasing?
  }

  function Move(s: State, t: Thread, pc: Pc): State
    requires t in s.requests
  {
    s.(requests := s.requests[t := s.requests[t].(pc := pc)])
  }

  function Next(s: State, a: Action): State
    requires Enabled(s, a)
  {
    match a
    case Tick(passed) => s.(now := s.now + passed)
    case Arrive(t, store, reconciled) =>
      if !s.connected then
        s.(requests := s.requests[t := Request(store, reconciled, s.now, Answered(Fallback(reconciled)), false)])
      else
        s.(requests := s.requests[t := Request(store, reconciled, s.now, Loading(false), false)],
           slots := if store in s.slots then s.slots else s.slots[store := Slot(None, None)])
    case Load(t) =>
      var r := s.requests[t];
      Move(s, t, Loaded(r.pc.locked, s.slots[r.store].entry))
    case Check(t) =>
      var pc := s.requests[t].pc;
      if pc.seen.Some? && IsFresh(s, pc.seen.value) then
        var answer := FromCache(pc.seen.value, s.now);
        Move(s, t, if pc.locked then Releasing(answer) else Answered(answer))
      else
        Move(s, t, if pc.locked then Missed else Waiting)
    case Lock(t) =>
      var store := s.requests[t].store;
      Move(s, t, Loading(true)).(slots := s.slots[store := s.slots[store].(holder := Some(t))])
    case StartFetch(t) => Move(s, t, Fetching(s.now))
    case FetchSucceeds(t, stats) => Move(s, t, Fetched(s.requests[t].pc.startedAt, stats))
    case FetchFails(t) =>
      var r := s.requests[t];
      s.(requests := s.requests[t := r.(pc := Releasing(Fallback(r.reconciled)), fetchFailed := true)])
    case Stamp(t) =>
      var pc := s.requests[t].pc;
      Move(s, t, Stamped(pc.startedAt, Entry(s.now, pc.stats)))
    case Publish(t) =>
      var r := s.requests[t];
      Move(s, t, Releasing(Fresh(r.pc.startedAt, r.pc.entry.stats))).(
        slots := s.slots[r.store := s.slots[r.store].(entry := Some(r.pc.entry))],
        log := s.log + [Fetch(r.store, r.pc.startedAt, r.pc.entry)])
    case Release(t) =>
      var store := s.requests[t].store;
      Move(s, t, Answered(s.requests[t].pc.answer)).(
        slots := s.slots[store := s.slots[store].(holder := None)])
  }

  ghost predicate IsRun(s: State, acts: seq<Action>)
    decreases |acts|, 0
  {
    acts != [] ==>
      && IsRun(s, acts[..|acts| - 1])
      && Enabled(After(s, acts[..|acts| - 1]), acts[|acts| - 1])
  }

  ghost function After(s: State, acts: seq<Action>): State
    requires IsRun(s, acts)
    decreases |acts|, 1
  {
    if acts == [] then s else Next(After(s, acts[..|acts| - 1]), acts[|acts| - 1])
  }

  // ---------------------------------------------------------------- invariant

  predicate InCriticalSection(pc: Pc) {
    match pc
    case Loading(locked) => locked
    case Loaded(locked, _) => locked
    case Waiting => false
    case Answered(_) => false
    case _ => true
  }

  predicate Stored(s: State, store: Store, e: Entry) {
    exists f :: f in s.log && f.store == store && f.entry == e
  }

  predicate FetchedBy(s: State, store: Store, startedAt: int, stats: Stats) {
    exists f :: f in s.log && f.store == store && f.startedAt == startedAt && f.entry.stats == stats && f.entry.fetchedAt <= s.now
  }

  /**
    The three kinds of answer a request can give: an entry that was young enough at some time while
    the request was being served, the result of a fetch that was made while it was being served, and
    the reconciled state.
  */
  predicate AnswerInv(s: State, r: Request, answer: Answer) {
    match answer
    case FromCache(e, at) => Stored(s, r.store, e) && r.arrivedAt <= at <= s.now && e.fetchedAt <= at < e.fetchedAt + s.ttl
    case Fresh(startedAt, stats) => r.arrivedAt <= startedAt && FetchedBy(s, r.store, startedAt, stats)
    case Fallback(stats) => stats == r.reconciled && (!s.connected || r.fetchFailed)
  }

  /** The entry in the slot was too old when the fetch started, and nobody has replaced it since. */
  predicate Expired(s: State, slot: Slot, startedAt: int) {
    && startedAt <= s.now
    && (slot.entry.Some? ==> startedAt - slot.entry.value.fetchedAt >= s.ttl && slot.entry.value.fetchedAt <= startedAt)
  }

  predicate RequestInv(s: State, t: Thread, r: Request) {
    && r.arrivedAt <= s.now
    && (r.pc.Answered? || r.store in s.slots)
    && (InCriticalSection(r.pc) ==> s.slots[r.store].holder == Some(t))
    && match r.pc
       case Loading(_) => true
       case Loaded(locked, seen) =>
         && (locked ==> seen == s.slots[r.store].entry)
         && (seen.Some? ==> Stored(s, r.store, seen.value) && seen.value.fetchedAt <= s.now)
       case Waiting => true
       case Missed => Expired(s, s.slots[r.store], s.now)
       case Fetching(startedAt) => r.arrivedAt <= startedAt && Expired(s, s.slots[r.store], startedAt)
       case Fetched(startedAt, _) => r.arrivedAt <= startedAt && Expired(s, s.slots[r.store], startedAt)
       case Stamped(startedAt, e) =>
         r.arrivedAt <= startedAt && Expired(s, s.slots[r.store], startedAt) && startedAt <= e.fetchedAt <= s.now
       case Releasing(answer) => AnswerInv(s, r, answer)
       case Answered(answer) => AnswerInv(s, r, answer)
  }

  predicate SlotInv(s: State, store: Store, slot: Slot) {
    && (slot.holder.Some? ==>
          slot.holder.value in s.requests && s.requests[slot.holder.value].store == store
          && InCriticalSection(s.requests[slot.holder.value].pc))
    && (slot.entry.Some? ==> slot.entry.value.fetchedAt <= s.now && Stored(s, store, slot.entry.value))
  }

  /** The slot holds the latest successful fetch of its store. */
  predicate LogInv(s: State, f: Fetch) {
    && f.store in s.slots && s.slots[f.store].entry.Some?
    && f.startedAt <= f.entry.fetchedAt <= s.slots[f.store].entry.value.fetchedAt
  }

  predicate Spaced(s: State) {
    forall i, j :: 0 <= i < j < |s.log| && s.log[i].store == s.log[j].store ==>
      s.log[j].startedAt >= s.log[i].entry.fetchedAt + s.ttl && s.log[j].startedAt >= s.log[i].entry.fetchedAt
  }

  predicate Inv(s: State) {
    && (forall t :: t in s.requests ==> RequestInv(s, t, s.requests[t]))
    && (forall store :: store in s.slots ==> SlotInv(s, store, s.slots[store]))
    && (forall f :: f in s.log ==> LogInv(s, f))
    && Spaced(s)
  }

  lemma AnswersPersist(s: State, s': State, r: Request, answer: Answer)
    requires s'.ttl == s.ttl && s'.connected == s.connected && s.now <= s'.now && forall f :: f in s.log ==> f in s'.log
    requires AnswerInv(s, r, answer)
    ensures AnswerInv(s', r, answer)
  {
  }

  predicate Acts(a: Action, t: Thread) {
    !a.Tick? && a.t == t
  }

  /** Only the lock holder replaces the entry of a slot or releases its lock. */
  lemma SlotIsStable(s: State, a: Action, t: Thread)
    requires Inv(s) && Enabled(s, a) && t in s.requests && !Acts(a, t) && InCriticalSection(s.requests[t].pc)
    ensures var store := s.requests[t].store; store in s.slots && store in Next(s, a).slots && Next(s, a).slots[store] == s.slots[store]
  {
    assert RequestInv(s, t, s.requests[t]);
    if !a.Tick? && a.t in s.requests {
      assert RequestInv(s, a.t, s.requests[a.t]);
    }
  }

  lemma RequestPersists(s: State, s': State, t: Thread, r: Request)
    requires RequestInv(s, t, r)
    requires s'.ttl == s.ttl && s'.connected == s.connected && s.now <= s'.now
    requires forall f :: f in s.log ==> f in s'.log
    requires forall store :: store in s.slots ==> store in s'.slots
    requires InCriticalSection(r.pc) ==> s'.slots[r.store] == s.slots[r.store]
    ensures RequestInv(s', t, r)
  {
    if r.pc.Releasing? || r.pc.Answered? {
      AnswersPersist(s, s', r, r.pc.answer);
    }
  }

  lemma StepKeepsOtherRequest(s: State, a: Action, t: Thread)
    requires Inv(s) && Enabled(s, a) && t in s.requests && !Acts(a, t)
    ensures RequestInv(Next(s, a), t, Next(s, a).requests[t])
  {
    assert RequestInv(s, t, s.requests[t]);
    if InCriticalSection(s.requests[t].pc) {
      SlotIsStable(s, a, t);
    }
    RequestPersists(s, Next(s, a), t, s.requests[t]);
  }

  /** The steps that look at the cache and take the lock. */
  lemma LookupKeepsRequest(s: State, a: Action)
    requires Inv(s) && Enabled(s, a)
    requires a.Load? || a.Check? || a.Lock?
    ensures RequestInv(Next(s, a), a.t, Next(s, a).requests[a.t])
  {
    var r := s.requests[a.t];
    assert RequestInv(s, a.t, r);
    assert SlotInv(s, r.store, s.slots[r.store]);
  }

  /** The steps of a fetch up to its result. */
  lemma FetchKeepsRequest(s: State, a: Action)
    requires Inv(s) && Enabled(s, a)
    requires a.StartFetch? || a.FetchSucceeds? || a.FetchFails? || a.Stamp?
    ensures RequestInv(Next(s, a), a.t, Next(s, a).requests[a.t])
  {
    assert RequestInv(s, a.t, s.requests[a.t]);
  }

  lemma StepKeepsOwnRequest(s: State, a: Action)
    requires Inv(s) && Enabled(s, a) && !a.Tick?
    ensures RequestInv(Next(s, a), a.t, Next(s, a).requests[a.t])
  {
    if a.Load? || a.Check? || a.Lock? {
      LookupKeepsRequest(s, a);
    } else if a.Publish? {
      var r := s.requests[a.t];
      assert RequestInv(s, a.t, r);
      assert Fetch(r.store, r.pc.startedAt, r.pc.entry) in Next(s, a).log;
    } else if a.Release? {
      var r := s.requests[a.t];
      assert RequestInv(s, a.t, r);
      AnswersPersist(s, Next(s, a), r, r.pc.answer);
    } else if !a.Arrive? {
      FetchKeepsRequest(s, a);
    }
  }

  /** A slot that a step leaves alone stays consistent if its holder stays in the critical section. */
  lemma SlotPersists(s: State, s': State, store: Store, slot: Slot)
    requires SlotInv(s, store, slot)
    requires s.now <= s'.now && forall f :: f in s.log ==> f in s'.log
    requires slot.holder.Some? ==>
      && slot.holder.value in s'.requests && s'.requests[slot.holder.value].store == store
      && InCriticalSection(s'.requests[slot.holder.value].pc)
    ensures SlotInv(s', store, slot)
  {
  }

  lemma PublishKeepsSlot(s: State, a: Action, store: Store)
    requires Inv(s) && Enabled(s, a) && a.Publish? && store in s.slots
    ensures SlotInv(Next(s, a), store, Next(s, a).slots[store])
  {
    var s', r := Next(s, a), s.requests[a.t];
    assert RequestInv(s, a.t, r);
    assert SlotInv(s, store, s.slots[store]);
    if store == r.store {
      assert Fetch(r.store, r.pc.startedAt, r.pc.entry) in s'.log;
    } else {
      SlotPersists(s, s', store, s.slots[store]);
    }
  }

  lemma LockingKeepsSlot(s: State, a: Action, store: Store)
    requires Inv(s) && Enabled(s, a) && (a.Lock? || a.Release?) && store in s.slots
    ensures SlotInv(Next(s, a), store, Next(s, a).slots[store])
  {
    var r := s.requests[a.t];
    assert RequestInv(s, a.t, r);
    assert SlotInv(s, store, s.slots[store]);
    if store != r.store {
      SlotPersists(s, Next(s, a), store, s.slots[store]);
    }
  }

  /** All other steps keep a request in its critical section that is in one, and touch no slot. */
  lemma OthersKeepSlot(s: State, a: Action, store: Store)
    requires Inv(s) && Enabled(s, a) && !a.Lock? && !a.Release? && !a.Publish? && store in s.slots
    ensures SlotInv(Next(s, a), store, Next(s, a).slots[store])
  {
    assert SlotInv(s, store, s.slots[store]);
    SlotPersists(s, Next(s, a), store, s.slots[store]);
  }

  lemma StepKeepsSlot(s: State, a: Action, store: Store)
    requires Inv(s) && Enabled(s, a) && store in Next(s, a).slots
    ensures SlotInv(Next(s, a), store, Next(s, a).slots[store])
  {
    if store in s.slots {
      if a.Publish? {
        PublishKeepsSlot(s, a, store);
      } else if a.Lock? || a.Release? {
        LockingKeepsSlot(s, a, store);
      } else {
        OthersKeepSlot(s, a, store);
      }
    }
  }

  lemma PublishKeepsLog(s: State, a: Action)
    requires Inv(s) && Enabled(s, a) && a.Publish?
    ensures Spaced(Next(s, a)) && forall f :: f in Next(s, a).log ==> LogInv(Next(s, a), f)
  {
    var s', r := Next(s, a), s.requests[a.t];
    assert RequestInv(s, a.t, r);
    forall i, j | 0 <= i < j < |s'.log| && s'.log[i].store == s'.log[j].store
      ensures s'.log[j].startedAt >= s'.log[i].entry.fetchedAt + s'.ttl
      ensures s'.log[j].startedAt >= s'.log[i].entry.fetchedAt
    {
      assert s'.log[i] == s.log[i] && s.log[i] in s.log;
      assert LogInv(s, s.log[i]);
    }
  }

  lemma StepKeepsLog(s: State, a: Action)
    requires Inv(s) && Enabled(s, a)
    ensures Spaced(Next(s, a)) && forall f :: f in Next(s, a).log ==> LogInv(Next(s, a), f)
  {
    if a.Publish? {
      PublishKeepsLog(s, a);
    } else {
      forall f | f in s.log ensures LogInv(Next(s, a), f) {
        assert LogInv(s, f);
      }
    }
  }

  lemma {:induction false} RunKeepsInv(ttl: int, connected: bool, now: int, acts: seq<Action>)
    requires IsRun(Init(ttl, connected, now), acts)
    ensures Inv(After(Init(ttl, connected, now), acts))
    ensures After(Init(ttl, connected, now), acts).ttl == ttl
    ensures After(Init(ttl, connected, now), acts).connected == connected
  {
    var init := Init(ttl, connected, now);
    if acts != [] {
      RunKeepsInv(ttl, connected, now, acts[..|acts| - 1]);
      var s, a := After(init, acts[..|acts| - 1]), acts[|acts| - 1];
      forall t | t in Next(s, a).requests ensures RequestInv(Next(s, a), t, Next(s, a).requests[t]) {
        if Acts(a, t) { StepKeepsOwnRequest(s, a); } else { StepKeepsOtherRequest(s, a, t); }
      }
      forall store | store in Next(s, a).slots ensures SlotInv(Next(s, a), store, Next(s, a).slots[store]) {
        StepKeepsSlot(s, a, store);
      }
      StepKeepsLog(s, a);
    }
  }

  // ---------------------------------------------------------------- what a run guarantees

  /** At most one fetch per store is in progress, however many requests are waiting. */
  lemma AtMostOneFetch(ttl: int, connected: bool, now: int, acts: seq<Action>, t: Thread, u: Thread)
    requires IsRun(Init(ttl, connected, now), acts)
    requires var s := After(Init(ttl, connected, now), acts);
      && t in s.requests && s.requests[t].pc.Fetching?
      && u in s.requests && s.requests[u].pc.Fetching?
      && s.requests[t].store == s.requests[u].store
    ensures t == u
  {
    RunKeepsInv(ttl, connected, now, acts);
    var s := After(Init(ttl, connected, now), acts);
    assert RequestInv(s, t, s.requests[t]) && RequestInv(s, u, s.requests[u]);
  }

  /** A fetch starts only when the slot of the store holds no entry younger than the time to live. */
  lemma FetchOnlyWhenStale(ttl: int, connected: bool, now: int, acts: seq<Action>, t: Thread)
    requires IsRun(Init(ttl, connected, now), acts)
    requires Enabled(After(Init(ttl, connected, now), acts), StartFetch(t))
    ensures var s := After(Init(ttl, connected, now), acts); connected && NothingFresh(s, s.requests[t].store)
  {
    RunKeepsInv(ttl, connected, now, acts);
    var s := After(Init(ttl, connected, now), acts);
    assert RequestInv(s, t, s.requests[t]);
    NotConnected(ttl, now, acts, connected);
  }

  /** Without a connection every request is answered from the reconciled state, without a slot. */
  lemma {:induction false} NotConnected(ttl: int, now: int, acts: seq<Action>, connected: bool)
    requires IsRun(Init(ttl, connected, now), acts)
    ensures !connected ==> After(Init(ttl, connected, now), acts).slots == map[]
  {
    if acts != [] {
      NotConnected(ttl, now, acts[..|acts| - 1], connected);
      RunKeepsInv(ttl, connected, now, acts[..|acts| - 1]);
    }
  }

  /**
    Every answer is an entry of this store that existed and was younger than the time to live at a time
    between the arrival of the request and now, the result of a fetch of this store that started after
    the arrival, or the reconciled state of a request whose own fetch failed.
  */
  lemma AnswersAreSound(ttl: int, connected: bool, now: int, acts: seq<Action>, t: Thread)
    requires IsRun(Init(ttl, connected, now), acts)
    requires var s := After(Init(ttl, connected, now), acts); t in s.requests && s.requests[t].pc.Answered?
    ensures var s := After(Init(ttl, connected, now), acts);
      AnswerInv(s, s.requests[t], s.requests[t].pc.answer)
  {
    RunKeepsInv(ttl, connected, now, acts);
    var s := After(Init(ttl, connected, now), acts);
    assert RequestInv(s, t, s.requests[t]);
  }

  // ---------------------------------------------------------------- what is stored was fetched

  /** After `prefix`, action `a` is the end of a fetch for the store, with these statistics, no later than `fetchedAt`. */
  ghost predicate EndsFetch(init: State, prefix: seq<Action>, a: Action, store: Store, startedAt: int, stats: Stats, fetchedAt: int) {
    && a.FetchSucceeds? && a.stats == stats
    && IsRun(init, prefix)
    && var s := After(init, prefix);
       && a.t in s.requests && s.requests[a.t].store == store
       && s.requests[a.t].pc == Fetching(startedAt) && s.now <= fetchedAt
  }

  ghost predicate WasFetched(init: State, acts: seq<Action>, store: Store, startedAt: int, stats: Stats, fetchedAt: int) {
    exists k :: 0 <= k < |acts| && EndsFetch(init, acts[..k], acts[k], store, startedAt, stats, fetchedAt)
  }

  /** What a request holds between the end of its fetch and the store into the slot. */
  ghost predicate HoldsFetched(init: State, acts: seq<Action>, now: int, r: Request) {
    && (r.pc.Fetched? ==> WasFetched(init, acts, r.store, r.pc.startedAt, r.pc.stats, now))
    && (r.pc.Stamped? ==> WasFetched(init, acts, r.store, r.pc.startedAt, r.pc.entry.stats, r.pc.entry.fetchedAt))
  }

  ghost predicate FetchedInv(init: State, acts: seq<Action>)
    requires IsRun(init, acts)
  {
    var s := After(init, acts);
    && (forall t :: t in s.requests ==> HoldsFetched(init, acts, s.now, s.requests[t]))
    && (forall f :: f in s.log ==> WasFetched(init, acts, f.store, f.startedAt, f.entry.stats, f.entry.fetchedAt))
  }

  lemma LaterIsFine(init: State, prefix: seq<Action>, a: Action, store: Store, startedAt: int, stats: Stats, fetchedAt: int, later: int)
    requires EndsFetch(init, prefix, a, store, startedAt, stats, fetchedAt) && fetchedAt <= later
    ensures EndsFetch(init, prefix, a, store, startedAt, stats, later)
  {
  }

  lemma FetchedStays(init: State, before: seq<Action>, a: Action, store: Store, startedAt: int, stats: Stats, fetchedAt: int, later: int)
    requires WasFetched(init, before, store, startedAt, stats, fetchedAt) && fetchedAt <= later
    ensures WasFetched(init, before + [a], store, startedAt, stats, later)
  {
    var acts := before + [a];
    var k :| 0 <= k < |before| && EndsFetch(init, before[..k], before[k], store, startedAt, stats, fetchedAt);
    assert acts[..k] == before[..k] && acts[k] == before[k];
    LaterIsFine(init, acts[..k], acts[k], store, startedAt, stats, fetchedAt, later);
  }

  lemma FetchEnds(init: State, acts: seq<Action>)
    requires IsRun(init, acts) && acts != [] && acts[|acts| - 1].FetchSucceeds?
    ensures var a, s := acts[|acts| - 1], After(init, acts);
      a.t in s.requests && HoldsFetched(init, acts, s.now, s.requests[a.t])
  {
    var before, a := acts[..|acts| - 1], acts[|acts| - 1];
    var s := After(init, before);
    var k := |acts| - 1;
    assert EndsFetch(init, acts[..k], acts[k], s.requests[a.t].store, s.requests[a.t].pc.startedAt, a.stats, s.now);
  }

  /** One step of another kind carries over what a request holds. */
  lemma HeldStays(init: State, before: seq<Action>, a: Action, now: int, q: Request, later: int, r: Request)
    requires HoldsFetched(init, before, now, q) && now <= later
    requires r.store == q.store
    requires r.pc.Fetched? ==> r.pc == q.pc
    requires r.pc.Stamped? ==> r.pc == q.pc || (q.pc.Fetched? && r.pc == Stamped(q.pc.startedAt, Entry(now, q.pc.stats)))
    ensures HoldsFetched(init, before + [a], later, r)
  {
    if r.pc.Fetched? {
      FetchedStays(init, before, a, q.store, q.pc.startedAt, q.pc.stats, now, later);
    } else if r.pc.Stamped? && q.pc.Fetched? {
      FetchedStays(init, before, a, q.store, q.pc.startedAt, q.pc.stats, now, now);
    } else if r.pc.Stamped? {
      FetchedStays(init, before, a, q.store, q.pc.startedAt, q.pc.entry.stats, q.pc.entry.fetchedAt, q.pc.entry.fetchedAt);
    }
  }

  lemma RequestStaysFetched(init: State, acts: seq<Action>, t: Thread)
    requires IsRun(init, acts) && acts != [] && FetchedInv(init, acts[..|acts| - 1])
    requires t in After(init, acts).requests
    ensures HoldsFetched(init, acts, After(init, acts).now, After(init, acts).requests[t])
  {
    var before, a := acts[..|acts| - 1], acts[|acts| - 1];
    var s := After(init, before);
    if a.FetchSucceeds? && a.t == t {
      FetchEnds(init, acts);
    } else if t in s.requests {
      assert acts == before + [a];
      HeldStays(init, before, a, s.now, s.requests[t], Next(s, a).now, Next(s, a).requests[t]);
    }
  }

  lemma LogStaysFetched(init: State, acts: seq<Action>, f: Fetch)
    requires IsRun(init, acts) && acts != [] && FetchedInv(init, acts[..|acts| - 1])
    requires f in After(init, acts).log
    ensures WasFetched(init, acts, f.store, f.startedAt, f.entry.stats, f.entry.fetchedAt)
  {
    var before, a := acts[..|acts| - 1], acts[|acts| - 1];
    var s := After(init, before);
    if f !in s.log {
      assert HoldsFetched(init, before, s.now, s.requests[a.t]);
    }
    assert acts == before + [a];
    FetchedStays(init, before, a, f.store, f.startedAt, f.entry.stats, f.entry.fetchedAt, f.entry.fetchedAt);
  }

  /**
    Every stored entry holds what a fetch for its store returned, and is stamped with a time after the
    end of that fetch.
  */
  lemma {:induction false} EntriesWereFetched(init: State, acts: seq<Action>)
    requires IsRun(init, acts) && init.requests == map[] && init.log == []
    ensures FetchedInv(init, acts)
  {
    if acts != [] {
      EntriesWereFetched(init, acts[..|acts| - 1]);
      forall t | t in After(init, acts).requests ensures HoldsFetched(init, acts, After(init, acts).now, After(init, acts).requests[t]) {
        RequestStaysFetched(init, acts, t);
      }
      forall f | f in After(init, acts).log
        ensures WasFetched(init, acts, f.store, f.startedAt, f.entry.stats, f.entry.fetchedAt)
      {
        LogStaysFetched(init, acts, f);
      }
    }
  }

  // ---------------------------------------------------------------- progress

  /** The step a request takes next, unless it waits for the lock or has its answer. */
  function NextStep(t: Thread, pc: Pc): Action
    requires !pc.Waiting? && !pc.Answered?
  {
    match pc
    case Loading(_) => Load(t)
    case Loaded(_, _) => Check(t)
    case Missed => StartFetch(t)
    case Fetching(_) => FetchFails(t)
    case Fetched(_, _) => Stamp(t)
    case Stamped(_, _) => Publish(t)
    case Releasing(_) => Release(t)
  }

  /** As long as a request has no answer, it or the request it waits for can take a step. */
  lemma RequestGetsOn(ttl: int, connected: bool, now: int, acts: seq<Action>, t: Thread) returns (a: Action)
    requires IsRun(Init(ttl, connected, now), acts)
    requires var s := After(Init(ttl, connected, now), acts); t in s.requests && !s.requests[t].pc.Answered?
    ensures var s := After(Init(ttl, connected, now), acts);
      && Enabled(s, a) && !a.Tick? && !a.Arrive?
      && a.t in s.requests && s.requests[a.t].store == s.requests[t].store
  {
    RunKeepsInv(ttl, connected, now, acts);
    var s := After(Init(ttl, connected, now), acts);
    var r := s.requests[t];
    assert RequestInv(s, t, r);
    if !r.pc.Waiting? {
      a := NextStep(t, r.pc);
    } else if s.slots[r.store].holder.None? {
      a := Lock(t);
    } else {
      var u := s.slots[r.store].holder.value;
      assert SlotInv(s, r.store, s.slots[r.store]);
      a := NextStep(u, s.requests[u].pc);
    }
  }

  /** How many steps a request has before it at most. */
  function StepsLeft(pc: Pc): nat {
    match pc
    case Loading(locked) => if locked then 7 else 10
    case Loaded(locked, _) => if locked then 6 else 9
    case Waiting => 8
    case Missed => 5
    case Fetching(_) => 4
    case Fetched(_, _) => 3
    case Stamped(_, _) => 2
    case Releasing(_) => 1
    case Answered(_) => 0
  }

  function StepsLeftOf(s: State, t: Thread): nat {
    if t in s.requests then StepsLeft(s.requests[t].pc) else 10
  }

  function StepsOf(acts: seq<Action>, t: Thread): nat {
    if acts == [] then 0
    else
      var a := acts[|acts| - 1];
      StepsOf(acts[..|acts| - 1], t) + if Acts(a, t) && !a.Arrive? then 1 else 0
  }

  /** A request answers after at most ten steps of its own, however the requests are interleaved. */
  lemma {:induction false} RequestsAreShort(s: State, acts: seq<Action>, t: Thread)
    requires IsRun(s, acts) && s.requests == map[]
    ensures StepsOf(acts, t) + StepsLeftOf(After(s, acts), t) <= 10
  {
    if acts != [] {
      RequestsAreShort(s, acts[..|acts| - 1], t);
      StepLowers(After(s, acts[..|acts| - 1]), acts[|acts| - 1], t);
    }
  }

  lemma StepLowers(s: State, a: Action, t: Thread)
    requires Enabled(s, a)
    ensures StepsLeftOf(Next(s, a), t) + (if Acts(a, t) && !a.Arrive? then 1 else 0) <= StepsLeftOf(s, t)
  {
  }

  // ---------------------------------------------------------------- how often the admin pod is asked

  function FetchesOf(log: seq<Fetch>, store: Store): seq<Fetch> {
    if log == [] then []
    else FetchesOf(log[..|log| - 1], store) + if log[|log| - 1].store == store then [log[|log| - 1]] else []
  }

  predicate Consecutive(fs: seq<Fetch>, ttl: int) {
    && (forall i :: 0 <= i < |fs| ==> fs[i].startedAt <= fs[i].entry.fetchedAt)
    && (forall i :: 0 < i < |fs| ==> fs[i].startedAt >= fs[i - 1].entry.fetchedAt + ttl)
  }

  lemma {:induction false} FetchesAreConsecutive(s: State, n: nat, store: Store)
    requires Inv(s) && n <= |s.log|
    ensures Consecutive(FetchesOf(s.log[..n], store), s.ttl)
    ensures forall f :: f in FetchesOf(s.log[..n], store) ==>
      exists i :: 0 <= i < n && s.log[i] == f && f.store == store
  {
    if n > 0 {
      assert s.log[..n][..n - 1] == s.log[..n - 1];
      FetchesAreConsecutive(s, n - 1, store);
      assert s.log[n - 1] in s.log;
    }
  }

  lemma {:induction false} SpanOf(fs: seq<Fetch>, ttl: int)
    requires fs != [] && Consecutive(fs, ttl)
    ensures (|fs| - 1) * ttl <= fs[|fs| - 1].entry.fetchedAt - fs[0].entry.fetchedAt
  {
    if |fs| > 1 {
      var before := fs[..|fs| - 1];
      SpanOf(before, ttl);
      assert (|fs| - 1) * ttl == (|before| - 1) * ttl + ttl;
    }
  }

  lemma FetchesAreSpread(s: State, store: Store)
    requires Inv(s)
    ensures Spread(FetchesOf(s.log, store), s.ttl)
  {
    assert s.log[..|s.log|] == s.log;
    FetchesAreConsecutive(s, |s.log|, store);
    var fs := FetchesOf(s.log, store);
    if fs != [] {
      SpanOf(fs, s.ttl);
    }
  }

  /** Each fetch starts a time to live after the one before it, so n of them take n - 1 times as long. */
  predicate Spread(fs: seq<Fetch>, ttl: int) {
    && (forall i :: 0 < i < |fs| ==> fs[i].startedAt >= fs[i - 1].entry.fetchedAt + ttl)
    && (fs != [] ==> (|fs| - 1) * ttl <= fs[|fs| - 1].entry.fetchedAt - fs[0].entry.fetchedAt)
  }

  /**
    Waiters at an expiry share one successful fetch: n successful fetches of a store are spread over
    at least n - 1 times the time to live, whatever the number of requests.
  */
  lemma FetchRateIsBounded(ttl: int, connected: bool, now: int, acts: seq<Action>, store: Store)
    requires IsRun(Init(ttl, connected, now), acts)
    ensures Spread(FetchesOf(After(Init(ttl, connected, now), acts).log, store), ttl)
  {
    RunKeepsInv(ttl, connected, now, acts);
    FetchesAreSpread(After(Init(ttl, connected, now), acts), store);
  }
}
