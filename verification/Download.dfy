/**
  The download pool of internal/util/s3.go (runDownloadWorkers): a lister goroutine feeds the worker
  pool from a listing, the calling goroutine waits for the workers, unblocks the lister if they
  failed, and combines both results. A run is any interleaving of their steps.
*/
module Download {
  import opened Wrappers
  import opened WorkerPool

  /** What the object listing yields before it is closed. */
  datatype Listed = Object | ListFailure(err: Error)

  function ListingError(e: Error): Error {
    Wrapped("error listing objects", e)
  }

  datatype Lister =
    | Listing                                        // at the range over the listing
    | Delivering(item: nat)                          // in the select between cancellation and the channel
    | Sending(report: Option<Error>, cancels: bool)  // about to send on listErrCh
    | CancellingList                                 // the failure is sent, cancel() comes next
    | Closing                                        // the deferred close of the item channel
    | Ended

  datatype Main =
    | Waiting                              // in wg.Wait
    | Joined(verdict: Option<Error>)       // runWorkers has returned
    | Collecting(verdict: Option<Error>)   // about to receive from listErrCh
    | Returned(result: Option<Error>)

  /** `reported` and `sends` record what the lister sent on listErrCh and how often. */
  datatype State = State(
    stream: seq<Listed>,
    pos: nat,
    pool: Pool,
    lister: Lister,
    listErrCh: Option<Option<Error>>,
    main: Main,
    reported: Option<Option<Error>>,
    sends: nat)

  function Init(requested: int, stream: seq<Listed>): State {
    State(stream, 0, NewPool(requested), Listing, None, Waiting, None, 0)
  }

  /** The last lines of runDownloadWorkers. */
  function FinalResult(workerErr: Option<Error>, listErr: Option<Error>): Option<Error> {
    if workerErr.Some? then
      if IsCanceled(workerErr.value) && listErr.Some? && !IsCanceled(listErr.value) then listErr else workerErr
    else if listErr.Some? && !IsCanceled(listErr.value) then listErr
    else None
  }

  // ---------------------------------------------------------------- steps

  datatype Action =
    | WorkerActs(w: nat, act: WorkerAction)
    | ListNext
    | Deliver
    | GiveUp
    | SendReport
    | CancelFromLister
    | CloseItems
    | Join
    | CancelFromMain
    | Collect
    | CallerCancels(err: Error)   // the context of the caller is cancelled or times out

  predicate Enabled(s: State, a: Action) {
    match a
    case WorkerActs(w, act) => WorkerEnabled(s.pool, w, act)
    case ListNext => s.lister.Listing? && s.pos <= |s.stream|
    case Deliver => s.lister.Delivering? && HasRoom(s.pool)
    case GiveUp => s.lister.Delivering? && s.pool.outer.Some?
    case SendReport => s.lister.Sending? && s.listErrCh.None?
    case CancelFromLister => s.lister.CancellingList?
    case CloseItems => s.lister.Closing?
    case Join => s.main.Waiting? && AllExited(s.pool)
    case CancelFromMain => s.main.Joined?
    case Collect => s.main.Collecting? && s.listErrCh.Some?
    case CallerCancels(_) => s.pool.outer.None?
  }

  function Next(s: State, a: Action): State
    requires Enabled(s, a)
  {
    match a
    case WorkerActs(w, act) => s.(pool := WorkerStep(s.pool, w, act))
    case ListNext =>
      if s.pos == |s.stream| then s.(lister := Sending(None, false))
      else
        var read := s.(pos := s.pos + 1);
        (match s.stream[s.pos]
         case Object => read.(lister := Delivering(s.pos))
         case ListFailure(e) => read.(lister := Sending(Some(ListingError(e)), true)))
    case Deliver => s.(pool := Push(s.pool, s.lister.item), lister := Listing)
    case GiveUp => s.(pool := Drop(s.pool, s.lister.item), lister := Sending(s.pool.outer, false))
    case SendReport =>
      s.(listErrCh := Some(s.lister.report), reported := Some(s.lister.report), sends := s.sends + 1,
         lister := if s.lister.cancels then CancellingList else Closing)
    case CancelFromLister => s.(pool := CancelOuter(s.pool, Canceled), lister := Closing)
    case CloseItems => s.(pool := Close(s.pool), lister := Ended)
    case Join => s.(main := Joined(Verdict(s.pool)))
    case CancelFromMain =>
      var pool := if s.main.verdict.Some? then CancelOuter(s.pool, Canceled) else s.pool;
      s.(pool := pool, main := Collecting(s.main.verdict))
    case Collect => s.(listErrCh := None, main := Returned(FinalResult(s.main.verdict, s.listErrCh.value)))
    case CallerCancels(e) => s.(pool := CancelOuter(s.pool, e))
  }

  /** A run from `s`: every action is enabled in the state the earlier ones lead to. */
  ghost predicate IsRun(s: State, acts: seq<Action>)
    decreases |acts|, 0
  {
    acts != [] ==>
      && IsRun(s, acts[..|acts| - 1])
      && Enabled(After(s, acts[..|acts| - 1]), acts[|acts| - 1])
  }

  ghost function After(s: State, acts: seq<Action>): State
    requires IsRun(s, acts)
    decreases |acts|, 1
  {
    if acts == [] then s else Next(After(s, acts[..|acts| - 1]), acts[|acts| - 1])
  }

  // ---------------------------------------------------------------- invariant

  predicate IsObject(s: State, item: nat) {
    item < s.pos && item < |s.stream| && s.stream[item].Object?
  }

  /** Every object read so far is with the lister or in exactly one place of the pool. */
  ghost predicate Conserved(s: State) {
    forall item: nat :: ConservedAt(s, item)
  }

  ghost predicate ConservedAt(s: State, item: nat) {
    Places(s.pool, item) + (if s.lister == Delivering(item) then 1 else 0) == if IsObject(s, item) then 1 else 0
  }

  predicate FromListing(s: State, e: Error) {
    0 < s.pos <= |s.stream| && s.stream[s.pos - 1].ListFailure? && e == ListingError(s.stream[s.pos - 1].err)
  }

  predicate AllObjects(s: State) {
    forall k :: 0 <= k < |s.stream| ==> s.stream[k].Object?
  }

  function Report(s: State): Option<Option<Error>> {
    if s.lister.Sending? then Some(s.lister.report) else s.reported
  }

  predicate ListerInv(s: State) {
    && s.pos <= |s.stream|
    && (forall k :: 0 <= k < s.pos ==> s.stream[k].Object? || (k == s.pos - 1 && Report(s).Some?))
    && (s.lister.Delivering? ==> IsObject(s, s.lister.item))
    && (s.lister.Listing? || s.lister.Delivering? || s.lister.Sending? <==> s.reported.None?)
    && s.sends == (if s.reported.None? then 0 else 1)
    && (s.lister.Sending? && s.lister.cancels ==> s.lister.report.Some?)
    && (s.pool.closed <==> s.lister.Ended?)
    && (Report(s) == Some(None) ==> s.pos == |s.stream| && AllObjects(s) && !s.lister.CancellingList?)
    && (Report(s).Some? && Report(s).value.Some? ==> ReportInv(s, Report(s).value.value))
  }

  /** A reported failure is the cancellation itself, or a listing failure that is about to cancel. */
  predicate ReportInv(s: State, e: Error) {
    || (s.pool.outer.Some? && e == s.pool.outer.value)
    || (FromListing(s, e) && (s.pool.outer.Some? || s.lister.CancellingList? || (s.lister.Sending? && s.lister.cancels)))
  }

  predicate ChannelInv(s: State) {
    && (s.listErrCh.Some? <==> s.reported.Some? && !s.main.Returned?)
    && (s.listErrCh.Some? ==> s.listErrCh == s.reported)
    && (s.main.Returned? ==> s.reported.Some?)
  }

  ghost predicate Complete(s: State) {
    && s.lister.Ended? && s.reported == Some(None)
    && forall item: nat :: Places(s.pool, item) == s.pool.succeeded[item]
  }

  ghost predicate MainInv(s: State) {
    match s.main
    case Waiting => true
    case Joined(v) => AllExited(s.pool) && (v.None? ==> Complete(s))
    case Collecting(v) => AllExited(s.pool) && (v.None? ==> Complete(s)) && (v.Some? ==> s.pool.outer.Some?)
    case Returned(r) => AllExited(s.pool) && (r.None? ==> Complete(s))
  }

  ghost predicate Inv(s: State) {
    && PoolInv(s.pool) && Conserved(s) && ListerInv(s) && ChannelInv(s) && MainInv(s)
  }

  lemma InitInv(requested: int, stream: seq<Listed>)
    ensures Inv(Init(requested, stream))
    ensures HonestInv(Init(requested, stream).pool)
  {
    forall item: nat ensures ConservedAt(Init(requested, stream), item) {
      NewPoolPlaces(requested, item);
    }
  }

  lemma StepKeepsPoolInv(s: State, a: Action)
    requires Inv(s) && Enabled(s, a)
    ensures PoolInv(Next(s, a).pool)
  {
    match a
    case WorkerActs(w, act) => WorkerStepKeepsInv(s.pool, w, act);
    case Deliver => ProducerStepsKeepInv(s.pool, s.lister.item);
    case GiveUp => ProducerStepsKeepInv(s.pool, s.lister.item);
    case CloseItems => ProducerStepsKeepInv(s.pool, 0);
    case CancelFromLister => CancelOuterKeepsInv(s.pool, Canceled);
    case CancelFromMain => CancelOuterKeepsInv(s.pool, Canceled);
    case CallerCancels(e) => CancelOuterKeepsInv(s.pool, e);
    case _ =>
  }

  lemma WorkerConserves(s: State, w: nat, act: WorkerAction, item: nat)
    requires ConservedAt(s, item) && Enabled(s, WorkerActs(w, act))
    ensures ConservedAt(Next(s, WorkerActs(w, act)), item)
  {
    WorkerStepConserves(s.pool, w, act, item);
  }

  lemma ListerConserves(s: State, a: Action, item: nat)
    requires ConservedAt(s, item) && ListerInv(s) && Enabled(s, a) && (a.ListNext? || a.Deliver? || a.GiveUp?)
    ensures ConservedAt(Next(s, a), item)
  {
    if a.Deliver? {
      PushPlaces(s.pool, s.lister.item, item);
    }
  }

  lemma OthersConserve(s: State, a: Action, item: nat)
    requires ConservedAt(s, item) && Enabled(s, a)
    requires !a.WorkerActs? && !a.ListNext? && !a.Deliver? && !a.GiveUp?
    ensures ConservedAt(Next(s, a), item)
  {
  }

  lemma StepConserves(s: State, a: Action)
    requires Conserved(s) && ListerInv(s) && Enabled(s, a)
    ensures Conserved(Next(s, a))
  {
    forall item: nat ensures ConservedAt(Next(s, a), item) {
      assert ConservedAt(s, item);
      match a {
        case WorkerActs(w, act) => WorkerConserves(s, w, act, item);
        case ListNext => ListerConserves(s, a, item);
        case Deliver => ListerConserves(s, a, item);
        case GiveUp => ListerConserves(s, a, item);
        case _ => OthersConserve(s, a, item);
      }
    }
  }

  lemma StepKeepsLister(s: State, a: Action)
    requires ListerInv(s) && Enabled(s, a)
    ensures ListerInv(Next(s, a))
  {
  }

  lemma StepKeepsChannel(s: State, a: Action)
    requires ListerInv(s) && ChannelInv(s) && Enabled(s, a)
    ensures ChannelInv(Next(s, a))
  {
  }

  /** Once every worker has exited the pool does not process anything any more. */
  lemma StepKeepsComplete(s: State, a: Action)
    requires Inv(s) && Enabled(s, a) && AllExited(s.pool)
    ensures AllExited(Next(s, a).pool)
    ensures Complete(s) ==> Complete(Next(s, a))
  {
  }

  lemma StepKeepsMain(s: State, a: Action)
    requires Inv(s) && Enabled(s, a)
    ensures MainInv(Next(s, a))
  {
    if AllExited(s.pool) {
      StepKeepsComplete(s, a);
      if a.Join? && Verdict(s.pool).None? {
        NilVerdict(s.pool);
      }
    }
  }

  lemma StepKeepsInv(s: State, a: Action)
    requires Inv(s) && Enabled(s, a)
    ensures Inv(Next(s, a))
    ensures Next(s, a).stream == s.stream && Next(s, a).pool.capacity == s.pool.capacity
  {
    StepKeepsPoolInv(s, a);
    StepConserves(s, a);
    StepKeepsLister(s, a);
    StepKeepsChannel(s, a);
    StepKeepsMain(s, a);
  }

  lemma {:induction false} RunKeepsInv(s: State, acts: seq<Action>)
    requires Inv(s) && IsRun(s, acts)
    ensures Inv(After(s, acts))
    ensures After(s, acts).stream == s.stream && After(s, acts).pool.capacity == s.pool.capacity
  {
    if acts != [] {
      RunKeepsInv(s, acts[..|acts| - 1]);
      StepKeepsInv(After(s, acts[..|acts| - 1]), acts[|acts| - 1]);
    }
  }

  // ---------------------------------------------------------------- what a run guarantees

  /**
    Under every interleaving, a nil result means that the listing ended without an error and that
    the callback succeeded exactly once on every listed object, and on nothing else.
  */
  lemma NilMeansEverythingDownloaded(requested: int, stream: seq<Listed>, acts: seq<Action>)
    requires IsRun(Init(requested, stream), acts)
    requires After(Init(requested, stream), acts).main == Returned(None)
    ensures forall k :: 0 <= k < |stream| ==> stream[k].Object?
    ensures forall item: nat ::
      After(Init(requested, stream), acts).pool.succeeded[item] == if item < |stream| then 1 else 0
  {
    InitInv(requested, stream);
    RunKeepsInv(Init(requested, stream), acts);
    var s := After(Init(requested, stream), acts);
    forall item: nat ensures s.pool.succeeded[item] == if item < |stream| then 1 else 0 {
      assert ConservedAt(s, item);
      assert Places(s.pool, item) == s.pool.succeeded[item];
    }
  }

  /** At no time are more callbacks in flight than the effective batch size. */
  lemma BoundedConcurrency(requested: int, stream: seq<Listed>, acts: seq<Action>)
    requires IsRun(Init(requested, stream), acts)
    ensures InFlight(After(Init(requested, stream), acts).pool.workers) <= (if requested <= 0 then 1 else requested)
    ensures |After(Init(requested, stream), acts).pool.buffer| <= (if requested <= 0 then 1 else requested)
    ensures |After(Init(requested, stream), acts).pool.workers| == (if requested <= 0 then 1 else requested)
  {
    InitInv(requested, stream);
    RunKeepsInv(Init(requested, stream), acts);
  }

  lemma StepKeepsCancel(s: State, a: Action)
    requires CancelInv(s.pool) && Enabled(s, a)
    ensures CancelInv(Next(s, a).pool)
  {
    if a.WorkerActs? {
      WorkerStepKeepsCancel(s.pool, a.w, a.act);
    } else {
      CancelPersists(s.pool, Next(s, a).pool);
    }
  }

  /** On every run, once a callback's error is reported and its reporter has gone on, the workers are cancelled. */
  lemma {:induction false} FailureCancels(requested: int, stream: seq<Listed>, acts: seq<Action>)
    requires IsRun(Init(requested, stream), acts)
    ensures CancelInv(After(Init(requested, stream), acts).pool)
  {
    if acts != [] {
      FailureCancels(requested, stream, acts[..|acts| - 1]);
      StepKeepsCancel(After(Init(requested, stream), acts[..|acts| - 1]), acts[|acts| - 1]);
    }
  }

  // ---------------------------------------------------------------- root causes

  /** The caller does not cancel, and callbacks fail with a cancellation only after one. */
  ghost predicate HonestRun(s: State, acts: seq<Action>)
    requires IsRun(s, acts)
  {
    acts != [] ==>
      && HonestRun(s, acts[..|acts| - 1])
      && HonestAction(After(s, acts[..|acts| - 1]), acts[|acts| - 1])
  }

  predicate HonestAction(s: State, a: Action) {
    && !a.CallerCancels?
    && (a.WorkerActs? ==> Honest(s.pool, a.act))
  }

  predicate HonestListing(stream: seq<Listed>) {
    forall k :: 0 <= k < |stream| && stream[k].ListFailure? ==> !IsCanceled(stream[k].err)
  }

  /** The failure that the lister sent before it cancelled anything. */
  predicate ListingReported(s: State) {
    s.reported.Some? && s.reported.value.Some? && FromListing(s, s.reported.value.value)
  }

  predicate Explained(s: State, e: Error) {
    (e in s.pool.raised && !IsCanceled(e)) || (IsCanceled(e) && ListingReported(s))
  }

  predicate Genuine(s: State, e: Error) {
    && !IsCanceled(e)
    && (e in s.pool.raised || exists k :: 0 <= k < |s.stream| && s.stream[k].ListFailure? && e == ListingError(s.stream[k].err))
  }

  predicate RootInv(s: State) {
    && HonestListing(s.stream)
    && HonestInv(s.pool)
    && (s.pool.inner.Some? ==> s.pool.inner.value == Canceled)
    && MainRoot(s)
  }

  predicate MainRoot(s: State) {
    match s.main
    case Waiting => s.pool.outer.Some? ==> ListingReported(s)
    case Joined(v) => (s.pool.outer.Some? ==> ListingReported(s)) && (v.Some? ==> Explained(s, v.value))
    case Collecting(v) => (v.None? && s.pool.outer.Some? ==> ListingReported(s)) && (v.Some? ==> Explained(s, v.value))
    case Returned(r) => r.Some? ==> Genuine(s, r.value)
  }

  lemma StepKeepsHonestPool(s: State, a: Action)
    requires Inv(s) && RootInv(s) && Enabled(s, a) && HonestAction(s, a)
    ensures HonestInv(Next(s, a).pool)
    ensures Next(s, a).pool.inner.Some? ==> Next(s, a).pool.inner.value == Canceled
  {
    match a
    case WorkerActs(w, act) => WorkerStepKeepsHonest(s.pool, w, act);
    case Deliver => ProducerStepsKeepInv(s.pool, s.lister.item);
    case GiveUp => ProducerStepsKeepInv(s.pool, s.lister.item);
    case CloseItems => ProducerStepsKeepInv(s.pool, 0);
    case CancelFromLister => CancelOuterKeepsInv(s.pool, Canceled);
    case CancelFromMain => CancelOuterKeepsInv(s.pool, Canceled);
    case _ =>
  }

  /** The verdict of the pool is a callback's own error, or a cancellation that the lister has explained. */
  lemma JoinKeepsMainRoot(s: State)
    requires PoolInv(s.pool) && RootInv(s) && Enabled(s, Join)
    ensures MainRoot(Next(s, Join))
  {
    if Verdict(s.pool).Some? {
      assert Explained(Next(s, Join), Verdict(s.pool).value);
    }
  }

  lemma CollectKeepsMainRoot(s: State)
    requires ListerInv(s) && ChannelInv(s) && RootInv(s) && MainInv(s) && Enabled(s, Collect)
    ensures MainRoot(Next(s, Collect))
  {
    if ListingReported(s) {
      assert Genuine(s, s.reported.value.value);
    }
  }

  /** What is reported or raised stays so. */
  lemma ReportedStays(s: State, a: Action)
    requires ListerInv(s) && Enabled(s, a) && ListingReported(s)
    ensures ListingReported(Next(s, a))
  {
  }

  lemma WorkersKeepMainRoot(s: State, w: nat, act: WorkerAction)
    requires MainRoot(s) && Enabled(s, WorkerActs(w, act))
    ensures MainRoot(Next(s, WorkerActs(w, act)))
  {
  }

  lemma OthersKeepMainRoot(s: State, a: Action)
    requires ListerInv(s) && MainRoot(s) && Enabled(s, a) && HonestAction(s, a)
    requires !a.Join? && !a.Collect? && !a.WorkerActs?
    ensures MainRoot(Next(s, a))
  {
    if ListingReported(s) {
      ReportedStays(s, a);
    }
  }

  /** Every internal cancellation is preceded by filling an error channel. */
  lemma StepKeepsRoot(s: State, a: Action)
    requires Inv(s) && RootInv(s) && Enabled(s, a) && HonestAction(s, a)
    ensures RootInv(Next(s, a))
  {
    StepKeepsHonestPool(s, a);
    if a.Join? {
      JoinKeepsMainRoot(s);
    } else if a.Collect? {
      CollectKeepsMainRoot(s);
    } else if a.WorkerActs? {
      WorkersKeepMainRoot(s, a.w, a.act);
    } else {
      OthersKeepMainRoot(s, a);
    }
  }

  /**
    A non-nil result is never a mere consequence of the pool's own cancellations: it is a listing
    failure, or an error a callback returned, and it is not a cancellation error.
  */
  lemma {:induction false} RootCauseIsReported(requested: int, stream: seq<Listed>, acts: seq<Action>)
    requires IsRun(Init(requested, stream), acts)
    requires HonestListing(stream) && HonestRun(Init(requested, stream), acts)
    ensures var s := After(Init(requested, stream), acts);
      RootInv(s) && (s.main.Returned? && s.main.result.Some? ==> Genuine(s, s.main.result.value))
  {
    var init := Init(requested, stream);
    InitInv(requested, stream);
    if acts != [] {
      var before := acts[..|acts| - 1];
      RootCauseIsReported(requested, stream, before);
      RunKeepsInv(init, before);
      StepKeepsRoot(After(init, before), acts[|acts| - 1]);
    }
  }

  // ---------------------------------------------------------------- progress

  function ListerRank(l: Lister): nat {
    match l
    case Ended => 0
    case Closing => 1
    case CancellingList => 2
    case Sending(_, _) => 3
    case Listing => 4
    case Delivering(_) => 7
  }

  function MainRank(m: Main): nat {
    match m
    case Returned(_) => 0
    case Collecting(_) => 1
    case Joined(_) => 2
    case Waiting => 3
  }

  /** Unread objects, buffered and in-flight items, all program counters, and a pending cancellation. */
  function Rank(s: State): nat
    requires s.pos <= |s.stream|
  {
    4 * (|s.stream| - s.pos) + ListerRank(s.lister) + PoolRank(s.pool) + MainRank(s.main)
    + if s.pool.outer.None? then 1 else 0
  }

  lemma StepProgresses(s: State, a: Action)
    requires ListerInv(s) && Enabled(s, a)
    ensures Next(s, a).pos <= |s.stream| && Rank(Next(s, a)) < Rank(s)
  {
    if a.WorkerActs? {
      WorkerStepProgresses(s.pool, a.w, a.act);
    }
  }

  lemma {:induction false} RunLength(s: State, acts: seq<Action>)
    requires Inv(s) && IsRun(s, acts)
    ensures After(s, acts).stream == s.stream && After(s, acts).pos <= |s.stream|
    ensures |acts| + Rank(After(s, acts)) <= Rank(s)
  {
    RunKeepsInv(s, acts);
    if acts != [] {
      var before := acts[..|acts| - 1];
      RunLength(s, before);
      RunKeepsInv(s, before);
      StepProgresses(After(s, before), acts[|acts| - 1]);
    }
  }

  /** Every run is finite, with a bound that depends only on the listing and the batch size. */
  lemma Terminates(requested: int, stream: seq<Listed>, acts: seq<Action>)
    requires IsRun(Init(requested, stream), acts)
    ensures |acts| <= 4 * |stream| + 3 * Effective(requested) + 8
  {
    InitInv(requested, stream);
    RunLength(Init(requested, stream), acts);
    WorkersRankBound(NewPool(requested).workers);
  }

  /** The step that is possible when the workers are all gone or all wait for the lister. */
  lemma ListerCanMove(s: State) returns (a: Action)
    requires Inv(s) && !s.lister.Ended?
    requires s.lister.Delivering? ==> s.pool.outer.Some? || s.pool.buffer == []
    ensures Enabled(s, a) && !a.CallerCancels?
  {
    match s.lister
    case Listing => a := ListNext;
    case Delivering(_) => a := if s.pool.outer.Some? then GiveUp else Deliver;
    case Sending(_, _) => a := SendReport;
    case CancellingList => a := CancelFromLister;
    case Closing => a := CloseItems;
  }

  /**
    No deadlock and no leaked goroutine: until the call has returned and the lister has ended, some
    step other than a cancellation by the caller is possible. In particular the lister is unblocked
    when the workers have stopped with the item channel still full.
  */
  lemma NeverStuck(requested: int, stream: seq<Listed>, acts: seq<Action>) returns (a: Action)
    requires IsRun(Init(requested, stream), acts)
    requires var s := After(Init(requested, stream), acts); !s.main.Returned? || !s.lister.Ended?
    ensures Enabled(After(Init(requested, stream), acts), a) && !a.CallerCancels?
  {
    InitInv(requested, stream);
    RunKeepsInv(Init(requested, stream), acts);
    var s := After(Init(requested, stream), acts);
    match s.main
    case Waiting =>
      if AllExited(s.pool) {
        a := Join;
      } else {
        var w :| 0 <= w < |s.pool.workers| && !s.pool.workers[w].Exited?;
        if s.pool.inner.Some? || s.pool.buffer != [] || s.pool.closed {
          a := WorkerActs(w, SomeWorkerAction(s.pool, w));
        } else {
          a := ListerCanMove(s);
        }
      }
    case Joined(_) => a := CancelFromMain;
    case Collecting(_) =>
      if s.listErrCh.Some? {
        a := Collect;
      } else {
        a := ListerCanMove(s);
      }
    case Returned(_) => a := ListerCanMove(s);
  }

  /** The lister sends on its capacity-one channel at most once, and exactly once before the call returns. */
  lemma ReportsExactlyOnce(requested: int, stream: seq<Listed>, acts: seq<Action>)
    requires IsRun(Init(requested, stream), acts)
    ensures var s := After(Init(requested, stream), acts);
      s.sends <= 1 && (s.main.Returned? || s.lister.Ended? ==> s.sends == 1)
  {
    InitInv(requested, stream);
    RunKeepsInv(Init(requested, stream), acts);
  }
}
