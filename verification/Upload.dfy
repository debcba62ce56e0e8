/**
  The upload pool of internal/util/s3.go (uploadBucket, from the creation of its context on): a
  goroutine walks the source directory and feeds the worker pool, the calling goroutine waits for
  the workers, collects the result of the walk and compares the counters.
*/
module Upload {
  import opened Wrappers
  import opened WorkerPool

  /** What filepath.WalkDir hands to its callback, in order. */
  datatype Entry = File | Directory | Unreadable(err: Error)

  datatype Walker =
    | Walking
    | Offering(item: nat)              // in the select between cancellation and the channel
    | Counting                         // the path is sent, the counter comes next
    | Finishing(outcome: Option<Error>)
    | ClosingFiles(outcome: Option<Error>)
    | SendingOutcome(outcome: Option<Error>)
    | Ended

  datatype Main =
    | Waiting
    | Joined(verdict: Option<Error>)
    | Collecting(verdict: Option<Error>)
    | Returned(result: Option<Error>)

  datatype State = State(
    entries: seq<Entry>,
    pos: nat,
    pool: Pool,
    walker: Walker,
    walkErrCh: Option<Option<Error>>,
    fileCount: nat,
    uploadedCount: nat,
    main: Main,
    reported: Option<Option<Error>>)

  function Init(requested: int, entries: seq<Entry>): State {
    State(entries, 0, NewPool(requested), Walking, None, 0, 0, Waiting, None)
  }

  function WalkError(e: Error): Error {
    Wrapped("walking source path", e)
  }

  /** The last lines of uploadBucket; `ctx` is the state of its own context when they run. */
  function FinalResult(workerErr: Option<Error>, walkErr: Option<Error>, ctx: Option<Error>): Option<Error> {
    if workerErr.Some? then workerErr
    else if walkErr.Some? && !IsCanceled(walkErr.value) then Some(WalkError(walkErr.value))
    else if walkErr.Some? && ctx.Some? then Some(WalkError(ctx.value))
    else None
  }

  // ---------------------------------------------------------------- steps

  datatype Action =
    | WorkerActs(w: nat, act: WorkerAction)
    | WalkNext
    | Offer
    | GiveUp
    | Count
    | Finish
    | CloseFiles
    | SendOutcome
    | Join
    | CancelFromMain
    | Collect
    | CallerCancels(err: Error)

  predicate Enabled(s: State, a: Action) {
    match a
    case WorkerActs(w, act) => WorkerEnabled(s.pool, w, act)
    case WalkNext => s.walker.Walking? && s.pos <= |s.entries|
    case Offer => s.walker.Offering? && HasRoom(s.pool)
    case GiveUp => s.walker.Offering? && s.pool.outer.Some?
    case Count => s.walker.Counting?
    case Finish => s.walker.Finishing?
    case CloseFiles => s.walker.ClosingFiles?
    case SendOutcome => s.walker.SendingOutcome? && s.walkErrCh.None?
    case Join => s.main.Waiting? && AllExited(s.pool)
    case CancelFromMain => s.main.Joined?
    case Collect => s.main.Collecting? && s.walkErrCh.Some?
    case CallerCancels(_) => s.pool.outer.None?
  }

  function Next(s: State, a: Action): State
    requires Enabled(s, a)
  {
    match a
    case WorkerActs(w, act) =>
      s.(pool := WorkerStep(s.pool, w, act), uploadedCount := s.uploadedCount + if act.Succeed? then 1 else 0)
    case WalkNext =>
      if s.pos == |s.entries| then s.(walker := Finishing(None))
      else
        var read := s.(pos := s.pos + 1);
        (match s.entries[s.pos]
         case File => read.(walker := Offering(s.pos))
         case Directory => read
         case Unreadable(e) => read.(walker := Finishing(Some(e))))
    case Offer => s.(pool := Push(s.pool, s.walker.item), walker := Counting)
    case GiveUp => s.(pool := Drop(s.pool, s.walker.item), walker := Finishing(s.pool.outer))
    case Count => s.(fileCount := s.fileCount + 1, walker := Walking)
    case Finish =>
      var o := s.walker.outcome;
      var pool := if o.Some? && !IsCanceled(o.value) then CancelOuter(s.pool, Canceled) else s.pool;
      s.(pool := pool, walker := ClosingFiles(o))
    case CloseFiles => s.(pool := Close(s.pool), walker := SendingOutcome(s.walker.outcome))
    case SendOutcome => s.(walkErrCh := Some(s.walker.outcome), reported := Some(s.walker.outcome), walker := Ended)
    case Join => s.(main := Joined(Verdict(s.pool)))
    case CancelFromMain =>
      var pool := if s.main.verdict.Some? then CancelOuter(s.pool, Canceled) else s.pool;
      s.(pool := pool, main := Collecting(s.main.verdict))
    case Collect =>
      s.(walkErrCh := None, main := Returned(FinalResult(s.main.verdict, s.walkErrCh.value, s.pool.outer)))
    case CallerCancels(e) => s.(pool := CancelOuter(s.pool, e))
  }

  ghost predicate IsRun(s: State, acts: seq<Action>)
    decreases |acts|, 0
  {
    acts != [] ==>
      && IsRun(s, acts[..|acts| - 1])
      && Enabled(After(s, acts[..|acts| - 1]), acts[|acts| - 1])
  }

  ghost function After(s: State, acts: seq<Action>): State
    requires IsRun(s, acts)
    decreases |acts|, 1
  {
    if acts == [] then s else Next(After(s, acts[..|acts| - 1]), acts[|acts| - 1])
  }

  // ---------------------------------------------------------------- invariant

  function FilesBelow(entries: seq<Entry>, n: nat): nat
    requires n <= |entries|
  {
    if n == 0 then 0 else FilesBelow(entries, n - 1) + if entries[n - 1].File? then 1 else 0
  }

  predicate IsFile(entries: seq<Entry>, n: nat, item: nat) {
    item < n && item < |entries| && entries[item].File?
  }

  predicate ReadableBelow(entries: seq<Entry>, n: nat) {
    forall k :: 0 <= k < n && k < |entries| ==> !entries[k].Unreadable?
  }

  ghost predicate Conserved(s: State) {
    forall item: nat :: ConservedAt(s, item)
  }

  ghost predicate ConservedAt(s: State, item: nat) {
    Places(s.pool, item) + (if s.walker == Offering(item) then 1 else 0)
    == if IsFile(s.entries, s.pos, item) then 1 else 0
  }

  function Outcome(s: State): Option<Option<Error>> {
    if s.walker.Finishing? || s.walker.ClosingFiles? || s.walker.SendingOutcome?
    then Some(s.walker.outcome) else s.reported
  }

  /** The walk stopped at an unreadable entry with error `e`, everything before it was handed over. */
  predicate StoppedAt(s: State, e: Error) {
    && 0 < s.pos <= |s.entries| && s.entries[s.pos - 1] == Unreadable(e)
    && ReadableBelow(s.entries, s.pos - 1)
    && s.fileCount == FilesBelow(s.entries, s.pos)
  }

  predicate WalkedAll(s: State) {
    && s.pos == |s.entries| && ReadableBelow(s.entries, s.pos)
    && s.fileCount == FilesBelow(s.entries, s.pos)
  }

  predicate WalkerInv(s: State) {
    && s.pos <= |s.entries|
    && (Outcome(s).None? ==> ReadableBelow(s.entries, s.pos))
    && (s.walker.Walking? ==> s.fileCount == FilesBelow(s.entries, s.pos))
    && (s.walker.Offering? || s.walker.Counting? ==> s.fileCount + 1 == FilesBelow(s.entries, s.pos))
    && (s.walker.Offering? ==> IsFile(s.entries, s.pos, s.walker.item))
    && (s.walker.Ended? <==> s.reported.Some?)
    && (s.pool.closed <==> s.walker.SendingOutcome? || s.walker.Ended?)
    && (Outcome(s) == Some(None) ==> WalkedAll(s))
    && (Outcome(s).Some? && Outcome(s).value.Some? ==> OutcomeInv(s, Outcome(s).value.value))
  }

  predicate OutcomeInv(s: State, e: Error) {
    || s.pool.outer.Some?
    || (StoppedAt(s, e) && (IsCanceled(e) || s.walker.Finishing?))
  }

  predicate ChannelInv(s: State) {
    && (s.walkErrCh.Some? <==> s.reported.Some? && !s.main.Returned?)
    && (s.walkErrCh.Some? ==> s.walkErrCh == s.reported)
    && (s.main.Returned? ==> s.reported.Some?)
  }

  /** The workers are done with everything the walk handed over, and the walk was not cancelled. */
  ghost predicate Clean(s: State) {
    && s.pool.closed
    && (Outcome(s) == Some(None) ==> WalkedAll(s))
    && Outcome(s).Some?
    && (Outcome(s).value.Some? ==> StoppedAt(s, Outcome(s).value.value) && IsCanceled(Outcome(s).value.value))
    && forall item: nat :: Places(s.pool, item) == s.pool.succeeded[item]
  }

  ghost predicate MainInv(s: State) {
    match s.main
    case Waiting => true
    case Joined(v) => AllExited(s.pool) && (v.None? ==> Clean(s))
    case Collecting(v) => AllExited(s.pool) && (v.None? ==> Clean(s)) && (v.Some? ==> s.pool.outer.Some?)
    case Returned(r) => AllExited(s.pool) && (r.None? ==> Clean(s))
  }

  ghost predicate Inv(s: State) {
    && PoolInv(s.pool) && Conserved(s) && WalkerInv(s) && ChannelInv(s) && MainInv(s)
    && s.uploadedCount == |s.pool.succeeded|
  }

  lemma InitInv(requested: int, entries: seq<Entry>)
    ensures Inv(Init(requested, entries))
  {
    forall item: nat ensures ConservedAt(Init(requested, entries), item) {
      NewPoolPlaces(requested, item);
    }
  }

  lemma StepKeepsPoolInv(s: State, a: Action)
    requires Inv(s) && Enabled(s, a)
    ensures PoolInv(Next(s, a).pool)
    ensures Next(s, a).uploadedCount == |Next(s, a).pool.succeeded|
  {
    match a
    case WorkerActs(w, act) => WorkerStepKeepsInv(s.pool, w, act);
    case Offer => ProducerStepsKeepInv(s.pool, s.walker.item);
    case GiveUp => ProducerStepsKeepInv(s.pool, s.walker.item);
    case CloseFiles => ProducerStepsKeepInv(s.pool, 0);
    case Finish => CancelOuterKeepsInv(s.pool, Canceled);
    case CancelFromMain => CancelOuterKeepsInv(s.pool, Canceled);
    case CallerCancels(e) => CancelOuterKeepsInv(s.pool, e);
    case _ =>
  }

  lemma WorkerConserves(s: State, w: nat, act: WorkerAction, item: nat)
    requires ConservedAt(s, item) && Enabled(s, WorkerActs(w, act))
    ensures ConservedAt(Next(s, WorkerActs(w, act)), item)
  {
    WorkerStepConserves(s.pool, w, act, item);
  }

  lemma WalkerConserves(s: State, a: Action, item: nat)
    requires ConservedAt(s, item) && WalkerInv(s) && Enabled(s, a) && (a.WalkNext? || a.Offer? || a.GiveUp?)
    ensures ConservedAt(Next(s, a), item)
  {
    if a.Offer? {
      PushPlaces(s.pool, s.walker.item, item);
    }
  }

  lemma OthersConserve(s: State, a: Action, item: nat)
    requires ConservedAt(s, item) && Enabled(s, a)
    requires !a.WorkerActs? && !a.WalkNext? && !a.Offer? && !a.GiveUp?
    ensures ConservedAt(Next(s, a), item)
  {
  }

  lemma StepConserves(s: State, a: Action)
    requires Conserved(s) && WalkerInv(s) && Enabled(s, a)
    ensures Conserved(Next(s, a))
  {
    forall item: nat ensures ConservedAt(Next(s, a), item) {
      assert ConservedAt(s, item);
      match a {
        case WorkerActs(w, act) => WorkerConserves(s, w, act, item);
        case WalkNext => WalkerConserves(s, a, item);
        case Offer => WalkerConserves(s, a, item);
        case GiveUp => WalkerConserves(s, a, item);
        case _ => OthersConserve(s, a, item);
      }
    }
  }

  lemma StepKeepsWalker(s: State, a: Action)
    requires WalkerInv(s) && Enabled(s, a)
    ensures WalkerInv(Next(s, a))
  {
    var t := Next(s, a);
    if a.WalkNext? && s.pos < |s.entries| {
      assert FilesBelow(s.entries, t.pos) == s.fileCount + if s.entries[s.pos].File? then 1 else 0;
    }
  }

  lemma StepKeepsChannel(s: State, a: Action)
    requires WalkerInv(s) && ChannelInv(s) && Enabled(s, a)
    ensures ChannelInv(Next(s, a))
  {
  }

  lemma StepKeepsClean(s: State, a: Action)
    requires WalkerInv(s) && Enabled(s, a) && AllExited(s.pool)
    ensures AllExited(Next(s, a).pool)
    ensures Clean(s) ==> Clean(Next(s, a))
  {
  }

  lemma StepKeepsMain(s: State, a: Action)
    requires Inv(s) && Enabled(s, a)
    ensures MainInv(Next(s, a))
  {
    if AllExited(s.pool) {
      StepKeepsClean(s, a);
      if a.Join? && Verdict(s.pool).None? {
        NilVerdict(s.pool);
      }
    }
  }

  lemma StepKeepsInv(s: State, a: Action)
    requires Inv(s) && Enabled(s, a)
    ensures Inv(Next(s, a)) && Next(s, a).entries == s.entries
  {
    StepKeepsPoolInv(s, a);
    StepConserves(s, a);
    StepKeepsWalker(s, a);
    StepKeepsChannel(s, a);
    StepKeepsMain(s, a);
  }

  lemma {:induction false} RunKeepsInv(s: State, acts: seq<Action>)
    requires Inv(s) && IsRun(s, acts)
    ensures Inv(After(s, acts)) && After(s, acts).entries == s.entries
  {
    if acts != [] {
      RunKeepsInv(s, acts[..|acts| - 1]);
      StepKeepsInv(After(s, acts[..|acts| - 1]), acts[|acts| - 1]);
    }
  }

  // ---------------------------------------------------------------- conservation

  /** A multiset that has each file below `n` once, and nothing else, has as many elements as files. */
  lemma {:induction false} CountOfFiles(entries: seq<Entry>, n: nat, m: multiset<nat>)
    requires n <= |entries|
    requires forall item: nat :: m[item] == if IsFile(entries, n, item) then 1 else 0
    ensures |m| == FilesBelow(entries, n)
  {
    if n == 0 {
      assert m == multiset{};
    } else {
      var last: nat := n - 1;
      var rest := m[last := 0];
      forall item: nat ensures rest[item] == if IsFile(entries, n - 1, item) then 1 else 0 {
        assert m[item] == if IsFile(entries, n, item) then 1 else 0;
      }
      CountOfFiles(entries, n - 1, rest);
      assert m[last] == if IsFile(entries, n, last) then 1 else 0;
      assert m == rest[last := m[last]];
    }
  }

  /** Every file among the first `n` entries was uploaded exactly once and both counters agree. */
  ghost predicate UploadedBelow(s: State, n: nat)
    requires n <= |s.entries|
  {
    && (forall item: nat :: s.pool.succeeded[item] == if IsFile(s.entries, n, item) then 1 else 0)
    && s.uploadedCount == s.fileCount == FilesBelow(s.entries, n)
  }

  /**
    A nil result means that every file the walk yielded was uploaded exactly once, and that the
    walk either reached the end or stopped at an entry whose error counts as a cancellation.
  */
  lemma NilMeansUploaded(requested: int, entries: seq<Entry>, acts: seq<Action>)
    requires IsRun(Init(requested, entries), acts)
    requires After(Init(requested, entries), acts).main == Returned(None)
    ensures var s := After(Init(requested, entries), acts);
      && s.entries == entries && s.pos <= |entries| && UploadedBelow(s, s.pos)
      && (|| (s.pos == |entries| && ReadableBelow(entries, s.pos))
          || (0 < s.pos && ReadableBelow(entries, s.pos - 1)
              && entries[s.pos - 1].Unreadable? && IsCanceled(entries[s.pos - 1].err)))
  {
    InitInv(requested, entries);
    RunKeepsInv(Init(requested, entries), acts);
    var s := After(Init(requested, entries), acts);
    forall item: nat ensures s.pool.succeeded[item] == if IsFile(s.entries, s.pos, item) then 1 else 0 {
      assert ConservedAt(s, item);
      assert Places(s.pool, item) == s.pool.succeeded[item];
    }
    CountOfFiles(entries, s.pos, s.pool.succeeded);
  }

  /** The first error of the walk, if there is one, is not a cancellation. */
  predicate NoCanceledWalk(entries: seq<Entry>) {
    forall k :: 0 <= k < |entries| && entries[k].Unreadable? && ReadableBelow(entries, k) ==> !IsCanceled(entries[k].err)
  }

  ghost predicate NilIsComplete(requested: int, entries: seq<Entry>, acts: seq<Action>) {
    IsRun(Init(requested, entries), acts) && After(Init(requested, entries), acts).main == Returned(None) ==>
      var s := After(Init(requested, entries), acts);
      ReadableBelow(entries, |entries|) && s.entries == entries && UploadedBelow(s, |entries|)
  }

  /**
    If no walk error counts as a cancellation, a nil result accounts for the whole directory; in
    particular the fall-through for a cancelled walk under a live context is never taken.
  */
  lemma NilMeansEverythingUploaded(requested: int, entries: seq<Entry>, acts: seq<Action>)
    requires NoCanceledWalk(entries)
    ensures NilIsComplete(requested, entries, acts)
  {
    if IsRun(Init(requested, entries), acts) && After(Init(requested, entries), acts).main == Returned(None) {
      InitInv(requested, entries);
      RunKeepsInv(Init(requested, entries), acts);
      NilMeansUploaded(requested, entries, acts);
    }
  }

  // ---------------------------------------------------------------- healthy uploads

  /** Nothing goes wrong outside the protocol: no callback fails and the caller does not cancel. */
  predicate HealthyAction(a: Action) {
    !a.CallerCancels? && !(a.WorkerActs? && a.act.Fail?)
  }

  predicate HealthyRun(acts: seq<Action>) {
    forall i :: 0 <= i < |acts| ==> HealthyAction(acts[i])
  }

  predicate HealthyWorkers(p: Pool) {
    forall w :: 0 <= w < |p.workers| ==> !p.workers[w].Failed? && !p.workers[w].Cancelling?
  }

  predicate HealthyPool(p: Pool) {
    p.outer.None? && p.inner.None? && p.errCh.None? && HealthyWorkers(p)
  }

  predicate HealthyInv(s: State) {
    && HealthyPool(s.pool) && ReadableBelow(s.entries, |s.entries|)
    && (Outcome(s).Some? ==> Outcome(s).value.None?)
    && (s.walkErrCh.Some? ==> s.walkErrCh.value.None?)
    && match s.main
       case Waiting => true
       case Joined(v) => v.None?
       case Collecting(v) => v.None?
       case Returned(r) => r.None?
  }

  lemma StepKeepsHealthyPool(s: State, a: Action)
    requires HealthyInv(s) && Enabled(s, a) && HealthyAction(a)
    ensures HealthyPool(Next(s, a).pool)
  {
    if a.WorkerActs? {
      var p, q := s.pool, WorkerStep(s.pool, a.w, a.act);
      assert !p.workers[a.w].Failed? && !p.workers[a.w].Cancelling?;
      forall w | 0 <= w < |q.workers| ensures !q.workers[w].Failed? && !q.workers[w].Cancelling? {
        assert w != a.w ==> q.workers[w] == p.workers[w];
      }
    }
  }

  lemma StepKeepsHealthy(s: State, a: Action)
    requires HealthyInv(s) && Enabled(s, a) && HealthyAction(a)
    ensures HealthyInv(Next(s, a))
  {
    StepKeepsHealthyPool(s, a);
  }

  lemma {:induction false} RunKeepsHealthy(requested: int, entries: seq<Entry>, acts: seq<Action>)
    requires IsRun(Init(requested, entries), acts) && HealthyRun(acts) && ReadableBelow(entries, |entries|)
    ensures HealthyInv(After(Init(requested, entries), acts))
  {
    if acts != [] {
      var before := acts[..|acts| - 1];
      assert HealthyRun(before);
      RunKeepsHealthy(requested, entries, before);
      StepKeepsHealthy(After(Init(requested, entries), before), acts[|acts| - 1]);
    }
  }

  /** If every entry is readable, no upload fails and the caller does not cancel, the result is nil. */
  lemma HealthyUploadReturnsNil(requested: int, entries: seq<Entry>, acts: seq<Action>)
    requires IsRun(Init(requested, entries), acts) && HealthyRun(acts) && ReadableBelow(entries, |entries|)
    ensures var s := After(Init(requested, entries), acts); s.main.Returned? ==> s.main == Returned(None)
  {
    RunKeepsHealthy(requested, entries, acts);
  }

  // ---------------------------------------------------------------- where an error comes from

  /** An error of a callback, or the cancellation of a context. */
  predicate FromPool(s: State, e: Error) {
    e in s.pool.raised || s.pool.inner == Some(e)
  }

  /** The walk stopped at an entry with this error, or the context was cancelled with it. */
  predicate WalkCause(s: State, x: Error) {
    (0 < s.pos <= |s.entries| && s.entries[s.pos - 1] == Unreadable(x)) || s.pool.outer == Some(x)
  }

  predicate FromWalk(s: State, e: Error) {
    e.Wrapped? && e.what == "walking source path" && WalkCause(s, e.cause)
  }

  predicate OriginInv(s: State) {
    && (s.pool.errCh.Some? ==> s.pool.errCh.value in s.pool.raised)
    && (Outcome(s).Some? && Outcome(s).value.Some? ==> WalkCause(s, Outcome(s).value.value))
    && match s.main
       case Waiting => true
       case Joined(v) => v.Some? ==> FromPool(s, v.value)
       case Collecting(v) => v.Some? ==> FromPool(s, v.value)
       case Returned(r) => r.Some? ==> FromPool(s, r.value) || FromWalk(s, r.value)
  }

  lemma OriginStays(s: State, a: Action, e: Error)
    requires Enabled(s, a)
    ensures FromPool(s, e) ==> FromPool(Next(s, a), e)
    ensures s.pool.outer.Some? ==> Next(s, a).pool.outer == s.pool.outer
  {
  }

  lemma CollectKeepsOrigin(s: State)
    requires OriginInv(s) && ChannelInv(s) && WalkerInv(s) && Enabled(s, Collect)
    ensures OriginInv(Next(s, Collect))
  {
    var t := Next(s, Collect);
    var verdict, outcome := s.main.verdict, s.walkErrCh.value;
    if verdict.None? && outcome.Some? {
      assert Outcome(s) == Some(outcome);
      if t.main.result.Some? {
        assert t.main.result.value == WalkError(outcome.value) || t.main.result.value == WalkError(s.pool.outer.value);
      }
    }
  }

  /** Once the walk has an outcome it moves no further. */
  lemma WalkCauseStays(s: State, a: Action, x: Error)
    requires Enabled(s, a) && Outcome(s).Some? && WalkerInv(s) && WalkCause(s, x)
    ensures WalkCause(Next(s, a), x)
  {
    OriginStays(s, a, x);
  }

  lemma OthersKeepOrigin(s: State, a: Action)
    requires OriginInv(s) && PoolInv(s.pool) && WalkerInv(s) && ChannelInv(s) && Enabled(s, a) && !a.Collect?
    ensures OriginInv(Next(s, a))
  {
    StepKeepsPoolOrigin(s, a);
    if Outcome(s).Some? && Outcome(s).value.Some? {
      WalkCauseStays(s, a, Outcome(s).value.value);
    }
    match s.main {
      case Waiting =>
      case Joined(v) => if v.Some? { OriginStays(s, a, v.value); }
      case Collecting(v) => if v.Some? { OriginStays(s, a, v.value); }
      case Returned(r) =>
        if r.Some? {
          OriginStays(s, a, r.value);
          if FromWalk(s, r.value) {
            WalkCauseStays(s, a, r.value.cause);
          }
        }
    }
  }

  lemma StepKeepsPoolOrigin(s: State, a: Action)
    requires PoolInv(s.pool) && Enabled(s, a)
    ensures Next(s, a).pool.errCh.Some? ==> Next(s, a).pool.errCh.value in Next(s, a).pool.raised
  {
    if a.WorkerActs? {
      WorkerStepKeepsInv(s.pool, a.w, a.act);
    }
  }

  /**
    On every run, an error is one that a callback returned, the cancellation of a context, or the walk's
    own error or cancellation, wrapped as such.
  */
  lemma {:induction false} ErrorsAreExplained(requested: int, entries: seq<Entry>, acts: seq<Action>)
    requires IsRun(Init(requested, entries), acts)
    ensures OriginInv(After(Init(requested, entries), acts))
  {
    var init := Init(requested, entries);
    if acts != [] {
      var before, a := acts[..|acts| - 1], acts[|acts| - 1];
      ErrorsAreExplained(requested, entries, before);
      InitInv(requested, entries);
      RunKeepsInv(init, before);
      if a.Collect? {
        CollectKeepsOrigin(After(init, before));
      } else {
        OthersKeepOrigin(After(init, before), a);
      }
    }
  }

  // ---------------------------------------------------------------- the condition is exact

  ghost predicate Reaches(s: State, t: State) {
    exists acts :: IsRun(s, acts) && After(s, acts) == t
  }

  lemma Extend(s: State, t: State, a: Action)
    requires Reaches(s, t) && Enabled(t, a)
    ensures Reaches(s, Next(t, a))
  {
    var acts :| IsRun(s, acts) && After(s, acts) == t;
    var more := acts + [a];
    assert more[..|more| - 1] == acts;
    assert IsRun(s, more) && After(s, more) == Next(t, a);
  }

  function FileSet(entries: seq<Entry>, n: nat): multiset<nat>
    requires n <= |entries|
  {
    if n == 0 then multiset{}
    else FileSet(entries, n - 1) + if entries[n - 1].File? then multiset{n - 1} else multiset{}
  }

  /** One worker has uploaded every file among the first `n` entries, all the others are idle. */
  function Drained(requested: int, entries: seq<Entry>, n: nat): State
    requires n <= |entries|
  {
    var count := FilesBelow(entries, n);
    Init(requested, entries).(
      pos := n, fileCount := count, uploadedCount := count,
      pool := NewPool(requested).(succeeded := FileSet(entries, n)))
  }

  /** The next file is read, offered and counted; it waits in the channel. */
  function Offered(requested: int, entries: seq<Entry>, n: nat): State
    requires n < |entries|
  {
    var s := Drained(requested, entries, n);
    s.(pos := n + 1, fileCount := s.fileCount + 1, pool := Push(s.pool, n))
  }

  lemma OfferFile(requested: int, entries: seq<Entry>, n: nat)
    requires n < |entries| && entries[n].File?
    requires Reaches(Init(requested, entries), Drained(requested, entries, n))
    ensures Reaches(Init(requested, entries), Offered(requested, entries, n))
  {
    var init := Init(requested, entries);
    var s0 := Drained(requested, entries, n);
    Extend(init, s0, WalkNext);
    var s1 := Next(s0, WalkNext);
    Extend(init, s1, Offer);
    var s2 := Next(s1, Offer);
    Extend(init, s2, Count);
    assert Next(s2, Count) == Offered(requested, entries, n);
  }

  function Uploaded(s: State, item: nat): State {
    s.(pool := s.pool.(buffer := [], succeeded := s.pool.succeeded + multiset{item}), uploadedCount := s.uploadedCount + 1)
  }

  /** The first worker takes the one item in the channel and succeeds. */
  lemma TakeAndSucceed(init: State, s: State, item: nat)
    requires Reaches(init, s) && |s.pool.workers| > 0 && s.pool.workers[0].Idle? && s.pool.buffer == [item]
    ensures Reaches(init, Uploaded(s, item))
  {
    Extend(init, s, WorkerActs(0, Take));
    var taken := Next(s, WorkerActs(0, Take));
    Extend(init, taken, WorkerActs(0, Succeed));
    var done := Next(taken, WorkerActs(0, Succeed));
    assert done.pool.workers == s.pool.workers;
    assert taken.pool.buffer == [];
  }

  lemma OfferedFacts(requested: int, entries: seq<Entry>, n: nat)
    requires n < |entries| && entries[n].File?
    ensures var s := Offered(requested, entries, n);
      && |s.pool.workers| > 0 && s.pool.workers[0].Idle? && s.pool.buffer == [n]
      && Uploaded(s, n) == Drained(requested, entries, n + 1)
  {
    assert FileSet(entries, n + 1) == FileSet(entries, n) + multiset{n};
    assert [] + [n] == [n];
  }

  lemma DrainFile(requested: int, entries: seq<Entry>, n: nat)
    requires n < |entries| && entries[n].File?
    requires Reaches(Init(requested, entries), Drained(requested, entries, n))
    ensures Reaches(Init(requested, entries), Drained(requested, entries, n + 1))
  {
    OfferFile(requested, entries, n);
    OfferedFacts(requested, entries, n);
    TakeAndSucceed(Init(requested, entries), Offered(requested, entries, n), n);
  }

  lemma {:induction false} DrainAll(requested: int, entries: seq<Entry>, n: nat)
    requires n <= |entries| && ReadableBelow(entries, n)
    ensures Reaches(Init(requested, entries), Drained(requested, entries, n))
  {
    var init := Init(requested, entries);
    if n == 0 {
      assert IsRun(init, []) && After(init, []) == Drained(requested, entries, 0);
    } else {
      DrainAll(requested, entries, n - 1);
      if entries[n - 1].File? {
        DrainFile(requested, entries, n - 1);
      } else {
        var s := Drained(requested, entries, n - 1);
        Extend(init, s, WalkNext);
        assert Next(s, WalkNext) == Drained(requested, entries, n);
      }
    }
  }

  /** With the channel drained and closed, the workers stop one after the other. */
  lemma {:induction false} StopWorkers(init: State, s: State, k: nat) returns (t: State)
    requires Reaches(init, s) && s.pool.buffer == [] && s.pool.closed && k <= |s.pool.workers|
    requires forall w :: 0 <= w < |s.pool.workers| ==> s.pool.workers[w] == if w < k then Exited else Idle
    ensures Reaches(init, t) && AllExited(t.pool)
    ensures t == s.(pool := s.pool.(workers := t.pool.workers))
    decreases |s.pool.workers| - k
  {
    if k == |s.pool.workers| {
      t := s;
    } else {
      var next := Next(s, WorkerActs(k, StopOnClose));
      Extend(init, s, WorkerActs(k, StopOnClose));
      t := StopWorkers(init, next, k + 1);
    }
  }

  /** The walk stops at a cancellation error after everything before it was uploaded. */
  lemma CanceledWalkEnds(requested: int, entries: seq<Entry>, k: nat) returns (t: State)
    requires k < |entries| && ReadableBelow(entries, k)
    requires entries[k].Unreadable? && IsCanceled(entries[k].err)
    ensures Reaches(Init(requested, entries), t)
    ensures t == Drained(requested, entries, k).(
      pos := k + 1, pool := t.pool, walker := Ended,
      walkErrCh := Some(Some(entries[k].err)), reported := Some(Some(entries[k].err)))
    ensures t.pool == Close(Drained(requested, entries, k).pool)
  {
    var init := Init(requested, entries);
    DrainAll(requested, entries, k);
    var s0 := Drained(requested, entries, k);
    var s1 := Next(s0, WalkNext);
    Extend(init, s0, WalkNext);
    var s2 := Next(s1, Finish);
    Extend(init, s1, Finish);
    var s3 := Next(s2, CloseFiles);
    Extend(init, s2, CloseFiles);
    t := Next(s3, SendOutcome);
    Extend(init, s3, SendOutcome);
  }

  /** A walk that stops at a cancellation error can make the upload report success too early. */
  lemma CanceledWalkIsSwallowed(requested: int, entries: seq<Entry>, k: nat) returns (acts: seq<Action>)
    requires k < |entries| && ReadableBelow(entries, k)
    requires entries[k].Unreadable? && IsCanceled(entries[k].err)
    ensures !NilIsComplete(requested, entries, acts)
  {
    var init := Init(requested, entries);
    var ended := CanceledWalkEnds(requested, entries, k);
    var s5 := StopWorkers(init, ended, 0);
    var s6 := Next(s5, Join);
    Extend(init, s5, Join);
    var s7 := Next(s6, CancelFromMain);
    Extend(init, s6, CancelFromMain);
    var s8 := Next(s7, Collect);
    Extend(init, s7, Collect);
    assert s8.main == Returned(None);
    acts :| IsRun(init, acts) && After(init, acts) == s8;
    assert entries[k].Unreadable?;
  }

  /** For every directory: nil always means a complete upload iff the walk is not cut short by a cancellation error. */
  lemma NilIsCompleteExactly(requested: int, entries: seq<Entry>)
    ensures (forall acts :: NilIsComplete(requested, entries, acts)) <==> NoCanceledWalk(entries)
  {
    if NoCanceledWalk(entries) {
      forall acts ensures NilIsComplete(requested, entries, acts) {
        NilMeansEverythingUploaded(requested, entries, acts);
      }
    } else {
      var k :| 0 <= k < |entries| && entries[k].Unreadable? && ReadableBelow(entries, k) && IsCanceled(entries[k].err);
      var acts := CanceledWalkIsSwallowed(requested, entries, k);
    }
  }

  // ---------------------------------------------------------------- progress

  function WalkerRank(w: Walker): nat {
    match w
    case Ended => 0
    case SendingOutcome(_) => 1
    case ClosingFiles(_) => 2
    case Finishing(_) => 3
    case Walking => 4
    case Counting => 5
    case Offering(_) => 8
  }

  function MainRank(m: Main): nat {
    match m
    case Returned(_) => 0
    case Collecting(_) => 1
    case Joined(_) => 2
    case Waiting => 3
  }

  function Rank(s: State): nat
    requires s.pos <= |s.entries|
  {
    5 * (|s.entries| - s.pos) + WalkerRank(s.walker) + PoolRank(s.pool) + MainRank(s.main)
    + if s.pool.outer.None? then 1 else 0
  }

  lemma StepProgresses(s: State, a: Action)
    requires WalkerInv(s) && Enabled(s, a)
    ensures Next(s, a).pos <= |s.entries| && Rank(Next(s, a)) < Rank(s)
  {
    if a.WorkerActs? {
      WorkerStepProgresses(s.pool, a.w, a.act);
    }
  }

  lemma {:induction false} RunLength(s: State, acts: seq<Action>)
    requires Inv(s) && IsRun(s, acts)
    ensures After(s, acts).entries == s.entries && After(s, acts).pos <= |s.entries|
    ensures |acts| + Rank(After(s, acts)) <= Rank(s)
  {
    RunKeepsInv(s, acts);
    if acts != [] {
      var before, a := acts[..|acts| - 1], acts[|acts| - 1];
      RunLength(s, before);
      RunKeepsInv(s, before);
      StepProgresses(After(s, before), a);
    }
  }

  /** Every upload run is finite, with a bound that depends only on the walk and the worker count. */
  lemma Terminates(requested: int, entries: seq<Entry>, acts: seq<Action>)
    requires IsRun(Init(requested, entries), acts)
    ensures |acts| <= 5 * |entries| + 3 * Effective(requested) + 8
  {
    InitInv(requested, entries);
    RunLength(Init(requested, entries), acts);
    WorkersRankBound(NewPool(requested).workers);
  }

  lemma WalkerCanMove(s: State) returns (a: Action)
    requires Inv(s) && !s.walker.Ended?
    requires s.walker.Offering? ==> s.pool.outer.Some? || s.pool.buffer == []
    ensures Enabled(s, a) && !a.CallerCancels?
  {
    match s.walker
    case Walking => a := WalkNext;
    case Offering(_) => a := if s.pool.outer.Some? then GiveUp else Offer;
    case Counting => a := Count;
    case Finishing(_) => a := Finish;
    case ClosingFiles(_) => a := CloseFiles;
    case SendingOutcome(_) => a := SendOutcome;
  }

  /** Until the call has returned and the walk has ended, some step of the program is possible. */
  lemma NeverStuck(requested: int, entries: seq<Entry>, acts: seq<Action>) returns (a: Action)
    requires IsRun(Init(requested, entries), acts)
    requires var s := After(Init(requested, entries), acts); !s.main.Returned? || !s.walker.Ended?
    ensures Enabled(After(Init(requested, entries), acts), a) && !a.CallerCancels?
  {
    InitInv(requested, entries);
    RunKeepsInv(Init(requested, entries), acts);
    var s := After(Init(requested, entries), acts);
    match s.main
    case Waiting =>
      if AllExited(s.pool) {
        a := Join;
      } else {
        var w :| 0 <= w < |s.pool.workers| && !s.pool.workers[w].Exited?;
        if s.pool.inner.Some? || s.pool.buffer != [] || s.pool.closed {
          a := WorkerActs(w, SomeWorkerAction(s.pool, w));
        } else {
          a := WalkerCanMove(s);
        }
      }
    case Joined(_) => a := CancelFromMain;
    case Collecting(_) =>
      if s.walkErrCh.Some? {
        a := Collect;
      } else {
        a := WalkerCanMove(s);
      }
    case Returned(_) => a := WalkerCanMove(s);
  }
}
