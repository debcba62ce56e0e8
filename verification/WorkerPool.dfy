/**
  The worker pool of internal/util/s3.go (runWorkers): N goroutines that take items from a bounded
  channel, a capacity-one error channel, and two nested cancellation contexts. The producer and the
  caller of runWorkers differ between download and upload and live in their own modules.
*/
module WorkerPool {
  import opened Wrappers

  /** Go errors, as far as errors.Is can look into them. */
  datatype Error =
    | Canceled
    | DeadlineExceeded
    | Other(code: nat)
    | Wrapped(what: string, cause: Error)

  /** errors.Is(err, context.Canceled) */
  predicate IsCanceled(e: Error) {
    match e
    case Canceled => true
    case Wrapped(_, cause) => IsCanceled(cause)
    case _ => false
  }

  /** Program counter of one worker goroutine. */
  datatype Worker =
    | Idle                            // in the select over the context and the item channel
    | Running(item: nat)              // inside the callback
    | Failed(item: nat, err: Error)   // the callback failed, the error is not yet reported
    | Cancelling                      // the error is reported, cancel() comes next
    | Exited

  /**
    `outer` is the context handed to runWorkers, `inner` the one it derives; each holds the error it
    was cancelled with. `succeeded`, `lost` and `raised` record what the callbacks did.
  */
  datatype Pool = Pool(
    capacity: nat,
    workers: seq<Worker>,
    buffer: seq<nat>,
    closed: bool,
    errCh: Option<Error>,
    outer: Option<Error>,
    inner: Option<Error>,
    succeeded: multiset<nat>,
    lost: multiset<nat>,
    raised: set<Error>)

  /** The number of workers, and the channel capacity, for a requested batch size. */
  function Effective(requested: int): (n: nat)
    ensures n >= 1
  {
    if requested <= 0 then 1 else requested
  }

  function NewPool(requested: int): Pool {
    var n := Effective(requested);
    Pool(n, seq(n, _ => Idle), [], false, None, None, None, multiset{}, multiset{}, {})
  }

  function FirstCause(ctx: Option<Error>, e: Error): Option<Error> {
    if ctx.Some? then ctx else Some(e)
  }

  /** Cancelling a context cancels the contexts derived from it. */
  function CancelOuter(p: Pool, e: Error): Pool {
    p.(outer := FirstCause(p.outer, e), inner := FirstCause(p.inner, e))
  }

  function CancelInner(p: Pool): Pool {
    p.(inner := FirstCause(p.inner, Canceled))
  }

  // ---------------------------------------------------------------- worker steps

  datatype WorkerAction =
    | StopOnCancel
    | Take
    | StopOnClose
    | Succeed
    | Fail(err: Error)
    | Report
    | CancelPool

  predicate WorkerEnabled(p: Pool, w: nat, a: WorkerAction) {
    && w < |p.workers|
    && match a
       case StopOnCancel => p.workers[w].Idle? && p.inner.Some?
       case Take => p.workers[w].Idle? && p.buffer != []
       case StopOnClose => p.workers[w].Idle? && p.buffer == [] && p.closed
       case Succeed => p.workers[w].Running?
       case Fail(_) => p.workers[w].Running?
       case Report => p.workers[w].Failed?
       case CancelPool => p.workers[w].Cancelling?
  }

  function WorkerStep(p: Pool, w: nat, a: WorkerAction): Pool
    requires WorkerEnabled(p, w, a)
  {
    match a
    case StopOnCancel => p.(workers := p.workers[w := Exited])
    case Take => p.(workers := p.workers[w := Running(p.buffer[0])], buffer := p.buffer[1..])
    case StopOnClose => p.(workers := p.workers[w := Exited])
    case Succeed =>
      p.(workers := p.workers[w := Idle], succeeded := p.succeeded + multiset{p.workers[w].item})
    case Fail(err) =>
      p.(workers := p.workers[w := Failed(p.workers[w].item, err)], raised := p.raised + {err})
    case Report =>
      var q := p.(lost := p.lost + multiset{p.workers[w].item});
      if p.errCh.None?
      then q.(errCh := Some(p.workers[w].err), workers := p.workers[w := Cancelling])
      else q.(workers := p.workers[w := Exited])
    case CancelPool => CancelInner(p).(workers := p.workers[w := Exited])
  }

  /** A callback fails with a cancellation error only once its context is cancelled. */
  predicate Honest(p: Pool, a: WorkerAction) {
    a.Fail? && IsCanceled(a.err) ==> p.inner.Some?
  }

  // ---------------------------------------------------------------- producer steps on the pool

  predicate HasRoom(p: Pool) {
    |p.buffer| < p.capacity
  }

  function Push(p: Pool, item: nat): Pool {
    p.(buffer := p.buffer + [item])
  }

  function Drop(p: Pool, item: nat): Pool {
    p.(lost := p.lost + multiset{item})
  }

  function Close(p: Pool): Pool {
    p.(closed := true)
  }

  predicate AllExited(p: Pool) {
    forall w :: 0 <= w < |p.workers| ==> p.workers[w].Exited?
  }

  /** What runWorkers returns once every worker has exited. */
  function Verdict(p: Pool): Option<Error> {
    if p.errCh.Some? then p.errCh else p.inner
  }

  // ---------------------------------------------------------------- where every item is

  function HeldBy(w: Worker, item: nat): nat {
    if (w.Running? || w.Failed?) && w.item == item then 1 else 0
  }

  /** How many workers have the item in their hands. */
  function Holders(ws: seq<Worker>, item: nat): nat {
    if ws == [] then 0 else HeldBy(ws[0], item) + Holders(ws[1..], item)
  }

  function Occurrences(items: seq<nat>, item: nat): nat {
    if items == [] then 0 else (if items[0] == item then 1 else 0) + Occurrences(items[1..], item)
  }

  /** In how many places the pool has the item: processed, lost, with a worker or still buffered. */
  function Places(p: Pool, item: nat): nat {
    p.succeeded[item] + p.lost[item] + Holders(p.workers, item) + Occurrences(p.buffer, item)
  }

  lemma {:induction false} HoldersUpdate(ws: seq<Worker>, w: nat, x: Worker, item: nat)
    requires w < |ws|
    ensures Holders(ws[w := x], item) + HeldBy(ws[w], item) == Holders(ws, item) + HeldBy(x, item)
  {
    var us := ws[w := x];
    if w == 0 {
      assert us[1..] == ws[1..];
    } else {
      assert us[1..] == ws[1..][w - 1 := x];
      HoldersUpdate(ws[1..], w - 1, x, item);
    }
  }

  lemma {:induction false} NoHolders(ws: seq<Worker>, item: nat)
    requires forall w :: 0 <= w < |ws| ==> !ws[w].Running? && !ws[w].Failed?
    ensures Holders(ws, item) == 0
  {
    if ws != [] {
      NoHolders(ws[1..], item);
    }
  }

  lemma {:induction false} OccurrencesAppend(items: seq<nat>, last: nat, item: nat)
    ensures Occurrences(items + [last], item) == Occurrences(items, item) + if last == item then 1 else 0
  {
    if items != [] {
      assert (items + [last])[1..] == items[1..] + [last];
      OccurrencesAppend(items[1..], last, item);
    }
  }

  /** No worker step creates, duplicates or forgets an item. */
  lemma WorkerStepConserves(p: Pool, w: nat, a: WorkerAction, item: nat)
    requires WorkerEnabled(p, w, a)
    ensures Places(WorkerStep(p, w, a), item) == Places(p, item)
  {
    HoldersUpdate(p.workers, w, WorkerStep(p, w, a).workers[w], item);
  }

  lemma PushPlaces(p: Pool, pushed: nat, item: nat)
    ensures Places(Push(p, pushed), item) == Places(p, item) + if pushed == item then 1 else 0
  {
    OccurrencesAppend(p.buffer, pushed, item);
  }

  lemma {:induction false} NewPoolPlaces(requested: int, item: nat)
    ensures Places(NewPool(requested), item) == 0
  {
    NoHolders(NewPool(requested).workers, item);
  }

  // ---------------------------------------------------------------- concurrency bound

  function InFlight(ws: seq<Worker>): (n: nat)
    ensures n <= |ws|
  {
    if ws == [] then 0 else (if ws[0].Running? then 1 else 0) + InFlight(ws[1..])
  }

  // ---------------------------------------------------------------- invariants of the pool

  predicate PoolInv(p: Pool) {
    && 1 <= p.capacity
    && |p.workers| == p.capacity
    && |p.buffer| <= p.capacity
    && (p.outer.Some? ==> p.inner.Some?)
    && (p.inner.Some? ==> p.outer.Some? || p.errCh.Some?)
    && (p.lost != multiset{} ==> p.outer.Some? || p.errCh.Some?)
    && (p.errCh.Some? ==> p.errCh.value in p.raised)
    && forall w :: 0 <= w < |p.workers| ==> WorkerInv(p, p.workers[w])
  }

  /** In particular a worker gives up only on a cancellation, a reported error or a drained channel. */
  predicate WorkerInv(p: Pool, w: Worker) {
    match w
    case Idle => true
    case Running(_) => true
    case Failed(_, err) => err in p.raised
    case Cancelling => p.errCh.Some?
    case Exited => p.inner.Some? || p.errCh.Some? || (p.closed && p.buffer == [])
  }

  /** With honest callbacks a cancellation error in the pool is explained by the outer context. */
  predicate HonestInv(p: Pool) {
    && (p.errCh.Some? && IsCanceled(p.errCh.value) ==> p.outer.Some?)
    && forall w :: 0 <= w < |p.workers| && p.workers[w].Failed? && IsCanceled(p.workers[w].err) ==> p.inner.Some?
  }

  lemma WorkerStepKeepsInv(p: Pool, w: nat, a: WorkerAction)
    requires PoolInv(p) && WorkerEnabled(p, w, a)
    ensures PoolInv(WorkerStep(p, w, a))
  {
    var q := WorkerStep(p, w, a);
    forall v | 0 <= v < |q.workers| ensures WorkerInv(q, q.workers[v]) {
      assert WorkerInv(p, p.workers[v]);
      assert WorkerInv(p, p.workers[w]);
    }
  }

  lemma WorkerStepKeepsHonest(p: Pool, w: nat, a: WorkerAction)
    requires PoolInv(p) && HonestInv(p) && WorkerEnabled(p, w, a) && Honest(p, a)
    ensures HonestInv(WorkerStep(p, w, a))
  {
  }

  lemma CancelOuterKeepsInv(p: Pool, e: Error)
    requires PoolInv(p)
    ensures PoolInv(CancelOuter(p, e))
    ensures HonestInv(p) ==> HonestInv(CancelOuter(p, e))
  {
    var q := CancelOuter(p, e);
    forall v | 0 <= v < |q.workers| ensures WorkerInv(q, q.workers[v]) {
      assert WorkerInv(p, p.workers[v]);
    }
  }

  /** The channel is written only before it is closed, so a drained and closed channel stays drained. */
  lemma ProducerStepsKeepInv(p: Pool, item: nat)
    requires PoolInv(p)
    ensures !p.closed && HasRoom(p) ==> PoolInv(Push(p, item))
    ensures p.outer.Some? ==> PoolInv(Drop(p, item))
    ensures PoolInv(Close(p))
    ensures HonestInv(p) ==> HonestInv(Push(p, item)) && HonestInv(Drop(p, item)) && HonestInv(Close(p))
  {
    forall q | q in {Push(p, item), Drop(p, item), Close(p)}
      ensures (q == Push(p, item) ==> !p.closed) ==>
        forall v :: 0 <= v < |q.workers| ==> WorkerInv(q, q.workers[v])
    {
      if q == Push(p, item) ==> !p.closed {
        forall v | 0 <= v < |q.workers| ensures WorkerInv(q, q.workers[v]) {
          assert WorkerInv(p, p.workers[v]);
        }
      }
    }
  }

  /** A reported error is followed by a cancellation: it has happened, or its reporter is about to do it. */
  predicate CancelInv(p: Pool) {
    p.errCh.Some? ==> p.inner.Some? || exists w :: 0 <= w < |p.workers| && p.workers[w].Cancelling?
  }

  lemma CancelPersists(p: Pool, q: Pool)
    requires CancelInv(p) && q.workers == p.workers && q.errCh == p.errCh && (p.inner.Some? ==> q.inner.Some?)
    ensures CancelInv(q)
  {
  }

  lemma WorkerStepKeepsCancel(p: Pool, w: nat, a: WorkerAction)
    requires CancelInv(p) && WorkerEnabled(p, w, a)
    ensures CancelInv(WorkerStep(p, w, a))
  {
    var q := WorkerStep(p, w, a);
    if q.inner.None? && q.errCh.Some? {
      if a.Report? && p.errCh.None? {
        assert q.workers[w].Cancelling?;
      } else {
        var v :| 0 <= v < |p.workers| && p.workers[v].Cancelling?;
        assert q.workers[v].Cancelling?;
      }
    }
  }

  /**
    runWorkers returns nil only after draining a closed channel: no error was reported, nothing was
    cancelled and every item handed to the pool was processed successfully.
  */
  lemma NilVerdict(p: Pool)
    requires PoolInv(p) && AllExited(p) && Verdict(p).None?
    ensures p.closed && p.outer.None?
    ensures forall item: nat :: Places(p, item) == p.succeeded[item]
  {
    assert WorkerInv(p, p.workers[0]);
    forall item: nat ensures Places(p, item) == p.succeeded[item] {
      NoHolders(p.workers, item);
    }
  }

  // ---------------------------------------------------------------- progress

  function WorkerRank(w: Worker): nat {
    match w
    case Exited => 0
    case Cancelling => 1
    case Failed(_, _) => 2
    case Idle => 3
    case Running(_) => 4
  }

  function WorkersRank(ws: seq<Worker>): nat {
    if ws == [] then 0 else WorkerRank(ws[0]) + WorkersRank(ws[1..])
  }

  function PoolRank(p: Pool): nat {
    2 * |p.buffer| + WorkersRank(p.workers)
  }

  lemma {:induction false} WorkersRankUpdate(ws: seq<Worker>, w: nat, x: Worker)
    requires w < |ws|
    ensures WorkersRank(ws[w := x]) + WorkerRank(ws[w]) == WorkersRank(ws) + WorkerRank(x)
  {
    var us := ws[w := x];
    if w == 0 {
      assert us[1..] == ws[1..];
    } else {
      assert us[1..] == ws[1..][w - 1 := x];
      WorkersRankUpdate(ws[1..], w - 1, x);
    }
  }

  lemma {:induction false} WorkersRankBound(ws: seq<Worker>)
    requires forall w :: 0 <= w < |ws| ==> ws[w].Idle?
    ensures WorkersRank(ws) == 3 * |ws|
  {
    if ws != [] {
      WorkersRankBound(ws[1..]);
    }
  }

  lemma WorkerStepProgresses(p: Pool, w: nat, a: WorkerAction)
    requires WorkerEnabled(p, w, a)
    ensures PoolRank(WorkerStep(p, w, a)) < PoolRank(p)
  {
    WorkersRankUpdate(p.workers, w, WorkerStep(p, w, a).workers[w]);
  }

  /** A worker that has not exited can always move, unless it waits for an empty open channel. */
  function SomeWorkerAction(p: Pool, w: nat): (a: WorkerAction)
    requires w < |p.workers| && !p.workers[w].Exited?
    requires p.inner.Some? || p.buffer != [] || p.closed
    ensures WorkerEnabled(p, w, a)
  {
    match p.workers[w]
    case Idle => if p.inner.Some? then StopOnCancel else if p.buffer != [] then Take else StopOnClose
    case Running(_) => Succeed
    case Failed(_, _) => Report
    case Cancelling => CancelPool
  }
}
