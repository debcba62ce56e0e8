/**
  The StoreExec controller: internal/controller/storeexec_controller.go (Reconcile, cleanup) and
  internal/controller/storeexec_status.go (reconcileCRStatus, stateRunning). Every read and write of
  the API server is an input, and so is the clock.
*/
module StoreExec {
  import opened Wrappers
  import opened ConditionLog
  import opened JobVerdict

  datatype ExecState = ExecEmpty | ExecWait | ExecRunning | ExecDone | ExecError

  function StateName(s: ExecState): string {
    match s
    case ExecEmpty => ""
    case ExecWait => "wait"
    case ExecRunning => "running"
    case ExecDone => "done"
    case ExecError => "error"
  }

  datatype Spec = Spec(cronSchedule: string, cleanupSuccessful: int, cleanupError: int)

  /** `deleting` is a set DeletionTimestamp. */
  datatype Exec = Exec(spec: Spec, deleting: bool, state: ExecState, conditions: seq<Condition>)

  /** The persisted object, the command job, and how many jobs the operator has created so far. */
  datatype World = World(exec: Option<Exec>, job: Option<JobState>, jobsCreated: nat)

  datatype StoreRead = StoreFound(ready: bool) | StoreMissing | StoreFailed

  /** A job that differs is deleted and created again, which can fail half way. */
  datatype JobWrite = JobWritten | JobRefused | JobDeletedOnly

  datatype JobRead = JobFound | JobFailed | PodsFailed

  /**
    What the API server answers during one reconcile: `jobDiffers` whether the existing command job
    differs from the desired one, `jobWrite` what becomes of an attempt to apply it, `statusWrites`
    whether the status update succeeds.
  */
  datatype Input = Input(
    now: int,
    execReads: bool,
    deletes: bool,
    store: StoreRead,
    jobDiffers: bool,
    jobWrite: JobWrite,
    jobRead: JobRead,
    statusWrites: bool)

  predicate Finished(e: Exec) {
    e.state == ExecDone || e.state == ExecError
  }

  predicate OneShot(e: Exec) {
    e.spec.cronSchedule == ""
  }

  // ---------------------------------------------------------------- cleanup

  /** The period that applies, if finished executions of this kind are cleaned up at all. */
  function CleanupPeriodFor(e: Exec): Option<int> {
    if e.deleting || !OneShot(e) then None
    else if e.state == ExecDone && e.spec.cleanupSuccessful > 0 then Some(e.spec.cleanupSuccessful)
    else if e.state == ExecError && e.spec.cleanupError > 0 then Some(e.spec.cleanupError)
    else None
  }

  /** The latest recorded transition. */
  function LatestTransition(conditions: seq<Condition>): Option<int> {
    if conditions == [] then None
    else if conditions[|conditions| - 1].transition.Some? then conditions[|conditions| - 1].transition
    else LatestTransition(conditions[..|conditions| - 1])
  }

  method StoreExecFinishedAt(e: Exec) returns (at: Option<int>)
    ensures at == if Finished(e) then LatestTransition(e.conditions) else None
  {
    if !(e.state == ExecDone || e.state == ExecError) {
      return None;
    }
    var i := |e.conditions|;
    assert e.conditions[..i] == e.conditions;
    while i > 0
      invariant 0 <= i <= |e.conditions|
      invariant LatestTransition(e.conditions) == LatestTransition(e.conditions[..i])
    {
      assert e.conditions[..i][..i - 1] == e.conditions[..i - 1];
      i := i - 1;
      if e.conditions[i].transition.Some? {
        return e.conditions[i].transition;
      }
    }
    return None;
  }

  /** The time from which on the operator may delete the object. */
  function DeleteAfter(e: Exec): Option<int> {
    if CleanupPeriodFor(e).Some? && LatestTransition(e.conditions).Some?
    then Some(LatestTransition(e.conditions).value + CleanupPeriodFor(e).value)
    else None
  }

  // ---------------------------------------------------------------- status

  function Noted(state: ExecState, transition: Option<int>, now: int, message: string, reason: string, status: string): Condition {
    Condition(StateName(state), transition, now, message, reason, status)
  }

  /** stateRunning: the next state and the condition its deferred call appends. */
  function StateRunning(job: Option<JobState>, input: Input): (ExecState, Condition) {
    if input.jobRead.JobFailed? then
      (ExecRunning, Noted(ExecRunning, None, input.now, "Waiting for command job to get started", "get job", "Error"))
    else if job.None? then
      (ExecRunning, Noted(ExecRunning, None, input.now, "Waiting for command job to get started", "", "True"))
    else if input.jobRead.PodsFailed? then
      (ExecRunning, Noted(ExecRunning, None, input.now, "Waiting for command job to get started", "get pods", "Error"))
    else if job.value.IsFailure() then
      (ExecError, Noted(ExecError, Some(input.now), input.now, "Command is Done but has Errors. Check logs for more details", "Exit code", "Error"))
    else if job.value.IsSuccess() then
      (ExecDone, Noted(ExecDone, Some(input.now), input.now, "Command finished", "", "Ready"))
    else
      (ExecRunning, Noted(ExecRunning, None, input.now, "Waiting for command job to finish", "", "True"))
  }

  /** reconcileCRStatus, up to the write. */
  function NextStatus(e: Exec, job: Option<JobState>, input: Input): Exec {
    if !input.store.StoreFound? then
      e.(state := ExecWait,
         conditions := Added(e.conditions, Noted(ExecWait, None, input.now, "StoreRef not found", "StoreRef error", "Error")))
    else
      var started := if e.state == ExecEmpty || e.state == ExecWait then ExecRunning else e.state;
      if started == ExecRunning then
        var (next, noted) := StateRunning(job, input);
        e.(state := next, conditions := Added(e.conditions, noted))
      else e
  }

  // ---------------------------------------------------------------- one reconcile

  predicate WantsJob(e: Exec, input: Input) {
    && input.store == StoreFound(true) && e.state != ExecEmpty
    && OneShot(e) && !Finished(e)
  }

  /** The command job after an attempt to apply it, and whether a job was created. */
  function JobApplied(job: Option<JobState>, input: Input): (Option<JobState>, bool) {
    if job.Some? && !input.jobDiffers then (job, false)
    else match input.jobWrite
         case JobWritten => (Some(JobState(0, true)), true)
         case JobRefused => (job, false)
         case JobDeletedOnly => (None, false)
  }

  function Reconciled(w: World, input: Input): World {
    if !input.execReads || w.exec.None? then w
    else
      var e := w.exec.value;
      if DeleteAfter(e).Some? then
        if input.now >= DeleteAfter(e).value && input.deletes then w.(exec := None) else w
      else
        var (job, created) := if WantsJob(e, input) then JobApplied(w.job, input) else (w.job, false);
        var afterJob := w.(job := job, jobsCreated := w.jobsCreated + if created then 1 else 0);
        if input.statusWrites then afterJob.(exec := Some(NextStatus(e, afterJob.job, input))) else afterJob
  }

  class Controller {
    var exec: Option<Exec>
    var job: Option<JobState>
    var jobsCreated: nat

    ghost function State(): World
      reads this
    {
      World(exec, job, jobsCreated)
    }

    constructor (initial: Option<Exec>, existing: Option<JobState>)
      ensures State() == World(initial, existing, 0)
    {
      exec, job, jobsCreated := initial, existing, 0;
    }

    /** reconcileStoreExecCleanup; a failed delete counts as handled because it skips the status update too. */
    method ReconcileCleanup(e: Exec, input: Input) returns (handled: bool)
      requires exec == Some(e)
      modifies this
      ensures handled == DeleteAfter(e).Some?
      ensures job == old(job) && jobsCreated == old(jobsCreated)
      ensures exec == if handled && input.now >= DeleteAfter(e).value && input.deletes then None else old(exec)
    {
      var period := CleanupPeriodFor(e);
      if period.None? {
        return false;
      }
      var finishedAt := StoreExecFinishedAt(e);
      if finishedAt.None? {
        return false;
      }
      if finishedAt.value + period.value - input.now > 0 {
        return true;
      }
      if input.deletes {
        exec := None;
      }
      return true;
    }

    method ReconcileJob(input: Input)
      modifies this
      ensures exec == old(exec)
      ensures var (applied, created) := JobApplied(old(job), input);
        job == applied && jobsCreated == old(jobsCreated) + if created then 1 else 0
    {
      if job.None? || input.jobDiffers {
        match input.jobWrite
        case JobWritten =>
          job := Some(JobState(0, true));
          jobsCreated := jobsCreated + 1;
        case JobRefused =>
        case JobDeletedOnly =>
          job := None;
      }
    }

    method ReconcileStatus(e: Exec, input: Input)
      modifies this
      ensures job == old(job) && jobsCreated == old(jobsCreated)
      ensures exec == if input.statusWrites then Some(NextStatus(e, job, input)) else old(exec)
    {
      var state := e.state;
      var list := new ConditionsList(e.conditions);
      if !input.store.StoreFound? {
        state := ExecWait;
        list.AddCondition(Noted(state, None, input.now, "StoreRef not found", "StoreRef error", "Error"));
      } else if state == ExecEmpty || state == ExecWait {
        state := ExecRunning;
      }
      if state == ExecRunning {
        var (next, noted) := StateRunning(job, input);
        state := next;
        list.AddCondition(noted);
      }
      if input.statusWrites {
        exec := Some(e.(state := state, conditions := list.conditions));
      }
    }

    method Reconcile(input: Input)
      modifies this
      ensures State() == Reconciled(old(State()), input)
    {
      if !input.execReads || exec.None? {
        return;
      }
      var e := exec.value;
      var handled := ReconcileCleanup(e, input);
      if handled {
        return;
      }
      if input.store == StoreFound(true) && e.state != ExecEmpty && OneShot(e) && e.state != ExecDone && e.state != ExecError {
        ReconcileJob(input);
      }
      ReconcileStatus(e, input);
    }
  }

  // ---------------------------------------------------------------- runs

  /** Between reconciles the job makes progress or disappears; only the operator creates it. */
  datatype Step = Reconcile(input: Input) | JobMoves(job: Option<JobState>)

  predicate Possible(w: World, s: Step) {
    s.JobMoves? && w.job.None? ==> s.job.None?
  }

  function Stepped(w: World, s: Step): World {
    match s
    case Reconcile(input) => Reconciled(w, input)
    case JobMoves(job) => w.(job := job)
  }

  predicate IsRun(w: World, steps: seq<Step>)
    decreases |steps|
  {
    steps != [] ==> Possible(w, steps[0]) && IsRun(Stepped(w, steps[0]), steps[1..])
  }

  function After(w: World, steps: seq<Step>): World
    decreases |steps|
  {
    if steps == [] then w else After(Stepped(w, steps[0]), steps[1..])
  }

  /** A finished execution carries the time of the transition in its newest condition. */
  predicate Dated(e: Exec) {
    Finished(e) ==>
      && e.conditions != []
      && e.conditions[|e.conditions| - 1].transition.Some?
      && e.conditions[|e.conditions| - 1].kind == StateName(e.state)
  }

  lemma AddedIsLast(conditions: seq<Condition>, c: Condition)
    ensures Added(conditions, c) != [] && Added(conditions, c)[|Added(conditions, c)| - 1] == c
  {
  }

  lemma ReconcileKeepsDated(w: World, input: Input)
    requires w.exec.Some? ==> Dated(w.exec.value)
    ensures Reconciled(w, input).exec.Some? ==> Dated(Reconciled(w, input).exec.value)
  {
    if w.exec.Some? && input.store.StoreFound? {
      var afterJob := Reconciled(w, input).job;
      AddedIsLast(w.exec.value.conditions, StateRunning(afterJob, input).1);
    }
  }

  // ---------------------------------------------------------------- what one reconcile does

  /** The reconcile can read everything it needs and writes its status. */
  predicate Informed(input: Input) {
    input.execReads && input.statusWrites && input.store.StoreFound? && input.jobRead.JobFound?
  }

  predicate HasState(w: World, state: ExecState) {
    w.exec.Some? && w.exec.value.state == state
  }

  /** The next state of an unfinished execution, for every combination of answers. */
  lemma NextStateExactly(w: World, input: Input)
    requires w.exec.Some? && !Finished(w.exec.value)
    ensures var t := Reconciled(w, input);
      && t.exec.Some?
      && (!(input.execReads && input.statusWrites) ==> t.exec == w.exec)
      && (input.execReads && input.statusWrites && !input.store.StoreFound? ==> HasState(t, ExecWait))
      && (input.execReads && input.statusWrites && input.store.StoreFound? && !HasState(t, ExecDone) && !HasState(t, ExecError) ==> HasState(t, ExecRunning))
  {
  }

  /** It turns Done or Error exactly by a written reconcile that read the job that way. */
  lemma FinishesExactly(w: World, input: Input)
    requires w.exec.Some? && !Finished(w.exec.value)
    ensures var t := Reconciled(w, input);
      && (HasState(t, ExecDone) <==> Informed(input) && t.job.Some? && t.job.value.exitCode == 0 && !t.job.value.running)
      && (HasState(t, ExecError) <==> Informed(input) && t.job.Some? && t.job.value.exitCode != 0 && !t.job.value.running)
  {
  }

  predicate NotesFinish(c: Condition, state: ExecState, now: int) {
    c.kind == (if state == ExecDone then "done" else "error") && c.transition == Some(now) && c.updated == now
  }

  /** Its newest condition then names the state and the time. */
  lemma FinishIsNoted(w: World, input: Input)
    requires w.exec.Some? && !Finished(w.exec.value)
    requires Reconciled(w, input).exec.Some? && Finished(Reconciled(w, input).exec.value)
    ensures var e := Reconciled(w, input).exec.value;
      e.conditions != [] && NotesFinish(e.conditions[|e.conditions| - 1], e.state, input.now)
  {
    var t := Reconciled(w, input);
    var (next, noted) := StateRunning(t.job, input);
    FinishesExactly(w, input);
    AddedIsLast(w.exec.value.conditions, noted);
    assert t.exec.value.conditions == Added(w.exec.value.conditions, noted);
  }

  /** The reconcile applies the job: of a started, unfinished one-shot execution whose store is ready, if it lacks or differs. */
  predicate AppliesJob(w: World, input: Input) {
    && input.execReads && w.exec.Some? && w.exec.value.spec.cronSchedule == ""
    && w.exec.value.state in {ExecWait, ExecRunning}
    && input.store == StoreFound(true)
    && (w.job.None? || input.jobDiffers)
  }

  /** What becomes of the job, and when one is created: a new one is running. */
  lemma JobAppliedExactly(w: World, input: Input)
    ensures var t := Reconciled(w, input);
      && t.job == (if !AppliesJob(w, input) || input.jobWrite.JobRefused? then w.job
                   else if input.jobWrite.JobWritten? then Some(JobState(0, true)) else None)
      && t.jobsCreated == w.jobsCreated + if AppliesJob(w, input) && input.jobWrite.JobWritten? then 1 else 0
  {
  }

  /** The reconcile that finishes an execution has read the job as done, with or without errors. */
  predicate ReadAs(w: World, s: Step, failed: bool) {
    && s.Reconcile? && Informed(s.input)
    && var job := Reconciled(w, s.input).job;
       job.Some? && !job.value.running && (job.value.exitCode != 0 <==> failed)
  }

  predicate WasReadAs(w: World, steps: seq<Step>, failed: bool) {
    exists k :: 0 <= k < |steps| && ReadAs(After(w, steps[..k]), steps[k], failed)
  }

  lemma WasReadLater(w: World, steps: seq<Step>, failed: bool)
    requires steps != [] && WasReadAs(Stepped(w, steps[0]), steps[1..], failed)
    ensures WasReadAs(w, steps, failed)
  {
    var rest := steps[1..];
    var k :| 0 <= k < |rest| && ReadAs(After(Stepped(w, steps[0]), rest[..k]), rest[k], failed);
    assert steps[..k + 1][1..] == rest[..k];
    assert After(w, steps[..k + 1]) == After(Stepped(w, steps[0]), rest[..k]);
    assert steps[k + 1] == rest[k];
  }

  /**
    On every run, an execution that is Done goes back to a reconcile that read its job as done with exit
    code 0, and one in Error to a reconcile that read another exit code.
  */
  lemma {:induction false} FinishedWasRead(w: World, steps: seq<Step>, failed: bool)
    requires !HasState(w, if failed then ExecError else ExecDone)
    ensures HasState(After(w, steps), if failed then ExecError else ExecDone) ==> WasReadAs(w, steps, failed)
    decreases |steps|
  {
    var goal := if failed then ExecError else ExecDone;
    if steps != [] {
      var w1 := Stepped(w, steps[0]);
      if HasState(w1, goal) {
        NewlyFinished(w, steps[0], failed);
        assert After(w, steps[..0]) == w;
      } else {
        FinishedWasRead(w1, steps[1..], failed);
        if HasState(After(w, steps), goal) {
          WasReadLater(w, steps, failed);
        }
      }
    }
  }

  lemma NewlyFinished(w: World, s: Step, failed: bool)
    requires !HasState(w, if failed then ExecError else ExecDone) && HasState(Stepped(w, s), if failed then ExecError else ExecDone)
    ensures ReadAs(w, s, failed)
  {
    if s.Reconcile? && w.exec.Some? && !Finished(w.exec.value) {
      FinishesExactly(w, s.input);
    }
  }

  /** The cleanup period for the state a finished execution is in. */
  function Period(e: Exec): int {
    if e.state == ExecDone then e.spec.cleanupSuccessful else e.spec.cleanupError
  }

  /** A finished one-shot execution that is cleaned up and not already being deleted. */
  predicate Settled(e: Exec) {
    Finished(e) && Dated(e) && OneShot(e) && !e.deleting && Period(e) > 0
  }

  /** On every run from a fresh object a finished execution carries the time at which it finished. */
  lemma {:induction false} RunKeepsDated(w: World, steps: seq<Step>, spec: Spec, deleting: bool)
    requires w.exec.Some? ==> Dated(w.exec.value) && w.exec.value.spec == spec && w.exec.value.deleting == deleting
    ensures After(w, steps).exec.Some? ==>
      var e := After(w, steps).exec.value; Dated(e) && e.spec == spec && e.deleting == deleting
    decreases |steps|
  {
    if steps != [] {
      if steps[0].Reconcile? {
        ReconcileKeepsDated(w, steps[0].input);
      }
      RunKeepsDated(Stepped(w, steps[0]), steps[1..], spec, deleting);
    }
  }

  /** So a fresh one-shot execution with cleanup periods is settled as soon as it is done or failed. */
  lemma FreshExecutionSettles(e: Exec, job: Option<JobState>, steps: seq<Step>)
    requires e.state == ExecEmpty && OneShot(e) && !e.deleting && e.spec.cleanupSuccessful > 0 && e.spec.cleanupError > 0
    ensures var w := After(World(Some(e), job, 0), steps);
      w.exec.Some? && Finished(w.exec.value) ==> Settled(w.exec.value)
  {
    RunKeepsDated(World(Some(e), job, 0), steps, e.spec, false);
  }

  function FinishedAt(e: Exec): int
    requires Finished(e) && Dated(e)
  {
    e.conditions[|e.conditions| - 1].transition.value
  }

  /** The persisted object is still the settled one, or it was deleted by a reconcile that came late enough. */
  predicate StillSettled(e: Exec, created: nat, w: World) {
    (w.exec == Some(e) || w.exec.None?) && w.jobsCreated == created
  }

  predicate DeletesIn(w: World, s: Step) {
    w.exec.Some? && Stepped(w, s).exec.None?
  }

  /**
    Once done or failed, no later reconcile of a one-shot execution changes its status or creates a
    job, on any run: with lost status writes, failing reads, a missing store and any job movement.
  */
  lemma {:induction false} FinishedStaysFinished(w: World, steps: seq<Step>, e: Exec)
    requires w.exec == Some(e) || w.exec.None?
    requires Settled(e) && IsRun(w, steps)
    ensures StillSettled(e, w.jobsCreated, After(w, steps))
    decreases |steps|
  {
    if steps != [] {
      FinishedStaysFinished(Stepped(w, steps[0]), steps[1..], e);
    }
  }

  /** The operator deletes it no earlier than the recorded transition time plus the period for its state. */
  lemma DeletedOnlyAfterPeriod(w: World, steps: seq<Step>, e: Exec, s: Step)
    requires w.exec == Some(e) && Settled(e) && IsRun(w, steps)
    requires DeletesIn(After(w, steps), s)
    ensures s.Reconcile? && s.input.now >= FinishedAt(e) + Period(e)
  {
    FinishedStaysFinished(w, steps, e);
  }

  /** A reconcile deletes an execution exactly if it is a finished one-shot execution that is due; cron executions stay. */
  lemma DeletedExactlyWhenDue(w: World, input: Input, e: Exec)
    requires w.exec == Some(e)
    ensures Reconciled(w, input).exec.None? <==>
      && input.execReads && input.deletes
      && Finished(e) && e.spec.cronSchedule == "" && !e.deleting && Period(e) > 0
      && LatestTransition(e.conditions).Some? && input.now >= LatestTransition(e.conditions).value + Period(e)
  {
  }

  /** The latest transition is that of the last condition that has one. */
  lemma {:induction false} LatestIsLast(conditions: seq<Condition>, i: nat)
    requires i < |conditions| && conditions[i].transition.Some?
    requires forall j :: i < j < |conditions| ==> conditions[j].transition.None?
    ensures LatestTransition(conditions) == conditions[i].transition
  {
    if i < |conditions| - 1 {
      LatestIsLast(conditions[..|conditions| - 1], i);
    }
  }

  /**
    For a finished one-shot execution in general, a reconcile changes the status exactly when cleanup
    is off or a deletion is pending and the store cannot be read: the execution then starts over.
  */
  lemma FinishedResetExactly(w: World, input: Input, e: Exec)
    requires w.exec == Some(e) && Finished(e) && Dated(e) && OneShot(e)
    requires input.execReads && input.statusWrites
    ensures Reconciled(w, input).exec.None? || Reconciled(w, input).exec.value.state == e.state <==>
      (!e.deleting && Period(e) > 0) || input.store.StoreFound?
    ensures Reconciled(w, input).jobsCreated == w.jobsCreated
  {
  }

  /** The store cannot be read once, then it is back and the API server answers every call. */
  const LOST_STORE := Input(0, true, true, StoreFailed, false, JobWritten, JobFound, true)
  const STORE_BACK := Input(0, true, true, StoreFound(true), false, JobWritten, JobFound, true)

  lemma AfterTwo(w: World, a: Step, b: Step)
    requires Possible(w, a) && Possible(Stepped(w, a), b)
    ensures IsRun(w, [a, b]) && After(w, [a, b]) == Stepped(Stepped(w, a), b)
  {
    var w1, w2 := Stepped(w, a), Stepped(Stepped(w, a), b);
    assert [a, b][1..] == [b] && [b][1..] == [];
    assert After(w2, []) == w2 && IsRun(w2, []);
    assert After(w1, [b]) == w2 && IsRun(w1, [b]);
  }

  /** A finished execution without cleanup runs again after one failed read of its store. */
  lemma KeptExecutionRunsAgain(e: Exec) returns (steps: seq<Step>)
    requires Finished(e) && Dated(e) && OneShot(e) && (e.deleting || Period(e) <= 0)
    ensures IsRun(World(Some(e), None, 0), steps) && After(World(Some(e), None, 0), steps).jobsCreated == 1
  {
    var w0 := World(Some(e), None, 0);
    steps := [Reconcile(LOST_STORE), Reconcile(STORE_BACK)];
    AfterTwo(w0, steps[0], steps[1]);
    var w1 := Stepped(w0, steps[0]);
    assert w1.exec.value.state == ExecWait && w1.job.None?;
  }

  /** On every run its status stays until it is deleted, and no job is created. */
  ghost predicate StaysFinished(e: Exec) {
    forall w: World, steps: seq<Step> :: w.exec == Some(e) && IsRun(w, steps) ==> StillSettled(e, w.jobsCreated, After(w, steps))
  }

  /**
    A finished one-shot execution stays finished on every run if and only if it is not being deleted and
    the cleanup period for its state is positive.
  */
  lemma StaysFinishedExactly(e: Exec)
    requires Finished(e) && Dated(e) && OneShot(e)
    ensures StaysFinished(e) <==> !e.deleting && Period(e) > 0
  {
    if !e.deleting && Period(e) > 0 {
      forall w: World, steps: seq<Step> | w.exec == Some(e) && IsRun(w, steps) ensures StillSettled(e, w.jobsCreated, After(w, steps)) {
        FinishedStaysFinished(w, steps, e);
      }
    } else {
      var steps := KeptExecutionRunsAgain(e);
      assert !StillSettled(e, 0, After(World(Some(e), None, 0), steps));
    }
  }
}
