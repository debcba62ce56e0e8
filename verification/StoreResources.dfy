/**
  The resource phase of a reconcile: internal/manager/manager.go (ReconcileResources), the resource
  handlers and internal/manager/base/resources.go, specified as a plan of API operations that is
  executed in order until one of them fails.
*/
module StoreResources {
  import opened Wrappers
  import opened JobVerdict
  import opened StoreModel

  /** Auxiliary operations do not touch the modelled objects, but they can fail. */
  datatype Op =
    | Auxiliary(what: string)
    | InvalidQueueName
    | EnsureSetupJob
    | EnsureMigrationJob
    | EnsureDeployment(name: DeploymentName)
    | CleanupWorkers
    | EnsureCronJob(suspend: bool)

  /** Halfway: a job is deleted but not created again, or only some obsolete deployments are deleted. */
  datatype Outcome = Succeeds | Refused | Halfway(removed: set<DeploymentName>)

  // ---------------------------------------------------------------- the plan

  function InitOps(): seq<Op> {
    [Auxiliary("ingress"), Auxiliary("httproute"), Auxiliary("pdb")]
  }

  function EnsureAll(names: seq<DeploymentName>): (ops: seq<Op>)
    ensures |ops| == |names| && forall i :: 0 <= i < |ops| ==> ops[i] == EnsureDeployment(names[i])
  {
    if names == [] then [] else [EnsureDeployment(names[0])] + EnsureAll(names[1..])
  }

  function Generated(spec: Spec, queue: QueueState): seq<DeploymentName> {
    [Storefront, Admin] + WorkerNames(spec, queue)
  }

  /** ReconcileDeployment: workers are cleaned up only when the queue statistics have no error. */
  function DeploymentOps(spec: Spec, status: Status): seq<Op> {
    if !ValidQueues(status.queue) then [InvalidQueueName]
    else EnsureAll(Generated(spec, status.queue)) + if status.queue.error == "" then [CleanupWorkers] else []
  }

  /** The objects of a running store other than its deployments. */
  function ReadyTail(spec: Spec): seq<Op> {
    [Auxiliary("scaledobjects"), Auxiliary("services"), EnsureCronJob(spec.suspend), Auxiliary("hpa")]
  }

  function HandlerOps(spec: Spec, status: Status): seq<Op> {
    match status.state
    case StateSetup => [EnsureSetupJob]
    case StateSetupError => [EnsureSetupJob]
    case StateInitializing => DeploymentOps(spec, status) + [Auxiliary("scaledobjects")]
    case StateMigration => [EnsureMigrationJob, EnsureCronJob(true)]
    case StateMigrationError => [EnsureMigrationJob, EnsureCronJob(true)]
    case StateReady =>
      if status.currentImageTag != spec.image then [EnsureMigrationJob]
      else
        DeploymentOps(spec, status) + ReadyTail(spec)
    case _ => []
  }

  function Plan(spec: Spec, status: Status): seq<Op> {
    if status.state.StateEmpty? || status.state.StateWait? then InitOps()
    else InitOps() + [Auxiliary("app secrets")] + HandlerOps(spec, status)
  }

  // ---------------------------------------------------------------- executing it

  function AppliedJob(stored: Option<JobObject>, desired: JobContent, outcome: Outcome): Option<JobObject> {
    if stored.Some? && stored.value.content == desired then stored
    else match outcome
         case Succeeds => Some(JobObject(desired, NEW_JOB))
         case Refused => stored
         case Halfway(_) => None
  }

  function PutJob(jobs: map<Image, JobObject>, tag: Image, job: Option<JobObject>): map<Image, JobObject> {
    if job.Some? then jobs[tag := job.value] else jobs - {tag}
  }

  predicate IsApplied(spec: Spec, status: Status, c: Cluster, name: DeploymentName) {
    && name in c.deployments
    && c.deployments[name].workload == DesiredWorkload(spec, status.queue, name)
    && c.deployments[name].workerLabels == IsWorker(name)
  }

  function AppliedDeployment(spec: Spec, status: Status, c: Cluster, name: DeploymentName): Deployment {
    Deployment(DesiredWorkload(spec, status.queue, name), IsWorker(name),
      if name in c.deployments then c.deployments[name].status else NEW_REPLICAS)
  }

  function Obsolete(spec: Spec, status: Status, c: Cluster): set<DeploymentName> {
    set n | n in c.deployments && c.deployments[n].workerLabels && n !in WorkerNames(spec, status.queue)
  }

  /** The cluster after one operation with the given outcome; it returns an error unless it succeeds. */
  function Apply(spec: Spec, status: Status, c: Cluster, op: Op, outcome: Outcome): Cluster {
    match op
    case Auxiliary(_) => c
    case InvalidQueueName => c
    case EnsureSetupJob => c.(setupJob := AppliedJob(c.setupJob, SetupJob(spec), outcome))
    case EnsureMigrationJob =>
      var tag := status.currentImageTag;
      c.(migrationJobs := PutJob(c.migrationJobs, tag, AppliedJob(FindJob(c.migrationJobs, tag), MigrationJob(spec, status), outcome)))
    case EnsureDeployment(name) =>
      if outcome.Succeeds? then c.(deployments := c.deployments[name := AppliedDeployment(spec, status, c, name)]) else c
    case CleanupWorkers =>
      (match outcome
       case Succeeds => c.(deployments := c.deployments - Obsolete(spec, status, c))
       case Refused => c
       case Halfway(removed) => c.(deployments := c.deployments - (removed * Obsolete(spec, status, c))))
    case EnsureCronJob(suspend) =>
      if outcome.Succeeds? then c.(cronJob := Some(CronJob(spec.image, spec.config, suspend))) else c
  }

  predicate Passes(op: Op, outcome: Outcome) {
    outcome.Succeeds? && !op.InvalidQueueName?
  }

  /** The cluster after the plan, and whether every operation succeeded. */
  function Execute(spec: Spec, status: Status, c: Cluster, ops: seq<Op>, api: Op -> Outcome): (Cluster, bool)
    decreases |ops|
  {
    if ops == [] then (c, true)
    else
      var next := Apply(spec, status, c, ops[0], api(ops[0]));
      if Passes(ops[0], api(ops[0])) then Execute(spec, status, next, ops[1..], api) else (next, false)
  }

  // ---------------------------------------------------------------- reasoning about plans

  lemma {:induction false} ExecuteConcat(spec: Spec, status: Status, c: Cluster, a: seq<Op>, b: seq<Op>, api: Op -> Outcome)
    ensures var (mid, ok) := Execute(spec, status, c, a, api);
      Execute(spec, status, c, a + b, api) == if ok then Execute(spec, status, mid, b, api) else (mid, false)
    decreases |a|
  {
    if a == [] {
      assert a + b == b;
    } else {
      assert (a + b)[0] == a[0] && (a + b)[1..] == a[1..] + b;
      ExecuteConcat(spec, status, Apply(spec, status, c, a[0], api(a[0])), a[1..], b, api);
    }
  }

  lemma ExecuteOneMore(spec: Spec, status: Status, c: Cluster, rest: seq<Op>, op: Op, api: Op -> Outcome)
    ensures var result := Execute(spec, status, c, rest, api);
      Execute(spec, status, c, rest + [op], api) ==
        if result.1 then (Apply(spec, status, result.0, op, api(op)), Passes(op, api(op))) else result
  {
    ExecuteConcat(spec, status, c, rest, [op], api);
    ExecuteOne(spec, status, Execute(spec, status, c, rest, api).0, op, api);
  }

  lemma ExecuteOne(spec: Spec, status: Status, c: Cluster, op: Op, api: Op -> Outcome)
    ensures Execute(spec, status, c, [op], api) == (Apply(spec, status, c, op, api(op)), Passes(op, api(op)))
  {
    assert [op][1..] == [];
  }

  lemma ReadyTailInOrder(spec: Spec, status: Status, c: Cluster, api: Op -> Outcome)
    ensures var cron := Apply(spec, status, c, EnsureCronJob(spec.suspend), api(EnsureCronJob(spec.suspend)));
      Execute(spec, status, c, ReadyTail(spec), api) ==
        if !(api(Auxiliary("scaledobjects")).Succeeds? && api(Auxiliary("services")).Succeeds?) then (c, false)
        else (cron, api(EnsureCronJob(spec.suspend)).Succeeds? && api(Auxiliary("hpa")).Succeeds?)
  {
    var a, b, cron, d := Auxiliary("scaledobjects"), Auxiliary("services"), EnsureCronJob(spec.suspend), Auxiliary("hpa");
    assert ReadyTail(spec) == (([a] + [b]) + [cron]) + [d];
    ExecuteOne(spec, status, c, a, api);
    ExecuteOneMore(spec, status, c, [a], b, api);
    ExecuteOneMore(spec, status, c, [a] + [b], cron, api);
    ExecuteOneMore(spec, status, c, ([a] + [b]) + [cron], d, api);
  }

  /** A plan without a migration job operation leaves the migration jobs alone. */
  lemma {:induction false} ExecuteKeepsMigrationJobs(spec: Spec, status: Status, c: Cluster, ops: seq<Op>, api: Op -> Outcome)
    requires EnsureMigrationJob !in ops
    ensures Execute(spec, status, c, ops, api).0.migrationJobs == c.migrationJobs
    decreases |ops|
  {
    if ops != [] {
      assert ops[0] in ops;
      ExecuteKeepsMigrationJobs(spec, status, Apply(spec, status, c, ops[0], api(ops[0])), ops[1..], api);
    }
  }

  /** Only the outcomes of the operations in the plan matter. */
  lemma {:induction false} ExecuteCongruent(spec: Spec, status: Status, c: Cluster, ops: seq<Op>, a: Op -> Outcome, b: Op -> Outcome)
    requires forall op :: op in ops ==> a(op) == b(op)
    ensures Execute(spec, status, c, ops, a) == Execute(spec, status, c, ops, b)
    decreases |ops|
  {
    if ops != [] {
      assert ops[0] in ops;
      forall op | op in ops[1..] ensures op in ops { }
      ExecuteCongruent(spec, status, Apply(spec, status, c, ops[0], a(ops[0])), ops[1..], a, b);
    }
  }

  lemma {:induction false} EnsureAllApplies(spec: Spec, status: Status, c: Cluster, names: seq<DeploymentName>, api: Op -> Outcome)
    requires Execute(spec, status, c, EnsureAll(names), api).1
    decreases |names|
    ensures var after := Execute(spec, status, c, EnsureAll(names), api).0;
      && after == c.(deployments := after.deployments)
      && (forall n :: n in names ==> IsApplied(spec, status, after, n))
      && (forall n :: n !in names ==>
            (n in after.deployments <==> n in c.deployments) && (n in c.deployments ==> after.deployments[n] == c.deployments[n]))
      && (forall n :: n in c.deployments ==> n in after.deployments)
      && (forall n :: IsApplied(spec, status, c, n) ==> IsApplied(spec, status, after, n))
  {
    if names != [] {
      var ops := EnsureAll(names);
      assert ops[1..] == EnsureAll(names[1..]);
      var next := Apply(spec, status, c, ops[0], api(ops[0]));
      assert IsApplied(spec, status, next, names[0]);
      EnsureAllApplies(spec, status, next, names[1..], api);
      assert names == [names[0]] + names[1..];
    }
  }

  function WorkerSet(c: Cluster): set<DeploymentName> {
    set n | n in c.deployments && c.deployments[n].workerLabels
  }

  function NameSet(names: seq<DeploymentName>): set<DeploymentName> {
    set n | n in names
  }

  /** A deployment pass: every generated deployment, then the cleanup unless there is a queue error. */
  lemma EnsureThenCleanup(spec: Spec, status: Status, c: Cluster, api: Op -> Outcome)
    requires ValidQueues(status.queue)
    ensures var (mid, ok) := Execute(spec, status, c, EnsureAll(Generated(spec, status.queue)), api);
      Execute(spec, status, c, DeploymentOps(spec, status), api) ==
        if ok && status.queue.error == "" then (Apply(spec, status, mid, CleanupWorkers, api(CleanupWorkers)), api(CleanupWorkers).Succeeds?)
        else (mid, ok)
  {
    var ops := EnsureAll(Generated(spec, status.queue));
    if status.queue.error == "" {
      ExecuteOneMore(spec, status, c, ops, CleanupWorkers, api);
    } else {
      assert ops + [] == ops;
    }
  }

  /** A successful cleanup takes away no generated deployment and every worker that is not one. */
  lemma CleanupLeaves(spec: Spec, status: Status, c: Cluster)
    requires forall n :: n in Generated(spec, status.queue) ==> IsApplied(spec, status, c, n)
    ensures var after := Apply(spec, status, c, CleanupWorkers, Succeeds);
      && (forall n :: n in Generated(spec, status.queue) ==> IsApplied(spec, status, after, n))
      && WorkerSet(after) == NameSet(WorkerNames(spec, status.queue))
  {
    var after := Apply(spec, status, c, CleanupWorkers, Succeeds);
    var names := Generated(spec, status.queue);
    forall n | n in names ensures IsApplied(spec, status, after, n) {
      assert IsApplied(spec, status, c, n);
      assert n in [Storefront, Admin] || n in WorkerNames(spec, status.queue);
    }
    forall n ensures n in WorkerSet(after) <==> n in NameSet(WorkerNames(spec, status.queue)) {
      if n in WorkerNames(spec, status.queue) {
        assert n in names;
      }
    }
  }

  /**
    After a successful deployment pass every generated deployment is applied, and if the queue
    statistics carry no error, the deployments with the store's worker labels are exactly those that
    WorkerDeployments names.
  */
  lemma DeploymentPass(spec: Spec, status: Status, c: Cluster, api: Op -> Outcome)
    requires Execute(spec, status, c, DeploymentOps(spec, status), api).1
    ensures var after := Execute(spec, status, c, DeploymentOps(spec, status), api).0;
      && (forall n :: n in Generated(spec, status.queue) ==> IsApplied(spec, status, after, n))
      && (status.queue.error == "" ==> WorkerSet(after) == NameSet(WorkerNames(spec, status.queue)))
      && (status.queue.error != "" ==> forall n :: n in c.deployments ==> n in after.deployments)
  {
    var names := Generated(spec, status.queue);
    EnsureThenCleanup(spec, status, c, api);
    EnsureAllApplies(spec, status, c, names, api);
    if status.queue.error == "" {
      CleanupLeaves(spec, status, Execute(spec, status, c, EnsureAll(names), api).0);
    }
  }

  /** What the spec asks for in a deployment of this name. */
  predicate RunsSpec(spec: Spec, d: Deployment, name: DeploymentName) {
    && d.workload.image == spec.image && d.workload.config == spec.config
    && (name.Storefront? ==> d.workload.replicas == spec.storefrontReplicas && d.workload.queues == [] && !d.workerLabels)
    && (name.Admin? ==> d.workload.replicas == spec.adminReplicas && d.workload.queues == [] && !d.workerLabels)
    && (name.SharedWorker? || name.QueueWorker? ==>
          d.workerLabels && d.workload.replicas == if spec.kedaScaling then spec.workerMinReplicas else spec.workerReplicas)
  }

  /** An applied deployment runs what the spec asks for. */
  lemma AppliedRunsSpec(spec: Spec, status: Status, c: Cluster, name: DeploymentName)
    requires name in Generated(spec, status.queue) && IsApplied(spec, status, c, name)
    ensures name in c.deployments && RunsSpec(spec, c.deployments[name], name)
  {
  }

  /** A refused operation changes nothing. */
  lemma RefusedLeaves(spec: Spec, status: Status, c: Cluster, op: Op)
    ensures Apply(spec, status, c, op, Refused) == c
  {
    var tag := status.currentImageTag;
    if op.EnsureMigrationJob? {
      assert PutJob(c.migrationJobs, tag, FindJob(c.migrationJobs, tag)) == c.migrationJobs;
    }
  }

  /** Operations that do not succeed can only take objects away, and the setup job, jobs and workers alone. */
  lemma FailureOnlyRemoves(spec: Spec, status: Status, c: Cluster, op: Op, outcome: Outcome)
    requires !outcome.Succeeds?
    ensures var after := Apply(spec, status, c, op, outcome);
      && (after.setupJob == c.setupJob || after.setupJob.None?)
      && after.cronJob == c.cronJob
      && (forall tag :: tag in after.migrationJobs ==> tag in c.migrationJobs && after.migrationJobs[tag] == c.migrationJobs[tag])
      && (forall n :: n in after.deployments ==> n in c.deployments && after.deployments[n] == c.deployments[n])
      && (forall n :: n in c.deployments && n !in after.deployments ==> c.deployments[n].workerLabels && n !in WorkerNames(spec, status.queue))
  {
  }

  /** A job that is done stays what it was; a job the operator creates is not done. */
  predicate Untouched(before: Option<JobObject>, after: Option<JobObject>) {
    after.Some? ==> after == before || after.value.verdict == NEW_JOB
  }

  /** No operation of the operator gives a job its verdict. */
  lemma OperatorFinishesNoJob(spec: Spec, status: Status, c: Cluster, op: Op, outcome: Outcome, tag: Image)
    ensures var after := Apply(spec, status, c, op, outcome);
      Untouched(c.setupJob, after.setupJob) && Untouched(FindJob(c.migrationJobs, tag), FindJob(after.migrationJobs, tag))
  {
  }
}
