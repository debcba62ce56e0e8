/**
  The Store custom resource and the cluster objects the operator keeps for it, reduced to what the
  lifecycle decides on. Hashes are collision-free, so an applied object is its desired content.
*/
module StoreModel {
  import opened Wrappers
  import opened JobVerdict

  type Image = string

  /** api/v1/store_status.go; a status may also name a state that no manager is registered for. */
  datatype AppState =
    | StateEmpty | StateWait | StateSetup | StateSetupError | StateInitializing
    | StateMigration | StateMigrationError | StateReady
    | Unregistered(name: string)

  /** One flag for each external service the wait state looks at. */
  datatype Services = Services(database: bool, s3: bool, fastly: bool, opensearch: bool)

  /**
    `config` stands for everything else that ends up in jobs and deployments, `checked` for the
    service checks that are enabled and configured.
  */
  datatype Spec = Spec(
    image: Image,
    config: nat,
    storefrontReplicas: int,
    adminReplicas: int,
    workerReplicas: int,
    workerMinReplicas: int,
    suspend: bool,
    kedaScaling: bool,
    disableChecks: bool,
    checked: Services)

  datatype QueueState = QueueState(transports: seq<string>, error: string)

  datatype Status = Status(state: AppState, currentImageTag: Image, queue: QueueState)

  /** The migration job is built from the spec and from the image it migrates away from. */
  datatype JobContent = SetupContent(image: Image, config: nat) | MigrationContent(image: Image, config: nat, from: Image)

  datatype JobObject = JobObject(content: JobContent, verdict: JobState)

  /** Generated names; the operator did not create a Foreign one. */
  datatype DeploymentName = Storefront | Admin | SharedWorker | QueueWorker(queue: string) | Foreign(name: string)

  datatype Workload = Workload(image: Image, config: nat, replicas: int, queues: seq<string>)

  datatype ReplicaStatus = ReplicaStatus(available: int, replicas: int, unavailable: int, deadlineExceeded: bool)

  /** `workerLabels`: the object carries the labels by which worker deployments of the store are listed. */
  datatype Deployment = Deployment(workload: Workload, workerLabels: bool, status: ReplicaStatus)

  datatype CronJob = CronJob(image: Image, config: nat, suspend: bool)

  /** Migration jobs are named after a hash of the image tag they start from. */
  datatype Cluster = Cluster(
    setupJob: Option<JobObject>,
    migrationJobs: map<Image, JobObject>,
    deployments: map<DeploymentName, Deployment>,
    cronJob: Option<CronJob>)

  const NEW_JOB := JobState(0, true)
  const NEW_REPLICAS := ReplicaStatus(0, 0, 0, false)

  // ---------------------------------------------------------------- desired objects

  function SetupJob(spec: Spec): JobContent {
    SetupContent(spec.image, spec.config)
  }

  function MigrationJob(spec: Spec, status: Status): JobContent {
    MigrationContent(spec.image, spec.config, status.currentImageTag)
  }

  function FindJob(jobs: map<Image, JobObject>, tag: Image): Option<JobObject> {
    if tag in jobs then Some(jobs[tag]) else None
  }

  predicate IsWorker(name: DeploymentName) {
    name.SharedWorker? || name.QueueWorker?
  }

  function Replicas(spec: Spec, name: DeploymentName): int {
    match name
    case Storefront => spec.storefrontReplicas
    case Admin => spec.adminReplicas
    case _ => if spec.kedaScaling then spec.workerMinReplicas else spec.workerReplicas
  }

  /** The content of a generated deployment is determined by its name. */
  function DesiredWorkload(spec: Spec, queue: QueueState, name: DeploymentName): Workload {
    Workload(spec.image, spec.config, Replicas(spec, name),
      match name
      case SharedWorker => queue.transports
      case QueueWorker(q) => [q]
      case _ => [])
  }

  predicate ValidQueues(queue: QueueState) {
    "" !in queue.transports
  }

  function PerQueue(transports: seq<string>): (names: seq<DeploymentName>)
    ensures |names| == |transports| && forall i :: 0 <= i < |names| ==> names[i] == QueueWorker(transports[i])
  {
    if transports == [] then [] else [QueueWorker(transports[0])] + PerQueue(transports[1..])
  }

  /** One deployment per queue with KEDA scaling, otherwise one for all; a single queue always gives its name. */
  function WorkerNames(spec: Spec, queue: QueueState): (names: seq<DeploymentName>)
    ensures forall n :: n in names ==> IsWorker(n)
  {
    if queue.transports == [] then []
    else if spec.kedaScaling then PerQueue(queue.transports)
    else if |queue.transports| == 1 then [QueueWorker(queue.transports[0])]
    else [SharedWorker]
  }

  /** The queues that the deployment of this name consumes. */
  function Consumes(spec: Spec, queue: QueueState, name: DeploymentName): seq<string> {
    DesiredWorkload(spec, queue, name).queues
  }

  predicate Consumed(spec: Spec, queue: QueueState, names: seq<DeploymentName>, q: string) {
    exists n :: n in names && q in Consumes(spec, queue, n)
  }

  lemma PerQueueHas(transports: seq<string>, n: DeploymentName)
    ensures n in PerQueue(transports) <==> n.QueueWorker? && n.queue in transports
  {
    var names := PerQueue(transports);
    if n.QueueWorker? && n.queue in transports {
      var i :| 0 <= i < |transports| && transports[i] == n.queue;
      assert names[i] == n;
    }
  }

  /** A worker consumes its own queue, or all of them if it is the only one. */
  lemma WorkerConsumes(spec: Spec, queue: QueueState, n: DeploymentName, q: string)
    requires n in WorkerNames(spec, queue)
    ensures q in Consumes(spec, queue, n) <==> q in queue.transports && (spec.kedaScaling ==> n == QueueWorker(q))
  {
    if spec.kedaScaling {
      PerQueueHas(queue.transports, n);
    }
  }

  /**
    The generated workers share the known queues among them: the consumed queues are the known ones,
    each of them is consumed by one worker only, and without KEDA scaling there is at most one worker.
  */
  lemma EveryQueueHasOneWorker(spec: Spec, queue: QueueState)
    ensures forall q :: Consumed(spec, queue, WorkerNames(spec, queue), q) <==> q in queue.transports
    ensures forall m, n, q | m in WorkerNames(spec, queue) && n in WorkerNames(spec, queue) ::
      q in Consumes(spec, queue, m) && q in Consumes(spec, queue, n) ==> m == n
    ensures !spec.kedaScaling ==> |WorkerNames(spec, queue)| <= 1
  {
    var names := WorkerNames(spec, queue);
    forall q ensures Consumed(spec, queue, names, q) <==> q in queue.transports {
      if q in queue.transports {
        var n := if spec.kedaScaling then QueueWorker(q) else names[0];
        PerQueueHas(queue.transports, n);
        WorkerConsumes(spec, queue, n, q);
      } else if Consumed(spec, queue, names, q) {
        var n :| n in names && q in Consumes(spec, queue, n);
        WorkerConsumes(spec, queue, n, q);
      }
    }
    forall m, n, q | m in names && n in names && q in Consumes(spec, queue, m) && q in Consumes(spec, queue, n) ensures m == n {
      WorkerConsumes(spec, queue, m, q);
      WorkerConsumes(spec, queue, n, q);
    }
  }

  /** A single queue gives the same deployment with and without KEDA scaling, its name included. */
  lemma SingleQueueKeepsItsName(spec: Spec, queue: QueueState)
    requires |queue.transports| == 1
    ensures WorkerNames(spec.(kedaScaling := true), queue) == WorkerNames(spec.(kedaScaling := false), queue) == [QueueWorker(queue.transports[0])]
  {
    var keda := WorkerNames(spec.(kedaScaling := true), queue);
    assert keda == [keda[0]];
  }

  // ---------------------------------------------------------------- deployment states

  datatype DeploymentState = Running | Scaling | Unknown | NotFound | Failing

  /** getDeploymentCondition of internal/deployment/util.go */
  function ConditionOf(s: ReplicaStatus, storeReplicas: int): DeploymentState {
    if s.available == s.replicas then Running
    else if s.available != s.replicas then
      if s.available > 0 || storeReplicas == 0 then Running
      else if s.deadlineExceeded then Failing
      else Scaling
    else if s.unavailable > 0 then Failing
    else Unknown
  }

  /** No replica is available, although some are asked for and the counts differ. */
  predicate IsDown(s: ReplicaStatus, storeReplicas: int) {
    s.available != s.replicas && s.available <= 0 && storeReplicas != 0
  }

  /** The branches for unavailable replicas and for an unknown state are never reached. */
  lemma ConditionIsDecided(s: ReplicaStatus, storeReplicas: int)
    ensures ConditionOf(s, storeReplicas).Running? <==> !IsDown(s, storeReplicas)
    ensures ConditionOf(s, storeReplicas).Failing? <==> IsDown(s, storeReplicas) && s.deadlineExceeded
    ensures ConditionOf(s, storeReplicas).Scaling? <==> IsDown(s, storeReplicas) && !s.deadlineExceeded
  {
  }

  /** A job that was just created has no pods and no counts; it is reported as running. */
  lemma NewJobIsRunning(containers: seq<string>, container: string)
    ensures Verdict(Job(containers, 0, 0), [], container) == NEW_JOB
  {
  }
}
