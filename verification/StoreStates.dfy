/**
  The status phase of a reconcile: the state handlers below internal/manager, the deployment states
  they look at, and the queue state that is refreshed after them. Conditions, messages and metrics
  do not feed back into the state and are not part of it.
*/
module StoreStates {
  import opened Wrappers
  import opened JobVerdict
  import opened StoreModel

  /** Error texts of the statistics call are never empty. */
  type ErrorText = s: string | s != "" witness "error"

  datatype Stats = Fetched(transports: seq<string>) | Failed(message: ErrorText)

  /** `connected`: the operator has a clientset and a rest config to reach pods with. */
  datatype Config = Config(disableServiceChecks: bool, connected: bool)

  /**
    What the calls of one status phase return beyond the cluster itself: which service checks pass,
    whether the job with its pods and the storefront image can be read, which deployments cannot be
    read, and the queue statistics of the admin pod.
  */
  datatype Observed = Observed(
    services: Services,
    job: bool,
    image: bool,
    unreadable: set<DeploymentName>,
    stats: Stats)

  // ---------------------------------------------------------------- deployment states

  function DeploymentStateOf(spec: Spec, c: Cluster, obs: Observed, name: DeploymentName): DeploymentState {
    if name in obs.unreadable then Failing
    else if name !in c.deployments then NotFound
    else ConditionOf(c.deployments[name].status, Replicas(spec, name))
  }

  /** stateRank of GetWorkerDeploymentCondition */
  function Rank(s: DeploymentState): nat {
    match s
    case Running => 0
    case Scaling => 1
    case Unknown => 2
    case NotFound => 3
    case Failing => 4
  }

  /** `agg` after looking at the first deployments, the first of equally bad states kept. */
  function Worst(spec: Spec, c: Cluster, obs: Observed, names: seq<DeploymentName>): DeploymentState {
    if names == [] then Running
    else
      var agg := Worst(spec, c, obs, names[..|names| - 1]);
      var con := DeploymentStateOf(spec, c, obs, names[|names| - 1]);
      if Rank(con) > Rank(agg) then con else agg
  }

  /** The aggregate is the worst state among the worker deployments, Running if there are none. */
  lemma {:induction false} WorstIsMaximal(spec: Spec, c: Cluster, obs: Observed, names: seq<DeploymentName>)
    ensures forall n :: n in names ==> Rank(DeploymentStateOf(spec, c, obs, n)) <= Rank(Worst(spec, c, obs, names))
    ensures Worst(spec, c, obs, names).Running? || exists n :: n in names && DeploymentStateOf(spec, c, obs, n) == Worst(spec, c, obs, names)
  {
    if names != [] {
      var rest, last := names[..|names| - 1], names[|names| - 1];
      WorstIsMaximal(spec, c, obs, rest);
      assert names == rest + [last];
      if Worst(spec, c, obs, names) == Worst(spec, c, obs, rest) && !Worst(spec, c, obs, rest).Running? {
        var n :| n in rest && DeploymentStateOf(spec, c, obs, n) == Worst(spec, c, obs, rest);
        assert n in names;
      } else {
        assert last in names;
      }
    }
  }

  function WorkerState(spec: Spec, queue: QueueState, c: Cluster, obs: Observed): DeploymentState {
    if !ValidQueues(queue) then Failing else Worst(spec, c, obs, WorkerNames(spec, queue))
  }

  /** refreshDeploymentStates: admin, worker, storefront */
  function DeploymentStates(spec: Spec, queue: QueueState, c: Cluster, obs: Observed): seq<DeploymentState> {
    [DeploymentStateOf(spec, c, obs, Admin), WorkerState(spec, queue, c, obs), DeploymentStateOf(spec, c, obs, Storefront)]
  }

  predicate AllRunning(spec: Spec, queue: QueueState, c: Cluster, obs: Observed) {
    forall s :: s in DeploymentStates(spec, queue, c, obs) ==> s.Running?
  }

  /** Replicas moved by an autoscaler do not count against a running store. */
  predicate AllAvailable(spec: Spec, queue: QueueState, c: Cluster, obs: Observed) {
    forall s :: s in DeploymentStates(spec, queue, c, obs) ==> s.Running? || s.Scaling?
  }

  // ---------------------------------------------------------------- state handlers

  predicate ServicesPass(spec: Spec, obs: Observed) {
    && (spec.checked.database ==> obs.services.database)
    && (spec.checked.s3 ==> obs.services.s3)
    && (spec.checked.fastly ==> obs.services.fastly)
    && (spec.checked.opensearch ==> obs.services.opensearch)
  }

  function WaitState(cfg: Config, spec: Spec, status: Status, obs: Observed): Status {
    status.(state :=
      if cfg.disableServiceChecks || spec.disableChecks then StateSetup
      else if status.state.StateEmpty? then StateWait
      else if ServicesPass(spec, obs) then StateSetup
      else StateWait)
  }

  /** The verdict the handler gets to see, if it can read the job and its pods. */
  function SeenVerdict(job: Option<JobObject>, obs: Observed): Option<JobState> {
    if obs.job && job.Some? then Some(job.value.verdict) else None
  }

  function SetupState(status: Status, c: Cluster, obs: Observed): Status {
    var seen := SeenVerdict(c.setupJob, obs);
    status.(state :=
      if seen.None? then StateSetup
      else if seen.value.IsFailure() then StateSetupError
      else if seen.value.IsSuccess() then StateInitializing
      else StateSetup)
  }

  function MigrationState(spec: Spec, status: Status, c: Cluster, obs: Observed): Status {
    var seen := SeenVerdict(FindJob(c.migrationJobs, status.currentImageTag), obs);
    if seen.None? then status.(state := StateMigration)
    else if seen.value.IsFailure() then status.(state := StateMigrationError)
    else if seen.value.IsSuccess() then status.(state := StateInitializing, currentImageTag := spec.image)
    else status.(state := StateMigration)
  }

  function InitializingState(spec: Spec, status: Status, c: Cluster, obs: Observed): Status {
    status.(
      currentImageTag := spec.image,
      state := if AllRunning(spec, status.queue, c, obs) then StateReady else StateInitializing)
  }

  function ReadyState(spec: Spec, status: Status, c: Cluster, obs: Observed): Status {
    if !obs.image then status
    else if Storefront !in c.deployments then status.(state := StateInitializing)
    else
      var deployed := c.deployments[Storefront].workload.image;
      status.(
        currentImageTag := deployed,
        state :=
          if deployed != spec.image then StateMigration
          else if !AllAvailable(spec, status.queue, c, obs) then StateInitializing
          else StateReady)
  }

  /** A state without a manager is reported as an error and kept. */
  function HandledState(cfg: Config, spec: Spec, status: Status, c: Cluster, obs: Observed): Status {
    match status.state
    case StateEmpty => WaitState(cfg, spec, status, obs)
    case StateWait => WaitState(cfg, spec, status, obs)
    case StateSetup => SetupState(status, c, obs)
    case StateSetupError => SetupState(status, c, obs)
    case StateInitializing => InitializingState(spec, status, c, obs)
    case StateMigration => MigrationState(spec, status, c, obs)
    case StateMigrationError => MigrationState(spec, status, c, obs)
    case StateReady => ReadyState(spec, status, c, obs)
    case Unregistered(_) => status
  }

  /** UpdateQueueState: a failed fetch keeps the known transports and records the error. */
  function RefreshedQueue(cfg: Config, spec: Spec, status: Status, c: Cluster, obs: Observed): QueueState {
    if !cfg.connected || !status.state.StateReady? || !DeploymentStateOf(spec, c, obs, Admin).Running? then status.queue
    else match obs.stats
         case Fetched(transports) => QueueState(transports, "")
         case Failed(message) => status.queue.(error := message)
  }

  /** The status that the phase writes back. */
  function NextStatus(cfg: Config, spec: Spec, status: Status, c: Cluster, obs: Observed): Status {
    var handled := HandledState(cfg, spec, status, c, obs);
    handled.(queue := RefreshedQueue(cfg, spec, handled, c, obs))
  }

  // ---------------------------------------------------------------- what the handlers promise

  /** From a deployment's name to the states of all of them. */
  lemma RunningMeans(spec: Spec, queue: QueueState, c: Cluster, obs: Observed)
    ensures AllRunning(spec, queue, c, obs) <==>
      ValidQueues(queue) && forall n :: n in [Storefront, Admin] + WorkerNames(spec, queue) ==> DeploymentStateOf(spec, c, obs, n).Running?
    ensures AllAvailable(spec, queue, c, obs) <==>
      ValidQueues(queue) && forall n :: n in [Storefront, Admin] + WorkerNames(spec, queue) ==> Rank(DeploymentStateOf(spec, c, obs, n)) <= 1
  {
    var names := WorkerNames(spec, queue);
    WorstIsMaximal(spec, c, obs, names);
    var states := DeploymentStates(spec, queue, c, obs);
    assert states[0] in states && states[1] in states && states[2] in states;
    var all := [Storefront, Admin] + names;
    assert all[0] in all && all[1] in all;
    forall n | n in names ensures n in all { }
  }

  /** The deployment exists, can be read and is not down. */
  predicate IsUp(spec: Spec, c: Cluster, obs: Observed, name: DeploymentName) {
    && name !in obs.unreadable && name in c.deployments
    && !IsDown(c.deployments[name].status, Replicas(spec, name))
  }

  /** The deployment exists, can be read and has not exceeded its deadline while down. */
  predicate IsReachable(spec: Spec, c: Cluster, obs: Observed, name: DeploymentName) {
    && name !in obs.unreadable && name in c.deployments
    && !(IsDown(c.deployments[name].status, Replicas(spec, name)) && c.deployments[name].status.deadlineExceeded)
  }

  /** Running and available in terms of the cluster: in particular nothing that is missing counts. */
  lemma RunningExactly(spec: Spec, queue: QueueState, c: Cluster, obs: Observed)
    ensures AllRunning(spec, queue, c, obs) <==>
      ValidQueues(queue) && forall n :: n in [Storefront, Admin] + WorkerNames(spec, queue) ==> IsUp(spec, c, obs, n)
    ensures AllAvailable(spec, queue, c, obs) <==>
      ValidQueues(queue) && forall n :: n in [Storefront, Admin] + WorkerNames(spec, queue) ==> IsReachable(spec, c, obs, n)
  {
    RunningMeans(spec, queue, c, obs);
    forall n
      ensures DeploymentStateOf(spec, c, obs, n).Running? <==> IsUp(spec, c, obs, n)
      ensures Rank(DeploymentStateOf(spec, c, obs, n)) <= 1 <==> IsReachable(spec, c, obs, n)
    {
      if n in c.deployments {
        ConditionIsDecided(c.deployments[n].status, Replicas(spec, n));
      }
    }
  }

  /** The queues are refreshed exactly in Ready, with a connection and the admin up. */
  lemma QueueRefreshedExactly(cfg: Config, spec: Spec, status: Status, c: Cluster, obs: Observed)
    ensures var after := NextStatus(cfg, spec, status, c, obs);
      after.queue ==
        if cfg.connected && after.state.StateReady? && IsUp(spec, c, obs, Admin) then
          (if obs.stats.Fetched? then QueueState(obs.stats.transports, "") else QueueState(status.queue.transports, obs.stats.message))
        else status.queue
  {
    if Admin in c.deployments {
      ConditionIsDecided(c.deployments[Admin].status, Replicas(spec, Admin));
    }
  }

  /** A failed statistics call keeps every known transport. */
  lemma FailedStatsKeepTransports(cfg: Config, spec: Spec, status: Status, c: Cluster, obs: Observed)
    requires obs.stats.Failed?
    ensures NextStatus(cfg, spec, status, c, obs).queue.transports == status.queue.transports
    ensures NextStatus(cfg, spec, status, c, obs).queue.error in {status.queue.error, obs.stats.message}
  {
    assert HandledState(cfg, spec, status, c, obs).queue == status.queue;
  }

  /** The handlers do not look at the queue statistics. */
  lemma HandledUnaffected(cfg: Config, spec: Spec, status: Status, c: Cluster, obs: Observed, stats: Stats)
    ensures HandledState(cfg, spec, status, c, obs) == HandledState(cfg, spec, status, c, obs.(stats := stats))
  {
    WorstUnaffected(spec, c, obs, obs.(stats := stats), WorkerNames(spec, status.queue));
    assert DeploymentStates(spec, status.queue, c, obs) == DeploymentStates(spec, status.queue, c, obs.(stats := stats));
  }

  lemma {:induction false} WorstUnaffected(spec: Spec, c: Cluster, a: Observed, b: Observed, names: seq<DeploymentName>)
    requires a.unreadable == b.unreadable
    ensures Worst(spec, c, a, names) == Worst(spec, c, b, names)
  {
    if names != [] {
      WorstUnaffected(spec, c, a, b, names[..|names| - 1]);
    }
  }

  /** Newly reported queues do not take part in the decision of the phase that discovers them. */
  lemma DiscoveryDoesNotDemote(cfg: Config, spec: Spec, status: Status, c: Cluster, obs: Observed, stats: Stats)
    ensures NextStatus(cfg, spec, status, c, obs).state == NextStatus(cfg, spec, status, c, obs.(stats := stats)).state
    ensures NextStatus(cfg, spec, status, c, obs).currentImageTag == NextStatus(cfg, spec, status, c, obs.(stats := stats)).currentImageTag
  {
    HandledUnaffected(cfg, spec, status, c, obs, stats);
  }
}
