/**
  The reconcile of a Store as the operator runs it: internal/controller/store_controller.go over
  internal/manager, internal/manager/base and internal/deployment/worker.go. The object holds the
  stored resource, the copy that a reconcile works on, and the cluster.
*/
module StoreManager {
  import opened Wrappers
  import opened JobVerdict
  import opened StoreModel
  import opened StoreResources
  import opened StoreStates
  import opened Lifecycle
  import opened ImageSafety
  import opened Progress

  /** Answers of the API server: to each operation, and which deployments it refuses to delete. */
  datatype Api = Api(answer: Op -> Outcome, undeletable: set<DeploymentName>)

  /** The answers with the cleanup replaced by what it came to. */
  function WithCleanup(answer: Op -> Outcome, cleanup: Outcome): Op -> Outcome {
    (op: Op) => if op.CleanupWorkers? then cleanup else answer(op)
  }

  /** What a cleanup after the deployments would delete; applying storefront and admin resets their labels. */
  function ToDelete(spec: Spec, status: Status, c: Cluster): set<DeploymentName> {
    Obsolete(spec, status, c) - {Storefront, Admin}
  }

  /**
    `used` are the answers of `api`, with the cleanup succeeding exactly if its listing does and nothing
    to be deleted is undeletable, and deleting nothing undeletable otherwise.
  */
  ghost predicate Explains(spec: Spec, status: Status, c: Cluster, api: Api, used: Op -> Outcome) {
    && (forall op: Op :: !op.CleanupWorkers? ==> used(op) == api.answer(op))
    && (used(CleanupWorkers).Succeeds? <==>
          api.answer(CleanupWorkers).Succeeds? && ToDelete(spec, status, c) !! api.undeletable)
    && (used(CleanupWorkers).Halfway? ==> used(CleanupWorkers).removed !! api.undeletable)
  }

  /** The answers for a phase that does not come to its cleanup. */
  function Answers(spec: Spec, status: Status, c: Cluster, api: Api): Op -> Outcome {
    WithCleanup(api.answer,
      if api.answer(CleanupWorkers).Succeeds? && ToDelete(spec, status, c) !! api.undeletable then Succeeds else Refused)
  }

  lemma ObsoleteAfterEnsuring(spec: Spec, status: Status, c: Cluster, api: Op -> Outcome)
    requires var names := Generated(spec, status.queue); Execute(spec, status, c, EnsureAll(names), api).1
    ensures var names := Generated(spec, status.queue);
      Obsolete(spec, status, Execute(spec, status, c, EnsureAll(names), api).0) == ToDelete(spec, status, c)
  {
    var names := Generated(spec, status.queue);
    EnsureAllApplies(spec, status, c, names, api);
    var after := Execute(spec, status, c, EnsureAll(names), api).0;
    forall n ensures n in Obsolete(spec, status, after) <==> n in ToDelete(spec, status, c) {
      assert n in names <==> n == Storefront || n == Admin || n in WorkerNames(spec, status.queue);
      if n in names {
        assert IsApplied(spec, status, after, n);
      }
    }
  }

  /** If every call succeeds, the outcomes used are successes. */
  lemma AllAnswered(spec: Spec, status: Status, c: Cluster, api: Api, used: Op -> Outcome)
    requires Explains(spec, status, c, api, used)
    requires (forall op :: api.answer(op).Succeeds?) && api.undeletable == {}
    ensures Execute(spec, status, c, Plan(spec, status), used) == Execute(spec, status, c, Plan(spec, status), AllSucceed())
  {
    ExecuteCongruent(spec, status, c, Plan(spec, status), used, AllSucceed());
  }

  class StoreStateManager {
    const cfg: Config
    var stored: Status
    var spec: Spec
    var status: Status
    var cluster: Cluster
    ghost var origin: State
    ghost var events: seq<Event>

    /** Stored status and cluster are those of a lifecycle run from a new store, between two reconciles. */
    ghost predicate Valid()
      reads this
    {
      && Initial(origin)
      && var now := Run(cfg, origin, events);
         now.flight.Idle? && now.status == stored && now.cluster == cluster
    }

    constructor (cfg: Config, spec: Spec, stored: Status, cluster: Cluster)
      ensures this.cfg == cfg && this.spec == spec && this.stored == stored && status == stored && this.cluster == cluster
      ensures stored.state.StateEmpty? ==> Valid()
    {
      this.cfg := cfg;
      this.spec := spec;
      this.stored := stored;
      this.status := stored;
      this.cluster := cluster;
      this.origin := State(spec, stored, cluster, Idle, false, false, false);
      this.events := [];
    }

    /** Something happens outside the operator. */
    method Environment(e: Event)
      requires IsDisturbance(e)
      modifies this`cluster, this`events
      ensures cluster == Disturbed(old(cluster), e)
      ensures old(Valid()) ==> Valid()
    {
      cluster := Disturbed(cluster, e);
      DisturbedStep(cfg, Run(cfg, origin, events), e);
      RunOneMore(cfg, origin, events, e);
      events := events + [e];
    }

    // ---------------------------------------------------------------- resources

    /** WorkerDeployments of internal/deployment/worker.go, by name. */
    method WorkerDeployments() returns (r: Result<seq<DeploymentName>>)
      ensures r.Ok? <==> ValidQueues(status.queue)
      ensures r.Ok? ==> r.value == WorkerNames(spec, status.queue)
    {
      var queues := status.queue.transports;
      for i := 0 to |queues|
        invariant forall k :: 0 <= k < i ==> queues[k] != ""
      {
        if queues[i] == "" {
          return Err("empty queue name");
        }
      }
      if |queues| == 0 {
        return Ok([]);
      }
      if !spec.kedaScaling {
        return Ok([if |queues| == 1 then QueueWorker(queues[0]) else SharedWorker]);
      }
      var names: seq<DeploymentName> := [];
      for i := 0 to |queues|
        invariant |names| == i && forall k :: 0 <= k < i ==> names[k] == QueueWorker(queues[k])
      {
        names := names + [QueueWorker(queues[i])];
      }
      return Ok(names);
    }

    method EnsureDeploymentObject(name: DeploymentName, api: Api) returns (ok: bool)
      modifies this`cluster
      ensures cluster == Apply(spec, status, old(cluster), EnsureDeployment(name), api.answer(EnsureDeployment(name)))
      ensures ok == api.answer(EnsureDeployment(name)).Succeeds?
    {
      ok := api.answer(EnsureDeployment(name)).Succeeds?;
      if ok {
        if IsApplied(spec, status, cluster, name) {
          assert cluster.deployments[name := cluster.deployments[name]] == cluster.deployments;
        } else {
          cluster := cluster.(deployments := cluster.deployments[name := AppliedDeployment(spec, status, cluster, name)]);
        }
      }
    }

    /** Deletes what is listed and not desired, in the order of the listing, until one delete fails. */
    method DeleteUndesired(listed: set<DeploymentName>, desired: set<DeploymentName>, undeletable: set<DeploymentName>)
      returns (ok: bool, ghost removed: set<DeploymentName>)
      modifies this`cluster
      ensures cluster == old(cluster).(deployments := old(cluster).deployments - removed)
      ensures removed <= listed - desired && removed !! undeletable
      ensures ok <==> removed == listed - desired
      ensures ok <==> listed - desired !! undeletable
    {
      var list := listed;
      removed := {};
      while list != {}
        invariant list <= listed
        invariant removed == (listed - list) - desired && removed !! undeletable
        invariant cluster == old(cluster).(deployments := old(cluster).deployments - removed)
        decreases |list|
      {
        var d :| d in list;
        list := list - {d};
        if d !in desired {
          if d in undeletable {
            assert d in listed - desired && d !in removed;
            return false, removed;
          }
          cluster := cluster.(deployments := cluster.deployments - {d});
          removed := removed + {d};
        }
      }
      ok := true;
    }

    method DesiredNames(workers: seq<DeploymentName>) returns (desired: set<DeploymentName>)
      ensures desired == NameSet(workers)
    {
      desired := {};
      for i := 0 to |workers|
        invariant desired == NameSet(workers[..i])
      {
        desired := desired + {workers[i]};
        assert workers[..i + 1] == workers[..i] + [workers[i]];
      }
      assert workers[..|workers|] == workers;
    }

    /** The worker deployments that are not desired are deleted; `outcome` is what the operation came to. */
    method CleanupObsoleteWorkerDeployments(api: Api) returns (ok: bool, ghost outcome: Outcome)
      modifies this`cluster
      ensures cluster == Apply(spec, status, old(cluster), CleanupWorkers, outcome)
      ensures ok == outcome.Succeeds?
      ensures outcome.Halfway? ==> outcome.removed !! api.undeletable
      ensures ok <==>
        && ValidQueues(status.queue)
        && api.answer(CleanupWorkers).Succeeds?
        && Obsolete(spec, status, old(cluster)) !! api.undeletable
    {
      var workers := WorkerDeployments();
      if workers.Err? {
        return false, Refused;
      }
      var desired := DesiredNames(workers.value);
      if !api.answer(CleanupWorkers).Succeeds? {
        return false, Refused;
      }
      ghost var obsolete := Obsolete(spec, status, cluster);
      assert obsolete == WorkerSet(cluster) - desired;
      ghost var removed;
      ok, removed := DeleteUndesired(WorkerSet(cluster), desired, api.undeletable);
      outcome := if ok then Succeeds else Halfway(removed);
      assert removed * obsolete == removed;
    }

    /** ReconcileDeployment: the storefront, the admin and the workers in turn, then the cleanup. */
    method ReconcileDeployment(api: Api) returns (ok: bool, ghost used: Op -> Outcome)
      modifies this`cluster
      ensures (cluster, ok) == Execute(spec, status, old(cluster), DeploymentOps(spec, status), used)
      ensures Explains(spec, status, old(cluster), api, used)
    {
      used := Answers(spec, status, cluster, api);
      var workers := WorkerDeployments();
      if workers.Err? {
        return false, used;
      }
      var objs := [Storefront, Admin] + workers.value;
      ok := EnsureDeployments(objs, api);
      if ok && status.queue.error == "" {
        ObsoleteAfterEnsuring(spec, status, old(cluster), api.answer);
        ghost var outcome;
        ok, outcome := CleanupObsoleteWorkerDeployments(api);
        used := WithCleanup(api.answer, outcome);
      }
      ExecuteCongruent(spec, status, old(cluster), EnsureAll(objs), api.answer, used);
      EnsureThenCleanup(spec, status, old(cluster), used);
    }

    method EnsureDeployments(objs: seq<DeploymentName>, api: Api) returns (ok: bool)
      modifies this`cluster
      ensures (cluster, ok) == Execute(spec, status, old(cluster), EnsureAll(objs), api.answer)
    {
      ghost var ops := EnsureAll(objs);
      for i := 0 to |objs|
        invariant (cluster, true) == Execute(spec, status, old(cluster), ops[..i], api.answer)
      {
        ghost var before := cluster;
        ok := EnsureDeploymentObject(objs[i], api);
        ExecuteOneMore(spec, status, old(cluster), ops[..i], ops[i], api.answer);
        assert ops[..i + 1] == ops[..i] + [ops[i]];
        if !ok {
          ExecuteStops(spec, status, old(cluster), ops, i + 1, api.answer);
          return;
        }
      }
      assert ops[..|objs|] == ops;
      ok := true;
    }

    /** HasObjectChanged and EnsureJob: a job that differs is deleted and created again. */
    method EnsureJobObject(found: Option<JobObject>, desired: JobContent, outcome: Outcome) returns (ok: bool, job: Option<JobObject>)
      ensures ok == outcome.Succeeds?
      ensures job == AppliedJob(found, desired, outcome)
    {
      var changed := found.None? || found.value.content != desired;
      job := found;
      ok := outcome.Succeeds?;
      if changed {
        if !outcome.Refused? {
          job := None;
        }
        if ok {
          job := Some(JobObject(desired, NEW_JOB));
        }
      }
    }

    method ReconcileSetupJob(api: Api) returns (ok: bool)
      modifies this`cluster
      ensures (cluster, ok) == Execute(spec, status, old(cluster), [EnsureSetupJob], api.answer)
    {
      ExecuteOne(spec, status, cluster, EnsureSetupJob, api.answer);
      var job;
      ok, job := EnsureJobObject(cluster.setupJob, SetupJob(spec), api.answer(EnsureSetupJob));
      cluster := cluster.(setupJob := job);
    }

    method ReconcileMigrationJob(api: Api) returns (ok: bool)
      modifies this`cluster
      ensures (cluster, ok) == Execute(spec, status, old(cluster), [EnsureMigrationJob], api.answer)
    {
      ExecuteOne(spec, status, cluster, EnsureMigrationJob, api.answer);
      var job;
      ok, job := EnsureJobObject(FindJob(cluster.migrationJobs, status.currentImageTag), MigrationJob(spec, status), api.answer(EnsureMigrationJob));
      cluster := cluster.(migrationJobs := PutJob(cluster.migrationJobs, status.currentImageTag, job));
    }

    method ReconcileScheduledTask(api: Api) returns (ok: bool)
      modifies this`cluster
      ensures (cluster, ok) == Execute(spec, status, old(cluster), [EnsureCronJob(spec.suspend)], api.answer)
    {
      var desired := CronJob(spec.image, spec.config, spec.suspend);
      ExecuteOne(spec, status, cluster, EnsureCronJob(spec.suspend), api.answer);
      ok := api.answer(EnsureCronJob(spec.suspend)).Succeeds?;
      if ok && cluster.cronJob != Some(desired) {
        cluster := cluster.(cronJob := Some(desired));
      }
    }

    /** Objects outside the model: the call succeeds or not. */
    method Auxiliary(what: string, api: Api) returns (ok: bool)
      ensures (cluster, ok) == Execute(spec, status, cluster, [Op.Auxiliary(what)], api.answer)
    {
      ExecuteOne(spec, status, cluster, Op.Auxiliary(what), api.answer);
      ok := api.answer(Op.Auxiliary(what)).Succeeds?;
    }

    method ReconcileInitResources(api: Api) returns (ok: bool)
      ensures (cluster, ok) == Execute(spec, status, cluster, InitOps(), api.answer)
    {
      var ingress, route, pdb := Op.Auxiliary("ingress"), Op.Auxiliary("httproute"), Op.Auxiliary("pdb");
      assert InitOps() == [ingress] + ([route] + [pdb]);
      ExecuteConcat(spec, status, cluster, [ingress], [route] + [pdb], api.answer);
      ExecuteConcat(spec, status, cluster, [route], [pdb], api.answer);
      ok := Auxiliary("ingress", api);
      if !ok {
        return;
      }
      ok := Auxiliary("httproute", api);
      if !ok {
        return;
      }
      ok := Auxiliary("pdb", api);
    }

    /** The migration handler suspends the scheduled task on its own copy of the spec. */
    method MigrationResources(api: Api) returns (ok: bool)
      requires IsMigration(status.state)
      modifies this`cluster, this`spec
      ensures (cluster, ok) == Execute(old(spec), status, old(cluster), HandlerOps(old(spec), status), api.answer)
      ensures spec == old(spec) || (IsMigration(status.state) && spec == old(spec).(suspend := true))
    {
      assert HandlerOps(spec, status) == [EnsureMigrationJob] + [EnsureCronJob(true)];
      ExecuteConcat(spec, status, cluster, [EnsureMigrationJob], [EnsureCronJob(true)], api.answer);
      ok := ReconcileMigrationJob(api);
      if !ok {
        return;
      }
      ExecuteOne(spec, status, cluster, EnsureCronJob(true), api.answer);
      ExecuteOne(spec.(suspend := true), status, cluster, EnsureCronJob(true), api.answer);
      spec := spec.(suspend := true);
      ok := ReconcileScheduledTask(api);
    }

    method InitializingResources(api: Api) returns (ok: bool, ghost used: Op -> Outcome)
      requires status.state.StateInitializing?
      modifies this`cluster
      ensures (cluster, ok) == Execute(spec, status, old(cluster), HandlerOps(spec, status), used)
      ensures Explains(old(spec), status, old(cluster), api, used)
    {
      ok, used := ReconcileDeployment(api);
      ExecuteConcat(spec, status, old(cluster), DeploymentOps(spec, status), [Op.Auxiliary("scaledobjects")], used);
      if !ok {
        return;
      }
      ExecuteCongruent(spec, status, cluster, [Op.Auxiliary("scaledobjects")], api.answer, used);
      ok := Auxiliary("scaledobjects", api);
    }

    /** The objects of a running store other than its deployments. */
    method ReadyObjects(api: Api) returns (ok: bool)
      modifies this`cluster
      ensures (cluster, ok) == Execute(spec, status, old(cluster), ReadyTail(spec), api.answer)
    {
      ReadyTailInOrder(spec, status, cluster, api.answer);
      ok := Auxiliary("scaledobjects", api);
      if !ok {
        return;
      }
      ok := Auxiliary("services", api);
      if !ok {
        return;
      }
      ok := ReconcileScheduledTask(api);
      if !ok {
        return;
      }
      ok := Auxiliary("hpa", api);
    }

    method ReadyResources(api: Api) returns (ok: bool, ghost used: Op -> Outcome)
      requires status.state.StateReady?
      modifies this`cluster
      ensures (cluster, ok) == Execute(spec, status, old(cluster), HandlerOps(spec, status), used)
      ensures Explains(old(spec), status, old(cluster), api, used)
    {
      used := Answers(spec, status, cluster, api);
      if status.currentImageTag != spec.image {
        ExecuteCongruent(spec, status, cluster, [EnsureMigrationJob], api.answer, used);
        ok := ReconcileMigrationJob(api);
        return;
      }
      ok, used := ReconcileDeployment(api);
      ExecuteConcat(spec, status, old(cluster), DeploymentOps(spec, status), ReadyTail(spec), used);
      if !ok {
        return;
      }
      ExecuteCongruent(spec, status, cluster, ReadyTail(spec), api.answer, used);
      ok := ReadyObjects(api);
    }

    /** The resource handler of the manager that is registered for the state, if any. */
    method HandleResources(api: Api) returns (ok: bool, ghost used: Op -> Outcome)
      modifies this`cluster, this`spec
      ensures (cluster, ok) == Execute(old(spec), status, old(cluster), HandlerOps(old(spec), status), used)
      ensures Explains(old(spec), status, old(cluster), api, used)
      ensures spec == old(spec) || (IsMigration(status.state) && spec == old(spec).(suspend := true))
    {
      used := Answers(spec, status, cluster, api);
      if !status.state.StateInitializing? && !status.state.StateReady? {
        ExecuteCongruent(spec, status, cluster, HandlerOps(spec, status), api.answer, used);
      }
      match status.state {
        case StateSetup => ok := ReconcileSetupJob(api);
        case StateSetupError => ok := ReconcileSetupJob(api);
        case StateInitializing => ok, used := InitializingResources(api);
        case StateMigration => ok := MigrationResources(api);
        case StateMigrationError => ok := MigrationResources(api);
        case StateReady => ok, used := ReadyResources(api);
        case _ => ok := true;
      }
    }

    /** ReconcileResources: the plan for the state, executed until an operation fails. */
    method ReconcileResources(api: Api) returns (ok: bool, ghost used: Op -> Outcome)
      modifies this`cluster, this`spec
      ensures (cluster, ok) == Execute(old(spec), status, old(cluster), Plan(old(spec), status), used)
      ensures Explains(old(spec), status, old(cluster), api, used)
      ensures spec == old(spec) || (IsMigration(status.state) && spec == old(spec).(suspend := true))
    {
      used := Answers(spec, status, cluster, api);
      ok := ReconcileInitResources(api);
      ghost var secrets := [Op.Auxiliary("app secrets")];
      if status.state.StateEmpty? || status.state.StateWait? {
        ExecuteCongruent(spec, status, cluster, InitOps(), api.answer, used);
        return;
      }
      assert Plan(spec, status) == InitOps() + (secrets + HandlerOps(spec, status));
      ghost var before, handler := cluster, HandlerOps(spec, status);
      if ok {
        ok := Auxiliary("app secrets", api);
        if ok {
          ok, used := HandleResources(api);
        }
      }
      ExecuteCongruent(old(spec), status, before, InitOps(), api.answer, used);
      ExecuteCongruent(old(spec), status, before, secrets, api.answer, used);
      ExecuteConcat(old(spec), status, before, InitOps(), secrets + handler, used);
      ExecuteConcat(old(spec), status, before, secrets, handler, used);
    }

    // ---------------------------------------------------------------- status

    /** GetWorkerDeploymentCondition: the worst state of the worker deployments. */
    method GetWorkerDeploymentCondition(obs: Observed) returns (agg: DeploymentState)
      ensures agg == WorkerState(spec, status.queue, cluster, obs)
    {
      agg := Running;
      var workers := WorkerDeployments();
      if workers.Err? {
        return Failing;
      }
      var names := workers.value;
      for i := 0 to |names|
        invariant agg == Worst(spec, cluster, obs, names[..i])
      {
        var con := DeploymentStateOf(spec, cluster, obs, names[i]);
        assert names[..i + 1][..i] == names[..i];
        if Rank(con) > Rank(agg) {
          agg := con;
        }
      }
      assert names[..|names|] == names;
    }

    method RefreshDeploymentStates(obs: Observed) returns (states: seq<DeploymentState>)
      ensures states == DeploymentStates(spec, status.queue, cluster, obs)
    {
      var worker := GetWorkerDeploymentCondition(obs);
      states := [DeploymentStateOf(spec, cluster, obs, Admin), worker, DeploymentStateOf(spec, cluster, obs, Storefront)];
    }

    method AllDeploymentsRunning(obs: Observed) returns (all: bool)
      ensures all == AllRunning(spec, status.queue, cluster, obs)
    {
      var states := RefreshDeploymentStates(obs);
      for i := 0 to |states|
        invariant forall k :: 0 <= k < i ==> states[k].Running?
      {
        if !states[i].Running? {
          assert states[i] in states;
          return false;
        }
      }
      return true;
    }

    method AllDeploymentsAvailable(obs: Observed) returns (all: bool)
      ensures all == AllAvailable(spec, status.queue, cluster, obs)
    {
      var states := RefreshDeploymentStates(obs);
      for i := 0 to |states|
        invariant forall k :: 0 <= k < i ==> states[k].Running? || states[k].Scaling?
      {
        if !states[i].Running? && !states[i].Scaling? {
          assert states[i] in states;
          return false;
        }
      }
      return true;
    }

    /** Every enabled check may send the store back to waiting; none of them cuts the others short. */
    method WaitHandler(obs: Observed) returns (next: AppState)
      requires status.state.StateEmpty? || status.state.StateWait?
      ensures status.(state := next) == WaitState(cfg, spec, status, obs)
      ensures next.StateSetup? || next.StateWait?
      ensures next.StateSetup? <==>
        || cfg.disableServiceChecks || spec.disableChecks
        || (status.state.StateWait?
            && (!spec.checked.database || obs.services.database) && (!spec.checked.s3 || obs.services.s3)
            && (!spec.checked.fastly || obs.services.fastly) && (!spec.checked.opensearch || obs.services.opensearch))
    {
      if cfg.disableServiceChecks || spec.disableChecks {
        return StateSetup;
      }
      if status.state.StateEmpty? {
        return StateWait;
      }
      next := StateSetup;
      if spec.checked.database && !obs.services.database {
        next := StateWait;
      }
      if spec.checked.s3 && !obs.services.s3 {
        next := StateWait;
      }
      if spec.checked.fastly && !obs.services.fastly {
        next := StateWait;
      }
      if spec.checked.opensearch && !obs.services.opensearch {
        next := StateWait;
      }
    }

    method SetupHandler(obs: Observed) returns (next: AppState)
      ensures status.(state := next) == SetupState(status, cluster, obs)
      ensures next.StateInitializing? <==> obs.job && cluster.setupJob.Some? && cluster.setupJob.value.verdict.IsSuccess()
      ensures next.StateSetupError? <==> obs.job && cluster.setupJob.Some? && cluster.setupJob.value.verdict.IsFailure()
      ensures next.StateSetup? || next.StateInitializing? || next.StateSetupError?
    {
      if !obs.job || cluster.setupJob.None? {
        return StateSetup;
      }
      var verdict := cluster.setupJob.value.verdict;
      if verdict.IsDone() && verdict.HasErrors() {
        return StateSetupError;
      }
      if verdict.IsDone() && !verdict.HasErrors() {
        return StateInitializing;
      }
      return StateSetup;
    }

    method MigrationHandler(obs: Observed) returns (next: AppState)
      modifies this`status
      ensures status.(state := next) == MigrationState(spec, old(status), cluster, obs)
      ensures var job := FindJob(cluster.migrationJobs, old(status).currentImageTag);
        && (next.StateInitializing? <==> obs.job && job.Some? && job.value.verdict.IsSuccess())
        && (next.StateMigrationError? <==> obs.job && job.Some? && job.value.verdict.IsFailure())
      ensures next.StateMigration? || next.StateInitializing? || next.StateMigrationError?
      ensures status == old(status).(currentImageTag := if next.StateInitializing? then spec.image else old(status).currentImageTag)
    {
      if !obs.job || status.currentImageTag !in cluster.migrationJobs {
        return StateMigration;
      }
      var verdict := cluster.migrationJobs[status.currentImageTag].verdict;
      if verdict.IsDone() && verdict.HasErrors() {
        return StateMigrationError;
      }
      if verdict.IsDone() && !verdict.HasErrors() {
        status := status.(currentImageTag := spec.image);
        return StateInitializing;
      }
      return StateMigration;
    }

    method InitializingHandler(obs: Observed) returns (next: AppState)
      modifies this`status
      ensures status.(state := next) == InitializingState(spec, old(status), cluster, obs)
      ensures status == old(status).(currentImageTag := spec.image)
      ensures next == if AllRunning(spec, status.queue, cluster, obs) then StateReady else StateInitializing
    {
      status := status.(currentImageTag := spec.image);
      var running := AllDeploymentsRunning(obs);
      return if running then StateReady else StateInitializing;
    }

    method ReadyHandler(obs: Observed) returns (next: AppState)
      requires status.state.StateReady?
      modifies this`status
      ensures status.(state := next) == ReadyState(spec, old(status), cluster, obs)
      ensures next.StateMigration? || next.StateInitializing? || next.StateReady?
      ensures next.StateMigration? <==>
        obs.image && Storefront in cluster.deployments && cluster.deployments[Storefront].workload.image != spec.image
      ensures next.StateReady? <==>
        !obs.image || (Storefront in cluster.deployments && cluster.deployments[Storefront].workload.image == spec.image
                       && AllAvailable(spec, status.queue, cluster, obs))
      ensures obs.image && Storefront in cluster.deployments ==>
        status.currentImageTag == cluster.deployments[Storefront].workload.image
    {
      if !obs.image {
        return StateReady;
      }
      if Storefront !in cluster.deployments {
        return StateInitializing;
      }
      var currentImage := cluster.deployments[Storefront].workload.image;
      status := status.(currentImageTag := currentImage);
      if currentImage != spec.image {
        return StateMigration;
      }
      var available := AllDeploymentsAvailable(obs);
      return if available then StateReady else StateInitializing;
    }

    method ReconcileState(obs: Observed) returns (ok: bool)
      modifies this`status
      ensures status == HandledState(cfg, spec, old(status), cluster, obs)
      ensures ok <==> !old(status).state.Unregistered?
    {
      var next;
      match status.state {
        case StateEmpty => next := WaitHandler(obs);
        case StateWait => next := WaitHandler(obs);
        case StateSetup => next := SetupHandler(obs);
        case StateSetupError => next := SetupHandler(obs);
        case StateInitializing => next := InitializingHandler(obs);
        case StateMigration => next := MigrationHandler(obs);
        case StateMigrationError => next := MigrationHandler(obs);
        case StateReady => next := ReadyHandler(obs);
        case Unregistered(_) => return false;
      }
      status := status.(state := next);
      ok := true;
    }

    method UpdateQueueState(obs: Observed)
      modifies this`status
      ensures status == old(status).(queue := RefreshedQueue(cfg, spec, old(status), cluster, obs))
    {
      if !cfg.connected || !status.state.StateReady? || !DeploymentStateOf(spec, cluster, obs, Admin).Running? {
        return;
      }
      match obs.stats {
        case Failed(message) => status := status.(queue := status.queue.(error := message));
        case Fetched(transports) => status := status.(queue := QueueState(transports, ""));
      }
    }

    /** The state first, with the queues known so far; then the queues; then the write. */
    method ReconcileStatus(obs: Observed, written: bool)
      modifies this`status, this`stored
      ensures status == NextStatus(cfg, spec, old(status), cluster, obs)
      ensures stored == if written then status else old(stored)
    {
      var _ := ReconcileState(obs);
      UpdateQueueState(obs);
      if written {
        stored := status;
      }
    }

    /**
      One reconcile of the store with the given spec, without interference between its calls. For a
      store that was new once, it leaves the safety properties of the lifecycle in place.
    */
    method Reconcile(current: Spec, api: Api, obs: Observed, written: bool) returns (ghost used: Op -> Outcome)
      modifies this
      ensures (stored, cluster) == Reconciled(cfg, current, old(stored), old(cluster), used, obs, written)
      ensures Explains(current, old(stored), old(cluster), api, used)
      ensures old(Valid()) ==> Valid() && Tagged(stored, cluster)
    {
      spec, status := current, stored;
      var ok;
      ok, used := ReconcileResources(api);
      if ok {
        SuspendDoesNotMatter(cfg, current, status, cluster, obs);
        ReconcileStatus(obs, written);
      }
      ghost var more := [EditSpec(current)] + ReconcileEvents(current, old(stored), used, obs, written);
      if old(Valid()) {
        EditedReconcileIsARun(cfg, origin, events, current, used, obs, written);
        RunKeepsImage(cfg, origin, events + more);
      }
      events := events + more;
    }
  }

  /** A spec edit and a reconcile continue a run. */
  lemma EditedReconcileIsARun(cfg: Config, origin: State, events: seq<Event>, current: Spec, used: Op -> Outcome, obs: Observed, written: bool)
    requires Run(cfg, origin, events).flight.Idle?
    ensures var now := Run(cfg, origin, events);
      var after := Run(cfg, origin, events + ([EditSpec(current)] + ReconcileEvents(current, now.status, used, obs, written)));
      && (after.status, after.cluster) == Reconciled(cfg, current, now.status, now.cluster, used, obs, written)
      && after.flight.Idle?
  {
    var now := Run(cfg, origin, events);
    var reconcile := ReconcileEvents(current, now.status, used, obs, written);
    RunConcat(cfg, origin, events, [EditSpec(current)] + reconcile);
    RunFrom(cfg, now, EditSpec(current), reconcile);
    ReconcileIsARun(cfg, now.(spec := current), used, obs, written);
  }

  /** The status phase of a migration state does not look at the suspended copy of the spec. */
  lemma SuspendDoesNotMatter(cfg: Config, spec: Spec, status: Status, c: Cluster, obs: Observed)
    ensures IsMigration(status.state) ==> NextStatus(cfg, spec.(suspend := true), status, c, obs) == NextStatus(cfg, spec, status, c, obs)
  {
  }

  lemma ExecuteStops(spec: Spec, status: Status, c: Cluster, ops: seq<Op>, n: nat, api: Op -> Outcome)
    requires n <= |ops| && !Execute(spec, status, c, ops[..n], api).1
    ensures Execute(spec, status, c, ops, api) == Execute(spec, status, c, ops[..n], api)
  {
    assert ops == ops[..n] + ops[n..];
    ExecuteConcat(spec, status, c, ops[..n], ops[n..], api);
  }
}
