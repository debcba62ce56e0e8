/**
  Progress of the Store lifecycle: a resource phase without interference executes its whole plan,
  settled clusters are left alone, and good reconciles lead to Ready in a bounded number of rounds.
*/
module Progress {
  import opened Wrappers
  import opened JobVerdict
  import opened StoreModel
  import opened StoreResources
  import opened StoreStates
  import opened Lifecycle
  import opened ImageSafety

  // ---------------------------------------------------------------- an undisturbed phase

  /** One Perform for each operation, with the outcome that `api` gives it. */
  function Performs(ops: seq<Op>, api: Op -> Outcome): seq<Event> {
    if ops == [] then [] else Performs(ops[..|ops| - 1], api) + [Perform(api(ops[|ops| - 1]))]
  }

  /** A phase that has executed `n` operations with this result: still working, or given up. */
  predicate Reflects(s: State, spec: Spec, status: Status, n: nat, result: (Cluster, bool)) {
    && s.cluster == result.0
    && s.flight == if result.1 then Working(spec, status, n) else Idle
  }

  lemma PerformReflects(cfg: Config, s: State, spec: Spec, status: Status, n: nat, result: (Cluster, bool), outcome: Outcome)
    requires n < |Plan(spec, status)| && Reflects(s, spec, status, n, result)
    ensures var op := Plan(spec, status)[n];
      Reflects(Step(cfg, s, Perform(outcome)), spec, status, n + 1,
        if result.1 then (Apply(spec, status, result.0, op, outcome), Passes(op, outcome)) else result)
  {
  }

  /**
    The operations of a phase, performed one by one without other events, have the effect that Execute
    describes: the phase goes on exactly as long as all of them pass.
  */
  lemma {:induction false} UndisturbedPhase(cfg: Config, s: State, spec: Spec, status: Status, ops: seq<Op>, api: Op -> Outcome)
    requires s.flight == Working(spec, status, 0) && ops <= Plan(spec, status)
    ensures Reflects(Run(cfg, s, Performs(ops, api)), spec, status, |ops|, Execute(spec, status, s.cluster, ops, api))
  {
    if ops != [] {
      var n := |ops| - 1;
      var rest, op := ops[..n], ops[n];
      UndisturbedPhase(cfg, s, spec, status, rest, api);
      var before := Run(cfg, s, Performs(rest, api));
      PerformReflects(cfg, before, spec, status, n, Execute(spec, status, s.cluster, rest, api), api(op));
      assert ops == rest + [op];
      OneMorePerform(cfg, s, rest, op, api);
      ExecuteOneMore(spec, status, s.cluster, rest, op, api);
    }
  }

  lemma OneMorePerform(cfg: Config, s: State, rest: seq<Op>, op: Op, api: Op -> Outcome)
    ensures Run(cfg, s, Performs(rest + [op], api)) == Step(cfg, Run(cfg, s, Performs(rest, api)), Perform(api(op)))
  {
    var ops, events := rest + [op], Performs(rest + [op], api);
    assert ops[..|ops| - 1] == rest;
    assert events[..|events| - 1] == Performs(rest, api);
  }

  /** Stored status and cluster after one reconcile in which nothing else happens. */
  function Reconciled(cfg: Config, spec: Spec, stored: Status, c: Cluster, api: Op -> Outcome, obs: Observed, written: bool): (Status, Cluster) {
    var (after, ok) := Execute(spec, stored, c, Plan(spec, stored), api);
    (if ok && written then NextStatus(cfg, spec, stored, after, obs) else stored, after)
  }

  /** The resource phase of a reconcile from its beginning. */
  lemma PhaseIsARun(cfg: Config, s: State, api: Op -> Outcome)
    requires s.flight.Idle?
    ensures var plan := Plan(s.spec, s.status);
      var now := Run(cfg, s, [Begin] + Performs(plan, api));
      && Reflects(now, s.spec, s.status, |plan|, Execute(s.spec, s.status, s.cluster, plan, api))
      && now.spec == s.spec && now.status == s.status
  {
    var plan := Plan(s.spec, s.status);
    var begun := s.(flight := Working(s.spec, s.status, 0), deleted := false);
    assert Step(cfg, s, Begin) == begun;
    RunFrom(cfg, s, Begin, Performs(plan, api));
    UndisturbedPhase(cfg, begun, s.spec, s.status, plan, api);
    PerformsKeepStore(cfg, begun, plan, api);
  }

  /** A whole reconcile is one of the runs of the lifecycle. */
  lemma ReconcileIsARun(cfg: Config, s: State, api: Op -> Outcome, obs: Observed, written: bool)
    requires s.flight.Idle?
    ensures var t := Run(cfg, s, ReconcileEvents(s.spec, s.status, api, obs, written));
      && (t.status, t.cluster) == Reconciled(cfg, s.spec, s.status, s.cluster, api, obs, written)
      && t.flight.Idle? && t.spec == s.spec
  {
    var plan := Plan(s.spec, s.status);
    var phase := [Begin] + Performs(plan, api);
    PhaseIsARun(cfg, s, api);
    RunOneMore(cfg, s, phase, Decide(obs));
    RunOneMore(cfg, s, phase + [Decide(obs)], Write(written));
    FinishReflects(cfg, Run(cfg, s, phase), s.spec, s.status, Execute(s.spec, s.status, s.cluster, plan, api), obs, written);
  }

  /** The events of a reconcile in which nothing else happens. */
  function ReconcileEvents(spec: Spec, status: Status, api: Op -> Outcome, obs: Observed, written: bool): seq<Event> {
    [Begin] + Performs(Plan(spec, status), api) + [Decide(obs)] + [Write(written)]
  }

  lemma FinishReflects(cfg: Config, s: State, spec: Spec, status: Status, result: (Cluster, bool), obs: Observed, written: bool)
    requires Reflects(s, spec, status, |Plan(spec, status)|, result) && s.status == status
    ensures var t := Step(cfg, Step(cfg, s, Decide(obs)), Write(written));
      && t.cluster == result.0 && t.flight.Idle? && t.spec == s.spec
      && t.status == if result.1 && written then NextStatus(cfg, spec, status, result.0, obs) else status
  {
  }

  lemma PerformKeepsStore(cfg: Config, s: State, outcome: Outcome)
    ensures Step(cfg, s, Perform(outcome)).spec == s.spec && Step(cfg, s, Perform(outcome)).status == s.status
  {
  }

  /** Performing operations changes neither the stored spec nor the stored status. */
  lemma {:induction false} PerformsKeepStore(cfg: Config, s: State, ops: seq<Op>, api: Op -> Outcome)
    ensures Run(cfg, s, Performs(ops, api)).spec == s.spec && Run(cfg, s, Performs(ops, api)).status == s.status
  {
    if ops == [] {
      assert Performs(ops, api) == [];
    } else {
      var rest, op := ops[..|ops| - 1], ops[|ops| - 1];
      var before := Run(cfg, s, Performs(rest, api));
      assert Run(cfg, s, Performs(ops, api)) == Step(cfg, before, Perform(api(op))) by {
        assert ops == rest + [op];
        OneMorePerform(cfg, s, rest, op, api);
      }
      PerformsKeepStore(cfg, s, rest, api);
      PerformKeepsStore(cfg, before, api(op));
    }
  }

  // ---------------------------------------------------------------- settled clusters

  /** Everything a matching Ready plan would apply is applied. */
  predicate Settled(spec: Spec, status: Status, c: Cluster) {
    && (forall n :: n in Generated(spec, status.queue) ==> IsApplied(spec, status, c, n))
    && (status.queue.error == "" ==> WorkerSet(c) == NameSet(WorkerNames(spec, status.queue)))
    && c.cronJob == Some(CronJob(spec.image, spec.config, spec.suspend))
  }

  predicate Harmless(spec: Spec, status: Status, op: Op) {
    || op.Auxiliary?
    || op.InvalidQueueName?
    || (op.EnsureDeployment? && op.name in Generated(spec, status.queue))
    || (op.CleanupWorkers? && status.queue.error == "")
    || op == EnsureCronJob(spec.suspend)
  }

  lemma HarmlessLeaves(spec: Spec, status: Status, c: Cluster, op: Op, outcome: Outcome)
    requires Settled(spec, status, c) && Harmless(spec, status, op)
    ensures Apply(spec, status, c, op, outcome) == c
  {
    match op
    case EnsureDeployment(name) =>
      assert IsApplied(spec, status, c, name);
      assert c.deployments[name := c.deployments[name]] == c.deployments;
    case CleanupWorkers =>
      var obsolete := Obsolete(spec, status, c);
      forall n ensures n !in obsolete {
        assert n in WorkerSet(c) <==> n in NameSet(WorkerNames(spec, status.queue));
      }
      assert c.deployments - obsolete == c.deployments;
    case _ =>
  }

  lemma {:induction false} HarmlessPlanLeaves(spec: Spec, status: Status, c: Cluster, ops: seq<Op>, api: Op -> Outcome)
    requires Settled(spec, status, c) && forall op :: op in ops ==> Harmless(spec, status, op)
    ensures Execute(spec, status, c, ops, api).0 == c
    decreases |ops|
  {
    if ops != [] {
      assert ops[0] in ops;
      HarmlessLeaves(spec, status, c, ops[0], api(ops[0]));
      forall op | op in ops[1..] ensures op in ops { }
      HarmlessPlanLeaves(spec, status, c, ops[1..], api);
    }
  }

  lemma DeploymentOpsHarmless(spec: Spec, status: Status, op: Op)
    requires op in DeploymentOps(spec, status)
    ensures Harmless(spec, status, op)
  {
    if ValidQueues(status.queue) && !op.CleanupWorkers? {
      var ops := EnsureAll(Generated(spec, status.queue));
      var k :| 0 <= k < |ops| && ops[k] == op;
    }
  }

  /** A Ready store whose objects are all applied is left alone, whatever the API answers. */
  lemma SettledIsLeftAlone(spec: Spec, status: Status, c: Cluster, api: Op -> Outcome)
    requires Matching(spec, status) && Settled(spec, status, c)
    ensures Execute(spec, status, c, Plan(spec, status), api).0 == c
  {
    forall op | op in Plan(spec, status) ensures Harmless(spec, status, op) {
      if op in DeploymentOps(spec, status) {
        DeploymentOpsHarmless(spec, status, op);
      }
    }
    HarmlessPlanLeaves(spec, status, c, Plan(spec, status), api);
  }

  /** A completed matching Ready phase settles the cluster. */
  lemma ReadyPhaseSettles(spec: Spec, status: Status, c: Cluster, api: Op -> Outcome)
    requires Matching(spec, status) && Execute(spec, status, c, Plan(spec, status), api).1
    ensures Settled(spec, status, Execute(spec, status, c, Plan(spec, status), api).0)
  {
    var head := InitOps() + [Auxiliary("app secrets")];
    var ops := DeploymentOps(spec, status);
    assert Plan(spec, status) == head + (ops + ReadyTail(spec));
    ExecuteConcat(spec, status, c, head, ops + ReadyTail(spec), api);
    AuxiliaryLeaves(spec, status, c, head, api);
    ExecuteConcat(spec, status, c, ops, ReadyTail(spec), api);
    var mid := Execute(spec, status, c, ops, api).0;
    DeploymentPass(spec, status, c, api);
    ReadyTailInOrder(spec, status, mid, api);
    CronKeepsSettling(spec, status, mid, Execute(spec, status, mid, ReadyTail(spec), api).0);
  }

  lemma CronKeepsSettling(spec: Spec, status: Status, c: Cluster, after: Cluster)
    requires forall n :: n in Generated(spec, status.queue) ==> IsApplied(spec, status, c, n)
    requires status.queue.error == "" ==> WorkerSet(c) == NameSet(WorkerNames(spec, status.queue))
    requires after == c.(cronJob := Some(CronJob(spec.image, spec.config, spec.suspend)))
    ensures Settled(spec, status, after)
  {
    forall n | n in Generated(spec, status.queue) ensures IsApplied(spec, status, after, n) {
      assert IsApplied(spec, status, c, n);
    }
  }

  lemma {:induction false} AuxiliaryLeaves(spec: Spec, status: Status, c: Cluster, ops: seq<Op>, api: Op -> Outcome)
    requires forall i :: 0 <= i < |ops| ==> ops[i].Auxiliary?
    ensures Execute(spec, status, c, ops, api).0 == c
    decreases |ops|
  {
    if ops != [] {
      AuxiliaryLeaves(spec, status, c, ops[1..], api);
    }
  }

  // ---------------------------------------------------------------- good rounds

  /** `healed` has the objects of `c`; the current jobs have succeeded and the generated deployments run. */
  predicate Heals(spec: Spec, status: Status, c: Cluster, healed: Cluster) {
    && healed.cronJob == c.cronJob
    && healed.deployments.Keys == c.deployments.Keys
    && (forall n :: n in c.deployments ==>
          && healed.deployments[n].workload == c.deployments[n].workload
          && healed.deployments[n].workerLabels == c.deployments[n].workerLabels)
    && (forall n :: n in c.deployments && n in Generated(spec, status.queue) ==>
          ConditionOf(healed.deployments[n].status, Replicas(spec, n)).Running?)
    && healed.setupJob.Some? == c.setupJob.Some?
    && (c.setupJob.Some? ==> healed.setupJob.value.content == c.setupJob.value.content && healed.setupJob.value.verdict.IsSuccess())
    && healed.migrationJobs.Keys == c.migrationJobs.Keys
    && (forall tag :: tag in c.migrationJobs ==> healed.migrationJobs[tag].content == c.migrationJobs[tag].content)
    && (status.currentImageTag in c.migrationJobs ==> healed.migrationJobs[status.currentImageTag].verdict.IsSuccess())
  }

  /** Every call of the status phase gets its answer, and the enabled checks pass. */
  predicate GoodReads(spec: Spec, obs: Observed) {
    ServicesPass(spec, obs) && obs.job && obs.image && obs.unreadable == {}
  }

  function AllSucceed(): Op -> Outcome {
    op => Succeeds
  }

  /** A reconcile whose calls all succeed and whose status phase finds a healed cluster. */
  predicate GoodRound(cfg: Config, s: State, obs: Observed, t: State) {
    var (cluster, ok) := Execute(s.spec, s.status, s.cluster, Plan(s.spec, s.status), AllSucceed());
    && ok
    && Heals(s.spec, s.status, cluster, t.cluster)
    && GoodReads(s.spec, obs)
    && t.spec == s.spec
    && t.status == NextStatus(cfg, s.spec, s.status, t.cluster, obs)
  }

  predicate Arrived(s: State) {
    Matching(s.spec, s.status)
  }

  /** How many good rounds a store is away from Ready. */
  function Distance(s: State): nat {
    match s.status.state
    case StateEmpty => 4
    case StateWait => 3
    case StateSetup => 2
    case StateSetupError => 2
    case StateMigration => 2
    case StateMigrationError => 2
    case StateInitializing => 1
    case StateReady => if Arrived(s) then 0 else 3
    case Unregistered(_) => 0
  }

  /** A completed resource phase in a setup state leaves the setup job of the spec. */
  lemma SetupPhase(spec: Spec, status: Status, c: Cluster, api: Op -> Outcome)
    requires IsSetup(status.state) && Execute(spec, status, c, Plan(spec, status), api).1
    ensures var after := Execute(spec, status, c, Plan(spec, status), api).0;
      && after.setupJob.Some? && after.setupJob.value.content == SetupContent(spec.image, spec.config)
      && after == c.(setupJob := after.setupJob)
  {
    var head := InitOps() + [Auxiliary("app secrets")];
    assert Plan(spec, status) == head + [EnsureSetupJob];
    ExecuteConcat(spec, status, c, head, [EnsureSetupJob], api);
    AuxiliaryLeaves(spec, status, c, head, api);
    ExecuteOne(spec, status, c, EnsureSetupJob, api);
  }

  /** The cluster holds the migration job from the tag to the image of the spec, and nothing else is new. */
  predicate HasMigrationJob(spec: Spec, tag: Image, c: Cluster, after: Cluster) {
    && tag in after.migrationJobs
    && after.migrationJobs[tag].content == MigrationContent(spec.image, spec.config, tag)
    && after == c.(migrationJobs := after.migrationJobs, cronJob := after.cronJob)
  }

  /** A completed one in a migration state leaves the migration job, and the scheduled task suspended. */
  lemma MigrationPhase(spec: Spec, status: Status, c: Cluster, api: Op -> Outcome)
    requires IsMigration(status.state) && Execute(spec, status, c, Plan(spec, status), api).1
    ensures var after := Execute(spec, status, c, Plan(spec, status), api).0;
      HasMigrationJob(spec, status.currentImageTag, c, after) && after.cronJob == Some(CronJob(spec.image, spec.config, true))
  {
    var head := InitOps() + [Auxiliary("app secrets")];
    assert Plan(spec, status) == head + ([EnsureMigrationJob] + [EnsureCronJob(true)]);
    ExecuteConcat(spec, status, c, head, [EnsureMigrationJob] + [EnsureCronJob(true)], api);
    AuxiliaryLeaves(spec, status, c, head, api);
    ExecuteConcat(spec, status, c, [EnsureMigrationJob], [EnsureCronJob(true)], api);
    ExecuteOne(spec, status, c, EnsureMigrationJob, api);
    ExecuteOne(spec, status, Execute(spec, status, c, [EnsureMigrationJob], api).0, EnsureCronJob(true), api);
  }

  /** In Ready with another image in the spec the migration job is started ahead, and nothing else is touched. */
  lemma ReadyStartsMigration(spec: Spec, status: Status, c: Cluster, api: Op -> Outcome)
    requires status.state.StateReady? && status.currentImageTag != spec.image
    requires Execute(spec, status, c, Plan(spec, status), api).1
    ensures var after := Execute(spec, status, c, Plan(spec, status), api).0;
      HasMigrationJob(spec, status.currentImageTag, c, after) && after.cronJob == c.cronJob
  {
    var head := InitOps() + [Auxiliary("app secrets")];
    assert Plan(spec, status) == head + [EnsureMigrationJob];
    ExecuteConcat(spec, status, c, head, [EnsureMigrationJob], api);
    AuxiliaryLeaves(spec, status, c, head, api);
    ExecuteOne(spec, status, c, EnsureMigrationJob, api);
  }

  /** After a deploying phase every generated deployment is applied. */
  lemma DeploymentsAreThere(spec: Spec, status: Status, c: Cluster, api: Op -> Outcome)
    requires status.state.StateInitializing? || Matching(spec, status)
    requires Execute(spec, status, c, Plan(spec, status), api).1
    ensures ValidQueues(status.queue)
    ensures forall n :: n in Generated(spec, status.queue) ==> IsApplied(spec, status, Execute(spec, status, c, Plan(spec, status), api).0, n)
  {
    var head := InitOps() + [Auxiliary("app secrets")];
    var ops := DeploymentOps(spec, status);
    var aux := Auxiliary("scaledobjects");
    if status.state.StateInitializing? {
      assert Plan(spec, status) == head + (ops + [aux]);
      ExecuteConcat(spec, status, c, head, ops + [aux], api);
      AuxiliaryLeaves(spec, status, c, head, api);
      ExecuteConcat(spec, status, c, ops, [aux], api);
      var mid := Execute(spec, status, c, ops, api).0;
      ExecuteOne(spec, status, mid, aux, api);
      DeploymentPass(spec, status, c, api);
    } else {
      ReadyPhaseSettles(spec, status, c, api);
      assert Plan(spec, status) == head + (ops + ReadyTail(spec));
      ExecuteConcat(spec, status, c, head, ops + ReadyTail(spec), api);
      AuxiliaryLeaves(spec, status, c, head, api);
      ExecuteConcat(spec, status, c, ops, ReadyTail(spec), api);
    }
  }

  lemma HealedIsRunning(spec: Spec, status: Status, c: Cluster, healed: Cluster, obs: Observed)
    requires Heals(spec, status, c, healed) && GoodReads(spec, obs) && ValidQueues(status.queue)
    requires forall n :: n in Generated(spec, status.queue) ==> IsApplied(spec, status, c, n)
    ensures AllRunning(spec, status.queue, healed, obs) && AllAvailable(spec, status.queue, healed, obs)
    ensures Storefront in healed.deployments && healed.deployments[Storefront].workload.image == spec.image
  {
    var names := Generated(spec, status.queue);
    assert names[0] == Storefront && names[0] in names;
    RunningMeans(spec, status.queue, healed, obs);
    forall n | n in names ensures DeploymentStateOf(spec, healed, obs, n).Running? {
      assert IsApplied(spec, status, c, n);
    }
  }

  lemma SetupRound(cfg: Config, s: State, obs: Observed, t: State)
    requires GoodRound(cfg, s, obs, t) && IsSetup(s.status.state)
    ensures t.status.state.StateInitializing?
  {
    SetupPhase(s.spec, s.status, s.cluster, AllSucceed());
  }

  lemma MigrationRound(cfg: Config, s: State, obs: Observed, t: State)
    requires GoodRound(cfg, s, obs, t) && IsMigration(s.status.state)
    ensures t.status.state.StateInitializing?
  {
    MigrationPhase(s.spec, s.status, s.cluster, AllSucceed());
  }

  lemma DeployingRound(cfg: Config, s: State, obs: Observed, t: State)
    requires GoodRound(cfg, s, obs, t)
    requires s.status.state.StateInitializing? || Arrived(s)
    ensures Arrived(t)
  {
    DeploymentsAreThere(s.spec, s.status, s.cluster, AllSucceed());
    HealedIsRunning(s.spec, s.status, Execute(s.spec, s.status, s.cluster, Plan(s.spec, s.status), AllSucceed()).0, t.cluster, obs);
  }

  /** Progress: a good round brings the store strictly nearer to Ready, and Ready stays Ready. */
  lemma RoundMakesProgress(cfg: Config, s: State, obs: Observed, t: State)
    requires GoodRound(cfg, s, obs, t) && !s.status.state.Unregistered?
    ensures !t.status.state.Unregistered?
    ensures Distance(t) < Distance(s) || (Arrived(s) && Arrived(t))
  {
    if IsSetup(s.status.state) {
      SetupRound(cfg, s, obs, t);
    } else if IsMigration(s.status.state) {
      MigrationRound(cfg, s, obs, t);
    } else if s.status.state.StateInitializing? || Arrived(s) {
      DeployingRound(cfg, s, obs, t);
    }
  }

  /**
    While a store is Initializing, a good round deploys the image of the spec whatever was deployed
    before, and touches no migration job: an image edited in that state is rolled out unmigrated.
  */
  lemma InitializingSkipsMigration(cfg: Config, s: State, obs: Observed, t: State)
    requires GoodRound(cfg, s, obs, t) && s.status.state.StateInitializing?
    ensures Arrived(t)
    ensures Storefront in t.cluster.deployments && t.cluster.deployments[Storefront].workload.image == s.spec.image
    ensures Storefront in s.cluster.deployments ==>
      (ImageChanges(s.cluster, t.cluster) <==> s.cluster.deployments[Storefront].workload.image != s.spec.image)
    ensures t.cluster.migrationJobs.Keys == s.cluster.migrationJobs.Keys
    ensures forall tag :: tag in s.cluster.migrationJobs ==> t.cluster.migrationJobs[tag].content == s.cluster.migrationJobs[tag].content
  {
    var after := Execute(s.spec, s.status, s.cluster, Plan(s.spec, s.status), AllSucceed()).0;
    DeployingRound(cfg, s, obs, t);
    DeploymentsAreThere(s.spec, s.status, s.cluster, AllSucceed());
    HealedIsRunning(s.spec, s.status, after, t.cluster, obs);
    assert after.migrationJobs == s.cluster.migrationJobs by {
      NoMigrationJobOp(s.spec, s.status);
      ExecuteKeepsMigrationJobs(s.spec, s.status, s.cluster, Plan(s.spec, s.status), AllSucceed());
    }
  }

  lemma NoMigrationJobOp(spec: Spec, status: Status)
    requires status.state.StateInitializing?
    ensures EnsureMigrationJob !in Plan(spec, status)
  {
  }

  ghost predicate Advances(cfg: Config, s: State, t: State) {
    exists obs :: GoodRound(cfg, s, obs, t)
  }

  /** Every two neighbours in `path` are related by a good round. */
  ghost predicate GoodRounds(cfg: Config, path: seq<State>) {
    forall i, j :: 0 <= i && j == i + 1 && j < |path| ==> Advances(cfg, path[i], path[j])
  }

  lemma AdvanceMakesProgress(cfg: Config, s: State, t: State)
    requires Advances(cfg, s, t) && !s.status.state.Unregistered?
    ensures !t.status.state.Unregistered?
    ensures Distance(t) < Distance(s) || (Distance(s) == 0 && Distance(t) == 0)
  {
    var obs :| GoodRound(cfg, s, obs, t);
    RoundMakesProgress(cfg, s, obs, t);
  }

  /** A store is Ready with the image of its spec after as many good rounds as its distance says, and stays so. */
  lemma {:induction false} ReadyInTime(cfg: Config, path: seq<State>, i: nat)
    requires GoodRounds(cfg, path) && i < |path| && !path[0].status.state.Unregistered?
    ensures !path[i].status.state.Unregistered?
    ensures Distance(path[i]) <= if i < Distance(path[0]) then Distance(path[0]) - i else 0
  {
    if i > 0 {
      ReadyInTime(cfg, path, i - 1);
      AdvanceMakesProgress(cfg, path[i - 1], path[i]);
    }
  }

  /** Four good reconciles take an empty store to Ready. */
  lemma FourRoundsSuffice(cfg: Config, path: seq<State>, i: nat)
    requires GoodRounds(cfg, path) && 4 <= i < |path| && path[0].status.state.StateEmpty?
    ensures Arrived(path[i])
  {
    ReadyInTime(cfg, path, i);
  }

  /** The statistics call, if there is one, tells what is stored already. */
  predicate TellsNothingNew(cfg: Config, obs: Observed, queue: QueueState) {
    || !cfg.connected
    || match obs.stats
       case Fetched(transports) => queue == QueueState(transports, "")
       case Failed(message) => queue.error == message
  }

  /**
    Ready is a fixed point: once a good round has arrived, the next reconcile changes no object, even
    if its calls are refused, and no field of the status, for every good reading of the cluster whose
    statistics are the stored ones.
  */
  lemma ReadyIsFixed(cfg: Config, s: State, obs: Observed, t: State, api: Op -> Outcome, again: Observed)
    requires GoodRound(cfg, s, obs, t) && Arrived(s) && TellsNothingNew(cfg, obs, s.status.queue)
    requires GoodReads(s.spec, again) && TellsNothingNew(cfg, again, s.status.queue)
    ensures t.status == s.status
    ensures Execute(t.spec, t.status, t.cluster, Plan(t.spec, t.status), api).0 == t.cluster
    ensures NextStatus(cfg, t.spec, t.status, t.cluster, again) == t.status
  {
    var after := Execute(s.spec, s.status, s.cluster, Plan(s.spec, s.status), AllSucceed()).0;
    DeploymentsAreThere(s.spec, s.status, s.cluster, AllSucceed());
    HealedIsRunning(s.spec, s.status, after, t.cluster, obs);
    HealedIsRunning(s.spec, s.status, after, t.cluster, again);
    ReadyPhaseSettles(s.spec, s.status, s.cluster, AllSucceed());
    HealKeepsSettled(s.spec, s.status, after, t.cluster);
    SettledIsLeftAlone(t.spec, t.status, t.cluster, api);
  }

  lemma HealKeepsSettled(spec: Spec, status: Status, c: Cluster, healed: Cluster)
    requires Settled(spec, status, c) && Heals(spec, status, c, healed)
    ensures Settled(spec, status, healed)
  {
    forall n | n in Generated(spec, status.queue) ensures IsApplied(spec, status, healed, n) {
      assert IsApplied(spec, status, c, n);
    }
    assert WorkerSet(healed) == WorkerSet(c);
  }
}
