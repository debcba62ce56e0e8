/**
  Runs of the Store lifecycle. One reconcile reads the store, performs its resource plan one API
  operation at a time, then decides the next status and writes it back (Reconcile of
  internal/controller/store_controller.go). In between, users edit the spec, jobs and replicas
  progress, objects disappear, API calls fail, status writes get lost and the operator restarts.
*/
module Lifecycle {
  import opened Wrappers
  import opened JobVerdict
  import opened StoreModel
  import opened StoreResources
  import opened StoreStates

  /** A reconcile works on the spec and status it has read; `next` operations of its plan are done. */
  datatype Flight =
    | Idle
    | Working(spec: Spec, status: Status, next: nat)
    | Writing(spec: Spec, status: Status, seen: Cluster, obs: Observed)

  /**
    `setupReported`: a reconcile has seen the setup job done with exit code 0. `cronHeld`: a resource
    phase in a migration state has completed, and none in Ready with a matching image has passed its
    deployment step since. `deleted`: a generated deployment went away since the current reconcile
    began.
  */
  datatype State = State(
    spec: Spec,
    status: Status,
    cluster: Cluster,
    flight: Flight,
    setupReported: bool,
    cronHeld: bool,
    deleted: bool)

  datatype Event =
    | EditSpec(spec: Spec)
    | MoveSetupJob(verdict: Option<JobState>)
    | MoveMigrationJob(tag: Image, verdict: Option<JobState>)
    | MoveDeployment(name: DeploymentName, replicas: Option<ReplicaStatus>)
    | AddForeign(who: string, deployment: Deployment)
    | Begin
    | Perform(outcome: Outcome)
    | Decide(obs: Observed)
    | Write(stored: bool)
    | Restart

  // ---------------------------------------------------------------- steps

  predicate IsMigration(s: AppState) {
    s.StateMigration? || s.StateMigrationError?
  }

  predicate IsSetup(s: AppState) {
    s.StateSetup? || s.StateSetupError?
  }

  /** The states in which CurrentImageTag stands for the deployed image. */
  predicate InScope(s: AppState) {
    s.StateReady? || IsMigration(s)
  }

  /** Ready, and the spec asks for the image that the status names. */
  predicate Matching(spec: Spec, status: Status) {
    status.state.StateReady? && status.currentImageTag == spec.image
  }

  /** Where the deployment step of a matching Ready plan ends. */
  function DeploymentEnd(spec: Spec, status: Status): nat {
    4 + |DeploymentOps(spec, status)|
  }

  function Moved(job: Option<JobObject>, verdict: Option<JobState>): Option<JobObject> {
    if job.None? || verdict.None? then None else Some(job.value.(verdict := verdict.value))
  }

  function MovedDeployment(c: Cluster, name: DeploymentName, replicas: Option<ReplicaStatus>): Cluster {
    if name !in c.deployments then c
    else if replicas.None? then c.(deployments := c.deployments - {name})
    else c.(deployments := c.deployments[name := c.deployments[name].(status := replicas.value)])
  }

  predicate IsDisturbance(e: Event) {
    e.MoveSetupJob? || e.MoveMigrationJob? || e.MoveDeployment? || e.AddForeign?
  }

  /** The cluster after something happened outside the operator. */
  function Disturbed(c: Cluster, e: Event): Cluster
    requires IsDisturbance(e)
  {
    match e
    case MoveSetupJob(v) => c.(setupJob := Moved(c.setupJob, v))
    case MoveMigrationJob(tag, v) => c.(migrationJobs := PutJob(c.migrationJobs, tag, Moved(FindJob(c.migrationJobs, tag), v)))
    case MoveDeployment(name, r) => MovedDeployment(c, name, r)
    case AddForeign(who, d) => c.(deployments := c.deployments[Foreign(who) := d])
  }

  function NextCronHeld(spec: Spec, status: Status, next: nat, held: bool): bool {
    if IsMigration(status.state) && next == |Plan(spec, status)| then true
    else if Matching(spec, status) && next == DeploymentEnd(spec, status) then false
    else held
  }

  function Performed(s: State, outcome: Outcome): State
    requires s.flight.Working? && s.flight.next < |Plan(s.flight.spec, s.flight.status)|
  {
    var Working(spec, status, next) := s.flight;
    var op := Plan(spec, status)[next];
    var cluster := Apply(spec, status, s.cluster, op, outcome);
    if Passes(op, outcome) then
      s.(cluster := cluster, flight := Working(spec, status, next + 1), cronHeld := NextCronHeld(spec, status, next + 1, s.cronHeld))
    else
      s.(cluster := cluster, flight := Idle)
  }

  predicate SetupSucceeds(status: Status, c: Cluster, obs: Observed) {
    var seen := SeenVerdict(c.setupJob, obs);
    IsSetup(status.state) && seen.Some? && seen.value.IsSuccess()
  }

  /** Events that are not possible in a state leave it as it is. */
  function Step(cfg: Config, s: State, e: Event): State {
    match e
    case EditSpec(spec) => s.(spec := spec)
    case MoveSetupJob(_) => s.(cluster := Disturbed(s.cluster, e))
    case MoveMigrationJob(_, _) => s.(cluster := Disturbed(s.cluster, e))
    case MoveDeployment(name, r) =>
      s.(cluster := Disturbed(s.cluster, e),
         deleted := s.deleted || (r.None? && !name.Foreign? && name in s.cluster.deployments))
    case AddForeign(_, _) => s.(cluster := Disturbed(s.cluster, e))
    case Begin => if s.flight.Idle? then s.(flight := Working(s.spec, s.status, 0), deleted := false) else s
    case Perform(outcome) =>
      if s.flight.Working? && s.flight.next < |Plan(s.flight.spec, s.flight.status)| then Performed(s, outcome) else s
    case Decide(obs) =>
      if s.flight.Working? && s.flight.next == |Plan(s.flight.spec, s.flight.status)| then
        s.(flight := Writing(s.flight.spec, s.flight.status, s.cluster, obs),
           setupReported := s.setupReported || SetupSucceeds(s.flight.status, s.cluster, obs))
      else s
    case Write(stored) =>
      if s.flight.Writing? then
        s.(flight := Idle, status := if stored then Decision(cfg, s.flight) else s.status)
      else s
    case Restart => s.(flight := Idle)
  }

  lemma DisturbedStep(cfg: Config, s: State, e: Event)
    requires IsDisturbance(e)
    ensures var t := Step(cfg, s, e); t.cluster == Disturbed(s.cluster, e) && t.status == s.status && t.flight == s.flight
  {
  }

  /** The status that a finished status phase is about to write. */
  function Decision(cfg: Config, f: Flight): Status
    requires f.Writing?
  {
    NextStatus(cfg, f.spec, f.status, f.seen, f.obs)
  }

  function Run(cfg: Config, s: State, events: seq<Event>): State {
    if events == [] then s else Step(cfg, Run(cfg, s, events[..|events| - 1]), events[|events| - 1])
  }

  /** A new store: nothing is known about the cluster, which may hold anything. */
  predicate Initial(s: State) {
    s.status.state.StateEmpty? && s.flight.Idle? && !s.setupReported && !s.cronHeld
  }

  lemma RunOneMore(cfg: Config, s: State, events: seq<Event>, e: Event)
    ensures Run(cfg, s, events + [e]) == Step(cfg, Run(cfg, s, events), e)
  {
    assert (events + [e])[..|events|] == events;
  }

  lemma {:induction false} RunFrom(cfg: Config, s: State, e: Event, events: seq<Event>)
    ensures Run(cfg, s, [e] + events) == Run(cfg, Step(cfg, s, e), events)
  {
    if events == [] {
      assert [e] + events == [] + [e];
      RunOneMore(cfg, s, [], e);
    } else {
      var rest, last := events[..|events| - 1], events[|events| - 1];
      RunFrom(cfg, s, e, rest);
      assert [e] + events == ([e] + rest) + [last];
      RunOneMore(cfg, s, [e] + rest, last);
    }
  }

  lemma {:induction false} RunConcat(cfg: Config, s: State, a: seq<Event>, b: seq<Event>)
    ensures Run(cfg, s, a + b) == Run(cfg, Run(cfg, s, a), b)
  {
    if b == [] {
      assert a + b == a;
    } else {
      var rest, last := b[..|b| - 1], b[|b| - 1];
      RunConcat(cfg, s, a, rest);
      assert a + b == (a + rest) + [last];
      RunOneMore(cfg, s, a + rest, last);
    }
  }

  // ---------------------------------------------------------------- the shape of plans

  lemma PlanAt(spec: Spec, status: Status, i: nat)
    requires i < |Plan(spec, status)|
    ensures i < 4 ==> Plan(spec, status)[i].Auxiliary?
    ensures i >= 4 ==> |Plan(spec, status)| == 4 + |HandlerOps(spec, status)| && Plan(spec, status)[i] == HandlerOps(spec, status)[i - 4]
  {
  }

  /** Deployments are touched in Initializing and in Ready with a matching image, by generated names. */
  lemma WhoTouchesDeployments(spec: Spec, status: Status, i: nat)
    requires i < |Plan(spec, status)|
    ensures var op := Plan(spec, status)[i];
      && (op.EnsureDeployment? || op.CleanupWorkers? ==> status.state.StateInitializing? || Matching(spec, status))
      && (op.EnsureDeployment? ==> !op.name.Foreign?)
  {
    PlanAt(spec, status, i);
    if i >= 4 {
      var op := HandlerOps(spec, status)[i - 4];
      if op.EnsureDeployment? {
        var ops := EnsureAll(Generated(spec, status.queue));
        assert op in DeploymentOps(spec, status);
        assert op in ops;
        var k :| 0 <= k < |ops| && ops[k] == op;
        assert Generated(spec, status.queue)[k] in Generated(spec, status.queue);
      }
    }
  }
}
