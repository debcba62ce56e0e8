/** Worker deployments and queue discovery over every run of the Store lifecycle. */
module QueueDiscovery {
  import opened Wrappers
  import opened JobVerdict
  import opened StoreModel
  import opened StoreResources
  import opened StoreStates
  import opened Lifecycle
  import opened ImageSafety

  // ---------------------------------------------------------------- discovered queues

  predicate IsPresent(c: Cluster, name: DeploymentName) {
    name in c.deployments && c.deployments[name].workerLabels == IsWorker(name)
  }

  predicate Deploys(spec: Spec, status: Status) {
    status.state.StateInitializing? || Matching(spec, status)
  }

  predicate PresentUpTo(spec: Spec, status: Status, c: Cluster, next: nat) {
    forall k :: 0 <= k < |Generated(spec, status.queue)| && 4 + k < next ==> IsPresent(c, Generated(spec, status.queue)[k])
  }

  predicate PresentInv(s: State) {
    s.flight.Working? && Deploys(s.flight.spec, s.flight.status) ==>
      && (s.flight.next > 4 ==> ValidQueues(s.flight.status.queue))
      && (!s.deleted ==> PresentUpTo(s.flight.spec, s.flight.status, s.cluster, s.flight.next))
  }

  /** The operations of a deploying plan: each generated deployment in turn, nothing else that creates one. */
  lemma DeployingPlan(spec: Spec, status: Status)
    requires Deploys(spec, status)
    ensures var plan, names := Plan(spec, status), Generated(spec, status.queue);
      && |plan| >= 4 + |DeploymentOps(spec, status)|
      && (!ValidQueues(status.queue) ==> plan[4].InvalidQueueName?)
      && (ValidQueues(status.queue) ==> |plan| >= 4 + |names| && forall k :: 0 <= k < |names| ==> plan[4 + k] == EnsureDeployment(names[k]))
  {
    var ops := DeploymentOps(spec, status);
    var plan, names := Plan(spec, status), Generated(spec, status.queue);
    forall k | 0 <= k < |ops| ensures plan[4 + k] == ops[k] {
      PlanAt(spec, status, 4 + k);
    }
    if ValidQueues(status.queue) {
      forall k | 0 <= k < |names| ensures plan[4 + k] == EnsureDeployment(names[k]) {
        assert ops[k] == EnsureAll(names)[k];
      }
    }
  }

  /** Neither applying a deployment nor cleaning up takes away one that the plan asks for. */
  lemma ApplyKeepsPresent(spec: Spec, status: Status, c: Cluster, op: Op, outcome: Outcome, name: DeploymentName)
    requires name in Generated(spec, status.queue) && IsPresent(c, name)
    ensures IsPresent(Apply(spec, status, c, op, outcome), name)
  {
    if op.CleanupWorkers? {
      assert name !in Obsolete(spec, status, c);
    }
  }

  /** After a passed operation the next generated deployment is there as well. */
  lemma PerformPresentAt(spec: Spec, status: Status, c: Cluster, next: nat, outcome: Outcome, k: nat)
    requires Deploys(spec, status) && ValidQueues(status.queue) && next < |Plan(spec, status)|
    requires PresentUpTo(spec, status, c, next) && Passes(Plan(spec, status)[next], outcome)
    requires k < |Generated(spec, status.queue)| && 4 + k <= next
    ensures IsPresent(Apply(spec, status, c, Plan(spec, status)[next], outcome), Generated(spec, status.queue)[k])
  {
    var names := Generated(spec, status.queue);
    assert names[k] in names;
    if 4 + k < next {
      ApplyKeepsPresent(spec, status, c, Plan(spec, status)[next], outcome, names[k]);
    } else {
      DeployingPlan(spec, status);
      assert Plan(spec, status)[4 + k] == EnsureDeployment(names[k]);
    }
  }

  lemma PerformKeepsPresent(s: State, outcome: Outcome)
    requires PresentInv(s)
    requires s.flight.Working? && s.flight.next < |Plan(s.flight.spec, s.flight.status)|
    ensures PresentInv(Performed(s, outcome))
  {
    var Working(spec, status, next) := s.flight;
    var op := Plan(spec, status)[next];
    if Deploys(spec, status) && Passes(op, outcome) {
      if next >= 4 && !ValidQueues(status.queue) {
        DeployingPlan(spec, status);
      } else if next >= 4 && !s.deleted {
        forall k | 0 <= k < |Generated(spec, status.queue)| && 4 + k < next + 1
          ensures IsPresent(Performed(s, outcome).cluster, Generated(spec, status.queue)[k])
        {
          PerformPresentAt(spec, status, s.cluster, next, outcome, k);
        }
      }
    }
  }

  lemma GeneratedIsNotForeign(spec: Spec, queue: QueueState, k: nat)
    requires k < |Generated(spec, queue)|
    ensures !Generated(spec, queue)[k].Foreign?
  {
    assert k >= 2 ==> Generated(spec, queue)[k] in WorkerNames(spec, queue);
  }

  /** Outside the operator, only a removal takes a generated deployment away. */
  lemma DisturbanceKeepsPresent(cfg: Config, s: State, e: Event, name: DeploymentName)
    requires IsDisturbance(e) && !name.Foreign? && IsPresent(s.cluster, name) && !Step(cfg, s, e).deleted
    ensures IsPresent(Disturbed(s.cluster, e), name)
  {
  }

  lemma DisturbanceKeepsInv(cfg: Config, s: State, e: Event)
    requires PresentInv(s) && IsDisturbance(e)
    ensures PresentInv(Step(cfg, s, e))
  {
    DisturbedStep(cfg, s, e);
    if s.flight.Working? && Deploys(s.flight.spec, s.flight.status) && !Step(cfg, s, e).deleted {
      var names := Generated(s.flight.spec, s.flight.status.queue);
      forall k | 0 <= k < |names| && 4 + k < s.flight.next ensures IsPresent(Disturbed(s.cluster, e), names[k]) {
        GeneratedIsNotForeign(s.flight.spec, s.flight.status.queue, k);
        assert IsPresent(s.cluster, names[k]);
        DisturbanceKeepsPresent(cfg, s, e, names[k]);
      }
    }
  }

  lemma StepKeepsPresent(cfg: Config, s: State, e: Event)
    requires PresentInv(s)
    ensures PresentInv(Step(cfg, s, e))
  {
    if IsDisturbance(e) {
      DisturbanceKeepsInv(cfg, s, e);
    } else if e.Perform? && s.flight.Working? && s.flight.next < |Plan(s.flight.spec, s.flight.status)| {
      PerformKeepsPresent(s, e.outcome);
    }
  }

  lemma {:induction false} RunKeepsPresent(cfg: Config, s: State, events: seq<Event>)
    requires Initial(s)
    ensures PresentInv(Run(cfg, s, events))
  {
    if events != [] {
      RunKeepsPresent(cfg, s, events[..|events| - 1]);
      StepKeepsPresent(cfg, Run(cfg, s, events[..|events| - 1]), events[|events| - 1]);
    }
  }

  /** The resource phase of a Ready store is done, and no deployment went away meanwhile. */
  predicate QuietlyReady(s: State) {
    && s.flight.Working?
    && s.flight.status.state.StateReady?
    && s.flight.next == |Plan(s.flight.spec, s.flight.status)|
    && !s.deleted
  }

  predicate AllExist(spec: Spec, queue: QueueState, c: Cluster) {
    ValidQueues(queue) && forall n :: n in Generated(spec, queue) ==> n in c.deployments
  }

  lemma QuietMeansPresent(s: State)
    requires PresentInv(s) && QuietlyReady(s) && Matching(s.flight.spec, s.flight.status)
    ensures AllExist(s.flight.spec, s.flight.status.queue, s.cluster)
  {
    var Working(spec, status, next) := s.flight;
    DeployingPlan(spec, status);
    var names := Generated(spec, status.queue);
    forall n | n in names ensures n in s.cluster.deployments {
      var k :| 0 <= k < |names| && names[k] == n;
      assert IsPresent(s.cluster, names[k]);
    }
  }

  predicate SomeFailing(spec: Spec, queue: QueueState, c: Cluster, obs: Observed) {
    exists n :: n in Generated(spec, queue) && DeploymentStateOf(spec, c, obs, n).Failing?
  }

  /** With all deployments there, unavailable means that one cannot be read or exceeded its deadline. */
  lemma UnavailableMeansFailing(spec: Spec, queue: QueueState, c: Cluster, obs: Observed)
    requires AllExist(spec, queue, c)
    ensures !AllAvailable(spec, queue, c, obs) <==> SomeFailing(spec, queue, c, obs)
  {
    RunningMeans(spec, queue, c, obs);
    if !AllAvailable(spec, queue, c, obs) {
      var n :| n in Generated(spec, queue) && Rank(DeploymentStateOf(spec, c, obs, n)) > 1;
      assert DeploymentStateOf(spec, c, obs, n).Failing?;
    }
  }

  lemma DemotedExactly(cfg: Config, spec: Spec, status: Status, c: Cluster, obs: Observed)
    requires status.state.StateReady? && Tagged(status, c)
    requires Matching(spec, status) ==> AllExist(spec, status.queue, c)
    ensures NextStatus(cfg, spec, status, c, obs).state.StateInitializing? <==>
      obs.image && if Matching(spec, status) then SomeFailing(spec, status.queue, c, obs) else Storefront !in c.deployments
  {
    if Matching(spec, status) {
      UnavailableMeansFailing(spec, status.queue, c, obs);
      var names := Generated(spec, status.queue);
      assert names[0] == Storefront && names[0] in names;
    }
  }

  /**
    A Ready store is never demoted because a worker deployment is not found. When its resource phase is
    done and no deployment went away meanwhile, it turns to Initializing exactly if its storefront can
    be looked up and, with a matching image, some generated deployment cannot be read or exceeded its
    deadline, all of them being there; with another image, the storefront itself is missing.
  */
  lemma NeverDemotedAsNotFound(cfg: Config, s: State, events: seq<Event>, obs: Observed)
    requires Initial(s) && QuietlyReady(Run(cfg, s, events))
    ensures var now := Run(cfg, s, events);
      var Working(spec, status, _) := now.flight;
      && (Matching(spec, status) ==> AllExist(spec, status.queue, now.cluster))
      && (NextStatus(cfg, spec, status, now.cluster, obs).state.StateInitializing? <==>
            obs.image && if Matching(spec, status) then SomeFailing(spec, status.queue, now.cluster, obs) else Storefront !in now.cluster.deployments)
  {
    var now := Run(cfg, s, events);
    RunKeepsPresent(cfg, s, events);
    RunKeepsImage(cfg, s, events);
    if Matching(now.flight.spec, now.flight.status) {
      QuietMeansPresent(now);
    }
    DemotedExactly(cfg, now.flight.spec, now.flight.status, now.cluster, obs);
  }

  /** A failed statistics call on a Ready store with a running admin records its error. */
  lemma FailedStatsAreRecorded(cfg: Config, spec: Spec, status: Status, c: Cluster, obs: Observed)
    requires obs.stats.Failed? && cfg.connected && DeploymentStateOf(spec, c, obs, Admin).Running?
    requires NextStatus(cfg, spec, status, c, obs).state.StateReady?
    ensures NextStatus(cfg, spec, status, c, obs).queue == QueueState(status.queue.transports, obs.stats.message)
  {
  }

  predicate OnlyFailedStats(events: seq<Event>) {
    forall i :: 0 <= i < |events| && events[i].Decide? ==> events[i].obs.stats.Failed?
  }

  /** The queues stay as they are as long as every statistics call fails. */
  predicate StuckInv(s: State, transports: seq<string>) {
    && s.status.queue.error != "" && s.status.queue.transports == transports
    && FlightInv(s)
    && (s.flight.Writing? ==> s.flight.obs.stats.Failed?)
  }

  lemma StepStaysStuck(cfg: Config, s: State, e: Event, transports: seq<string>)
    requires StuckInv(s, transports) && (e.Decide? ==> e.obs.stats.Failed?)
    ensures StuckInv(Step(cfg, s, e), transports)
  {
    if e.Write? && s.flight.Writing? {
      FailedStatsKeepTransports(cfg, s.flight.spec, s.flight.status, s.flight.seen, s.flight.obs);
    }
  }

  lemma {:induction false} RunStaysStuck(cfg: Config, s: State, events: seq<Event>)
    requires s.flight.Idle? && s.status.queue.error != "" && OnlyFailedStats(events)
    ensures StuckInv(Run(cfg, s, events), s.status.queue.transports)
  {
    if events != [] {
      var before := events[..|events| - 1];
      assert OnlyFailedStats(before);
      RunStaysStuck(cfg, s, before);
      StepStaysStuck(cfg, Run(cfg, s, before), events[|events| - 1], s.status.queue.transports);
    }
  }

  lemma ApplyDeletesNothing(spec: Spec, status: Status, c: Cluster, op: Op, outcome: Outcome)
    requires op != CleanupWorkers
    ensures c.deployments.Keys <= Apply(spec, status, c, op, outcome).deployments.Keys
  {
  }

  lemma StuckDeletesNothing(cfg: Config, s: State, outcome: Outcome)
    requires s.flight.Working? ==> CleanupWorkers !in Plan(s.flight.spec, s.flight.status)
    ensures s.cluster.deployments.Keys <= Step(cfg, s, Perform(outcome)).cluster.deployments.Keys
  {
    if s.flight.Working? && s.flight.next < |Plan(s.flight.spec, s.flight.status)| {
      var op := Plan(s.flight.spec, s.flight.status)[s.flight.next];
      assert op in Plan(s.flight.spec, s.flight.status);
      ApplyDeletesNothing(s.flight.spec, s.flight.status, s.cluster, op, outcome);
    }
  }

  /**
    While the statistics calls fail, on every run, the known transports stay, no reconcile performs a
    cleanup, and no operation of the operator takes away a deployment.
  */
  lemma FailedStatsBlockCleanup(cfg: Config, s: State, events: seq<Event>, outcome: Outcome)
    requires s.flight.Idle? && s.status.queue.error != "" && OnlyFailedStats(events)
    ensures var now := Run(cfg, s, events);
      && now.status.queue.transports == s.status.queue.transports && now.status.queue.error != ""
      && (now.flight.Working? ==> CleanupWorkers !in Plan(now.flight.spec, now.flight.status))
      && now.cluster.deployments.Keys <= Step(cfg, now, Perform(outcome)).cluster.deployments.Keys
  {
    RunStaysStuck(cfg, s, events);
    var now := Run(cfg, s, events);
    if now.flight.Working? {
      NoCleanup(now.flight.spec, now.flight.status);
    }
    StuckDeletesNothing(cfg, now, outcome);
  }

  lemma NoCleanup(spec: Spec, status: Status)
    requires status.queue.error != ""
    ensures CleanupWorkers !in Plan(spec, status)
  {
    forall i | 0 <= i < |Plan(spec, status)| ensures Plan(spec, status)[i] != CleanupWorkers {
      PlanAt(spec, status, i);
    }
  }
}
