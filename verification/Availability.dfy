/** What a store in Ready has to show for it: existing deployments, and jobs that really succeeded. */
module Availability {
  import opened Wrappers
  import opened JobVerdict
  import opened StoreModel
  import opened StoreResources
  import opened StoreStates
  import opened Lifecycle
  import opened ImageSafety

  // ---------------------------------------------------------------- deployments behind Ready

  predicate AllUp(spec: Spec, queue: QueueState, c: Cluster, obs: Observed) {
    forall n :: n in Generated(spec, queue) ==> IsUp(spec, c, obs, n)
  }

  /** Some generated deployment is gone. */
  predicate SomeMissing(spec: Spec, queue: QueueState, c: Cluster) {
    exists n :: n in Generated(spec, queue) && n !in c.deployments
  }

  lemma DecidesReady(cfg: Config, spec: Spec, status: Status, c: Cluster, obs: Observed)
    requires !status.state.StateReady? && NextStatus(cfg, spec, status, c, obs).state.StateReady?
    ensures status.state.StateInitializing? && AllUp(spec, status.queue, c, obs)
    ensures NextStatus(cfg, spec, status, c, obs).currentImageTag == spec.image
  {
    RunningExactly(spec, status.queue, c, obs);
  }

  /**
    A store becomes Ready only from Initializing, by a write of a reconcile that saw every generated
    deployment exist, readable and up.
  */
  lemma ReadySawItsDeployments(cfg: Config, s: State, events: seq<Event>, e: Event)
    requires Initial(s)
    ensures var now, after := Run(cfg, s, events), Run(cfg, s, events + [e]);
      !now.status.state.StateReady? && after.status.state.StateReady? ==>
        && now.status.state.StateInitializing?
        && now.flight.Writing? && now.flight.status == now.status
        && AllUp(now.flight.spec, now.status.queue, now.flight.seen, now.flight.obs)
        && after.status.currentImageTag == now.flight.spec.image
  {
    var now := Run(cfg, s, events);
    RunOneMore(cfg, s, events, e);
    RunKeepsImage(cfg, s, events);
    if !now.status.state.StateReady? && Step(cfg, now, e).status.state.StateReady? {
      DecidesReady(cfg, now.flight.spec, now.status, now.flight.seen, now.flight.obs);
    }
  }

  /** A Ready store that runs the image of its spec is demoted when one of its deployments is gone. */
  lemma MissingDemotes(cfg: Config, spec: Spec, status: Status, c: Cluster, obs: Observed)
    requires status.state.StateReady? && obs.image && SomeMissing(spec, status.queue, c)
    requires Storefront in c.deployments ==> c.deployments[Storefront].workload.image == spec.image
    ensures NextStatus(cfg, spec, status, c, obs).state.StateInitializing?
  {
    RunningExactly(spec, status.queue, c, obs);
    var n :| n in Generated(spec, status.queue) && n !in c.deployments;
    assert !IsReachable(spec, c, obs, n);
  }

  /** And a store in Initializing does not get Ready while one is gone. */
  lemma MissingKeepsInitializing(cfg: Config, spec: Spec, status: Status, c: Cluster, obs: Observed)
    requires status.state.StateInitializing? && SomeMissing(spec, status.queue, c)
    ensures NextStatus(cfg, spec, status, c, obs).state.StateInitializing?
  {
    RunningExactly(spec, status.queue, c, obs);
    var n :| n in Generated(spec, status.queue) && n !in c.deployments;
    assert !IsUp(spec, c, obs, n);
  }

  // ---------------------------------------------------------------- jobs behind progress

  predicate NotSucceeded(job: Option<JobObject>) {
    job.Some? ==> !job.value.verdict.IsSuccess()
  }

  predicate NoneSucceeded(c: Cluster) {
    NotSucceeded(c.setupJob) && forall tag :: tag in c.migrationJobs ==> NotSucceeded(FindJob(c.migrationJobs, tag))
  }

  /** No job reports success. */
  predicate Unsuccessful(e: Event) {
    match e
    case MoveSetupJob(v) => v.Some? ==> !v.value.IsSuccess()
    case MoveMigrationJob(_, v) => v.Some? ==> !v.value.IsSuccess()
    case _ => true
  }

  lemma ApplyFinishesNothing(spec: Spec, status: Status, c: Cluster, op: Op, outcome: Outcome)
    requires NoneSucceeded(c)
    ensures NoneSucceeded(Apply(spec, status, c, op, outcome))
  {
    var after := Apply(spec, status, c, op, outcome);
    OperatorFinishesNoJob(spec, status, c, op, outcome, "");
    forall tag | tag in after.migrationJobs ensures NotSucceeded(FindJob(after.migrationJobs, tag)) {
      OperatorFinishesNoJob(spec, status, c, op, outcome, tag);
      if tag in c.migrationJobs {
        assert NotSucceeded(FindJob(c.migrationJobs, tag));
      }
    }
  }

  lemma DisturbanceFinishesNothing(c: Cluster, e: Event)
    requires IsDisturbance(e) && Unsuccessful(e) && NoneSucceeded(c)
    ensures NoneSucceeded(Disturbed(c, e))
  {
    var after := Disturbed(c, e);
    forall tag | tag in after.migrationJobs ensures NotSucceeded(FindJob(after.migrationJobs, tag)) {
      if tag in c.migrationJobs {
        assert NotSucceeded(FindJob(c.migrationJobs, tag));
      }
    }
  }

  /** Nothing has succeeded, and neither the stored nor the next status claims so. */
  predicate IdleInv(s: State) {
    && NoneSucceeded(s.cluster) && FlightInv(s)
    && (s.flight.Writing? ==> NoneSucceeded(s.flight.seen))
    && !s.setupReported
    && !s.status.state.StateInitializing? && !InScope(s.status.state)
  }

  lemma StepKeepsIdle(cfg: Config, s: State, e: Event)
    requires IdleInv(s) && Unsuccessful(e)
    ensures IdleInv(Step(cfg, s, e))
  {
    if e.Perform? && s.flight.Working? && s.flight.next < |Plan(s.flight.spec, s.flight.status)| {
      ApplyFinishesNothing(s.flight.spec, s.flight.status, s.cluster, Plan(s.flight.spec, s.flight.status)[s.flight.next], e.outcome);
    } else if IsDisturbance(e) {
      DisturbanceFinishesNothing(s.cluster, e);
      DisturbedStep(cfg, s, e);
    }
  }

  predicate AllUnsuccessful(events: seq<Event>) {
    forall i :: 0 <= i < |events| ==> Unsuccessful(events[i])
  }

  /**
    The operator cannot bring itself forward: as long as the cluster lets no job succeed, a new store
    stays before its initialization on every run, and nothing it does makes a job succeed.
  */
  lemma {:induction false} NoSuccessNoProgress(cfg: Config, s: State, events: seq<Event>)
    requires Initial(s) && NoneSucceeded(s.cluster) && AllUnsuccessful(events)
    ensures IdleInv(Run(cfg, s, events))
  {
    if events != [] {
      var before := events[..|events| - 1];
      assert AllUnsuccessful(before);
      NoSuccessNoProgress(cfg, s, before);
      StepKeepsIdle(cfg, Run(cfg, s, before), events[|events| - 1]);
    }
  }
}
