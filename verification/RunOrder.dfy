/** What has to happen before deployments are created and before the scheduled task runs again. */
module RunOrder {
  import opened Wrappers
  import opened JobVerdict
  import opened StoreModel
  import opened StoreResources
  import opened StoreStates
  import opened Lifecycle
  import opened ImageSafety

  // ---------------------------------------------------------------- nothing is deployed before setup

  predicate NeedsSetup(s: AppState) {
    s.StateInitializing? || InScope(s)
  }

  predicate SetupInv(cfg: Config, s: State) {
    && (NeedsSetup(s.status.state) ==> s.setupReported)
    && (s.flight.Writing? && NeedsSetup(Decision(cfg, s.flight).state) ==> s.setupReported)
  }

  lemma StepKeepsSetup(cfg: Config, s: State, e: Event)
    requires FlightInv(s) && SetupInv(cfg, s)
    ensures SetupInv(cfg, Step(cfg, s, e))
  {
  }

  /** The generated deployments of `c` are among those of `base`. */
  predicate NoneCreated(base: Cluster, c: Cluster) {
    forall n :: n in c.deployments && !n.Foreign? ==> n in base.deployments
  }

  lemma StepCreatesNone(cfg: Config, base: Cluster, s: State, e: Event)
    requires FlightInv(s) && SetupInv(cfg, s)
    requires !s.setupReported ==> NoneCreated(base, s.cluster)
    ensures !Step(cfg, s, e).setupReported ==> NoneCreated(base, Step(cfg, s, e).cluster)
  {
    if e.Perform? && s.flight.Working? && s.flight.next < |Plan(s.flight.spec, s.flight.status)| {
      WhoTouchesDeployments(s.flight.spec, s.flight.status, s.flight.next);
    }
  }

  /** Until a reconcile has seen the setup job done with exit code 0, the operator creates no deployment. */
  lemma {:induction false} NothingDeployedBeforeSetup(cfg: Config, s: State, events: seq<Event>)
    requires Initial(s)
    ensures SetupInv(cfg, Run(cfg, s, events))
    ensures !Run(cfg, s, events).setupReported ==> NoneCreated(s.cluster, Run(cfg, s, events).cluster)
  {
    if events != [] {
      var before := events[..|events| - 1];
      NothingDeployedBeforeSetup(cfg, s, before);
      RunKeepsImage(cfg, s, before);
      StepKeepsSetup(cfg, Run(cfg, s, before), events[|events| - 1]);
      StepCreatesNone(cfg, s.cluster, Run(cfg, s, before), events[|events| - 1]);
    }
  }

  // ---------------------------------------------------------------- the scheduled task stays suspended

  predicate Suspended(c: Cluster) {
    c.cronJob.Some? && c.cronJob.value.suspend
  }

  predicate CronInv(s: State) {
    && (s.cronHeld ==> Suspended(s.cluster))
    && (s.flight.Working? && Matching(s.flight.spec, s.flight.status) && s.flight.next >= DeploymentEnd(s.flight.spec, s.flight.status) ==> !s.cronHeld)
    && (HasSuspended(s) ==> s.cronHeld)
  }

  /** A resource phase in a migration state has just completed. */
  predicate HasSuspended(s: State) {
    s.flight.Working? && IsMigration(s.flight.status.state) && s.flight.next == |Plan(s.flight.spec, s.flight.status)|
  }

  /** A resource phase in Ready with a matching image has just passed its deployment step. */
  predicate HasDeployed(s: State) {
    s.flight.Working? && Matching(s.flight.spec, s.flight.status) && s.flight.next == DeploymentEnd(s.flight.spec, s.flight.status)
  }

  /** The only other writer of the CronJob comes after the deployment step of a matching Ready plan. */
  lemma WhoTouchesCron(spec: Spec, status: Status, i: nat)
    requires i < |Plan(spec, status)| && Plan(spec, status)[i].EnsureCronJob?
    ensures IsMigration(status.state) ==> i + 1 == |Plan(spec, status)| && Plan(spec, status)[i].suspend
    ensures IsMigration(status.state) || (Matching(spec, status) && i >= DeploymentEnd(spec, status))
  {
    PlanAt(spec, status, i);
  }

  lemma LastMigrationOp(spec: Spec, status: Status)
    requires IsMigration(status.state)
    ensures |Plan(spec, status)| == 6 && Plan(spec, status)[5] == EnsureCronJob(true)
  {
  }

  lemma ApplyKeepsSuspended(spec: Spec, status: Status, c: Cluster, op: Op, outcome: Outcome)
    requires Suspended(c) && (op.EnsureCronJob? ==> op.suspend)
    ensures Suspended(Apply(spec, status, c, op, outcome))
  {
  }

  lemma PerformStaysSuspended(s: State, outcome: Outcome)
    requires CronInv(s)
    requires s.flight.Working? && s.flight.next < |Plan(s.flight.spec, s.flight.status)|
    ensures Performed(s, outcome).cronHeld ==> Suspended(Performed(s, outcome).cluster)
  {
    var Working(spec, status, next) := s.flight;
    var op := Plan(spec, status)[next];
    if op.EnsureCronJob? {
      WhoTouchesCron(spec, status, next);
    }
    if s.cronHeld {
      ApplyKeepsSuspended(spec, status, s.cluster, op, outcome);
    } else if IsMigration(status.state) {
      LastMigrationOp(spec, status);
    }
  }

  lemma PerformKeepsCron(s: State, outcome: Outcome)
    requires CronInv(s)
    requires s.flight.Working? && s.flight.next < |Plan(s.flight.spec, s.flight.status)|
    ensures CronInv(Performed(s, outcome))
  {
    PerformStaysSuspended(s, outcome);
  }

  lemma StepKeepsCron(cfg: Config, s: State, e: Event)
    requires CronInv(s)
    ensures CronInv(Step(cfg, s, e))
  {
    if e.Perform? && s.flight.Working? && s.flight.next < |Plan(s.flight.spec, s.flight.status)| {
      PerformKeepsCron(s, e.outcome);
    }
  }

  lemma {:induction false} RunKeepsCron(cfg: Config, s: State, events: seq<Event>)
    requires Initial(s)
    ensures CronInv(Run(cfg, s, events))
  {
    if events != [] {
      RunKeepsCron(cfg, s, events[..|events| - 1]);
      StepKeepsCron(cfg, Run(cfg, s, events[..|events| - 1]), events[|events| - 1]);
    }
  }

  /** Only a passed deployment step lets go of the scheduled task. */
  lemma OnlyDeployingReleases(cfg: Config, s: State, e: Event)
    requires s.cronHeld
    ensures Step(cfg, s, e).cronHeld || HasDeployed(Step(cfg, s, e))
  {
  }

  /** At some point of `events`, a matching Ready phase has just passed its deployment step. */
  predicate DeployedDuring(cfg: Config, s: State, before: seq<Event>, events: seq<Event>) {
    exists k :: 0 <= k <= |events| && HasDeployed(Run(cfg, s, before + events[..k]))
  }

  lemma DuringExtends(cfg: Config, s: State, before: seq<Event>, events: seq<Event>, e: Event)
    requires DeployedDuring(cfg, s, before, events)
    ensures DeployedDuring(cfg, s, before, events + [e])
  {
    var k :| 0 <= k <= |events| && HasDeployed(Run(cfg, s, before + events[..k]));
    assert (events + [e])[..k] == events[..k];
  }

  lemma {:induction false} StaysHeld(cfg: Config, s: State, before: seq<Event>, events: seq<Event>)
    requires Run(cfg, s, before).cronHeld
    ensures Run(cfg, s, before + events).cronHeld || DeployedDuring(cfg, s, before, events)
  {
    if events == [] {
      assert before + events == before;
    } else {
      var rest, e := events[..|events| - 1], events[|events| - 1];
      assert events == rest + [e] && events[..|events|] == events;
      StaysHeld(cfg, s, before, rest);
      if DeployedDuring(cfg, s, before, rest) {
        DuringExtends(cfg, s, before, rest, e);
      } else {
        assert before + events == (before + rest) + [e];
        RunOneMore(cfg, s, before + rest, e);
        OnlyDeployingReleases(cfg, Run(cfg, s, before + rest), e);
      }
    }
  }

  /**
    Once a resource phase in a migration state has completed, the scheduled task stays suspended until
    one in Ready with a matching image has passed its deployment step.
  */
  lemma ScheduledTaskStaysSuspended(cfg: Config, s: State, before: seq<Event>, events: seq<Event>)
    requires Initial(s) && HasSuspended(Run(cfg, s, before))
    ensures Suspended(Run(cfg, s, before + events).cluster) || DeployedDuring(cfg, s, before, events)
  {
    RunKeepsCron(cfg, s, before);
    RunKeepsCron(cfg, s, before + events);
    StaysHeld(cfg, s, before, events);
  }
}
