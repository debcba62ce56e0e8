/** Image safety and migration evidence over every run of the Store lifecycle. */
module ImageSafety {
  import opened Wrappers
  import opened JobVerdict
  import opened StoreModel
  import opened StoreResources
  import opened StoreStates
  import opened Lifecycle

  // ---------------------------------------------------------------- image safety

  predicate ImageIs(c: Cluster, image: Image) {
    Storefront in c.deployments ==> c.deployments[Storefront].workload.image == image
  }

  predicate Tagged(status: Status, c: Cluster) {
    InScope(status.state) ==> ImageIs(c, status.currentImageTag)
  }

  /** A reconcile in flight works on the stored status, because only its own write changes that. */
  predicate FlightInv(s: State) {
    s.flight.Idle? || s.flight.status == s.status
  }

  predicate ImageInv(cfg: Config, s: State) {
    && Tagged(s.status, s.cluster)
    && (s.flight.Working? && s.flight.status.state.StateInitializing? && s.flight.next >= 5 ==> ImageIs(s.cluster, s.flight.spec.image))
    && (s.flight.Writing? ==> Tagged(Decision(cfg, s.flight), s.cluster))
  }

  /** The first operation of the handler in Initializing applies the storefront. */
  lemma StorefrontFirst(spec: Spec, status: Status)
    requires status.state.StateInitializing?
    ensures Plan(spec, status)[4] == if ValidQueues(status.queue) then EnsureDeployment(Storefront) else InvalidQueueName
  {
    if ValidQueues(status.queue) {
      assert EnsureAll(Generated(spec, status.queue))[0] == EnsureDeployment(Generated(spec, status.queue)[0]);
    }
  }

  lemma ApplyImage(spec: Spec, status: Status, c: Cluster, op: Op, outcome: Outcome, image: Image)
    requires ImageIs(c, image)
    requires op == EnsureDeployment(Storefront) ==> spec.image == image
    ensures ImageIs(Apply(spec, status, c, op, outcome), image)
  {
  }

  lemma PerformKeepsImage(cfg: Config, s: State, outcome: Outcome)
    requires FlightInv(s) && ImageInv(cfg, s)
    requires s.flight.Working? && s.flight.next < |Plan(s.flight.spec, s.flight.status)|
    ensures ImageInv(cfg, Performed(s, outcome))
  {
    var Working(spec, status, next) := s.flight;
    var op := Plan(spec, status)[next];
    WhoTouchesDeployments(spec, status, next);
    if InScope(status.state) {
      ApplyImage(spec, status, s.cluster, op, outcome, status.currentImageTag);
    }
    if status.state.StateInitializing? && Passes(op, outcome) {
      StorefrontFirst(spec, status);
      if next >= 5 {
        ApplyImage(spec, status, s.cluster, op, outcome, spec.image);
      }
    }
  }

  /** What the handlers decide fits the deployed image, if the resource phase before it is done. */
  lemma DecideKeepsImage(cfg: Config, spec: Spec, status: Status, c: Cluster, obs: Observed)
    requires Tagged(status, c)
    requires status.state.StateInitializing? ==> ImageIs(c, spec.image)
    ensures Tagged(NextStatus(cfg, spec, status, c, obs), c)
  {
  }

  lemma StepKeepsImage(cfg: Config, s: State, e: Event)
    requires FlightInv(s) && ImageInv(cfg, s)
    ensures FlightInv(Step(cfg, s, e)) && ImageInv(cfg, Step(cfg, s, e))
  {
    match e {
      case Perform(outcome) =>
        if s.flight.Working? && s.flight.next < |Plan(s.flight.spec, s.flight.status)| {
          PerformKeepsImage(cfg, s, outcome);
        }
      case Decide(obs) =>
        if s.flight.Working? && s.flight.next == |Plan(s.flight.spec, s.flight.status)| {
          PlanIsLong(s.flight.spec, s.flight.status);
          DecideKeepsImage(cfg, s.flight.spec, s.flight.status, s.cluster, obs);
        }
      case _ =>
    }
  }

  lemma PlanIsLong(spec: Spec, status: Status)
    ensures status.state.StateInitializing? ==> |Plan(spec, status)| >= 5
    ensures IsMigration(status.state) ==> |Plan(spec, status)| == 6
  {
  }

  lemma {:induction false} RunKeepsImage(cfg: Config, s: State, events: seq<Event>)
    requires Initial(s)
    ensures FlightInv(Run(cfg, s, events)) && ImageInv(cfg, Run(cfg, s, events))
  {
    if events != [] {
      var before := events[..|events| - 1];
      RunKeepsImage(cfg, s, before);
      StepKeepsImage(cfg, Run(cfg, s, before), events[|events| - 1]);
    }
  }

  /** The storefront deployment exists before and after, with different images. */
  predicate ImageChanges(before: Cluster, after: Cluster) {
    && Storefront in before.deployments
    && Storefront in after.deployments
    && before.deployments[Storefront].workload.image != after.deployments[Storefront].workload.image
  }

  /** The reconcile in flight is about to apply a storefront with another image, in Initializing. */
  predicate RollsOut(s: State) {
    && s.flight.Working? && s.flight.status.state.StateInitializing? && s.flight.next == 4
    && ValidQueues(s.flight.status.queue)
    && Storefront in s.cluster.deployments
    && s.cluster.deployments[Storefront].workload.image != s.flight.spec.image
  }

  lemma ApplyOtherKeepsImage(spec: Spec, status: Status, c: Cluster, op: Op, outcome: Outcome)
    requires op == EnsureDeployment(Storefront) ==> ImageIs(c, spec.image)
    ensures !ImageChanges(c, Apply(spec, status, c, op, outcome))
  {
    if Storefront in c.deployments {
      ApplyImage(spec, status, c, op, outcome, c.deployments[Storefront].workload.image);
    }
  }

  lemma ApplyStorefront(spec: Spec, status: Status, c: Cluster, outcome: Outcome)
    ensures ImageChanges(c, Apply(spec, status, c, EnsureDeployment(Storefront), outcome)) <==>
      outcome.Succeeds? && Storefront in c.deployments && c.deployments[Storefront].workload.image != spec.image
  {
  }

  /** Beyond the first application in Initializing, a storefront is applied only with its own image. */
  lemma OwnImage(cfg: Config, s: State)
    requires FlightInv(s) && ImageInv(cfg, s)
    requires s.flight.Working? && s.flight.next < |Plan(s.flight.spec, s.flight.status)|
    requires Plan(s.flight.spec, s.flight.status)[s.flight.next] == EnsureDeployment(Storefront)
    ensures ImageIs(s.cluster, s.flight.spec.image)
      || (s.flight.status.state.StateInitializing? && s.flight.next == 4 && ValidQueues(s.flight.status.queue))
  {
    var Working(spec, status, next) := s.flight;
    WhoTouchesDeployments(spec, status, next);
    PlanAt(spec, status, next);
    if status.state.StateInitializing? {
      StorefrontFirst(spec, status);
    }
  }

  lemma PerformChangesImage(cfg: Config, s: State, outcome: Outcome)
    requires FlightInv(s) && ImageInv(cfg, s)
    requires s.flight.Working? && s.flight.next < |Plan(s.flight.spec, s.flight.status)|
    ensures ImageChanges(s.cluster, Performed(s, outcome).cluster) <==> outcome.Succeeds? && RollsOut(s)
  {
    var Working(spec, status, next) := s.flight;
    var op := Plan(spec, status)[next];
    if op == EnsureDeployment(Storefront) {
      OwnImage(cfg, s);
      ApplyStorefront(spec, status, s.cluster, outcome);
    } else {
      ApplyOtherKeepsImage(spec, status, s.cluster, op, outcome);
      if status.state.StateInitializing? {
        StorefrontFirst(spec, status);
      }
    }
  }

  lemma StepChangesImage(cfg: Config, s: State, e: Event)
    requires FlightInv(s) && ImageInv(cfg, s)
    ensures ImageChanges(s.cluster, Step(cfg, s, e).cluster) <==> e == Perform(Succeeds) && RollsOut(s)
  {
    if e.Perform? && s.flight.Working? {
      PlanIsLong(s.flight.spec, s.flight.status);
      if s.flight.next < |Plan(s.flight.spec, s.flight.status)| {
        PerformChangesImage(cfg, s, e.outcome);
      }
    }
  }

  /**
    The exact condition under which the storefront image changes, over all runs and in all states: a
    reconcile in Initializing with valid queue names applies the storefront for the first time, and
    the image of the spec it has read is not the deployed one.
  */
  lemma ImageChangesExactly(cfg: Config, s: State, events: seq<Event>, e: Event)
    requires Initial(s)
    ensures var now, after := Run(cfg, s, events), Run(cfg, s, events + [e]);
      ImageChanges(now.cluster, after.cluster) <==> e == Perform(Succeeds) && RollsOut(now)
  {
    var now := Run(cfg, s, events);
    assert (events + [e])[..|events|] == events;
    RunKeepsImage(cfg, s, events);
    StepChangesImage(cfg, now, e);
  }

  /**
    Image safety: in Ready, Migration and MigrationError, CurrentImageTag is the image of the
    storefront deployment whenever that exists, and no event changes that image.
  */
  lemma ImageSafety(cfg: Config, s: State, events: seq<Event>, e: Event)
    requires Initial(s)
    ensures var now, after := Run(cfg, s, events), Run(cfg, s, events + [e]);
      && Tagged(now.status, now.cluster)
      && (InScope(now.status.state) ==> !ImageChanges(now.cluster, after.cluster))
  {
    RunKeepsImage(cfg, s, events);
    ImageChangesExactly(cfg, s, events, e);
  }

  // ---------------------------------------------------------------- migration evidence

  predicate JobBuiltFrom(c: Cluster, spec: Spec, status: Status) {
    status.currentImageTag in c.migrationJobs ==> c.migrationJobs[status.currentImageTag].content == MigrationJob(spec, status)
  }

  predicate EvidenceInv(s: State) {
    && (s.flight.Working? && IsMigration(s.flight.status.state) && s.flight.next >= 5 ==> JobBuiltFrom(s.cluster, s.flight.spec, s.flight.status))
    && (s.flight.Writing? && IsMigration(s.flight.status.state) ==> JobBuiltFrom(s.flight.seen, s.flight.spec, s.flight.status))
  }

  lemma StepKeepsEvidence(cfg: Config, s: State, e: Event)
    requires EvidenceInv(s)
    ensures EvidenceInv(Step(cfg, s, e))
  {
    if e.Perform? && s.flight.Working? && s.flight.next < |Plan(s.flight.spec, s.flight.status)| && IsMigration(s.flight.status.state) {
      PlanAt(s.flight.spec, s.flight.status, s.flight.next);
    }
    if s.flight.Working? {
      PlanIsLong(s.flight.spec, s.flight.status);
    }
  }

  lemma {:induction false} RunKeepsEvidence(cfg: Config, s: State, events: seq<Event>)
    requires Initial(s)
    ensures EvidenceInv(Run(cfg, s, events))
  {
    if events != [] {
      RunKeepsEvidence(cfg, s, events[..|events| - 1]);
      StepKeepsEvidence(cfg, Run(cfg, s, events[..|events| - 1]), events[|events| - 1]);
    }
  }

  /**
    Migration evidence: a store leaves its migration states only for Initializing, by a status write of
    a reconcile that saw, under the name for the previous tag, a job built from the spec it had read
    and that tag, done with exit code 0. The new tag is the image of that spec.
  */
  lemma MigrationEvidence(cfg: Config, s: State, events: seq<Event>, e: Event)
    requires Initial(s)
    ensures var now, after := Run(cfg, s, events), Run(cfg, s, events + [e]);
      IsMigration(now.status.state) && !IsMigration(after.status.state) ==>
        && after.status.state.StateInitializing?
        && now.flight.Writing?
        && now.flight.status == now.status
        && now.status.currentImageTag in now.flight.seen.migrationJobs
        && now.flight.seen.migrationJobs[now.status.currentImageTag].content == MigrationJob(now.flight.spec, now.status)
        && now.flight.seen.migrationJobs[now.status.currentImageTag].verdict.IsSuccess()
        && after.status.currentImageTag == now.flight.spec.image
  {
    assert (events + [e])[..|events|] == events;
    RunKeepsEvidence(cfg, s, events);
    RunKeepsImage(cfg, s, events);
  }
}
