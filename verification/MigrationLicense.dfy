/**
  Which rollouts are covered by a migration. A finished migration licenses one change of the storefront
  image, from the tag it started at to the tag it ended with; the next applied storefront uses it up.
*/
module MigrationLicense {
  import opened Wrappers
  import opened JobVerdict
  import opened StoreModel
  import opened StoreResources
  import opened StoreStates
  import opened Lifecycle
  import opened ImageSafety

  datatype License = Unlicensed | License(from: Image, to: Image)

  /** The reconcile in flight applies the storefront with this event. */
  predicate AppliesStorefront(s: State, e: Event) {
    && e == Perform(Succeeds)
    && s.flight.Working? && s.flight.next < |Plan(s.flight.spec, s.flight.status)|
    && Plan(s.flight.spec, s.flight.status)[s.flight.next] == EnsureDeployment(Storefront)
  }

  function NextLicense(cfg: Config, s: State, e: Event, license: License): License {
    var after := Step(cfg, s, e);
    if IsMigration(s.status.state) && after.status.state.StateInitializing? then
      License(s.status.currentImageTag, after.status.currentImageTag)
    else if AppliesStorefront(s, e) then Unlicensed
    else license
  }

  /** The license at the end of a run. */
  function LicenseOf(cfg: Config, s: State, events: seq<Event>): License {
    if events == [] then Unlicensed
    else
      var before := events[..|events| - 1];
      NextLicense(cfg, Run(cfg, s, before), events[|events| - 1], LicenseOf(cfg, s, before))
  }

  /** While there is a license, the old image is still deployed and the storefront is not yet applied. */
  predicate LicenseInv(s: State, license: License) {
    license.License? ==>
      && s.status.state.StateInitializing? && s.status.currentImageTag == license.to
      && ImageIs(s.cluster, license.from)
      && (s.flight.Idle? || (s.flight.Working? && s.flight.status == s.status && s.flight.next <= 4))
  }

  lemma PerformKeepsLicense(cfg: Config, s: State, outcome: Outcome, license: License)
    requires LicenseInv(s, license) && license.License?
    requires s.flight.Working? && !AppliesStorefront(s, Perform(outcome))
    ensures LicenseInv(Step(cfg, s, Perform(outcome)), license)
  {
    var Working(spec, status, next) := s.flight;
    StorefrontFirst(spec, status);
    PlanIsLong(spec, status);
    if next < |Plan(spec, status)| {
      PlanAt(spec, status, next);
    }
  }

  lemma DisturbanceKeepsImage(c: Cluster, e: Event, image: Image)
    requires IsDisturbance(e) && ImageIs(c, image)
    ensures ImageIs(Disturbed(c, e), image)
  {
  }

  lemma StepKeepsLicense(cfg: Config, s: State, e: Event, license: License)
    requires FlightInv(s) && ImageInv(cfg, s) && LicenseInv(s, license)
    ensures LicenseInv(Step(cfg, s, e), NextLicense(cfg, s, e, license))
  {
    if license.License? && NextLicense(cfg, s, e, license) == license {
      if e.Perform? && s.flight.Working? {
        PerformKeepsLicense(cfg, s, e.outcome, license);
      } else if IsDisturbance(e) {
        DisturbanceKeepsImage(s.cluster, e, license.from);
        DisturbedStep(cfg, s, e);
      } else if s.flight.Working? {
        PlanIsLong(s.flight.spec, s.flight.status);
      }
    }
  }

  lemma {:induction false} RunKeepsLicense(cfg: Config, s: State, events: seq<Event>)
    requires Initial(s)
    ensures LicenseInv(Run(cfg, s, events), LicenseOf(cfg, s, events))
  {
    if events != [] {
      var before := events[..|events| - 1];
      RunKeepsLicense(cfg, s, before);
      RunKeepsImage(cfg, s, before);
      StepKeepsLicense(cfg, Run(cfg, s, before), events[|events| - 1], LicenseOf(cfg, s, before));
    }
  }

  /** The reconcile was about to write that it saw the migration job from `from` to `to` done with exit code 0. */
  predicate Backs(s: State, from: Image, to: Image) {
    && s.flight.Writing? && from in s.flight.seen.migrationJobs
    && s.flight.seen.migrationJobs[from].content == MigrationContent(to, s.flight.spec.config, from)
    && s.flight.seen.migrationJobs[from].verdict.IsSuccess()
  }

  predicate Backed(cfg: Config, s: State, events: seq<Event>, from: Image, to: Image) {
    exists k :: 0 <= k < |events| && Backs(Run(cfg, s, events[..k]), from, to)
  }

  /** Every license goes back to a migration job that was seen to succeed. */
  lemma {:induction false} LicenseIsBacked(cfg: Config, s: State, events: seq<Event>)
    requires Initial(s)
    ensures var license := LicenseOf(cfg, s, events);
      license.License? ==> Backed(cfg, s, events, license.from, license.to)
  {
    if events != [] {
      var before, e := events[..|events| - 1], events[|events| - 1];
      var license := LicenseOf(cfg, s, events);
      var now := Run(cfg, s, before);
      LicenseIsBacked(cfg, s, before);
      if IsMigration(now.status.state) && Step(cfg, now, e).status.state.StateInitializing? {
        assert events == before + [e];
        MigrationEvidence(cfg, s, before, e);
        assert Backs(Run(cfg, s, events[..|events| - 1]), license.from, license.to);
      } else if license.License? {
        var k :| 0 <= k < |before| && Backs(Run(cfg, s, before[..k]), license.from, license.to);
        assert before[..k] == events[..k];
      }
    }
  }

  /** The storefront image changes, and a migration from the deployed to the applied image licenses that. */
  predicate Migrated(s: State, license: License) {
    && s.flight.Working? && Storefront in s.cluster.deployments
    && license == License(s.cluster.deployments[Storefront].workload.image, s.flight.spec.image)
  }

  /**
    The exact condition for a rollout without a migration, over all runs: the storefront is applied with
    another image in Initializing, and either no migration has finished since the last application,
    or the spec the reconcile has read asks for another image than the one migrated to.
  */
  lemma UnmigratedExactly(cfg: Config, s: State, events: seq<Event>, e: Event)
    requires Initial(s)
    ensures var now, after, license := Run(cfg, s, events), Run(cfg, s, events + [e]), LicenseOf(cfg, s, events);
      ImageChanges(now.cluster, after.cluster) && !Migrated(now, license) <==>
        e == Perform(Succeeds) && RollsOut(now) && (license.Unlicensed? || now.flight.spec.image != now.status.currentImageTag)
  {
    ImageChangesExactly(cfg, s, events, e);
    RunKeepsLicense(cfg, s, events);
  }

  /** A licensed rollout is covered by a migration job that was seen to succeed. */
  lemma MigratedIsBacked(cfg: Config, s: State, events: seq<Event>)
    requires Initial(s) && Migrated(Run(cfg, s, events), LicenseOf(cfg, s, events))
    ensures var now := Run(cfg, s, events);
      Backed(cfg, s, events, now.cluster.deployments[Storefront].workload.image, now.flight.spec.image)
  {
    LicenseIsBacked(cfg, s, events);
  }
}
