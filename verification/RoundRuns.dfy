/**
  Good rounds as runs: a good round is a sequence of lifecycle events, so its bound on the way to Ready
  is a statement about the same runs as the safety theorems, and good rounds exist.
*/
module RoundRuns {
  import opened Wrappers
  import opened JobVerdict
  import opened StoreModel
  import opened StoreResources
  import opened StoreStates
  import opened Lifecycle
  import opened ImageSafety
  import opened Progress

  // ---------------------------------------------------------------- healing as events

  /** The same objects, with other replica counts. */
  predicate SameDeployments(a: map<DeploymentName, Deployment>, b: map<DeploymentName, Deployment>) {
    a.Keys == b.Keys && forall n :: n in a ==> a[n].(status := b[n].status) == b[n]
  }

  /** The same jobs, with other verdicts. */
  predicate SameJobs(a: map<Image, JobObject>, b: map<Image, JobObject>) {
    a.Keys == b.Keys && forall tag :: tag in a ==> a[tag].content == b[tag].content
  }

  lemma {:induction false} MoveDeployments(cfg: Config, s: State, target: map<DeploymentName, Deployment>, todo: set<DeploymentName>)
    returns (events: seq<Event>)
    requires SameDeployments(s.cluster.deployments, target)
    requires forall n :: n in target && n !in todo ==> s.cluster.deployments[n] == target[n]
    ensures Run(cfg, s, events) == s.(cluster := s.cluster.(deployments := target))
    decreases |todo|
  {
    if n :| n in todo {
      if n in target {
        var e := MoveDeployment(n, Some(target[n].status));
        var rest := MoveDeployments(cfg, Step(cfg, s, e), target, todo - {n});
        events := [e] + rest;
        RunFrom(cfg, s, e, rest);
      } else {
        events := MoveDeployments(cfg, s, target, todo - {n});
      }
    } else {
      events := [];
      assert s.cluster.deployments == target;
    }
  }

  lemma {:induction false} MoveMigrationJobs(cfg: Config, s: State, target: map<Image, JobObject>, todo: set<Image>)
    returns (events: seq<Event>)
    requires SameJobs(s.cluster.migrationJobs, target)
    requires forall tag :: tag in target && tag !in todo ==> s.cluster.migrationJobs[tag] == target[tag]
    ensures Run(cfg, s, events) == s.(cluster := s.cluster.(migrationJobs := target))
    decreases |todo|
  {
    if tag :| tag in todo {
      if tag in target {
        var e := MoveMigrationJob(tag, Some(target[tag].verdict));
        var rest := MoveMigrationJobs(cfg, Step(cfg, s, e), target, todo - {tag});
        events := [e] + rest;
        RunFrom(cfg, s, e, rest);
      } else {
        events := MoveMigrationJobs(cfg, s, target, todo - {tag});
      }
    } else {
      events := [];
      assert s.cluster.migrationJobs == target;
    }
  }

  lemma MoveSetup(cfg: Config, s: State, target: Option<JobObject>) returns (events: seq<Event>)
    requires target.Some? == s.cluster.setupJob.Some?
    requires target.Some? ==> target.value.content == s.cluster.setupJob.value.content
    ensures Run(cfg, s, events) == s.(cluster := s.cluster.(setupJob := target))
  {
    if target.None? {
      events := [];
    } else {
      var e := MoveSetupJob(Some(target.value.verdict));
      events := [] + [e];
      RunOneMore(cfg, s, [], e);
    }
  }

  /** Jobs and replicas progress until the cluster is healed. */
  lemma HealingIsARun(cfg: Config, s: State, spec: Spec, status: Status, healed: Cluster) returns (events: seq<Event>)
    requires Heals(spec, status, s.cluster, healed)
    ensures Run(cfg, s, events) == s.(cluster := healed)
  {
    var a := MoveSetup(cfg, s, healed.setupJob);
    var s1 := s.(cluster := s.cluster.(setupJob := healed.setupJob));
    var b := MoveMigrationJobs(cfg, s1, healed.migrationJobs, healed.migrationJobs.Keys);
    var s2 := s1.(cluster := s1.cluster.(migrationJobs := healed.migrationJobs));
    var c := MoveDeployments(cfg, s2, healed.deployments, healed.deployments.Keys);
    RunConcat(cfg, s, a, b);
    RunConcat(cfg, s, a + b, c);
    events := a + b + c;
  }

  // ---------------------------------------------------------------- rounds as runs

  /** What a round is about; the history flags aside. */
  predicate Agree(s: State, t: State) {
    s.spec == t.spec && s.status == t.status && s.cluster == t.cluster
  }

  /** A good round is a run: Begin, the operations, job and replica moves, the decision and its write. */
  lemma GoodRoundIsARun(cfg: Config, s: State, obs: Observed, t: State) returns (events: seq<Event>)
    requires s.flight.Idle? && GoodRound(cfg, s, obs, t)
    ensures Agree(Run(cfg, s, events), t) && Run(cfg, s, events).flight.Idle?
  {
    var a := [Begin] + Performs(Plan(s.spec, s.status), AllSucceed());
    PhaseIsARun(cfg, s, AllSucceed());
    var worked := Run(cfg, s, a);
    var b := HealingIsARun(cfg, worked, s.spec, s.status, t.cluster);
    RunConcat(cfg, s, a, b);
    var healed := worked.(cluster := t.cluster);
    FinishReflects(cfg, healed, s.spec, s.status, (t.cluster, true), obs, true);
    RunOneMore(cfg, s, a + b, Decide(obs));
    RunOneMore(cfg, s, a + b + [Decide(obs)], Write(true));
    events := a + b + [Decide(obs)] + [Write(true)];
  }

  lemma {:induction false} GoodRoundsAreARun(cfg: Config, s: State, path: seq<State>, i: nat) returns (events: seq<Event>)
    requires GoodRounds(cfg, path) && i < |path| && s.flight.Idle? && Agree(s, path[0])
    ensures Agree(Run(cfg, s, events), path[i]) && Run(cfg, s, events).flight.Idle?
  {
    if i == 0 {
      events := [];
    } else {
      var before := GoodRoundsAreARun(cfg, s, path, i - 1);
      var now := Run(cfg, s, before);
      assert Advances(cfg, path[i - 1], path[i]);
      var obs :| GoodRound(cfg, path[i - 1], obs, path[i]);
      var more := GoodRoundIsARun(cfg, now, obs, path[i]);
      RunConcat(cfg, s, before, more);
      events := before + more;
    }
  }

  // ---------------------------------------------------------------- good rounds exist

  const SUCCESS := JobState(0, false)

  const GOOD_READS := Observed(Services(true, true, true, true), true, true, {}, Fetched([]))

  /** Every job has succeeded and every deployment reports as many available replicas as it has. */
  function Healed(c: Cluster): Cluster {
    Cluster(
      if c.setupJob.Some? then Some(c.setupJob.value.(verdict := SUCCESS)) else None,
      map tag | tag in c.migrationJobs :: c.migrationJobs[tag].(verdict := SUCCESS),
      map n | n in c.deployments :: c.deployments[n].(status := NEW_REPLICAS),
      c.cronJob)
  }

  /** The good round that reads these queues. */
  function RoundWith(cfg: Config, s: State, stats: Stats): State {
    var healed := Healed(Execute(s.spec, s.status, s.cluster, Plan(s.spec, s.status), AllSucceed()).0);
    s.(cluster := healed, status := NextStatus(cfg, s.spec, s.status, healed, GOOD_READS.(stats := stats)))
  }

  function NextRound(cfg: Config, s: State): State {
    RoundWith(cfg, s, GOOD_READS.stats)
  }

  lemma {:induction false} AllSucceedPasses(spec: Spec, status: Status, c: Cluster, ops: seq<Op>)
    requires InvalidQueueName !in ops
    ensures Execute(spec, status, c, ops, AllSucceed()).1
    decreases |ops|
  {
    if ops != [] {
      assert ops[0] in ops;
      AllSucceedPasses(spec, status, Apply(spec, status, c, ops[0], Succeeds), ops[1..]);
    }
  }

  /** An empty queue name matters only to plans that deploy. */
  predicate Passable(spec: Spec, status: Status) {
    ValidQueues(status.queue) || !(status.state.StateInitializing? || Matching(spec, status))
  }

  lemma ValidPlan(spec: Spec, status: Status)
    requires Passable(spec, status)
    ensures InvalidQueueName !in Plan(spec, status)
  {
    forall i | 0 <= i < |Plan(spec, status)| ensures Plan(spec, status)[i] != InvalidQueueName {
      PlanAt(spec, status, i);
    }
  }

  lemma HealedHeals(spec: Spec, status: Status, c: Cluster)
    ensures Heals(spec, status, c, Healed(c))
  {
  }

  lemma RoundIsGood(cfg: Config, s: State, stats: Stats)
    requires Passable(s.spec, s.status)
    ensures GoodRound(cfg, s, GOOD_READS.(stats := stats), RoundWith(cfg, s, stats))
  {
    ValidPlan(s.spec, s.status);
    AllSucceedPasses(s.spec, s.status, s.cluster, Plan(s.spec, s.status));
    HealedHeals(s.spec, s.status, Execute(s.spec, s.status, s.cluster, Plan(s.spec, s.status), AllSucceed()).0);
  }

  lemma NextRoundIsGood(cfg: Config, s: State)
    requires ValidQueues(s.status.queue)
    ensures GoodRound(cfg, s, GOOD_READS, NextRound(cfg, s))
    ensures ValidQueues(NextRound(cfg, s).status.queue)
  {
    assert GOOD_READS == GOOD_READS.(stats := GOOD_READS.stats);
    RoundIsGood(cfg, s, GOOD_READS.stats);
  }

  /** From every registered state with valid queue names there is a run to Ready with the image of the spec. */
  lemma {:induction false} ReadyIsReachable(cfg: Config, s: State) returns (events: seq<Event>)
    requires s.flight.Idle? && !s.status.state.Unregistered? && ValidQueues(s.status.queue)
    ensures var now := Run(cfg, s, events);
      Arrived(now) && now.flight.Idle? && now.spec == s.spec && ValidQueues(now.status.queue)
    decreases Distance(s)
  {
    if Arrived(s) {
      events := [];
    } else {
      var t := NextRound(cfg, s);
      NextRoundIsGood(cfg, s);
      RoundMakesProgress(cfg, s, GOOD_READS, t);
      var first := GoodRoundIsARun(cfg, s, GOOD_READS, t);
      var now := Run(cfg, s, first);
      assert Distance(now) == Distance(t);
      var rest := ReadyIsReachable(cfg, now);
      RunConcat(cfg, s, first, rest);
      events := first + rest;
    }
  }

  /**
    Not Ready, and either without a manager for the state or with an empty queue name, with which no
    resource phase in Initializing gets past its deployments.
  */
  predicate Blocked(s: State) {
    && !s.status.state.StateReady?
    && (s.status.state.Unregistered? || !ValidQueues(s.status.queue))
    && FlightInv(s)
    && (s.status.state.StateInitializing? ==> s.flight.Idle? || (s.flight.Working? && s.flight.next <= 4))
  }

  lemma StepStaysBlocked(cfg: Config, s: State, e: Event)
    requires Blocked(s)
    ensures Blocked(Step(cfg, s, e))
  {
    if s.flight.Working? && s.status.state.StateInitializing? {
      PlanIsLong(s.flight.spec, s.flight.status);
      StorefrontFirst(s.flight.spec, s.flight.status);
    }
  }

  lemma {:induction false} BlockedForGood(cfg: Config, s: State, events: seq<Event>)
    requires Blocked(s)
    ensures Blocked(Run(cfg, s, events))
  {
    if events != [] {
      BlockedForGood(cfg, s, events[..|events| - 1]);
      StepStaysBlocked(cfg, Run(cfg, s, events[..|events| - 1]), events[|events| - 1]);
    }
  }

  /**
    A store that is not Ready can become Ready, on any run with any spec edits, if and only if its state
    has a manager and no stored queue name is empty: the queues are refreshed in Ready only, and an
    empty name fails every deployment step before that.
  */
  lemma RecoversExactly(cfg: Config, s: State)
    requires s.flight.Idle? && !s.status.state.StateReady?
    ensures (exists events :: Run(cfg, s, events).status.state.StateReady?) <==>
      !s.status.state.Unregistered? && ValidQueues(s.status.queue)
  {
    if !s.status.state.Unregistered? && ValidQueues(s.status.queue) {
      var events := ReadyIsReachable(cfg, s);
      assert Run(cfg, s, events).status.state.StateReady?;
    } else {
      forall events ensures !Run(cfg, s, events).status.state.StateReady? {
        BlockedForGood(cfg, s, events);
      }
    }
  }

  /** A Ready store takes over whatever queues its admin pod reports. */
  lemma ReadsQueues(cfg: Config, s: State, transports: seq<string>) returns (events: seq<Event>)
    requires s.flight.Idle? && Arrived(s) && ValidQueues(s.status.queue) && cfg.connected
    ensures var now := Run(cfg, s, events);
      && now.flight.Idle? && Arrived(now) && now.spec == s.spec && now.status.queue == QueueState(transports, "")
      && ImageIs(now.cluster, s.spec.image) && Storefront in now.cluster.deployments
  {
    var stats := Fetched(transports);
    var obs, t := GOOD_READS.(stats := stats), RoundWith(cfg, s, stats);
    RoundIsGood(cfg, s, stats);
    var after := Execute(s.spec, s.status, s.cluster, Plan(s.spec, s.status), AllSucceed()).0;
    DeploymentsAreThere(s.spec, s.status, s.cluster, AllSucceed());
    HealedIsRunning(s.spec, s.status, after, t.cluster, obs);
    RunningMeans(s.spec, s.status.queue, t.cluster, obs);
    assert Admin in [Storefront, Admin] + WorkerNames(s.spec, s.status.queue);
    events := GoodRoundIsARun(cfg, s, obs, t);
  }

  /** A Ready store that runs another image than its spec asks for turns to Migration. */
  lemma LeavesForMigration(cfg: Config, s: State) returns (events: seq<Event>)
    requires s.flight.Idle? && s.status.state.StateReady? && s.status.currentImageTag != s.spec.image
    requires Storefront in s.cluster.deployments && s.cluster.deployments[Storefront].workload.image != s.spec.image
    ensures var now := Run(cfg, s, events);
      now.flight.Idle? && now.status.state.StateMigration? && now.status.queue == s.status.queue
  {
    var t := RoundWith(cfg, s, Fetched([]));
    RoundIsGood(cfg, s, Fetched([]));
    ReadyStartsMigration(s.spec, s.status, s.cluster, AllSucceed());
    events := GoodRoundIsARun(cfg, s, GOOD_READS.(stats := Fetched([])), t);
  }

  /** And from there to Initializing, with the same queues. */
  lemma FinishesMigration(cfg: Config, s: State) returns (events: seq<Event>)
    requires s.flight.Idle? && IsMigration(s.status.state)
    ensures var now := Run(cfg, s, events);
      now.flight.Idle? && now.status.state.StateInitializing? && now.status.queue == s.status.queue
  {
    var t := RoundWith(cfg, s, Fetched([]));
    RoundIsGood(cfg, s, Fetched([]));
    MigrationRound(cfg, s, GOOD_READS.(stats := Fetched([])), t);
    events := GoodRoundIsARun(cfg, s, GOOD_READS.(stats := Fetched([])), t);
  }

  /** Such a blocked state is reached from every new store: one nameless queue, then a new image. */
  lemma NamelessQueueBlocks(cfg: Config, s: State, edited: Spec) returns (events: seq<Event>)
    requires Initial(s) && ValidQueues(s.status.queue) && cfg.connected && edited.image != s.spec.image
    ensures Blocked(Run(cfg, s, events))
  {
    var a := ReadyIsReachable(cfg, s);
    var ready := Run(cfg, s, a);
    var b := ReadsQueues(cfg, ready, [""]);
    RunConcat(cfg, s, a, b);
    RunOneMore(cfg, s, a + b, EditSpec(edited));
    var c := a + b + [EditSpec(edited)];
    var d := LeavesForMigration(cfg, Run(cfg, s, c));
    RunConcat(cfg, s, c, d);
    var e := FinishesMigration(cfg, Run(cfg, s, c + d));
    RunConcat(cfg, s, c + d, e);
    events := c + d + e;
    assert "" in [""];
  }

  // ---------------------------------------------------------------- a rollout without a migration

  predicate BeforeDeploying(s: AppState) {
    s.StateEmpty? || s.StateWait? || IsSetup(s)
  }

  /** Before anything is deployed, good rounds lead to Initializing without a migration job. */
  lemma {:induction false} ToInitializing(cfg: Config, s: State) returns (events: seq<Event>)
    requires s.flight.Idle? && BeforeDeploying(s.status.state) && ValidQueues(s.status.queue)
    ensures var now := Run(cfg, s, events);
      && now.flight.Idle? && now.status.state.StateInitializing? && now.spec == s.spec
      && ValidQueues(now.status.queue) && now.cluster.migrationJobs.Keys == s.cluster.migrationJobs.Keys
    decreases Distance(s)
  {
    var t := NextRound(cfg, s);
    NextRoundIsGood(cfg, s);
    RoundMakesProgress(cfg, s, GOOD_READS, t);
    ExecuteKeepsMigrationJobs(s.spec, s.status, s.cluster, Plan(s.spec, s.status), AllSucceed());
    events := GoodRoundIsARun(cfg, s, GOOD_READS, t);
    var now := Run(cfg, s, events);
    assert BeforeDeploying(t.status.state) || t.status.state.StateInitializing?;
    if BeforeDeploying(t.status.state) {
      assert Distance(now) == Distance(t);
      var rest := ToInitializing(cfg, now);
      RunConcat(cfg, s, events, rest);
      events := events + rest;
    }
  }

  /** The storefront is deployed, but the status write is lost; then the spec is edited. */
  lemma DeployedThenEdited(cfg: Config, s: State, edited: Spec) returns (events: seq<Event>)
    requires s.flight.Idle? && s.status.state.StateInitializing? && ValidQueues(s.status.queue)
    ensures var now := Run(cfg, s, events);
      && now.flight.Idle? && now.status == s.status && now.spec == edited
      && now.cluster.migrationJobs == s.cluster.migrationJobs
      && Storefront in now.cluster.deployments && now.cluster.deployments[Storefront].workload.image == s.spec.image
  {
    ValidPlan(s.spec, s.status);
    AllSucceedPasses(s.spec, s.status, s.cluster, Plan(s.spec, s.status));
    ReconcileIsARun(cfg, s, AllSucceed(), GOOD_READS, false);
    DeploymentsAreThere(s.spec, s.status, s.cluster, AllSucceed());
    var names := Generated(s.spec, s.status.queue);
    assert names[0] == Storefront && names[0] in names;
    NoMigrationJobOp(s.spec, s.status);
    ExecuteKeepsMigrationJobs(s.spec, s.status, s.cluster, Plan(s.spec, s.status), AllSucceed());
    var first := ReconcileEvents(s.spec, s.status, AllSucceed(), GOOD_READS, false);
    RunOneMore(cfg, s, first, EditSpec(edited));
    events := first + [EditSpec(edited)];
  }

  /**
    For every new store and every edit of its image there is a run in which the running image is
    replaced by the edited one, up to Ready, and no migration job exists.
  */
  lemma UnmigratedRollout(cfg: Config, s: State, edited: Spec) returns (before: seq<Event>, events: seq<Event>)
    requires Initial(s) && ValidQueues(s.status.queue) && s.cluster.migrationJobs == map[]
    requires edited.image != s.spec.image
    ensures var mid, end := Run(cfg, s, before), Run(cfg, s, before + events);
      && Storefront in mid.cluster.deployments && mid.cluster.deployments[Storefront].workload.image == s.spec.image
      && ImageChanges(mid.cluster, end.cluster)
      && end.spec == edited && Arrived(end)
      && mid.cluster.migrationJobs == map[] && end.cluster.migrationJobs == map[]
  {
    var a := ToInitializing(cfg, s);
    var b := DeployedThenEdited(cfg, Run(cfg, s, a), edited);
    RunConcat(cfg, s, a, b);
    before := a + b;
    var mid := Run(cfg, s, before);
    var t := NextRound(cfg, mid);
    NextRoundIsGood(cfg, mid);
    events := GoodRoundIsARun(cfg, mid, GOOD_READS, t);
    InitializingSkipsMigration(cfg, mid, GOOD_READS, t);
    RunConcat(cfg, s, before, events);
    assert mid.cluster.migrationJobs.Keys == {};
    assert t.cluster.migrationJobs.Keys == {};
  }
}
