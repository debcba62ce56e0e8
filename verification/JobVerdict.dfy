/**
  Job detection of internal/job/util.go (IsJobContainerDone, JobState): the verdict on one container
  of a job, read from the pods of the job and from the job's own counters.
*/
module JobVerdict {
  import opened Wrappers
  import opened Sequences

  datatype Terminated = Terminated(exitCode: int, reason: string)

  datatype ContainerStatus = ContainerStatus(name: string, terminated: Option<Terminated>)

  datatype Pod = Pod(pending: bool, statuses: seq<ContainerStatus>)

  datatype Job = Job(containers: seq<string>, succeeded: int, failed: int)

  datatype JobState = JobState(exitCode: int, running: bool) {
    predicate HasErrors() { exitCode != 0 }

    predicate IsDone() { !running }

    predicate IsFailure() { IsDone() && HasErrors() }

    predicate IsSuccess() { IsDone() && !HasErrors() }
  }

  // ---------------------------------------------------------------- what the scan can see

  datatype Sight = StillPending | NotTerminated | CompletedRun | ErrorExit(exitCode: int) | Uninformative

  function SightOf(c: ContainerStatus): Sight {
    match c.terminated
    case None => NotTerminated
    case Some(t) =>
      if t.reason == "Completed" then CompletedRun
      else if t.exitCode != 0 then ErrorExit(t.exitCode)
      else Uninformative
  }

  function StatusSights(statuses: seq<ContainerStatus>, container: string): seq<Sight> {
    if statuses == [] then []
    else (if statuses[0].name == container then [SightOf(statuses[0])] else []) + StatusSights(statuses[1..], container)
  }

  function PodSights(pod: Pod, container: string): seq<Sight> {
    if pod.pending then [StillPending] else StatusSights(pod.statuses, container)
  }

  function Sights(pods: seq<Pod>, container: string): seq<Sight> {
    if pods == [] then [] else PodSights(pods[0], container) + Sights(pods[1..], container)
  }

  /** Pods are looked at only if the job has a container of that name. */
  function Visible(job: Job, pods: seq<Pod>, container: string): seq<Sight> {
    if container in job.containers then Sights(pods, container) else []
  }

  /** These end the scan at once. */
  predicate Decisive(s: Sight) {
    s.StillPending? || s.NotTerminated? || s.CompletedRun?
  }

  predicate Undecided(sights: seq<Sight>) {
    forall i :: 0 <= i < |sights| ==> !Decisive(sights[i])
  }

  function FirstDecisive(sights: seq<Sight>): Option<JobState> {
    if sights == [] then None
    else if Decisive(sights[0]) then Some(if sights[0].CompletedRun? then JobState(0, false) else JobState(-1, true))
    else FirstDecisive(sights[1..])
  }

  function LastErrorExit(sights: seq<Sight>): Option<int> {
    if sights == [] then None
    else if sights[|sights| - 1].ErrorExit? then Some(sights[|sights| - 1].exitCode)
    else LastErrorExit(sights[..|sights| - 1])
  }

  /** The verdict when no pod decides it. */
  function FromCounters(job: Job, errorExit: Option<int>): JobState {
    if job.succeeded > 0 then JobState(0, false)
    else if errorExit.Some? then JobState(errorExit.value, false)
    else if job.failed > 0 then JobState(-404, false)
    else JobState(0, true)
  }

  function Verdict(job: Job, pods: seq<Pod>, container: string): JobState {
    var sights := Visible(job, pods, container);
    match FirstDecisive(sights)
    case Some(state) => state
    case None => FromCounters(job, LastErrorExit(sights))
  }

  // ---------------------------------------------------------------- the scan

  lemma {:induction false} FirstDecisiveConcat(a: seq<Sight>, b: seq<Sight>)
    ensures FirstDecisive(a + b) == if FirstDecisive(a).Some? then FirstDecisive(a) else FirstDecisive(b)
  {
    if a == [] {
      assert a + b == b;
    } else {
      assert (a + b)[1..] == a[1..] + b;
      FirstDecisiveConcat(a[1..], b);
    }
  }

  lemma {:induction false} LastErrorExitConcat(a: seq<Sight>, b: seq<Sight>)
    ensures LastErrorExit(a + b) == if LastErrorExit(b).Some? then LastErrorExit(b) else LastErrorExit(a)
  {
    if b == [] {
      assert a + b == a;
    } else {
      assert (a + b)[..|a + b| - 1] == a + b[..|b| - 1];
      LastErrorExitConcat(a, b[..|b| - 1]);
    }
  }

  lemma {:induction false} StatusSightsSnoc(statuses: seq<ContainerStatus>, n: nat, container: string)
    requires n < |statuses|
    ensures StatusSights(statuses[..n + 1], container) ==
      StatusSights(statuses[..n], container) + (if statuses[n].name == container then [SightOf(statuses[n])] else [])
  {
    if n == 0 {
      assert statuses[..1] == [statuses[0]];
    } else {
      assert statuses[..n + 1][1..] == statuses[1..][..n];
      assert statuses[..n][1..] == statuses[1..][..n - 1];
      StatusSightsSnoc(statuses[1..], n - 1, container);
    }
  }

  lemma SightsSnoc(pods: seq<Pod>, n: nat, container: string)
    requires n < |pods|
    ensures Sights(pods[..n + 1], container) == Sights(pods[..n], container) + PodSights(pods[n], container)
  {
    var first := pods[..n + 1];
    SightsSplit(first, n, container);
    assert first[..n] == pods[..n] && first[n..] == [pods[n]];
    OnePod(pods[n], container);
  }

  lemma OnePod(pod: Pod, container: string)
    ensures Sights([pod], container) == PodSights(pod, container)
  {
    assert [pod][1..] == [];
  }

  lemma DecidedByPrefix(a: seq<Sight>, s: Sight, rest: seq<Sight>)
    requires FirstDecisive(a).None? && Decisive(s)
    ensures FirstDecisive(a + [s] + rest) == Some(if s.CompletedRun? then JobState(0, false) else JobState(-1, true))
  {
    FirstDecisiveConcat(a, [s]);
    FirstDecisiveConcat(a + [s], rest);
  }

  /** The exit codes collected so far, as IsJobContainerDone appends them to errorStates. */
  ghost predicate Collected(errorStates: seq<JobState>, sights: seq<Sight>) {
    && FirstDecisive(sights).None?
    && (errorStates == [] <==> LastErrorExit(sights).None?)
    && (errorStates != [] ==> errorStates[|errorStates| - 1] == JobState(LastErrorExit(sights).value, false))
  }

  lemma CollectedStep(errorStates: seq<JobState>, sights: seq<Sight>, s: Sight)
    requires Collected(errorStates, sights) && !Decisive(s)
    ensures Collected(if s.ErrorExit? then errorStates + [JobState(s.exitCode, false)] else errorStates, sights + [s])
  {
    FirstDecisiveConcat(sights, [s]);
    assert (sights + [s])[..|sights + [s]| - 1] == sights;
  }

  /** One pod: either the verdict is reached, or its error exits are added to the list. */
  method ScanPod(pod: Pod, container: string, ghost before: seq<Sight>, errorStates: seq<JobState>)
    returns (decided: Option<JobState>, errors: seq<JobState>)
    requires Collected(errorStates, before)
    ensures decided == FirstDecisive(before + PodSights(pod, container))
    ensures decided.None? ==> Collected(errors, before + PodSights(pod, container))
  {
    errors := errorStates;
    if pod.pending {
      DecidedByPrefix(before, StillPending, []);
      assert before + PodSights(pod, container) == before + [StillPending] + [];
      return Some(JobState(-1, true)), errors;
    }
    assert before + StatusSights(pod.statuses[..0], container) == before;
    for i := 0 to |pod.statuses|
      invariant Collected(errors, before + StatusSights(pod.statuses[..i], container))
    {
      var c := pod.statuses[i];
      ghost var sofar := before + StatusSights(pod.statuses[..i], container);
      StatusSightsSnoc(pod.statuses, i, container);
      assert before + StatusSights(pod.statuses[..i + 1], container)
          == sofar + if c.name == container then [SightOf(c)] else [];
      if c.name == container {
        if c.terminated.None? {
          DecidesScan(pod, container, before, i);
          return Some(JobState(-1, true)), errors;
        }
        if !Decisive(SightOf(c)) {
          CollectedStep(errors, sofar, SightOf(c));
        } else {
          DecidesScan(pod, container, before, i);
        }
        if c.terminated.value.exitCode != 0 {
          errors := errors + [JobState(c.terminated.value.exitCode, false)];
        }
        if c.terminated.value.reason == "Completed" {
          return Some(JobState(0, false)), errors;
        }
      } else {
        assert sofar + [] == sofar;
      }
    }
    assert pod.statuses[..|pod.statuses|] == pod.statuses;
    return None, errors;
  }

  lemma {:induction false} StatusSightsSplit(statuses: seq<ContainerStatus>, n: nat, container: string)
    requires n <= |statuses|
    ensures StatusSights(statuses, container) == StatusSights(statuses[..n], container) + StatusSights(statuses[n..], container)
  {
    if n > 0 {
      assert statuses[..n][1..] == statuses[1..][..n - 1];
      assert statuses[n..] == statuses[1..][n - 1..];
      StatusSightsSplit(statuses[1..], n - 1, container);
    }
  }

  lemma DecidesScan(pod: Pod, container: string, before: seq<Sight>, i: nat)
    requires !pod.pending && i < |pod.statuses| && pod.statuses[i].name == container
    requires FirstDecisive(before + StatusSights(pod.statuses[..i], container)).None?
    requires Decisive(SightOf(pod.statuses[i]))
    ensures FirstDecisive(before + PodSights(pod, container)) ==
      Some(if SightOf(pod.statuses[i]).CompletedRun? then JobState(0, false) else JobState(-1, true))
  {
    StatusSightsSplit(pod.statuses, i + 1, container);
    StatusSightsSnoc(pod.statuses, i, container);
    var sofar := before + StatusSights(pod.statuses[..i], container);
    var rest := StatusSights(pod.statuses[i + 1..], container);
    DecidedByPrefix(sofar, SightOf(pod.statuses[i]), rest);
    assert before + PodSights(pod, container) == sofar + [SightOf(pod.statuses[i])] + rest;
  }

  lemma {:induction false} SightsSplit(pods: seq<Pod>, n: nat, container: string)
    requires n <= |pods|
    ensures Sights(pods, container) == Sights(pods[..n], container) + Sights(pods[n..], container)
  {
    if n > 0 {
      var rest := pods[1..];
      assert pods[..n][1..] == rest[..n - 1] && pods[n..] == rest[n - 1..];
      SightsSplit(rest, n - 1, container);
      assert pods[..n][0] == pods[0];
    }
  }

  lemma PodsSnoc(before: seq<Sight>, pods: seq<Pod>, i: nat, container: string)
    requires i < |pods|
    ensures before + Sights(pods[..i], container) + PodSights(pods[i], container) == before + Sights(pods[..i + 1], container)
  {
    SightsSnoc(pods, i, container);
  }

  lemma DecidedStays(a: seq<Sight>, b: seq<Sight>, c: seq<Sight>)
    requires FirstDecisive(a + b).Some?
    ensures FirstDecisive(a + (b + c)) == FirstDecisive(a + b)
  {
    FirstDecisiveConcat(a + b, c);
    assert a + (b + c) == (a + b) + c;
  }

  lemma PodsDecided(before: seq<Sight>, pods: seq<Pod>, n: nat, container: string)
    requires n <= |pods|
    requires FirstDecisive(before + Sights(pods[..n], container)).Some?
    ensures FirstDecisive(before + Sights(pods, container)) == FirstDecisive(before + Sights(pods[..n], container))
  {
    SightsSplit(pods, n, container);
    DecidedStays(before, Sights(pods[..n], container), Sights(pods[n..], container));
  }

  /** All pods in list order, until one decides. */
  method ScanPods(pods: seq<Pod>, container: string, ghost before: seq<Sight>, errorStates: seq<JobState>)
    returns (decided: Option<JobState>, errors: seq<JobState>)
    requires Collected(errorStates, before)
    ensures decided == FirstDecisive(before + Sights(pods, container))
    ensures decided.None? ==> Collected(errors, before + Sights(pods, container))
  {
    errors := errorStates;
    assert before + Sights(pods[..0], container) == before;
    for i := 0 to |pods|
      invariant Collected(errors, before + Sights(pods[..i], container))
    {
      decided, errors := ScanPod(pods[i], container, before + Sights(pods[..i], container), errors);
      PodsSnoc(before, pods, i, container);
      if decided.Some? {
        PodsDecided(before, pods, i + 1, container);
        return;
      }
    }
    assert pods[..|pods|] == pods;
    decided := None;
  }

  /**
    `job` is None for a nil job, `pods` is the error of the selector or of the pod list if there is
    one; pods are only listed when the job has a container of that name, and again for every
    further container that repeats the name.
  */
  method IsJobContainerDone(job: Option<Job>, pods: Result<seq<Pod>>, container: string) returns (r: Result<JobState>)
    ensures job.None? || (container in job.value.containers && pods.Err?) <==> r.Err?
    ensures r.Ok? ==> r.value == Verdict(job.value, if pods.Ok? then pods.value else [], container)
  {
    if job.None? {
      return Err("job to check is nil");
    }
    var errorStates: seq<JobState> := [];
    ghost var all := if pods.Ok? then Sights(pods.value, container) else [];
    ghost var seen: seq<Sight> := [];
    for k := 0 to |job.value.containers|
      invariant Collected(errorStates, seen)
      invariant container !in job.value.containers[..k] ==> seen == []
      invariant container in job.value.containers[..k] ==>
        pods.Ok? && FirstDecisive(all).None? && LastErrorExit(seen) == LastErrorExit(all)
    {
      if job.value.containers[k] == container {
        if pods.Err? {
          return Err("get pods: " + pods.message);
        }
        FirstDecisiveConcat(seen, all);
        LastErrorExitConcat(seen, all);
        var decided, errors := ScanPods(pods.value, container, seen, errorStates);
        if decided.Some? {
          return Ok(decided.value);
        }
        errorStates := errors;
        seen := seen + all;
      }
    }
    assert job.value.containers[..|job.value.containers|] == job.value.containers;
    if job.value.succeeded > 0 {
      return Ok(JobState(0, false));
    }
    if |errorStates| > 0 {
      return Ok(errorStates[|errorStates| - 1]);
    }
    if job.value.failed > 0 {
      return Ok(JobState(-404, false));
    }
    return Ok(JobState(0, true));
  }

  // ---------------------------------------------------------------- what the verdict means

  lemma {:induction false} FirstDecisiveIff(sights: seq<Sight>)
    ensures FirstDecisive(sights).None? <==> Undecided(sights)
    ensures FirstDecisive(sights).Some? ==> FirstDecisive(sights).value in {JobState(0, false), JobState(-1, true)}
    ensures FirstDecisive(sights) == Some(JobState(0, false)) ==> CompletedRun in sights
  {
    if sights != [] && !Decisive(sights[0]) {
      FirstDecisiveIff(sights[1..]);
      assert forall i :: 0 < i < |sights| ==> sights[i] == sights[1..][i - 1];
    }
  }

  lemma {:induction false} LastErrorExitIff(sights: seq<Sight>)
    ensures LastErrorExit(sights).Some? <==> exists i :: 0 <= i < |sights| && sights[i].ErrorExit?
    ensures LastErrorExit(sights).Some? ==> ErrorExit(LastErrorExit(sights).value) in sights
  {
    if sights != [] && !sights[|sights| - 1].ErrorExit? {
      LastErrorExitIff(sights[..|sights| - 1]);
      assert forall i :: 0 <= i < |sights| - 1 ==> sights[i] == sights[..|sights| - 1][i];
    }
  }

  lemma {:induction false} ErrorExitIsNonZero(pods: seq<Pod>, container: string)
    ensures forall s :: s in Sights(pods, container) && s.ErrorExit? ==> s.exitCode != 0
  {
    if pods != [] {
      ErrorExitIsNonZero(pods[1..], container);
      StatusErrorExitIsNonZero(pods[0].statuses, container);
    }
  }

  lemma {:induction false} StatusErrorExitIsNonZero(statuses: seq<ContainerStatus>, container: string)
    ensures forall s :: s in StatusSights(statuses, container) && s.ErrorExit? ==> s.exitCode != 0
  {
    if statuses != [] {
      StatusErrorExitIsNonZero(statuses[1..], container);
    }
  }

  /** No visible pod is pending, unterminated or completed. */
  predicate NothingDecides(job: Job, pods: seq<Pod>, container: string) {
    forall s :: s in Visible(job, pods, container) ==> !Decisive(s)
  }

  predicate SomeErrorExit(job: Job, pods: seq<Pod>, container: string) {
    exists s :: s in Visible(job, pods, container) && s.ErrorExit?
  }

  /** The exact condition under which a job is reported as failed. */
  lemma FailureExactly(job: Job, pods: seq<Pod>, container: string)
    ensures Verdict(job, pods, container).IsFailure() <==>
      && NothingDecides(job, pods, container)
      && job.succeeded <= 0
      && (SomeErrorExit(job, pods, container) || job.failed > 0)
  {
    var sights := Visible(job, pods, container);
    FirstDecisiveIff(sights);
    LastErrorExitIff(sights);
    ErrorExitIsNonZero(pods, container);
  }

  lemma {:induction false} SightsMembership(pods: seq<Pod>, container: string, s: Sight)
    ensures s in Sights(pods, container) <==> exists pod :: pod in pods && s in PodSights(pod, container)
  {
    if pods != [] {
      SightsMembership(pods[1..], container, s);
      assert pods == [pods[0]] + pods[1..];
    }
  }

  lemma SamePodsSameSights(job: Job, pods: seq<Pod>, reordered: seq<Pod>, container: string)
    requires multiset(pods) == multiset(reordered)
    ensures forall s :: s in Visible(job, pods, container) <==> s in Visible(job, reordered, container)
  {
    forall pod ensures pod in pods <==> pod in reordered {
      assert pod in pods <==> pod in multiset(pods);
      assert pod in reordered <==> pod in multiset(reordered);
    }
    forall s ensures s in Sights(pods, container) <==> s in Sights(reordered, container) {
      SightsMembership(pods, container, s);
      SightsMembership(reordered, container, s);
    }
  }

  /** The failure verdict does not depend on the order of the pods; no reordering turns success into failure. */
  lemma FailureIgnoresOrder(job: Job, pods: seq<Pod>, reordered: seq<Pod>, container: string)
    requires multiset(pods) == multiset(reordered)
    ensures Verdict(job, pods, container).IsFailure() == Verdict(job, reordered, container).IsFailure()
    ensures Verdict(job, pods, container).IsSuccess() ==> !Verdict(job, reordered, container).IsFailure()
  {
    SamePodsSameSights(job, pods, reordered, container);
    FailureExactly(job, pods, container);
    FailureExactly(job, reordered, container);
  }

  /** When nothing decides early, the whole verdict except its exit code is independent of the order. */
  lemma UndecidedIgnoresOrder(job: Job, pods: seq<Pod>, reordered: seq<Pod>, container: string)
    requires multiset(pods) == multiset(reordered) && NothingDecides(job, pods, container)
    ensures var a, b := Verdict(job, pods, container), Verdict(job, reordered, container);
      a.running == b.running && a.HasErrors() == b.HasErrors()
  {
    SamePodsSameSights(job, pods, reordered, container);
    FirstDecisiveIff(Visible(job, pods, container));
    FirstDecisiveIff(Visible(job, reordered, container));
    LastErrorExitIff(Visible(job, pods, container));
    LastErrorExitIff(Visible(job, reordered, container));
    ErrorExitIsNonZero(pods, container);
    ErrorExitIsNonZero(reordered, container);
  }

  // ---------------------------------------------------------------- in terms of pods and container statuses

  predicate IsCompleted(st: ContainerStatus, container: string) {
    st.name == container && st.terminated.Some? && st.terminated.value.reason == "Completed"
  }

  predicate IsUnfinished(st: ContainerStatus, container: string) {
    st.name == container && st.terminated.None?
  }

  predicate HasExit(st: ContainerStatus, container: string) {
    st.name == container && st.terminated.Some? && st.terminated.value.exitCode != 0
  }

  function Completed(container: string): ContainerStatus -> bool {
    (st: ContainerStatus) => IsCompleted(st, container)
  }

  function Unfinished(container: string): ContainerStatus -> bool {
    (st: ContainerStatus) => IsUnfinished(st, container)
  }

  /** A status that does not end the scan. */
  function Quiet(container: string): ContainerStatus -> bool {
    (st: ContainerStatus) => !IsCompleted(st, container) && !IsUnfinished(st, container)
  }

  /** The first status that ends the scan is a completed one. */
  function PodCompletes(container: string): Pod -> bool {
    (pod: Pod) => !pod.pending && FirstHit(pod.statuses, Quiet(container), Completed(container))
  }

  /** The pod is pending, or the first status that ends the scan is not terminated. */
  function PodWaits(container: string): Pod -> bool {
    (pod: Pod) => pod.pending || FirstHit(pod.statuses, Quiet(container), Unfinished(container))
  }

  function PodQuiet(container: string): Pod -> bool {
    (pod: Pod) => !pod.pending && AllQuiet(pod.statuses, Quiet(container))
  }

  /** The first pod that ends the scan has completed the container. */
  predicate SomePodCompletes(job: Job, pods: seq<Pod>, container: string) {
    container in job.containers && FirstHit(pods, PodQuiet(container), PodCompletes(container))
  }

  /** The first pod that ends the scan is pending or has not terminated the container. */
  predicate SomePodWaits(job: Job, pods: seq<Pod>, container: string) {
    container in job.containers && FirstHit(pods, PodQuiet(container), PodWaits(container))
  }

  /** No pod ends the scan, or none is looked at. */
  predicate NoPodDecides(job: Job, pods: seq<Pod>, container: string) {
    container in job.containers ==> AllQuiet(pods, PodQuiet(container))
  }

  predicate SomeExit(job: Job, pods: seq<Pod>, container: string) {
    && container in job.containers
    && exists pod, st :: pod in pods && !pod.pending && st in pod.statuses && HasExit(st, container)
  }

  const DONE := JobState(0, false)
  const WAITING := JobState(-1, true)

  lemma {:induction false} StatusesDecide(statuses: seq<ContainerStatus>, container: string)
    ensures var d := FirstDecisive(StatusSights(statuses, container));
      && (d == Some(DONE) <==> FirstHit(statuses, Quiet(container), Completed(container)))
      && (d == Some(WAITING) <==> FirstHit(statuses, Quiet(container), Unfinished(container)))
      && (d.None? <==> AllQuiet(statuses, Quiet(container)))
      && d in {None, Some(DONE), Some(WAITING)}
  {
    if statuses != [] {
      StatusesDecide(statuses[1..], container);
      var own := if statuses[0].name == container then [SightOf(statuses[0])] else [];
      FirstDecisiveConcat(own, StatusSights(statuses[1..], container));
      FirstHitShift(statuses, Quiet(container), Completed(container));
      FirstHitShift(statuses, Quiet(container), Unfinished(container));
      AllQuietShift(statuses, Quiet(container));
    }
  }

  lemma {:induction false} PodsDecide(pods: seq<Pod>, container: string)
    ensures var d := FirstDecisive(Sights(pods, container));
      && (d == Some(DONE) <==> FirstHit(pods, PodQuiet(container), PodCompletes(container)))
      && (d == Some(WAITING) <==> FirstHit(pods, PodQuiet(container), PodWaits(container)))
      && (d.None? <==> AllQuiet(pods, PodQuiet(container)))
      && d in {None, Some(DONE), Some(WAITING)}
  {
    if pods != [] {
      PodsDecide(pods[1..], container);
      StatusesDecide(pods[0].statuses, container);
      FirstDecisiveConcat(PodSights(pods[0], container), Sights(pods[1..], container));
      FirstHitShift(pods, PodQuiet(container), PodCompletes(container));
      FirstHitShift(pods, PodQuiet(container), PodWaits(container));
      AllQuietShift(pods, PodQuiet(container));
    }
  }

  lemma {:induction false} StatusSightsMembership(statuses: seq<ContainerStatus>, container: string, s: Sight)
    ensures s in StatusSights(statuses, container) <==> exists st :: st in statuses && st.name == container && SightOf(st) == s
  {
    if statuses != [] {
      StatusSightsMembership(statuses[1..], container, s);
      assert statuses == [statuses[0]] + statuses[1..];
    }
  }

  /** Where nothing decides, the error exits seen are the non-zero exits of the container. */
  lemma ExitsAreSeen(job: Job, pods: seq<Pod>, container: string)
    requires NoPodDecides(job, pods, container)
    ensures LastErrorExit(Visible(job, pods, container)).Some? <==> SomeExit(job, pods, container)
  {
    LastErrorExitIff(Visible(job, pods, container));
    if container in job.containers {
      if SomeExit(job, pods, container) {
        var pod, st :| pod in pods && !pod.pending && st in pod.statuses && HasExit(st, container);
        var i :| 0 <= i < |pods| && pods[i] == pod;
        var j :| 0 <= j < |pod.statuses| && pod.statuses[j] == st;
        assert PodQuiet(container)(pods[i]) && Quiet(container)(pod.statuses[j]);
        StatusSightsMembership(pod.statuses, container, SightOf(st));
        SightsMembership(pods, container, SightOf(st));
      } else if LastErrorExit(Sights(pods, container)).Some? {
        var s := ErrorExit(LastErrorExit(Sights(pods, container)).value);
        SightsMembership(pods, container, s);
        var pod :| pod in pods && s in PodSights(pod, container);
        StatusSightsMembership(pod.statuses, container, s);
        var st :| st in pod.statuses && st.name == container && SightOf(st) == s;
        assert HasExit(st, container);
      }
    }
  }

  /**
    The verdict in terms of pods and container statuses, case by case: success if the first pod that
    ends the scan has completed the container, or none ends it and the job counts a success; running if
    the first one waits, or none ends it and there is neither a success, nor an exit, nor a failure;
    failure otherwise, with the latest exit code or -404.
  */
  lemma VerdictExactly(job: Job, pods: seq<Pod>, container: string)
    ensures var v := Verdict(job, pods, container);
      var open := NoPodDecides(job, pods, container) && job.succeeded <= 0;
      && (v.IsSuccess() <==>
            SomePodCompletes(job, pods, container) || (NoPodDecides(job, pods, container) && job.succeeded > 0))
      && (v.running <==>
            SomePodWaits(job, pods, container) || (open && !SomeExit(job, pods, container) && job.failed <= 0))
      && (v.IsFailure() <==> open && (SomeExit(job, pods, container) || job.failed > 0))
      && (open && SomeExit(job, pods, container) ==> Some(v.exitCode) == LastErrorExit(Visible(job, pods, container)))
      && (open && !SomeExit(job, pods, container) && job.failed > 0 ==> v.exitCode == -404)
  {
    PodsDecide(pods, container);
    if NoPodDecides(job, pods, container) {
      ExitsAreSeen(job, pods, container);
      ErrorExitIsNonZero(pods, container);
      LastErrorExitIff(Visible(job, pods, container));
      assert FirstDecisive([]).None?;
    }
  }

  // ---------------------------------------------------------------- when the order of the pods matters

  /** What the pod alone would decide. */
  function PodDecides(pod: Pod, container: string): Option<JobState> {
    FirstDecisive(PodSights(pod, container))
  }

  /** One pod has completed the container while another is pending or has not terminated it. */
  predicate Contested(job: Job, pods: seq<Pod>, container: string) {
    && container in job.containers
    && exists p, q :: p in pods && q in pods && PodDecides(p, container) == Some(JobState(0, false)) && PodDecides(q, container) == Some(JobState(-1, true))
  }

  predicate SameOutcome(a: JobState, b: JobState) {
    a.running == b.running && a.IsFailure() == b.IsFailure() && a.IsSuccess() == b.IsSuccess()
  }

  lemma {:induction false} SomePodDecides(pods: seq<Pod>, container: string)
    requires FirstDecisive(Sights(pods, container)).Some?
    ensures exists pod :: pod in pods && PodDecides(pod, container) == FirstDecisive(Sights(pods, container))
  {
    FirstDecisiveConcat(PodSights(pods[0], container), Sights(pods[1..], container));
    if PodDecides(pods[0], container).Some? {
      assert pods[0] in pods;
    } else {
      SomePodDecides(pods[1..], container);
      var pod :| pod in pods[1..] && PodDecides(pod, container) == FirstDecisive(Sights(pods[1..], container));
      assert pod in pods;
    }
  }

  lemma UncontestedIgnoresOrder(job: Job, pods: seq<Pod>, reordered: seq<Pod>, container: string)
    requires multiset(pods) == multiset(reordered) && !Contested(job, pods, container)
    ensures Verdict(job, pods, container).running == Verdict(job, reordered, container).running
  {
    if NothingDecides(job, pods, container) {
      UndecidedIgnoresOrder(job, pods, reordered, container);
    } else {
      SamePodsSameSights(job, pods, reordered, container);
      FirstDecisiveIff(Visible(job, pods, container));
      FirstDecisiveIff(Visible(job, reordered, container));
      SomePodDecides(pods, container);
      SomePodDecides(reordered, container);
      var p :| p in pods && PodDecides(p, container) == FirstDecisive(Sights(pods, container));
      var q :| q in reordered && PodDecides(q, container) == FirstDecisive(Sights(reordered, container));
      assert q in multiset(reordered) && q in pods;
    }
  }

  /** The same pods with the one at `i` first. */
  function MovedToFront(pods: seq<Pod>, i: nat): (r: seq<Pod>)
    requires i < |pods|
    ensures multiset(r) == multiset(pods)
  {
    assert pods == pods[..i] + [pods[i]] + pods[i + 1..];
    [pods[i]] + (pods[..i] + pods[i + 1..])
  }

  lemma FirstPodDecides(job: Job, pods: seq<Pod>, i: nat, container: string)
    requires container in job.containers && i < |pods| && PodDecides(pods[i], container).Some?
    ensures Verdict(job, MovedToFront(pods, i), container) == PodDecides(pods[i], container).value
  {
    var r := MovedToFront(pods, i);
    FirstDecisiveConcat(PodSights(pods[i], container), Sights(r[1..], container));
  }

  /**
    No reordering of the pods changes whether a job is running, failed or succeeded, if and only if
    there are no two pods of which one has completed the container and the other still waits for it.
  */
  lemma OrderMattersExactly(job: Job, pods: seq<Pod>, container: string)
    ensures (forall r | multiset(r) == multiset(pods) :: SameOutcome(Verdict(job, r, container), Verdict(job, pods, container)))
      <==> !Contested(job, pods, container)
  {
    if Contested(job, pods, container) {
      var p, q :| p in pods && q in pods && PodDecides(p, container) == Some(JobState(0, false)) && PodDecides(q, container) == Some(JobState(-1, true));
      var i :| 0 <= i < |pods| && pods[i] == p;
      var j :| 0 <= j < |pods| && pods[j] == q;
      FirstPodDecides(job, pods, i, container);
      FirstPodDecides(job, pods, j, container);
      assert !SameOutcome(Verdict(job, MovedToFront(pods, i), container), Verdict(job, MovedToFront(pods, j), container));
    } else {
      forall r | multiset(r) == multiset(pods) ensures SameOutcome(Verdict(job, r, container), Verdict(job, pods, container)) {
        UncontestedIgnoresOrder(job, pods, r, container);
        FailureIgnoresOrder(job, pods, r, container);
      }
    }
  }

  /** Between running and success, on the other hand, the order of the pods does decide. */
  lemma SuccessDependsOnOrder()
    ensures exists job, pods, reordered, container ::
      && multiset(pods) == multiset(reordered)
      && Verdict(job, pods, container).IsSuccess() && Verdict(job, reordered, container).running
  {
    var name := "c";
    var job := Job([name], 0, 0);
    var done := Pod(false, [ContainerStatus(name, Some(Terminated(0, "Completed")))]);
    var waiting := Pod(true, []);
    var pods, reordered := [done, waiting], [waiting, done];
    assert multiset(pods) == multiset(reordered);
    assert PodSights(done, name)[0] == CompletedRun;
    assert Sights(pods, name)[0] == CompletedRun;
    assert Sights(reordered, name)[0] == StillPending;
    assert Verdict(job, pods, name).IsSuccess() && Verdict(job, reordered, name).running;
  }
}
