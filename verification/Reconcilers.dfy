/** The Reconcile functions, from the first upsert on. */
module Reconcilers {
  import opened Api
  import opened Components
  import opened Jobs
  import opened LookoutStatus
  import opened Plans
  import Protocol = LookoutProtocol
  import opened Sessions
  import opened Stages

  /** The first `n` stages of the plan took effect, and no other; the history agrees with them. */
  ghost predicate At(plan: seq<Stage>, h: History, n: nat) {
    n <= |plan| && h.stages == plan[..n] && Agrees(h)
  }

  ghost predicate Agrees(h: History) {
    && (forall role :: role in h.touched <==> UpsertStage(role) in h.stages)
    && (forall i :: i in h.observed <==> AwaitStage(i) in h.stages)
  }

  /** Some first stages of the plan took effect, and no other; what was waited for was seen. */
  ghost predicate Within(plan: seq<Stage>, h: History) {
    h.stages <= plan && forall i :: AwaitStage(i) in h.stages ==> i in h.observed
  }

  /** The outcome of a reconcile that has come to its first `n` stages, or has failed on the way and says why. */
  ghost predicate Goes(s: Session, plan: seq<Stage>, n: nat, failed: bool, h: History)
    reads *
  {
    if failed then s.Ended(h) && Within(plan, h) && s.client.Stops(s.generated, plan, s.baseCalls, h.stages)
    else s.Valid(h) && At(plan, h, n)
  }

  lemma NothingDone(plan: seq<Stage>)
    ensures At(plan, NOTHING_DONE, 0)
  {
  }

  /** A reconcile fails exactly if one of its calls does or the next stage of its plan is refused. */
  lemma FailsIffStopped(s: Session, plan: seq<Stage>, failed: bool, h: History)
    requires Goes(s, plan, |plan|, failed, h)
    ensures s.Ended(h) && Within(plan, h) && s.baseCalls <= s.client.calls
    ensures failed <==> s.client.Stops(s.generated, plan, s.baseCalls, h.stages)
    ensures !failed ==> h.stages == plan && AllThrough(s.client.fate, s.baseCalls, s.client.calls)
  {
  }

  lemma NextIsNew(plan: seq<Stage>, h: History, n: nat, stage: Stage)
    requires NoRepeats(plan) && At(plan, h, n) && IsNext(plan, n, stage)
    ensures stage !in plan[..n]
    ensures stage.UpsertStage? ==> stage.role !in h.touched
    ensures stage.AwaitStage? ==> stage.index !in h.observed
    ensures stage.AwaitStage? && UpsertStage(JobRole(stage.index)) in h.stages ==> JobRole(stage.index) in h.touched
  {
  }

  lemma NextFollows(plan: seq<Stage>, n: nat, stage: Stage, before: History, failed: bool, after: History)
    requires At(plan, before, n) && IsNext(plan, n, stage)
    requires after.stages == before.stages + [stage] || (failed && after.stages == before.stages)
    requires !failed ==> after.touched == before.touched + if stage.UpsertStage? then {stage.role} else {}
    requires !failed ==> after.observed.Keys == before.observed.Keys + if stage.AwaitStage? then {stage.index} else {}
    requires failed ==> after.observed == before.observed && (stage.AwaitStage? ==> after.stages == before.stages)
    ensures if failed then Within(plan, after) else At(plan, after, n + 1)
    ensures after.stages == before.stages ==> |after.stages| < |plan| && plan[|after.stages|] == stage
  {
    assert plan[..n] + [plan[n]] == plan[..n + 1];
  }

  /** Why a reconcile ends after the stages done. */
  lemma NextStops(client: Client, generated: Generated, plan: seq<Stage>, from: nat, done: seq<Stage>)
    requires !AllThrough(client.fate, from, client.calls) || (|done| < |plan| && client.Refuses(generated, plan[|done|], from))
    ensures client.Stops(generated, plan, from, done)
  {
  }

  /** Another plan with the same next stage. */
  lemma StopsToo(client: Client, generated: Generated, plan: seq<Stage>, longer: seq<Stage>, from: nat, done: seq<Stage>)
    requires client.Stops(generated, plan, from, done) && plan <= longer
    ensures client.Stops(generated, longer, from, done)
  {
  }

  method Upsert(s: Session, role: Role, ghost plan: seq<Stage>, ghost n: nat, ghost h: History)
    returns (failed: bool, ghost next: History)
    requires s.Valid(h) && NoRepeats(plan) && At(plan, h, n) && IsNext(plan, n, UpsertStage(role))
    modifies s.client, s.live, s.slots.Values
    ensures Goes(s, plan, n + 1, failed, next) && next.observed == h.observed
    ensures !failed && role in s.slots ==> role in s.generated && s.generated[role].key in s.client.store
  {
    hide Session.Valid, Session.Ended, At, Within, NoRepeats, IsNext, Client.Stops, Client.Refuses;
    NextIsNew(plan, h, n, UpsertStage(role));
    failed, next := s.Upsert(role, h);
    NextFollows(plan, n, UpsertStage(role), h, failed, next);
    if failed {
      NextStops(s.client, s.generated, plan, s.baseCalls, next.stages);
    }
  }

  /** Two upserts in a row. */
  method UpsertTwo(s: Session, first: Role, second: Role, ghost plan: seq<Stage>, ghost n: nat, ghost h: History)
    returns (failed: bool, ghost next: History)
    requires s.Valid(h) && NoRepeats(plan) && At(plan, h, n)
    requires IsNext(plan, n, UpsertStage(first)) && IsNext(plan, n + 1, UpsertStage(second))
    modifies s.client, s.live, s.slots.Values
    ensures Goes(s, plan, n + 2, failed, next)
    ensures next.observed == h.observed
  {
    hide Session.Valid, Session.Ended, Client.Stops, At, Within, NoRepeats, IsNext;
    failed, next := Upsert(s, first, plan, n, h);
    if failed { return; }
    failed, next := Upsert(s, second, plan, n + 1, next);
  }

  method AwaitJob(s: Session, index: nat, ghost plan: seq<Stage>, ghost n: nat, ghost h: History)
    returns (failed: bool, ghost next: History)
    requires s.Valid(h) && JobRole(index) in s.slots && UpsertStage(JobRole(index)) in h.stages
    requires JobRole(index) in s.generated && s.generated[JobRole(index)].key in s.client.store
    requires NoRepeats(plan) && At(plan, h, n) && IsNext(plan, n, AwaitStage(index))
    modifies s.client, s.live, s.slots.Values
    ensures Goes(s, plan, n + 1, failed, next)
  {
    hide Session.Valid, Session.Ended, At, Within, NoRepeats, IsNext, Client.Stops, Client.Refuses, Client.Waited;
    NextIsNew(plan, h, n, AwaitStage(index));
    ghost var result;
    failed, next, result := s.AwaitJob(index, h);
    NextFollows(plan, n, AwaitStage(index), h, failed, next);
    if failed {
      NextStops(s.client, s.generated, plan, s.baseCalls, next.stages);
    }
  }

  method DeleteIfPresent(s: Session, role: Role, ghost plan: seq<Stage>, ghost n: nat, ghost h: History)
    returns (failed: bool, ghost next: History)
    requires s.Valid(h) && NoRepeats(plan) && At(plan, h, n) && IsNext(plan, n, RemoveStage(role))
    modifies s.client
    ensures Goes(s, plan, n + 1, failed, next) && next.observed == h.observed
  {
    hide Session.Valid, Session.Ended, At, Within, NoRepeats, IsNext, Client.Stops, Client.Refuses;
    failed, next := s.DeleteIfPresent(role, h);
    NextFollows(plan, n, RemoveStage(role), h, failed, next);
    if failed {
      NextStops(s.client, s.generated, plan, s.baseCalls, next.stages);
    }
  }

  /** The CronJob: upserted when its flag is on, deleted when it is off. */
  method ToggleCronJob(s: Session, enabled: bool, ghost plan: seq<Stage>, ghost n: nat, ghost h: History)
    returns (failed: bool, ghost next: History)
    requires s.Valid(h) && NoRepeats(plan) && At(plan, h, n) && IsNext(plan, n, Toggle(enabled))
    modifies s.client, s.live, s.slots.Values
    ensures Goes(s, plan, n + 1, failed, next) && next.observed == h.observed
  {
    hide Session.Valid, Session.Ended, Client.Stops, At, Within, NoRepeats;
    if enabled {
      failed, next := Upsert(s, CronJobRole, plan, n, h);
    } else {
      failed, next := DeleteIfPresent(s, CronJobRole, plan, n, h);
    }
  }

  method InstallJob(s: Session, i: nat, ghost plan: seq<Stage>, ghost n: nat, ghost h: History)
    returns (failed: bool, ghost next: History)
    requires s.Valid(h) && NoRepeats(plan) && At(plan, h, n) && i < s.live.jobs
    requires IsNext(plan, n, UpsertStage(JobRole(i))) && IsNext(plan, n + 1, AwaitStage(i))
    modifies s.client, s.live, s.slots.Values
    ensures Goes(s, plan, n + 2, failed, next)
  {
    hide Session.Valid, Session.Ended, Client.Stops, Agrees;
    s.JobIsThere(h, i);
    failed, next := Upsert(s, JobRole(i), plan, n, h);
    if failed {
      return;
    }
    assert next.stages[n] == UpsertStage(JobRole(i));
    failed, next := AwaitJob(s, i, plan, n + 1, next);
  }

  /** The loop over the first `n` Jobs: upsert each one and wait for its end. */
  method InstallJobs(s: Session, n: nat, ghost plan: seq<Stage>, ghost start: nat, ghost before: History)
    returns (failed: bool, ghost h: History)
    requires s.Valid(before) && NoRepeats(plan) && At(plan, before, start) && n <= s.live.jobs
    requires JobsPlanned(plan, start, n)
    modifies s.client, s.live, s.slots.Values
    ensures Goes(s, plan, start + 2 * n, failed, h)
  {
    hide Session.Valid, Session.Ended, Client.Stops, At, Within, NoRepeats;
    h, failed := before, false;
    for i := 0 to n
      invariant s.Valid(h) && At(plan, h, start + 2 * i)
    {
      assert JobPlanned(plan, start, i);
      failed, h := InstallJob(s, i, plan, start + 2 * i, h);
      if failed {
        return;
      }
    }
  }

  /** The Jobs of the ArmadaServer, unless PulsarInit is off. */
  method InstallPulsarJobs(s: Session, pulsarInit: bool, ghost plan: seq<Stage>, ghost start: nat, ghost n: nat, ghost before: History)
    returns (failed: bool, ghost h: History)
    requires s.Valid(before) && NoRepeats(plan) && At(plan, before, start)
    requires n == (if pulsarInit then s.live.jobs else 0) && JobsPlanned(plan, start, n)
    modifies s.client, s.live, s.slots.Values
    ensures Goes(s, plan, start + 2 * n, failed, h)
  {
    hide Session.Valid, Session.Ended, Client.Stops, At, Within, NoRepeats;
    failed, h := false, before;
    if pulsarInit {
      failed, h := InstallJobs(s, s.live.jobs, plan, start, h);
    }
  }

  /** The ArmadaServer after its Jobs. */
  method InstallServer(s: Session, ghost plan: seq<Stage>, ghost at: nat, ghost before: History) returns (failed: bool, ghost h: History)
    requires s.Valid(before) && NoRepeats(plan) && At(plan, before, at) && ArmadaServerPlanned(plan, at)
    modifies s.client, s.live, s.slots.Values
    ensures Goes(s, plan, |plan|, failed, h)
  {
    hide Session.Valid, Session.Ended, Client.Stops, At, Within, NoRepeats, IsNext;
    failed, h := UpsertTwo(s, DeploymentRole, ServiceRole, plan, at, before);
    if failed { return; }
    failed, h := UpsertTwo(s, IngressGrpcRole, IngressHttpRole, plan, at + 2, h);
    if failed { return; }
    failed, h := UpsertTwo(s, PodDisruptionBudgetRole, PrometheusRuleRole, plan, at + 4, h);
    if failed { return; }
    failed, h := Upsert(s, ServiceMonitorRole, plan, at + 6, h);
  }

  /** The ArmadaServer up to its Jobs. */
  method InstallServerJobs(s: Session, pulsarInit: bool, ghost plan: seq<Stage>, ghost n: nat) returns (failed: bool, ghost h: History)
    requires s.Valid(NOTHING_DONE) && NoRepeats(plan) && BeforeJobsPlanned(plan)
    requires n == (if pulsarInit then s.live.jobs else 0) && JobsPlanned(plan, 2, n)
    modifies s.client, s.live, s.slots.Values
    ensures Goes(s, plan, 2 + 2 * n, failed, h)
  {
    hide Session.Valid, Session.Ended, Client.Stops, At, Within, NoRepeats, IsNext, JobsPlanned;
    NothingDone(plan);
    failed, h := UpsertTwo(s, ServiceAccountRole, SecretRole, plan, 0, NOTHING_DONE);
    if failed { return; }
    failed, h := InstallPulsarJobs(s, pulsarInit, plan, 2, n, h);
  }

  method ReconcileArmadaServer(s: Session, pulsarInit: bool) returns (failed: bool, ghost h: History)
    requires s.Valid(NOTHING_DONE)
    modifies s.client, s.live, s.slots.Values
    ensures var plan := ArmadaServerStages(s.live.jobs, pulsarInit); Goes(s, plan, |plan|, failed, h)
  {
    hide Session.Valid, Session.Ended, Client.Stops, At, Within, NoRepeats, BeforeJobsPlanned, JobsPlanned, ArmadaServerPlanned, ArmadaServerStages;
    ghost var plan, n: nat := ArmadaServerStages(s.live.jobs, pulsarInit), if pulsarInit then s.live.jobs else 0;
    ArmadaServerOrder(s.live.jobs, pulsarInit);
    failed, h := InstallServerJobs(s, pulsarInit, plan, n);
    if failed { return; }
    failed, h := InstallServer(s, plan, 2 + 2 * n, h);
  }

  /** The first Job of the Scheduler, if it has any. */
  method InstallFirstJob(s: Session, ghost plan: seq<Stage>, ghost start: nat, ghost n: nat, ghost before: History)
    returns (failed: bool, ghost h: History)
    requires s.Valid(before) && NoRepeats(plan) && At(plan, before, start)
    requires n == (if s.live.jobs > 0 then 1 else 0) && JobsPlanned(plan, start, n)
    modifies s.client, s.live, s.slots.Values
    ensures Goes(s, plan, start + 2 * n, failed, h)
  {
    hide Session.Valid, Session.Ended, Client.Stops, At, Within, NoRepeats;
    failed, h := false, before;
    if s.live.jobs > 0 {
      assert JobPlanned(plan, start, 0);
      failed, h := InstallJob(s, 0, plan, start, h);
    }
  }

  /** The Scheduler after its Job. */
  method InstallScheduler(s: Session, pruner: bool, ghost plan: seq<Stage>, ghost at: nat, ghost before: History)
    returns (failed: bool, ghost h: History)
    requires s.Valid(before) && NoRepeats(plan) && At(plan, before, at) && SchedulerPlanned(plan, at, pruner)
    modifies s.client, s.live, s.slots.Values
    ensures Goes(s, plan, |plan|, failed, h)
  {
    hide Session.Valid, Session.Ended, Client.Stops, At, Within, NoRepeats, IsNext, Toggle;
    failed, h := UpsertTwo(s, DeploymentRole, ServiceRole, plan, at, before);
    if failed { return; }
    failed, h := UpsertTwo(s, ServiceProfilingRole, IngressGrpcRole, plan, at + 2, h);
    if failed { return; }
    failed, h := UpsertTwo(s, IngressProfilingRole, ServiceMonitorRole, plan, at + 4, h);
    if failed { return; }
    failed, h := Upsert(s, PrometheusRuleRole, plan, at + 6, h);
    if failed { return; }
    failed, h := ToggleCronJob(s, pruner, plan, at + 7, h);
  }

  method ReconcileScheduler(s: Session, pruner: bool) returns (failed: bool, ghost h: History)
    requires s.Valid(NOTHING_DONE)
    modifies s.client, s.live, s.slots.Values
    ensures var plan := SchedulerStages(s.live.jobs, pruner); Goes(s, plan, |plan|, failed, h)
  {
    hide Session.Valid, Session.Ended, Client.Stops, At, Within, NoRepeats, IsNext, JobsPlanned, SchedulerPlanned, SchedulerStages;
    ghost var plan := SchedulerStages(s.live.jobs, pruner);
    SchedulerOrder(s.live.jobs, pruner);
    h := NOTHING_DONE;
    NothingDone(plan);
    failed, h := UpsertTwo(s, ServiceAccountRole, SecretRole, plan, 0, h);
    if failed { return; }
    ghost var n: nat := if s.live.jobs > 0 then 1 else 0;
    failed, h := InstallFirstJob(s, plan, 2, n, h);
    if failed { return; }
    failed, h := InstallScheduler(s, pruner, plan, 2 + 2 * n, h);
  }

  method InstallBindings(s: Session, n: nat, ghost plan: seq<Stage>, ghost start: nat, ghost before: History)
    returns (failed: bool, ghost h: History)
    requires s.Valid(before) && NoRepeats(plan) && At(plan, before, start)
    requires forall i :: 0 <= i < n ==> BindingPlanned(plan, start, i)
    modifies s.client, s.live, s.slots.Values
    ensures Goes(s, plan, start + n, failed, h)
  {
    hide Session.Valid, Session.Ended, Client.Stops, At, Within, NoRepeats;
    h, failed := before, false;
    for i := 0 to n
      invariant s.Valid(h) && At(plan, h, start + i)
    {
      assert BindingPlanned(plan, start, i);
      failed, h := Upsert(s, BindingRole(i), plan, start + i, h);
      if failed {
        return;
      }
    }
  }

  method ReconcileExecutor(s: Session) returns (failed: bool, ghost h: History)
    requires s.Valid(NOTHING_DONE)
    modifies s.client, s.live, s.slots.Values
    ensures var plan := ExecutorStages(s.live.bindings); Goes(s, plan, |plan|, failed, h)
  {
    hide Session.Valid, Session.Ended, Client.Stops, At, Within, NoRepeats, IsNext, ExecutorStages;
    ghost var plan, n := ExecutorStages(s.live.bindings), s.live.bindings;
    ExecutorOrder(n);
    h := NOTHING_DONE;
    NothingDone(plan);
    failed, h := UpsertTwo(s, ServiceAccountRole, ClusterRoleRole, plan, 0, h);
    if failed { return; }
    failed, h := InstallBindings(s, s.live.bindings, plan, 2, h);
    if failed { return; }
    failed, h := UpsertTwo(s, SecretRole, DeploymentRole, plan, n + 2, h);
    if failed { return; }
    failed, h := UpsertTwo(s, ServiceRole, PrometheusRuleRole, plan, n + 4, h);
    if failed { return; }
    failed, h := Upsert(s, ServiceMonitorRole, plan, n + 6, h);
  }

  method ReconcileBinoculars(s: Session) returns (failed: bool, ghost h: History)
    requires s.Valid(NOTHING_DONE)
    modifies s.client, s.live, s.slots.Values
    ensures var plan := BinocularsStages(s.live.bindings); Goes(s, plan, |plan|, failed, h)
  {
    hide Session.Valid, Session.Ended, Client.Stops, At, Within, NoRepeats, IsNext, BinocularsStages;
    ghost var plan, n := BinocularsStages(s.live.bindings), s.live.bindings;
    BinocularsOrder(n);
    h := NOTHING_DONE;
    NothingDone(plan);
    failed, h := UpsertTwo(s, ServiceAccountRole, ClusterRoleRole, plan, 0, h);
    if failed { return; }
    failed, h := InstallBindings(s, s.live.bindings, plan, 2, h);
    if failed { return; }
    failed, h := UpsertTwo(s, SecretRole, DeploymentRole, plan, n + 2, h);
    if failed { return; }
    failed, h := UpsertTwo(s, ServiceRole, IngressGrpcRole, plan, n + 4, h);
    if failed { return; }
    failed, h := Upsert(s, IngressHttpRole, plan, n + 6, h);
  }

  // ---- Lookout ----

  /** The Lookout after its Jobs, all but the partition Job. */
  method InstallAfterJobs(s: Session, pruning: bool, ghost plan: seq<Stage>, ghost at: nat, ghost before: History)
    returns (failed: bool, ghost h: History)
    requires s.Valid(before) && NoRepeats(plan) && At(plan, before, at) && LookoutPlanned(plan, at, pruning)
    modifies s.client, s.live, s.slots.Values
    ensures Goes(s, plan, |plan|, failed, h)
  {
    hide Session.Valid, Session.Ended, Client.Stops, At, Within, NoRepeats, IsNext, Toggle;
    failed, h := UpsertTwo(s, DeploymentRole, ServiceRole, plan, at, before);
    if failed { return; }
    failed, h := Upsert(s, IngressHttpRole, plan, at + 2, h);
    if failed { return; }
    failed, h := ToggleCronJob(s, pruning, plan, at + 3, h);
    if failed { return; }
    failed, h := Upsert(s, ServiceMonitorRole, plan, at + 4, h);
  }

  /** The components, all but the partition Job. */
  method InstallLookout(s: Session, pruning: bool) returns (failed: bool, ghost h: History)
    requires s.Valid(NOTHING_DONE)
    modifies s.client, s.live, s.slots.Values
    ensures var plan := LookoutStages(s.live.jobs, pruning, None); Goes(s, plan, |plan|, failed, h)
    ensures !failed ==> forall i :: 0 <= i < s.live.jobs ==> i in h.observed
  {
    hide Session.Valid, Session.Ended, Client.Stops, At, Within, NoRepeats, IsNext, JobsPlanned, LookoutPlanned, LookoutStages;
    ghost var plan, n := LookoutStages(s.live.jobs, pruning, None), s.live.jobs;
    LookoutOrder(n, pruning);
    h := NOTHING_DONE;
    NothingDone(plan);
    failed, h := UpsertTwo(s, ServiceAccountRole, SecretRole, plan, 0, h);
    if failed { return; }
    failed, h := InstallJobs(s, s.live.jobs, plan, 2, h);
    if failed { return; }
    failed, h := InstallAfterJobs(s, pruning, plan, 2 + 2 * n, h);
    if failed { return; }
    AllObserved(plan, h, n);
  }

  lemma AllObserved(plan: seq<Stage>, h: History, n: nat)
    requires At(plan, h, |plan|) && JobsPlanned(plan, 2, n)
    ensures forall i :: 0 <= i < n ==> i in h.observed
  {
    forall i | 0 <= i < n
      ensures i in h.observed
    {
      assert JobPlanned(plan, 2, i) && h.stages == plan;
      assert plan[2 + 2 * i + 1] == AwaitStage(i);
    }
  }

  /** Whether the partition Job is upserted: the wait of this very reconcile read the migration Job Complete. */
  ghost function Wanted(partition: Option<Item>, h: History): Option<Item> {
    if partition.Some? && 0 in h.observed && HasTrue(h.observed[0], JobComplete) then partition else None
  }

  /** What a Lookout reconcile has done to the stored Lookout, found as `found` when it came to report: a report of what it
      read of the partition Job last, or nothing if it never got to read it. */
  ghost predicate StatusLeft(held: Protocol.Lookout, version: nat, job: Option<Item>, read: Option<seq<JobCondition>>,
                             found: seq<Option<Protocol.Lookout>>, after: seq<Option<Protocol.Lookout>>, failed: bool) {
    match read
    case None => after == found
    case Some(conditions) =>
      && job.Some?
      && ReportOutcome(held, version, ConditionFor(job.value.key.name, held.generation, VerdictOf(conditions)), found, after, failed)
  }

  lemma NothingReported(held: Protocol.Lookout, version: nat, job: Option<Item>, found: seq<Option<Protocol.Lookout>>, failed: bool)
    ensures StatusLeft(held, version, job, None, found, found, failed)
  {
  }

  lemma LookoutPrefix(jobs: nat, pruning: bool, done: seq<Stage>, partition: Option<Item>)
    requires done <= LookoutStages(jobs, pruning, None)
    ensures done <= LookoutStages(jobs, pruning, partition)
    ensures partition.Some? ==>
              LookoutStages(jobs, pruning, partition) == LookoutStages(jobs, pruning, None) + [PartitionStage(partition.value)]
  {
    assert LookoutStages(jobs, pruning, None) == BEFORE_JOBS + JobStages(jobs) + LookoutTail(pruning);
  }

  /** The conditions of the partition Job as the API answers last, asked with the call before `calls`; a Job that had to be
      created has none. */
  ghost function Answered(client: Client, stored: Store, job: Item, calls: nat): seq<JobCondition>
    requires calls > 0
  {
    if job.key in stored then client.status(job.key, calls - 1) else []
  }

  /** The partition Job, and the condition it has. */
  method ReportPartitionJob(s: Session, lookout: LookoutObject, server: LookoutServer, job: Item, ghost h: History)
    returns (failed: bool, ghost next: History, ghost read: Option<seq<JobCondition>>)
    requires s.Ended(h) && job.key.kind == Kind.Job
    modifies s.client, lookout, server
    ensures s.Ended(next) && next.observed == h.observed && old(s.client.calls) < s.client.calls
    ensures if read.Some? then next.stages == h.stages + [PartitionStage(job)]
            else failed && (next.stages == h.stages || next.stages == h.stages + [PartitionStage(job)])
    ensures read.Some? <==> AllThrough(s.client.fate, old(s.client.calls), s.client.calls)
    ensures read.Some? ==>
              && read.value == Answered(s.client, old(s.client.store), job, s.client.calls)
              && old(server.calls) <= server.calls && (failed ==> Conflicts(lookout.version, server, old(server.calls), |old(server.lookouts)|))
    ensures StatusLeft(old(lookout.held), lookout.version, Some(job), read, old(server.lookouts), server.lookouts, failed)
  {
    hide Session.StoreIs;
    read := None;
    var conditions: seq<JobCondition>;
    failed, conditions, next := s.UpsertPartition(job, h);
    if failed {
      return;
    }
    read := Some(conditions);
    var condition := NewJobTablePartitionedCondition(job.key.name, lookout.held.generation, conditions);
    failed := lookout.Report(server, condition);
  }

  /** A status update failed, or the Lookout was no longer the stored one. */
  ghost predicate Conflicts(version: nat, server: LookoutServer, from: nat, versions: nat)
    reads server`calls
  {
    !AllThrough(server.fate, from, server.calls) || version + 1 != versions
  }

  /** The whole Lookout reconcile; `meanwhile` is what the user writes to the Lookout before the report. It does not touch
      the partition Job unless it saw the migration Job Complete itself, and then reports the condition of what the API
      answered of the partition Job last. */
  method ReconcileLookout(s: Session, lookout: LookoutObject, server: LookoutServer, dbPruningEnabled: Option<bool>,
                          partition: Option<Item>, meanwhile: seq<Option<Protocol.Lookout>>)
    returns (failed: bool, ghost h: History, ghost read: Option<seq<JobCondition>>)
    requires s.Valid(NOTHING_DONE) && s.live.jobs > 0 && (partition.Some? ==> partition.value.key.kind == Kind.Job)
    modifies s.client, s.live, s.slots.Values, lookout, server
    ensures var plan := LookoutStages(s.live.jobs, dbPruningEnabled == Some(true), Wanted(partition, h));
            && s.Ended(h) && Within(plan, h)
            && (!failed || read.Some? ==> h.stages == plan && 0 in h.observed && AllThrough(s.client.fate, s.baseCalls, s.client.calls))
            && (read.None? ==> (failed <==> s.client.Stops(s.generated, plan, s.baseCalls, h.stages)))
    ensures read.Some? ==>
              && Wanted(partition, h).Some? && s.client.calls > 0
              && (var before := Run(s.client.defaulting, Ops(s.generated, LookoutStages(s.live.jobs, dbPruningEnabled == Some(true), None)), s.base);
                  read.value == Answered(s.client, before, partition.value, s.client.calls))
              && (failed ==> Conflicts(lookout.version, server, old(server.calls), |old(server.lookouts) + meanwhile|))
    ensures !failed ==> (read.Some? <==> Wanted(partition, h).Some?)
    ensures StatusLeft(old(lookout.held), lookout.version, partition, read, old(server.lookouts) + meanwhile, server.lookouts, failed)
  {
    hide Session.StoreIs, Session.Witnessed, Session.Consistent, Client.Stops, LookoutStages, StatusLeft, HasTrue, Finished, Run, Ops;
    read := None;
    ghost var pruning := dbPruningEnabled == Some(true);
    ghost var short := LookoutStages(s.live.jobs, pruning, None);
    failed, h := InstallLookout(s, dbPruningEnabled == Some(true));
    FailsIffStopped(s, short, failed, h);
    NothingReported(old(lookout.held), lookout.version, partition, old(server.lookouts) + meanwhile, failed);
    LookoutPrefix(s.live.jobs, pruning, h.stages, Wanted(partition, h));
    LookoutPrefix(s.live.jobs, pruning, short, Wanted(partition, h));
    if failed {
      server.OthersWrite(meanwhile);
      StopsToo(s.client, s.generated, short, LookoutStages(s.live.jobs, pruning, Wanted(partition, h)), s.baseCalls, h.stages);
      return;
    }
    var migrated := s.ConditionsOf(0, h);
    server.OthersWrite(meanwhile);
    var complete := GetTrueJobCondition(migrated, JobComplete);
    if partition.Some? && complete.Some? {
      s.StoreIsRun(h.stages, s.client.store, s.client.log);
      failed, h, read := ReportPartitionJob(s, lookout, server, partition.value, h);
      if read.None? {
        NextStops(s.client, s.generated, LookoutStages(s.live.jobs, pruning, partition), s.baseCalls, h.stages);
      }
    }
  }
}
