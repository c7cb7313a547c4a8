/** The stages of the Reconcile functions, in source order, and the store operations they amount to. */
module Stages {
  import opened Api
  import opened Components
  import opened Plans

  /** An object as generated: where it goes and what it holds. */
  datatype Item = Item(key: Key, value: Object)

  /** The generated objects by role; a role with no entry is a nil component. */
  type Generated = map<Role, Item>

  datatype Stage =
    | UpsertStage(role: Role)
    | AwaitStage(index: nat)
    | RemoveStage(role: Role)
    | PartitionStage(job: Item)

  /** At most one operation: a nil component is skipped. */
  function OpsOf(generated: Generated, stage: Stage): (ops: seq<Op>)
    ensures |ops| <= 1
  {
    match stage
    case UpsertStage(role) => if role in generated then [Upsert(generated[role].key, generated[role].value)] else []
    case AwaitStage(index) => if JobRole(index) in generated then [Gate(generated[JobRole(index)].key)] else []
    case RemoveStage(role) => if role in generated then [Remove(generated[role].key)] else []
    case PartitionStage(job) => [Upsert(job.key, job.value)]
  }

  function Ops(generated: Generated, stages: seq<Stage>): seq<Op> {
    if stages == [] then []
    else Ops(generated, stages[..|stages| - 1]) + OpsOf(generated, stages[|stages| - 1])
  }

  lemma OpsSnoc(generated: Generated, stages: seq<Stage>, stage: Stage)
    ensures Ops(generated, stages + [stage]) == Ops(generated, stages) + OpsOf(generated, stage)
  {
    assert (stages + [stage])[..|stages|] == stages;
  }

  // ---- The controllers, in the order of their Reconcile functions ----

  /** Each Job is upserted and waited for before the next one. */
  function JobStages(n: nat): seq<Stage> {
    seq(2 * n, k requires 0 <= k < 2 * n => JobStage(k))
  }

  function JobStage(k: nat): Stage {
    if k % 2 == 0 then UpsertStage(JobRole(k / 2)) else AwaitStage(k / 2)
  }

  function BindingStages(n: nat): seq<Stage> {
    seq(n, i requires 0 <= i < n => UpsertStage(BindingRole(i)))
  }

  /** The CronJob is the one component that is removed when its flag is off. */
  function Toggle(enabled: bool): Stage {
    if enabled then UpsertStage(CronJobRole) else RemoveStage(CronJobRole)
  }

  const BEFORE_JOBS: seq<Stage> := [UpsertStage(ServiceAccountRole), UpsertStage(SecretRole)]
  const BEFORE_BINDINGS: seq<Stage> := [UpsertStage(ServiceAccountRole), UpsertStage(ClusterRoleRole)]

  function LookoutTail(pruning: bool): seq<Stage> {
    [UpsertStage(DeploymentRole), UpsertStage(ServiceRole), UpsertStage(IngressHttpRole), Toggle(pruning),
     UpsertStage(ServiceMonitorRole)]
  }

  function LookoutStages(jobs: nat, pruning: bool, partition: Option<Item>): seq<Stage> {
    BEFORE_JOBS + JobStages(jobs) + LookoutTail(pruning)
    + if partition.Some? then [PartitionStage(partition.value)] else []
  }

  const ARMADA_SERVER_TAIL: seq<Stage> :=
    [UpsertStage(DeploymentRole), UpsertStage(ServiceRole), UpsertStage(IngressGrpcRole), UpsertStage(IngressHttpRole),
     UpsertStage(PodDisruptionBudgetRole), UpsertStage(PrometheusRuleRole), UpsertStage(ServiceMonitorRole)]

  function ArmadaServerStages(jobs: nat, pulsarInit: bool): seq<Stage> {
    BEFORE_JOBS + JobStages(if pulsarInit then jobs else 0) + ARMADA_SERVER_TAIL
  }

  function SchedulerTail(pruner: bool): seq<Stage> {
    [UpsertStage(DeploymentRole), UpsertStage(ServiceRole), UpsertStage(ServiceProfilingRole), UpsertStage(IngressGrpcRole),
     UpsertStage(IngressProfilingRole), UpsertStage(ServiceMonitorRole), UpsertStage(PrometheusRuleRole), Toggle(pruner)]
  }

  /** Only the first Job counts. */
  function SchedulerStages(jobs: nat, pruner: bool): seq<Stage> {
    BEFORE_JOBS + JobStages(if jobs > 0 then 1 else 0) + SchedulerTail(pruner)
  }

  const EXECUTOR_TAIL: seq<Stage> :=
    [UpsertStage(SecretRole), UpsertStage(DeploymentRole), UpsertStage(ServiceRole), UpsertStage(PrometheusRuleRole),
     UpsertStage(ServiceMonitorRole)]

  function ExecutorStages(bindings: nat): seq<Stage> {
    BEFORE_BINDINGS + BindingStages(bindings) + EXECUTOR_TAIL
  }

  const BINOCULARS_TAIL: seq<Stage> :=
    [UpsertStage(SecretRole), UpsertStage(DeploymentRole), UpsertStage(ServiceRole), UpsertStage(IngressGrpcRole),
     UpsertStage(IngressHttpRole)]

  function BinocularsStages(bindings: nat): seq<Stage> {
    BEFORE_BINDINGS + BindingStages(bindings) + BINOCULARS_TAIL
  }

  // ---- Where each stage is in its plan ----

  /** What the plan has after `n` stages. */
  ghost predicate IsNext(plan: seq<Stage>, n: nat, stage: Stage) {
    n < |plan| && plan[n] == stage
  }

  ghost predicate JobPlanned(plan: seq<Stage>, start: nat, i: nat) {
    IsNext(plan, start + 2 * i, UpsertStage(JobRole(i))) && IsNext(plan, start + 2 * i + 1, AwaitStage(i))
  }

  ghost predicate JobsPlanned(plan: seq<Stage>, start: nat, n: nat) {
    forall i :: 0 <= i < n ==> JobPlanned(plan, start, i)
  }

  ghost predicate BindingPlanned(plan: seq<Stage>, start: nat, i: nat) {
    IsNext(plan, start + i, UpsertStage(BindingRole(i)))
  }

  ghost predicate NoRepeats(plan: seq<Stage>) {
    forall i, j :: 0 <= i < j < |plan| ==> plan[i] != plan[j]
  }

  lemma NoRepeatsJoin(a: seq<Stage>, b: seq<Stage>)
    requires NoRepeats(a) && NoRepeats(b) && forall i, j :: 0 <= i < |a| && 0 <= j < |b| ==> a[i] != b[j]
    ensures NoRepeats(a + b)
  {
  }

  predicate Repeatable(stage: Stage) {
    stage.AwaitStage? || (stage.UpsertStage? && (stage.role.JobRole? || stage.role.BindingRole?))
  }

  lemma JobStagesDistinct(n: nat)
    ensures NoRepeats(JobStages(n)) && forall k :: 0 <= k < 2 * n ==> Repeatable(JobStages(n)[k])
    ensures forall i :: 0 <= i < n ==> JobPlanned(JobStages(n), 0, i)
  {
    forall i, j | 0 <= i < j < 2 * n
      ensures JobStage(i) != JobStage(j)
    {
    }
    forall i | 0 <= i < n
      ensures JobPlanned(JobStages(n), 0, i)
    {
      assert JobStage(2 * i) == UpsertStage(JobRole(i)) && JobStage(2 * i + 1) == AwaitStage(i);
    }
  }

  /** A part that may be repeated, between two fixed ones. */
  lemma Between(head: seq<Stage>, middle: seq<Stage>, tail: seq<Stage>)
    requires NoRepeats(head) && NoRepeats(middle) && NoRepeats(tail)
    requires forall i, j :: 0 <= i < |head| && 0 <= j < |tail| ==> head[i] != tail[j]
    requires forall k :: 0 <= k < |head| ==> !Repeatable(head[k])
    requires forall k :: 0 <= k < |tail| ==> !Repeatable(tail[k])
    requires forall k :: 0 <= k < |middle| ==> Repeatable(middle[k])
    ensures NoRepeats(head + middle + tail)
    ensures forall i :: JobPlanned(middle, 0, i) ==> JobPlanned(head + middle + tail, |head|, i)
  {
    NoRepeatsJoin(head, middle);
    NoRepeatsJoin(head + middle, tail);
  }

  /** The Lookout, the ArmadaServer and the Scheduler after their Jobs. */
  ghost predicate LookoutPlanned(plan: seq<Stage>, at: nat, pruning: bool) {
    && |plan| == at + 5
    && IsNext(plan, at, UpsertStage(DeploymentRole))
    && IsNext(plan, at + 1, UpsertStage(ServiceRole))
    && IsNext(plan, at + 2, UpsertStage(IngressHttpRole))
    && IsNext(plan, at + 3, Toggle(pruning))
    && IsNext(plan, at + 4, UpsertStage(ServiceMonitorRole))
  }

  ghost predicate ArmadaServerPlanned(plan: seq<Stage>, at: nat) {
    && |plan| == at + 7
    && IsNext(plan, at, UpsertStage(DeploymentRole))
    && IsNext(plan, at + 1, UpsertStage(ServiceRole))
    && IsNext(plan, at + 2, UpsertStage(IngressGrpcRole))
    && IsNext(plan, at + 3, UpsertStage(IngressHttpRole))
    && IsNext(plan, at + 4, UpsertStage(PodDisruptionBudgetRole))
    && IsNext(plan, at + 5, UpsertStage(PrometheusRuleRole))
    && IsNext(plan, at + 6, UpsertStage(ServiceMonitorRole))
  }

  ghost predicate SchedulerPlanned(plan: seq<Stage>, at: nat, pruner: bool) {
    && |plan| == at + 8
    && IsNext(plan, at, UpsertStage(DeploymentRole))
    && IsNext(plan, at + 1, UpsertStage(ServiceRole))
    && IsNext(plan, at + 2, UpsertStage(ServiceProfilingRole))
    && IsNext(plan, at + 3, UpsertStage(IngressGrpcRole))
    && IsNext(plan, at + 4, UpsertStage(IngressProfilingRole))
    && IsNext(plan, at + 5, UpsertStage(ServiceMonitorRole))
    && IsNext(plan, at + 6, UpsertStage(PrometheusRuleRole))
    && IsNext(plan, at + 7, Toggle(pruner))
  }

  ghost predicate BeforeJobsPlanned(plan: seq<Stage>) {
    IsNext(plan, 0, UpsertStage(ServiceAccountRole)) && IsNext(plan, 1, UpsertStage(SecretRole))
  }

  lemma LookoutOrder(n: nat, pruning: bool)
    ensures var plan := LookoutStages(n, pruning, None);
            && NoRepeats(plan) && BeforeJobsPlanned(plan) && JobsPlanned(plan, 2, n) && LookoutPlanned(plan, 2 + 2 * n, pruning)
  {
    JobStagesDistinct(n);
    Between(BEFORE_JOBS, JobStages(n), LookoutTail(pruning));
    assert LookoutStages(n, pruning, None) == BEFORE_JOBS + JobStages(n) + LookoutTail(pruning);
  }

  lemma ArmadaServerOrder(jobs: nat, pulsarInit: bool)
    ensures var plan, n: nat := ArmadaServerStages(jobs, pulsarInit), if pulsarInit then jobs else 0;
            && NoRepeats(plan) && BeforeJobsPlanned(plan) && JobsPlanned(plan, 2, n) && ArmadaServerPlanned(plan, 2 + 2 * n)
  {
    var n := if pulsarInit then jobs else 0;
    JobStagesDistinct(n);
    Between(BEFORE_JOBS, JobStages(n), ARMADA_SERVER_TAIL);
  }

  lemma SchedulerOrder(jobs: nat, pruner: bool)
    ensures var plan, n: nat := SchedulerStages(jobs, pruner), if jobs > 0 then 1 else 0;
            && NoRepeats(plan) && BeforeJobsPlanned(plan) && JobsPlanned(plan, 2, n) && SchedulerPlanned(plan, 2 + 2 * n, pruner)
  {
    var n := if jobs > 0 then 1 else 0;
    JobStagesDistinct(n);
    Between(BEFORE_JOBS, JobStages(n), SchedulerTail(pruner));
  }

  lemma ExecutorOrder(n: nat)
    ensures var plan := ExecutorStages(n);
            && NoRepeats(plan) && |plan| == n + 7
            && IsNext(plan, 0, UpsertStage(ServiceAccountRole))
            && IsNext(plan, 1, UpsertStage(ClusterRoleRole))
            && (forall i :: 0 <= i < n ==> BindingPlanned(plan, 2, i))
            && IsNext(plan, n + 2, UpsertStage(SecretRole))
            && IsNext(plan, n + 3, UpsertStage(DeploymentRole))
            && IsNext(plan, n + 4, UpsertStage(ServiceRole))
            && IsNext(plan, n + 5, UpsertStage(PrometheusRuleRole))
            && IsNext(plan, n + 6, UpsertStage(ServiceMonitorRole))
  {
    Between(BEFORE_BINDINGS, BindingStages(n), EXECUTOR_TAIL);
  }

  lemma BinocularsOrder(n: nat)
    ensures var plan := BinocularsStages(n);
            && NoRepeats(plan) && |plan| == n + 7
            && IsNext(plan, 0, UpsertStage(ServiceAccountRole))
            && IsNext(plan, 1, UpsertStage(ClusterRoleRole))
            && (forall i :: 0 <= i < n ==> BindingPlanned(plan, 2, i))
            && IsNext(plan, n + 2, UpsertStage(SecretRole))
            && IsNext(plan, n + 3, UpsertStage(DeploymentRole))
            && IsNext(plan, n + 4, UpsertStage(ServiceRole))
            && IsNext(plan, n + 5, UpsertStage(IngressGrpcRole))
            && IsNext(plan, n + 6, UpsertStage(IngressHttpRole))
  {
    Between(BEFORE_BINDINGS, BindingStages(n), BINOCULARS_TAIL);
  }
}
