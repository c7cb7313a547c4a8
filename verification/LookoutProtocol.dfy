/** The Lookout controller as a state machine: one Lookout, its migration and partition Jobs, the
    informer caches, the work queue and a reconcile whose every client call may fail, interleaved
    with the user and the Job controller. Each stored object is the sequence of all its versions;
    the index of a version is its resourceVersion. */
module LookoutProtocol {
  import opened Api
  import opened Finalizers
  import opened Jobs

  datatype Spec = Spec(partitionJobTable: Option<PartitionJobTableConfig<Option<int>>>, rest: string)

  predicate Partitions(spec: Spec) {
    spec.partitionJobTable.Some? && spec.partitionJobTable.value.enabled
  }

  datatype Lookout =
    Lookout(generation: nat, spec: Spec, finalizer: bool, deleting: bool, condition: Option<StatusCondition>)

  /** `owned` tells whether the Job carries an owner reference to the Lookout, `template` is the spec it was built from. */
  datatype JobObj = JobObj(owned: bool, template: Spec, conditions: seq<JobCondition>)

  const PARTITION_JOB := "lookout-partition-job-table"

  function Condition(generation: nat, job: JobObj): StatusCondition {
    ConditionFor(PARTITION_JOB, generation, VerdictOf(job.conditions))
  }

  /** Where a reconcile is. `version` is the resourceVersion of the Lookout it holds, `seen` that Lookout. */
  datatype Phase =
    | Idle
    | Attaching(version: nat, seen: Lookout)
    | Detaching(version: nat, seen: Lookout)
    | Preparing(version: nat, seen: Lookout)
    | Waiting(version: nat, seen: Lookout)
    | Installing(version: nat, seen: Lookout, migration: nat, complete: bool)
    | Reporting(version: nat, seen: Lookout, migration: nat, cached: nat, partition: nat)

  /** The versions the last successful status write was based on: of the Lookout, of the partition
      Job in the cache, and of the partition Job it reported. */
  datatype Written = NotWritten | Written(lookout: nat, cached: nat, partition: nat)

  datatype State = State(
    lookouts: seq<Option<Lookout>>, lookoutCache: nat,
    migrations: seq<Option<JobObj>>, migrationCache: nat,
    partitions: seq<Option<JobObj>>, partitionCache: nat,
    queued: bool, phase: Phase,
    // What an observer counts; no step reads these.
    written: Written, statusWrites: nat, edits: nat, creations: nat)

  /** One step. `reported` is false when the API server applied a write but the caller got an error. */
  datatype Step =
    | UserCreates(spec: Spec, finalizer: bool)
    | UserEdits(spec: Spec)
    | UserTouches
    | UserDeletes
    | MigrationChanges(job: Option<JobObj>)
    | PartitionChanges(job: Option<JobObj>)
    | LookoutDelivered
    | MigrationDelivered
    | PartitionDelivered
    | Start
    | AttachFinalizer(reported: bool)
    | DetachFinalizer(reported: bool)
    | Fail
    | FindMigration
    | CreateMigration(reported: bool)
    | MigrationFinished
    | FinishWithoutPartition
    | FindPartition
    | CreatePartition(reported: bool)
    | ConditionUnchanged
    | WriteStatus(reported: bool)

  predicate Indexed(s: State) {
    s.lookoutCache < |s.lookouts| && s.migrationCache < |s.migrations| && s.partitionCache < |s.partitions|
  }

  predicate Init(s: State) {
    && s.lookouts == [None] && |s.migrations| == |s.partitions| == 1
    && s.lookoutCache == s.migrationCache == s.partitionCache == 0
    && !s.queued && s.phase == Idle
    && s.written == NotWritten && s.statusWrites == s.edits == s.creations == 0
  }

  /** How anyone but the operator may change a Job: its template is immutable and what a terminal
      condition says is final; it may also be deleted, or created by someone else. */
  predicate JobMayBecome(before: Option<JobObj>, after: Option<JobObj>) {
    && before != after
    && (before.Some? && after.Some? ==>
          && after.value.owned == before.value.owned
          && after.value.template == before.value.template
          && (VerdictOf(before.value.conditions) != Unfinished ==>
                VerdictOf(after.value.conditions) == VerdictOf(before.value.conditions)))
  }

  /** The steps of the user and the Job controller, which add a version. */
  predicate AddsVersion(step: Step) {
    step.UserCreates? || step.UserEdits? || step.UserTouches? || step.UserDeletes? || step.MigrationChanges? || step.PartitionChanges?
  }

  /** The steps of the informer caches; any other step is one of the running reconcile. */
  predicate Delivers(step: Step) {
    step.LookoutDelivered? || step.MigrationDelivered? || step.PartitionDelivered?
  }

  predicate Owned(job: Option<JobObj>) {
    job.Some? && job.value.owned
  }

  predicate WantsPartition(phase: Phase) {
    phase.Installing? && phase.complete && Partitions(phase.seen.spec)
  }

  /** The guard of a step. The Job reads come from the cache, the writes go to the stored object. */
  predicate Enabled(s: State, step: Step)
    requires Indexed(s)
  {
    match step
    case UserCreates(_, _) => |s.lookouts| == 1
    case UserEdits(spec) => Last(s.lookouts).Some? && spec != Last(s.lookouts).value.spec
    case UserTouches => Last(s.lookouts).Some?
    case UserDeletes => Last(s.lookouts).Some? && !Last(s.lookouts).value.deleting
    case MigrationChanges(job) => JobMayBecome(Last(s.migrations), job)
    case PartitionChanges(job) => JobMayBecome(Last(s.partitions), job)
    case LookoutDelivered => s.lookoutCache + 1 < |s.lookouts|
    case MigrationDelivered => s.migrationCache + 1 < |s.migrations|
    case PartitionDelivered => s.partitionCache + 1 < |s.partitions|
    case Start => s.phase == Idle && s.queued
    case AttachFinalizer(_) => s.phase.Attaching? && s.phase.version == |s.lookouts| - 1
    case DetachFinalizer(_) => s.phase.Detaching? && s.phase.version == |s.lookouts| - 1
    case Fail => s.phase != Idle
    case FindMigration => s.phase.Preparing? && s.migrations[s.migrationCache].Some?
    case CreateMigration(_) =>
      s.phase.Preparing? && s.migrations[s.migrationCache].None? && Last(s.migrations).None?
    case MigrationFinished =>
      s.phase.Waiting? && s.migrations[s.migrationCache].Some? && Finished(s.migrations[s.migrationCache].value.conditions)
    case FinishWithoutPartition => s.phase.Installing? && !WantsPartition(s.phase)
    case FindPartition => WantsPartition(s.phase) && s.partitions[s.partitionCache].Some?
    case CreatePartition(_) =>
      WantsPartition(s.phase) && s.partitions[s.partitionCache].None? && Last(s.partitions).None?
    case ConditionUnchanged => s.phase.Reporting? && Reported(s).Some? && s.phase.seen.condition == Reported(s)
    case WriteStatus(_) =>
      && s.phase.Reporting? && Reported(s).Some? && s.phase.seen.condition != Reported(s)
      && s.phase.version == |s.lookouts| - 1
  }

  /** The condition a reporting reconcile computes from the Lookout and the partition Job it holds. */
  function Reported(s: State): Option<StatusCondition>
    requires s.phase.Reporting?
  {
    if s.phase.partition < |s.partitions| && s.partitions[s.phase.partition].Some?
    then Some(Condition(s.phase.seen.generation, s.partitions[s.phase.partition].value))
    else None
  }

  function NewJob(seen: Lookout): JobObj {
    JobObj(true, seen.spec, [])
  }

  function Begin(s: State): Phase
    requires Indexed(s)
  {
    match s.lookouts[s.lookoutCache]
    case None => Idle
    case Some(seen) =>
      match ActionFor(seen.deleting, seen.finalizer)
      case Attach => Attaching(s.lookoutCache, seen)
      case Proceed => Preparing(s.lookoutCache, seen)
      case CleanUp => Detaching(s.lookoutCache, seen)
      case Stop => Idle
  }

  /** Continue with `next` after a write the caller saw succeed; otherwise give up and requeue. */
  function After(s: State, reported: bool, next: Phase): State {
    s.(phase := if reported then next else Idle, queued := s.queued || !reported)
  }

  function Apply(s: State, step: Step): State
    requires Indexed(s) && Enabled(s, step)
  {
    match step
    case UserCreates(spec, finalizer) =>
      s.(lookouts := s.lookouts + [Some(Lookout(1, spec, finalizer, false, None))])
    case UserEdits(spec) =>
      var l := Last(s.lookouts).value;
      s.(lookouts := s.lookouts + [Some(l.(spec := spec, generation := l.generation + 1))], edits := s.edits + 1)
    case UserTouches => s.(lookouts := s.lookouts + [Last(s.lookouts)])
    case UserDeletes =>
      var l := Last(s.lookouts).value;
      s.(lookouts := s.lookouts + [if l.finalizer then Some(l.(deleting := true)) else None])
    case MigrationChanges(job) => s.(migrations := s.migrations + [job])
    case PartitionChanges(job) => s.(partitions := s.partitions + [job])
    case LookoutDelivered => s.(lookoutCache := s.lookoutCache + 1, queued := true)
    case MigrationDelivered =>
      s.(migrationCache := s.migrationCache + 1,
         queued := s.queued || Owned(s.migrations[s.migrationCache]) || Owned(s.migrations[s.migrationCache + 1]))
    case PartitionDelivered =>
      s.(partitionCache := s.partitionCache + 1,
         queued := s.queued || Owned(s.partitions[s.partitionCache]) || Owned(s.partitions[s.partitionCache + 1]))
    case Start => s.(queued := false, phase := Begin(s))
    case AttachFinalizer(reported) =>
      var l := s.phase.seen.(finalizer := true);
      After(s.(lookouts := s.lookouts + [Some(l)]), reported, Preparing(|s.lookouts|, l))
    case DetachFinalizer(reported) => After(s.(lookouts := s.lookouts + [None]), reported, Idle)
    case Fail => After(s, false, Idle)
    case FindMigration => s.(phase := Waiting(s.phase.version, s.phase.seen))
    case CreateMigration(reported) =>
      After(s.(migrations := s.migrations + [Some(NewJob(s.phase.seen))]), reported, Waiting(s.phase.version, s.phase.seen))
    case MigrationFinished =>
      s.(phase := Installing(s.phase.version, s.phase.seen, s.migrationCache,
                             HasTrue(s.migrations[s.migrationCache].value.conditions, JobComplete)))
    case FinishWithoutPartition => s.(phase := Idle)
    case FindPartition =>
      s.(phase := Reporting(s.phase.version, s.phase.seen, s.phase.migration, s.partitionCache, s.partitionCache))
    case CreatePartition(reported) =>
      After(s.(partitions := s.partitions + [Some(NewJob(s.phase.seen))], creations := s.creations + 1), reported,
            Reporting(s.phase.version, s.phase.seen, s.phase.migration, s.partitionCache, |s.partitions|))
    case ConditionUnchanged => s.(phase := Idle)
    case WriteStatus(reported) =>
      After(s.(lookouts := s.lookouts + [Some(s.phase.seen.(condition := Reported(s)))],
               statusWrites := s.statusWrites + 1,
               written := Written(s.phase.version, s.phase.cached, s.phase.partition)), reported, Idle)
  }

  /** A step from one state to the next. */
  ghost predicate Link(s: State, step: Step, next: State) {
    Indexed(s) && Enabled(s, step) && next == Apply(s, step) && Indexed(next)
  }

  /** States that follow each other, step by step. */
  ghost predicate Follows(states: seq<State>, steps: seq<Step>) {
    |states| == |steps| + 1 && forall i :: 0 <= i < |steps| ==> Link(states[i], steps[i], states[i + 1])
  }

  /** A run: from an initial state through any steps, each enabled where it is taken. */
  ghost predicate Run(states: seq<State>, steps: seq<Step>) {
    Follows(states, steps) && Init(states[0])
  }

  /** One run after another. */
  lemma Concatenate(first: seq<State>, firstSteps: seq<Step>, second: seq<State>, secondSteps: seq<Step>)
    requires Follows(first, firstSteps) && Follows(second, secondSteps) && Last(first) == second[0]
    ensures Follows(first + second[1..], firstSteps + secondSteps)
    ensures Last(first + second[1..]) == Last(second)
  {
    hide Link;
    var states, steps := first + second[1..], firstSteps + secondSteps;
    forall i | 0 <= i < |steps|
      ensures Link(states[i], steps[i], states[i + 1])
    {
      if i < |firstSteps| {
        assert Link(first[i], firstSteps[i], first[i + 1]);
      } else {
        assert Link(second[i - |firstSteps|], secondSteps[i - |firstSteps|], second[i - |firstSteps| + 1]);
      }
    }
  }
}
