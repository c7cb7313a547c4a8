/** What Jobs without the owner reference can do to a Lookout controller at rest, and a run in which one does it. */
module LookoutForeignJobs {
  import opened Api
  import opened Finalizers
  import opened Jobs
  import opened LookoutProtocol
  import opened LookoutInvariants
  import opened LookoutQuiescence

  // ---- One change at rest ----

  predicate ChangesJob(step: Step) {
    step.MigrationChanges? || step.PartitionChanges?
  }

  function DeliveryOf(change: Step): Step {
    if change.MigrationChanges? then MigrationDelivered else PartitionDelivered
  }

  /** A change of one Job in a state of rest, and its delivery. */
  function Changed(s: State, change: Step): State
    requires Indexed(s) && Quiescent(s) && ChangesJob(change) && Enabled(s, change)
  {
    Apply(Apply(s, change), DeliveryOf(change))
  }

  /** At rest the condition is exact for both Jobs: whatever change of whichever Job comes to an accurate and
      quiescent state, it leaves what is reported accurate, or tells the queue, if and only if its delivery is harmless. */
  lemma HarmlessAtRestIff(s: State, change: Step)
    requires Indexed(s) && Quiescent(s) && Accurate(s) && ChangesJob(change) && Enabled(s, change)
    ensures Indexed(Changed(s, change)) && Indexed(Apply(s, change)) && Enabled(Apply(s, change), DeliveryOf(change))
    ensures (Quiescent(Changed(s, change)) ==> Accurate(Changed(s, change))) <==> Harmless(Apply(s, change), DeliveryOf(change))
  {
    var middle, next := Apply(s, change), Changed(s, change);
    assert !Pending(next);
    if change.PartitionChanges? && Shows(Last(s.lookouts), Last(s.partitions)) {
      SameVerdictShows(Last(s.lookouts), Last(s.partitions), change.job);
    }
  }

  /** Exactly when a change of the partition Job does no harm there while the Lookout asks for partitioning and the
      migration Job is Complete: when the stored Job has the owner reference, or its verdict stays. */
  lemma PartitionChangeIsSafeIff(s: State, job: Option<JobObj>)
    requires Indexed(s) && Quiescent(s) && Accurate(s) && Asks(Last(s.lookouts)) && CompletedMigration(s, |s.migrations| - 1)
    requires Enabled(s, PartitionChanges(job))
    ensures var next := Changed(s, PartitionChanges(job));
            && Indexed(next)
            && ((Quiescent(next) ==> Accurate(next)) <==> Owned(Last(s.partitions)) || SameVerdict(Last(s.partitions), job))
  {
  }

  function Recreated(s: State, job: JobObj): State
    requires Indexed(s) && Quiescent(s) && Last(s.migrations).Some?
  {
    var gone := Apply(Apply(s, MigrationChanges(None)), MigrationDelivered);
    Apply(Apply(gone, MigrationChanges(Some(job))), MigrationDelivered)
  }

  /** Exactly when it does no harm that a migration Job is deleted and someone creates another, both of them seen
      one by one: when one of the two has the owner reference, or the new one is not Complete, or the Lookout
      shows the partition Job, as it does wherever the deleted one was Complete and the state accurate. */
  lemma MigrationReplacementIsSafeIff(s: State, job: JobObj)
    requires Indexed(s) && Quiescent(s) && Asks(Last(s.lookouts)) && Last(s.migrations).Some?
    ensures var next := Recreated(s, job);
            && Indexed(next)
            && ((Quiescent(next) ==> Accurate(next)) <==>
                || Owned(Last(s.migrations)) || job.owned || !HasTrue(job.conditions, JobComplete)
                || Shows(Last(s.lookouts), Last(s.partitions)))
    ensures Accurate(s) && CompletedMigration(s, |s.migrations| - 1) ==> Shows(Last(s.lookouts), Last(s.partitions))
  {
  }

  // ---- A run from the initial state ----

  const ASKING := Spec(Some(PartitionJobTableConfig(true, None)), "")
  const MIGRATED := [JobCondition(JobComplete, ConditionTrue, "")]

  function ForeignJob(conditions: seq<JobCondition>): Option<JobObj> {
    Some(JobObj(false, ASKING, conditions))
  }

  function ForeignStart(): State {
    State([None], 0, [Some(JobObj(true, ASKING, MIGRATED))], 0, [ForeignJob([])], 0,
          false, Idle, NotWritten, 0, 0, 0)
  }

  /** An idle controller with one undelivered, installed Lookout and everything it needs in its caches. */
  predicate ReadyToReport(now: State)
    requires Indexed(now)
  {
    && now.phase == Idle && now.lookoutCache + 2 == |now.lookouts|
    && Last(now.lookouts).Some? && Partitions(Last(now.lookouts).value.spec)
    && ActionFor(Last(now.lookouts).value.deleting, Last(now.lookouts).value.finalizer) == Proceed
    && CompletedMigration(now, now.migrationCache) && now.partitions[now.partitionCache].Some?
  }

  /** A reconcile up to the point where it has found the partition Job in the cache. */
  function Reconcile(): seq<Step> {
    [LookoutDelivered, Start, FindMigration, MigrationFinished, FindPartition]
  }

  lemma ReconcileReports(now: State) returns (states: seq<State>)
    requires Indexed(now) && ReadyToReport(now)
    ensures Follows(states, Reconcile()) && states[0] == now
    ensures Last(states) == now.(lookoutCache := now.lookoutCache + 1, queued := false, phase :=
              Reporting(|now.lookouts| - 1, Last(now.lookouts).value, now.migrationCache, now.partitionCache, now.partitionCache))
  {
    hide HasTrue, Condition, NewJob, Reported, VerdictOf, Owned;
    var s1 := Apply(now, LookoutDelivered);
    var s2 := Apply(s1, Start);
    var s3 := Apply(s2, FindMigration);
    var s4 := Apply(s3, MigrationFinished);
    states := [now, s1, s2, s3, s4, Apply(s4, FindPartition)];
  }

  lemma Join(first: seq<State>, firstSteps: seq<Step>, step: Step, second: seq<State>, secondSteps: seq<Step>)
    requires Follows(first, firstSteps) && Follows(second, secondSteps) && Link(Last(first), step, second[0])
    ensures Follows(first + second, firstSteps + [step] + secondSteps)
  {
    hide Link;
    var states, steps := first + second, firstSteps + [step] + secondSteps;
    forall i | 0 <= i < |steps|
      ensures Link(states[i], steps[i], states[i + 1])
    {
      if i < |firstSteps| {
        assert Link(first[i], firstSteps[i], first[i + 1]);
      } else if i > |firstSteps| {
        assert Link(second[i - |first|], secondSteps[i - |first|], second[i - |first| + 1]);
      }
    }
  }

  lemma MigratedIsComplete()
    ensures Finished(MIGRATED) && HasTrue(MIGRATED, JobComplete)
    ensures VerdictOf(MIGRATED) == Succeeded && VerdictOf([]) == Unfinished
  {
    assert IsTrue(MIGRATED[0], JobComplete);
    assert FirstTrue(MIGRATED, JobComplete) == Some(MIGRATED[0]);
  }

  function Asking(condition: Option<StatusCondition>): Option<Lookout> {
    Some(Lookout(1, ASKING, true, false, condition))
  }

  /** The Lookout was created, and its first reconcile has reported the foreign Job as running. */
  function ReportedRunning(): State {
    ForeignStart().(lookouts := [None, Asking(None), Asking(Some(Condition(1, ForeignJob([]).value)))], lookoutCache := 1,
                    written := Written(1, 0, 0), statusWrites := 1)
  }

  lemma FirstReport() returns (states: seq<State>, steps: seq<Step>)
    ensures Follows(states, steps) && states[0] == ForeignStart() && Last(states) == ReportedRunning()
  {
    MigratedIsComplete();
    var s := ForeignStart();
    var created := Apply(s, UserCreates(ASKING, true));
    var first := ReconcileReports(created);
    var written := Apply(Last(first), WriteStatus(true));
    var steps1 := [] + [UserCreates(ASKING, true)] + Reconcile();
    assert Follows([s], []) && Follows([written], []);
    Join([s], [], UserCreates(ASKING, true), first, Reconcile());
    steps := steps1 + [WriteStatus(true)] + [];
    Join([s] + first, steps1, WriteStatus(true), [written], []);
    states := [s] + first + [written];
  }

  /** The second reconcile finds nothing to report; then the Job completes, and nobody is told. */
  lemma NobodyIsTold() returns (states: seq<State>, steps: seq<Step>)
    ensures Follows(states, steps) && states[0] == ReportedRunning()
    ensures Indexed(Last(states)) && Quiescent(Last(states)) && !Accurate(Last(states))
  {
    MigratedIsComplete();
    var reports := ReconcileReports(ReportedRunning());
    var idle := Apply(Last(reports), ConditionUnchanged);
    var changed := Apply(idle, PartitionChanges(ForeignJob(MIGRATED)));
    var stuck := Apply(changed, PartitionDelivered);
    var rest := [PartitionChanges(ForeignJob(MIGRATED)), PartitionDelivered];
    assert Follows([idle, changed, stuck], rest);
    Join(reports, Reconcile(), ConditionUnchanged, [idle, changed, stuck], rest);
    states, steps := reports + [idle, changed, stuck], Reconcile() + [ConditionUnchanged] + rest;
  }

  lemma ChangeFollows(s: State, change: Step)
    requires Indexed(s) && Quiescent(s) && ChangesJob(change) && Enabled(s, change)
    ensures Follows([s, Apply(s, change), Changed(s, change)], [change, DeliveryOf(change)])
  {
  }

  /** So a run at rest that was harmless so far can be extended by any change that is not, to one at rest with a
      wrong condition. */
  lemma HarmfulChangeBreaksAnyRun(states: seq<State>, steps: seq<Step>, change: Step)
    returns (longer: seq<State>, longerSteps: seq<Step>)
    requires Run(states, steps) && HarmlessRun(states, steps) && Indexed(Last(states)) && Quiescent(Last(states))
    requires ChangesJob(change) && Enabled(Last(states), change)
    requires var changed := Apply(Last(states), change);
             Indexed(changed) && Enabled(changed, DeliveryOf(change)) && !Harmless(changed, DeliveryOf(change))
    ensures longerSteps == steps + [change, DeliveryOf(change)] && Run(longer, longerSteps)
    ensures Indexed(Last(longer)) && Quiescent(Last(longer)) && !Accurate(Last(longer))
  {
    hide Link;
    var s, rest := Last(states), [change, DeliveryOf(change)];
    QuiescenceImpliesAccuracy(states, steps, |steps|);
    HarmlessAtRestIff(s, change);
    var changed := [s, Apply(s, change), Changed(s, change)];
    ChangeFollows(s, change);
    Concatenate(states, steps, changed, rest);
    longer, longerSteps := states + changed[1..], steps + rest;
  }

  /** Without the owner reference the property is false: the operator adopts a partition Job it finds,
      but leaves it without an owner, so its completion never reaches the queue. */
  lemma ForeignJobBreaksAccuracy() returns (states: seq<State>, steps: seq<Step>)
    ensures Run(states, steps) && Indexed(Last(states)) && Quiescent(Last(states)) && !Accurate(Last(states))
  {
    hide Link;
    var first, firstSteps := FirstReport();
    var second, secondSteps := NobodyIsTold();
    Concatenate(first, firstSteps, second, secondSteps);
    states, steps := first + second[1..], firstSteps + secondSteps;
  }
}
