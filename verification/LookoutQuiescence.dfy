/** Once the Lookout controller has nothing left to do, what it reports is true. */
module LookoutQuiescence {
  import opened Api
  import opened Finalizers
  import opened Jobs
  import opened LookoutProtocol
  import opened LookoutInvariants

  predicate CaughtUp(s: State) {
    && s.lookoutCache + 1 == |s.lookouts|
    && s.migrationCache + 1 == |s.migrations|
    && s.partitionCache + 1 == |s.partitions|
  }

  /** No reconcile runs, the work queue is empty and every watch event has been delivered. */
  predicate Quiescent(s: State) {
    s.phase == Idle && !s.queued && CaughtUp(s)
  }

  /** A live Lookout that asks for partitioning, with a Complete migration Job, has its partition Job
      and the condition computed from that Job. */
  predicate Accurate(s: State)
    requires Indexed(s)
  {
    Last(s.lookouts).Some? ==>
      var lookout := Last(s.lookouts).value;
      !lookout.deleting && Partitions(lookout.spec) && CompletedMigration(s, |s.migrations| - 1) ==>
        Last(s.partitions).Some? && lookout.condition == Some(Condition(lookout.generation, Last(s.partitions).value))
  }

  /** A live Lookout that asks for partitioning. */
  predicate Asks(lookout: Option<Lookout>) {
    lookout.Some? && !lookout.value.deleting && Partitions(lookout.value.spec)
  }

  /** The Lookout has the condition computed from this partition Job. */
  predicate Shows(lookout: Option<Lookout>, job: Option<JobObj>) {
    lookout.Some? && job.Some? && lookout.value.condition == Some(Condition(lookout.value.generation, job.value))
  }

  predicate SameVerdict(before: Option<JobObj>, after: Option<JobObj>) {
    before.Some? && after.Some? && VerdictOf(after.value.conditions) == VerdictOf(before.value.conditions)
  }

  // ---- What reaches the work queue ----

  /** A watch event of these Jobs that puts the Lookout into the work queue. */
  predicate Enqueues(jobs: seq<Option<JobObj>>, i: nat)
    requires i + 1 < |jobs|
  {
    Owned(jobs[i]) || Owned(jobs[i + 1])
  }

  ghost predicate EventPending(jobs: seq<Option<JobObj>>, cache: nat) {
    exists i :: cache <= i < |jobs| - 1 && Enqueues(jobs, i)
  }

  /** Some watch event still to be delivered puts the Lookout into the work queue. */
  ghost predicate Pending(s: State) {
    s.lookoutCache + 1 < |s.lookouts| || EventPending(s.migrations, s.migrationCache) || EventPending(s.partitions, s.partitionCache)
  }

  /** Whatever happened to the Job between these versions, the work queue was not told. */
  ghost predicate Untold(jobs: seq<Option<JobObj>>, from: nat, to: nat) {
    from <= to < |jobs| && forall i :: from <= i < to ==> !Enqueues(jobs, i)
  }

  lemma EventStaysPending(jobs: seq<Option<JobObj>>, more: seq<Option<JobObj>>, cache: nat)
    requires EventPending(jobs, cache)
    ensures EventPending(jobs + more, cache)
  {
    var i :| cache <= i < |jobs| - 1 && Enqueues(jobs, i);
    assert Enqueues(jobs + more, i);
  }

  /** Delivering an event leaves the others pending. */
  lemma OthersStayPending(jobs: seq<Option<JobObj>>, cache: nat)
    requires EventPending(jobs, cache) && cache + 1 < |jobs| && !Enqueues(jobs, cache)
    ensures EventPending(jobs, cache + 1)
  {
    var i :| cache <= i < |jobs| - 1 && Enqueues(jobs, i);
    assert i >= cache + 1;
  }

  /** A Job the operator has just created is an event to come. */
  lemma CreationPends(jobs: seq<Option<JobObj>>, job: JobObj, cache: nat)
    requires cache < |jobs| && job.owned
    ensures EventPending(jobs + [Some(job)], cache)
  {
    assert Enqueues(jobs + [Some(job)], |jobs| - 1);
  }

  lemma UntoldOfExtension(jobs: seq<Option<JobObj>>, more: seq<Option<JobObj>>, from: nat, to: nat)
    requires Untold(jobs, from, to)
    ensures Untold(jobs + more, from, to)
  {
    forall i | from <= i < to
      ensures !Enqueues(jobs + more, i)
    {
      assert !Enqueues(jobs, i);
    }
  }

  /** What is pending stays so while versions are added. */
  lemma PendingGrows(s: State, step: Step, next: State)
    requires Link(s, step, next) && AddsVersion(step)
    ensures Pending(s) ==> Pending(next)
  {
    if EventPending(s.migrations, s.migrationCache) && step.MigrationChanges? {
      EventStaysPending(s.migrations, [step.job], s.migrationCache);
    }
    if EventPending(s.partitions, s.partitionCache) && step.PartitionChanges? {
      EventStaysPending(s.partitions, [step.job], s.partitionCache);
    }
  }

  lemma PendingDelivered(s: State, step: Step, next: State)
    requires Link(s, step, next) && Delivers(step) && !next.queued
    ensures Pending(s) ==> Pending(next)
  {
    if step.MigrationDelivered? && EventPending(s.migrations, s.migrationCache) {
      OthersStayPending(s.migrations, s.migrationCache);
    }
    if step.PartitionDelivered? && EventPending(s.partitions, s.partitionCache) {
      OthersStayPending(s.partitions, s.partitionCache);
    }
  }

  // ---- What rests on which versions ----

  /** What a controller at rest has concluded from these versions of the Jobs about a Lookout that asks for partitioning:
      the migration Job had ended, and if it was Complete, the Lookout shows the partition Job. */
  ghost predicate Concluded(s: State, migration: nat, partition: nat)
    requires Indexed(s)
  {
    && Untold(s.migrations, migration, s.migrationCache)
    && s.migrations[migration].Some? && Finished(s.migrations[migration].value.conditions)
    && (CompletedMigration(s, migration) ==>
          Untold(s.partitions, partition, s.partitionCache) && Shows(s.lookouts[s.lookoutCache], s.partitions[partition]))
  }

  /** The queue was told of nothing that happened since the running reconcile, or the last one, read the Jobs. */
  ghost predicate PhaseBased(s: State)
    requires Indexed(s)
  {
    match s.phase
    case Idle => Asks(s.lookouts[s.lookoutCache]) ==> exists migration, partition :: Concluded(s, migration, partition)
    case Attaching(version, _) => version == s.lookoutCache
    case Detaching(version, _) => version == s.lookoutCache
    case Preparing(version, _) => version == s.lookoutCache
    case Waiting(version, _) => version == s.lookoutCache
    case Installing(version, _, migration, _) =>
      && version == s.lookoutCache && Untold(s.migrations, migration, s.migrationCache)
      && s.migrations[migration].Some? && Finished(s.migrations[migration].value.conditions)
    case Reporting(version, _, migration, _, partition) =>
      && version == s.lookoutCache && Untold(s.migrations, migration, s.migrationCache)
      && s.migrations[migration].Some? && Finished(s.migrations[migration].value.conditions)
      && Untold(s.partitions, partition, s.partitionCache)
  }

  ghost predicate Based(s: State)
    requires Indexed(s)
  {
    s.queued || Pending(s) || PhaseBased(s)
  }

  lemma PhaseBasedStays(s: State, next: State)
    requires Indexed(s) && Indexed(next) && PhaseBased(s) && next.phase == s.phase
    requires s.lookouts <= next.lookouts && next.lookoutCache == s.lookoutCache
    requires s.migrations <= next.migrations && s.partitions <= next.partitions
    requires s.migrationCache <= next.migrationCache && s.partitionCache <= next.partitionCache
    requires Untold(next.migrations, s.migrationCache, next.migrationCache)
    requires Untold(next.partitions, s.partitionCache, next.partitionCache)
    ensures PhaseBased(next)
  {
    forall from | Untold(s.migrations, from, s.migrationCache)
      ensures Untold(next.migrations, from, next.migrationCache)
    {
      UntoldOn(s.migrations, next.migrations, from, s.migrationCache, next.migrationCache);
    }
    forall from | Untold(s.partitions, from, s.partitionCache)
      ensures Untold(next.partitions, from, next.partitionCache)
    {
      UntoldOn(s.partitions, next.partitions, from, s.partitionCache, next.partitionCache);
    }
    if next.phase.Idle? && Asks(s.lookouts[s.lookoutCache]) {
      var migration, partition :| Concluded(s, migration, partition);
      assert Concluded(next, migration, partition);
    }
  }

  lemma UntoldOn(jobs: seq<Option<JobObj>>, longer: seq<Option<JobObj>>, from: nat, middle: nat, to: nat)
    requires jobs <= longer && Untold(jobs, from, middle) && Untold(longer, middle, to)
    ensures Untold(longer, from, to)
  {
    forall i | from <= i < to
      ensures !Enqueues(longer, i)
    {
      if i < middle {
        assert !Enqueues(jobs, i);
      }
    }
  }

  lemma BasedKeptByOthers(s: State, step: Step, next: State)
    requires Link(s, step, next) && Indexed(s) && Based(s) && (AddsVersion(step) || Delivers(step))
    ensures Indexed(next) && Based(next)
  {
    if AddsVersion(step) {
      PendingGrows(s, step, next);
    } else if !next.queued {
      PendingDelivered(s, step, next);
    }
    if !next.queued && !Pending(next) {
      QuietStep(s, step, next);
      PhaseBasedStays(s, next);
    }
  }

  /** A step after which nothing is queued or pending leaves a phase where it is and tells the queue nothing. */
  lemma QuietStep(s: State, step: Step, next: State)
    requires Link(s, step, next) && Indexed(s) && (AddsVersion(step) || Delivers(step)) && !next.queued && !Pending(next)
    ensures next.phase == s.phase && s.lookouts <= next.lookouts && next.lookoutCache == s.lookoutCache
    ensures s.migrations <= next.migrations && s.partitions <= next.partitions
    ensures s.migrationCache <= next.migrationCache && s.partitionCache <= next.partitionCache
    ensures Untold(next.migrations, s.migrationCache, next.migrationCache)
    ensures Untold(next.partitions, s.partitionCache, next.partitionCache)
  {
    hide VerdictOf, HasTrue, Condition, Reported, Begin;
  }

  lemma BasedKeptByReconcile(s: State, step: Step, next: State)
    requires Link(s, step, next) && Indexed(s) && Holds(s) && Based(s) && !AddsVersion(step) && !Delivers(step)
    ensures Indexed(next) && Based(next)
  {
    hide VerdictOf, HasTrue;
    if step.CreateMigration? || step.CreatePartition? {
      CreationPends(s.migrations, NewJob(s.phase.seen), s.migrationCache);
      CreationPends(s.partitions, NewJob(s.phase.seen), s.partitionCache);
    } else if step.FinishWithoutPartition? && PhaseBased(s) && Asks(s.lookouts[s.lookoutCache]) {
      assert Concluded(next, s.phase.migration, 0);
    } else if step.ConditionUnchanged? && PhaseBased(s) {
      assert Concluded(next, s.phase.migration, s.phase.partition);
    }
  }

  lemma {:induction false} BasedAlways(states: seq<State>, steps: seq<Step>, n: nat)
    requires Run(states, steps) && n <= |steps|
    ensures Indexed(states[n]) && Based(states[n])
  {
    hide Link;
    if n > 0 {
      BasedAlways(states, steps, n - 1);
      HoldsAlways(states, steps, n - 1);
      assert Link(states[n - 1], steps[n - 1], states[n]);
      if AddsVersion(steps[n - 1]) || Delivers(steps[n - 1]) {
        BasedKeptByOthers(states[n - 1], steps[n - 1], states[n]);
      } else {
        BasedKeptByReconcile(states[n - 1], steps[n - 1], states[n]);
      }
    }
  }

  lemma ConditionTellsVerdict(generation: nat, a: JobObj, b: JobObj)
    ensures Condition(generation, a) == Condition(generation, b) <==> VerdictOf(a.conditions) == VerdictOf(b.conditions)
  {
    var prefix := "Job " + PARTITION_JOB + " failed: ";
    if Condition(generation, a) == Condition(generation, b) && VerdictOf(a.conditions).FailedWith? {
      var m, n := VerdictOf(a.conditions).message, VerdictOf(b.conditions).message;
      assert (prefix + m)[|prefix|..] == m && (prefix + n)[|prefix|..] == n;
    }
  }

  /** Exactly when quiescence is accuracy, for every run and with no assumption on anyone's Jobs. At rest the
      controller has concluded from some versions of the Jobs, and of what happened to them since the queue was not
      told. What it reports is accurate if and only if the migration Job stored now is not Complete; or it was
      Complete then and the partition Job stored now has the verdict it had then; or it was not, and the Lookout
      happens to show the partition Job. */
  lemma AccuracyIff(states: seq<State>, steps: seq<Step>, n: nat) returns (migration: nat, partition: nat)
    requires Run(states, steps) && n <= |steps|
    requires Indexed(states[n]) && Quiescent(states[n]) && Asks(Last(states[n].lookouts))
    ensures Concluded(states[n], migration, partition)
    ensures var s := states[n];
            Accurate(s) <==>
            || !CompletedMigration(s, |s.migrations| - 1)
            || (if CompletedMigration(s, migration) then SameVerdict(s.partitions[partition], Last(s.partitions))
                else Shows(Last(s.lookouts), Last(s.partitions)))
  {
    hide Link;
    BasedAlways(states, steps, n);
    var s := states[n];
    assert !Pending(s);
    migration, partition :| Concluded(s, migration, partition);
    if CompletedMigration(s, migration) && Last(s.partitions).Some? {
      ConditionTellsVerdict(Last(s.lookouts).value.generation, s.partitions[partition].value, Last(s.partitions).value);
    }
  }

  // ---- Runs that keep the Jobs of others harmless ----

  /** The running reconcile, if any, may come to rest without another write. */
  predicate MayRest(s: State) {
    match s.phase
    case Idle => true
    case Installing(_, _, _, _) => !WantsPartition(s.phase)
    case Reporting(_, seen, _, _, _) => seen.condition == Reported(s)
    case _ => false
  }

  /** This delivery puts nothing into the work queue, nor will one that is still to come. */
  ghost predicate Unnoticed(s: State, step: Step)
    requires Indexed(s) && Enabled(s, step) && Delivers(step)
  {
    var next := Apply(s, step);
    !next.queued && !Pending(next)
  }

  /** An event that nobody notices while the controller is at rest, or about to be, with a Lookout that asks for
      partitioning: a partition Job keeps its verdict if the migration Job is Complete, and a migration Job does not
      become Complete unless the Lookout shows the partition Job. */
  ghost predicate Harmless(s: State, step: Step)
    requires Indexed(s) && Enabled(s, step)
  {
    var lookout, partition := s.lookouts[s.lookoutCache], s.partitions[s.partitionCache];
    Delivers(step) && Unnoticed(s, step) && MayRest(s) && Asks(lookout) ==>
      && (step.PartitionDelivered? && CompletedMigration(s, s.migrationCache) ==>
            SameVerdict(partition, s.partitions[s.partitionCache + 1]))
      && (step.MigrationDelivered? && !CompletedMigration(s, s.migrationCache) && CompletedMigration(s, s.migrationCache + 1) ==>
            Shows(lookout, partition))
  }

  /** What the Lookout shows is accurate by what the caches hold. */
  predicate CacheAccurate(s: State)
    requires Indexed(s)
  {
    Asks(s.lookouts[s.lookoutCache]) && CompletedMigration(s, s.migrationCache) ==>
      Shows(s.lookouts[s.lookoutCache], s.partitions[s.partitionCache])
  }

  /** Unless a request is queued or will be, a reconcile works on the cached Lookout and comes to rest accurate. */
  ghost predicate Fresh(s: State)
    requires Indexed(s)
  {
    s.queued || Pending(s) || ((s.phase != Idle ==> s.phase.version == s.lookoutCache) && (MayRest(s) ==> CacheAccurate(s)))
  }

  lemma FreshKeptByOthers(s: State, step: Step, next: State)
    requires Link(s, step, next) && Indexed(s) && Holds(s) && Fresh(s) && Enabled(s, step) && Harmless(s, step)
    requires AddsVersion(step) || Delivers(step)
    ensures Indexed(next) && Fresh(next)
  {
    hide HasTrue, VerdictOf, Condition;
    if AddsVersion(step) {
      PendingGrows(s, step, next);
    } else if !next.queued {
      PendingDelivered(s, step, next);
    }
    if !next.queued && !Pending(next) {
      QuietStep(s, step, next);
      if step.PartitionDelivered? && MayRest(s) && Asks(s.lookouts[s.lookoutCache]) && CompletedMigration(s, s.migrationCache) {
        SameVerdictShows(s.lookouts[s.lookoutCache], s.partitions[s.partitionCache], s.partitions[s.partitionCache + 1]);
      }
    }
  }

  lemma SameVerdictShows(lookout: Option<Lookout>, before: Option<JobObj>, after: Option<JobObj>)
    requires Shows(lookout, before)
    ensures Shows(lookout, after) <==> SameVerdict(before, after)
  {
    if after.Some? {
      ConditionTellsVerdict(lookout.value.generation, before.value, after.value);
    }
  }

  lemma FreshKeptByReconcile(s: State, step: Step, next: State)
    requires Link(s, step, next) && Indexed(s) && Holds(s) && Fresh(s) && !AddsVersion(step) && !Delivers(step)
    ensures Indexed(next) && Fresh(next)
  {
    hide VerdictOf, HasTrue;
    if step.CreateMigration? || step.CreatePartition? {
      CreationPends(s.migrations, NewJob(s.phase.seen), s.migrationCache);
      CreationPends(s.partitions, NewJob(s.phase.seen), s.partitionCache);
    }
  }

  lemma FreshKept(s: State, step: Step, next: State)
    requires Link(s, step, next) && Indexed(s) && Enabled(s, step) && Holds(s) && Fresh(s) && Harmless(s, step)
    ensures Indexed(next) && Fresh(next)
  {
    if AddsVersion(step) || Delivers(step) {
      FreshKeptByOthers(s, step, next);
    } else {
      FreshKeptByReconcile(s, step, next);
    }
  }

  /** Every event that is delivered in the run is harmless. */
  ghost predicate HarmlessRun(states: seq<State>, steps: seq<Step>)
    requires Run(states, steps)
  {
    forall i :: 0 <= i < |steps| && Link(states[i], steps[i], states[i + 1]) ==> Harmless(states[i], steps[i])
  }

  lemma {:induction false} FreshAlways(states: seq<State>, steps: seq<Step>, n: nat)
    requires Run(states, steps) && HarmlessRun(states, steps) && n <= |steps|
    ensures Indexed(states[n]) && Fresh(states[n])
  {
    if n > 0 {
      FreshAlways(states, steps, n - 1);
      HoldsAlways(states, steps, n - 1);
      assert Link(states[n - 1], steps[n - 1], states[n - 1 + 1]);
      FreshKept(states[n - 1], steps[n - 1], states[n]);
    }
  }

  /** In every run in which events that nobody notices are harmless, quiescence implies accuracy. */
  lemma QuiescenceImpliesAccuracy(states: seq<State>, steps: seq<Step>, n: nat)
    requires Run(states, steps) && HarmlessRun(states, steps) && n <= |steps| && Quiescent(states[n])
    ensures Indexed(states[n]) && Accurate(states[n])
  {
    hide Link;
    FreshAlways(states, steps, n);
    assert !Pending(states[n]);
  }
}
