/** Safety of the partition Job and of its reported condition over whole runs. */
module LookoutPartition {
  import opened Api
  import opened Jobs
  import opened LookoutProtocol
  import opened LookoutInvariants

  // ---- The Job itself ----

  /** How often the Job was there in one of these versions and not in the next. */
  function Deletions(jobs: seq<Option<JobObj>>): nat {
    if |jobs| < 2 then 0
    else Deletions(jobs[..|jobs| - 1]) + if jobs[|jobs| - 2].Some? && jobs[|jobs| - 1].None? then 1 else 0
  }

  /** Every creation by the operator but the one still standing was undone by a deletion. */
  predicate CreationsPaidFor(s: State)
    requires Indexed(s)
  {
    s.creations <= Deletions(s.partitions) + if Last(s.partitions).Some? then 1 else 0
  }

  /** While it exists, the partition Job keeps the template it was created with. */
  ghost predicate TemplateFrozen(s: State) {
    forall i :: 0 <= i < |s.partitions| - 1 && s.partitions[i].Some? && s.partitions[i + 1].Some? ==>
                  s.partitions[i].value.template == s.partitions[i + 1].value.template
  }

  lemma CreationsPaidForKept(s: State, step: Step, next: State)
    requires Link(s, step, next) && Indexed(s) && CreationsPaidFor(s) && TemplateFrozen(s)
    ensures Indexed(next) && CreationsPaidFor(next) && TemplateFrozen(next)
  {
    hide Condition, Begin, HasTrue, Reported;
    if next.partitions != s.partitions {
      assert next.partitions[..|next.partitions| - 1] == s.partitions;
    }
  }

  lemma {:induction false} PartitionJobCreatedOnce(states: seq<State>, steps: seq<Step>, n: nat)
    requires Run(states, steps) && n <= |steps|
    ensures Indexed(states[n]) && CreationsPaidFor(states[n]) && TemplateFrozen(states[n])
  {
    hide Link;
    if n > 0 {
      PartitionJobCreatedOnce(states, steps, n - 1);
      assert Link(states[n - 1], steps[n - 1], states[n]);
      CreationsPaidForKept(states[n - 1], steps[n - 1], states[n]);
    }
  }

  /** The operator's creation of the partition Job, where none is stored, in a reconcile that itself read the
      migration Job Complete, for a Lookout asking for it. */
  predicate CreatedAfterMigration(now: State, next: State)
    requires Indexed(now)
  {
    && now.phase.Installing? && Partitions(now.phase.seen.spec)
    && CompletedMigration(now, now.phase.migration)
    && Last(now.partitions).None?
    && next.partitions == now.partitions + [Some(JobObj(true, now.phase.seen.spec, []))]
    && next.creations == now.creations + 1
  }

  lemma PartitionJobWritesStep(s: State, step: Step, next: State)
    requires Link(s, step, next) && Indexed(s) && Holds(s)
    requires next.partitions != s.partitions && !step.PartitionChanges?
    ensures CreatedAfterMigration(s, next)
  {
  }

  /** The operator has no other way of writing the partition Job. Edits of the Lookout, disabling included,
      change no Job. */
  lemma PartitionJobWrites(states: seq<State>, steps: seq<Step>, n: nat)
    requires Run(states, steps) && n < |steps|
    requires states[n + 1].partitions != states[n].partitions && !steps[n].PartitionChanges?
    ensures Indexed(states[n]) && CreatedAfterMigration(states[n], states[n + 1])
  {
    hide Link;
    HoldsAlways(states, steps, n);
    assert Link(states[n], steps[n], states[n + 1]);
    PartitionJobWritesStep(states[n], steps[n], states[n + 1]);
  }

  // ---- The condition ----

  predicate NoJobDeletion(step: Step) {
    step.PartitionChanges? ==> step.job.Some?
  }

  ghost predicate NoJobDeletions(steps: seq<Step>) {
    forall i :: 0 <= i < |steps| ==> NoJobDeletion(steps[i])
  }

  /** Without deletions the Job, once there, stays, and a terminal verdict stays with it. */
  ghost predicate Grows(s: State) {
    forall i, j :: 0 <= i < j < |s.partitions| && s.partitions[i].Some? ==>
                     s.partitions[j].Some? && VerdictFollows(s.partitions[i].value, s.partitions[j].value)
  }

  predicate VerdictFollows(earlier: JobObj, later: JobObj) {
    VerdictOf(earlier.conditions) == Unfinished || VerdictOf(later.conditions) == VerdictOf(earlier.conditions)
  }

  lemma GrowsKept(s: State, step: Step, next: State)
    requires Link(s, step, next) && Indexed(s) && Holds(s) && NoJobDeletion(step) && Grows(s)
    ensures Indexed(next) && Grows(next)
  {
    if next.partitions != s.partitions {
      forall i | 0 <= i < |s.partitions| && s.partitions[i].Some?
        ensures Last(next.partitions).Some? && VerdictFollows(s.partitions[i].value, Last(next.partitions).value)
      {
        if i < |s.partitions| - 1 {
          assert VerdictFollows(s.partitions[i].value, Last(s.partitions).value);
        }
      }
    }
  }

  /** The stored condition is the one computed at the last status write. */
  predicate ConditionStored(s: State)
    requires Indexed(s)
  {
    match s.written
    case NotWritten => s.statusWrites == 0 && (Last(s.lookouts).Some? ==> Last(s.lookouts).value.condition == None)
    case Written(lookout, cached, partition) =>
      && lookout < |s.lookouts| - 1 && s.lookouts[lookout].Some? && ReportSource(s, cached, partition)
      && (Last(s.lookouts).Some? ==>
            Last(s.lookouts).value.condition
            == Some(Condition(s.lookouts[lookout].value.generation, s.partitions[partition].value)))
  }

  lemma ConditionStoredByWrite(s: State, step: Step, next: State)
    requires Link(s, step, next) && Indexed(s) && Holds(s) && step.WriteStatus?
    ensures Indexed(next) && ConditionStored(next)
  {
  }

  lemma ConditionStoredByReconcile(s: State, step: Step, next: State)
    requires Link(s, step, next) && Indexed(s) && Holds(s) && ConditionStored(s)
    requires !step.WriteStatus? && !AddsVersion(step) && !Delivers(step)
    ensures Indexed(next) && ConditionStored(next)
  {
    hide Begin, NewJob, Reported, Condition, VerdictOf, HasTrue, Finished, CompletedMigration, Partitions;
  }

  lemma ConditionStoredByOthers(s: State, step: Step, next: State)
    requires Link(s, step, next) && Indexed(s) && CreatedOnce(s) && ConditionStored(s)
    requires AddsVersion(step) || Delivers(step)
    ensures Indexed(next) && ConditionStored(next)
  {
    hide Begin, NewJob, Reported, Condition, VerdictOf, HasTrue, Finished, Partitions, Owned;
  }

  lemma ConditionStoredKept(s: State, step: Step, next: State)
    requires Link(s, step, next) && Indexed(s) && OneLife(s) && Holds(s) && ConditionStored(s)
    ensures Indexed(next) && ConditionStored(next)
  {
    hide Link;
    if step.WriteStatus? {
      ConditionStoredByWrite(s, step, next);
    } else if AddsVersion(step) || Delivers(step) {
      ConditionStoredByOthers(s, step, next);
    } else {
      ConditionStoredByReconcile(s, step, next);
    }
  }

  lemma {:induction false} ConditionStoredAlways(states: seq<State>, steps: seq<Step>, n: nat)
    requires Run(states, steps) && n <= |steps|
    ensures Indexed(states[n]) && ConditionStored(states[n])
  {
    hide Link;
    if n > 0 {
      ConditionStoredAlways(states, steps, n - 1);
      HoldsAlways(states, steps, n - 1);
      assert Link(states[n - 1], steps[n - 1], states[n]);
      ConditionStoredKept(states[n - 1], steps[n - 1], states[n]);
    }
  }

  /** Without deletions, what a reconcile reports is never older than what was last written. */
  predicate Forward(s: State) {
    s.written.Written? ==>
      && s.written.partition < |s.partitions|
      && (s.written.partition <= s.partitionCache
          || (forall k :: 0 <= k < s.written.partition && k < |s.partitions| ==> s.partitions[k].None?))
      && (s.phase.Reporting? ==> s.written.partition <= s.phase.partition)
  }

  lemma ForwardKeptByOthers(s: State, step: Step, next: State)
    requires Link(s, step, next) && Indexed(s) && Holds(s) && ConditionStored(s) && Grows(s) && NoJobDeletion(step) && Forward(s)
    requires AddsVersion(step) || Delivers(step)
    ensures Indexed(next) && Forward(next)
  {
    hide NewJob, Reported, Condition, VerdictOf, VerdictFollows, HasTrue, Finished, CompletedMigration, Partitions, Owned, Holds, Begin;
  }

  lemma ForwardKeptByReconcile(s: State, step: Step, next: State)
    requires Link(s, step, next) && Indexed(s) && Holds(s) && ConditionStored(s) && Grows(s) && Forward(s)
    requires !AddsVersion(step) && !Delivers(step)
    ensures Indexed(next) && Forward(next)
  {
    hide NewJob, Reported, Condition, VerdictOf, VerdictFollows, HasTrue, Finished, CompletedMigration, Partitions, Owned, Live;
  }

  lemma ForwardKept(s: State, step: Step, next: State)
    requires Link(s, step, next) && Indexed(s) && Holds(s) && ConditionStored(s) && Grows(s) && NoJobDeletion(step) && Forward(s)
    ensures Indexed(next) && Forward(next)
  {
    hide Link;
    if AddsVersion(step) || Delivers(step) {
      ForwardKeptByOthers(s, step, next);
    } else {
      ForwardKeptByReconcile(s, step, next);
    }
  }

  lemma {:induction false} GrowsAlways(states: seq<State>, steps: seq<Step>, n: nat)
    requires Run(states, steps) && n <= |steps| && NoJobDeletions(steps)
    ensures Indexed(states[n]) && Grows(states[n])
  {
    hide Link;
    if n > 0 {
      GrowsAlways(states, steps, n - 1);
      HoldsAlways(states, steps, n - 1);
      assert Link(states[n - 1], steps[n - 1], states[n]);
      GrowsKept(states[n - 1], steps[n - 1], states[n]);
    }
  }

  lemma {:induction false} ForwardAlways(states: seq<State>, steps: seq<Step>, n: nat)
    requires Run(states, steps) && n <= |steps| && NoJobDeletions(steps)
    ensures Indexed(states[n]) && Forward(states[n])
  {
    hide Link;
    if n > 0 {
      ForwardAlways(states, steps, n - 1);
      GrowsAlways(states, steps, n - 1);
      HoldsAlways(states, steps, n - 1);
      ConditionStoredAlways(states, steps, n - 1);
      assert Link(states[n - 1], steps[n - 1], states[n]);
      ForwardKept(states[n - 1], steps[n - 1], states[n]);
    }
  }

  /** A condition may go from absent to present and from Running to anything; a terminal reason stays. */
  predicate Progress(earlier: Option<Lookout>, later: Option<Lookout>) {
    earlier.Some? && later.Some? && earlier.value.condition.Some? ==>
      && later.value.condition.Some?
      && (earlier.value.condition.value.reason != Running ==>
            later.value.condition.value.reason == earlier.value.condition.value.reason)
  }

  lemma ReportGoesForward(s: State)
    requires Indexed(s) && Holds(s) && ConditionStored(s) && Grows(s) && Forward(s) && s.phase.Reporting? && s.written.Written?
    ensures VerdictFollows(s.partitions[s.written.partition].value, s.partitions[s.phase.partition].value)
  {
    hide Link;
  }

  lemma ProgressByWrite(s: State, step: Step, next: State)
    requires Link(s, step, next) && Indexed(s) && Indexed(next) && step.WriteStatus?
    requires Holds(s) && ConditionStored(s) && Grows(s) && Forward(s)
    ensures Progress(Last(s.lookouts), Last(next.lookouts)) && s.lookouts <= next.lookouts
  {
    hide Begin, NewJob, HasTrue, Finished, CompletedMigration, Partitions, Owned;
    if s.written.Written? {
      ReportGoesForward(s);
    }
  }

  lemma ProgressByOthers(s: State, step: Step, next: State)
    requires Link(s, step, next) && Indexed(s) && Indexed(next) && !step.WriteStatus? && OneLife(s) && Holds(s)
    ensures Progress(Last(s.lookouts), Last(next.lookouts)) && s.lookouts <= next.lookouts
  {
    hide Begin, NewJob, HasTrue, Finished, CompletedMigration, Partitions, Owned, GenerationsGrow, ReportSource;
  }

  lemma ProgressStep(s: State, step: Step, next: State)
    requires Link(s, step, next) && Indexed(s) && Indexed(next)
    requires OneLife(s) && Holds(s) && ConditionStored(s) && Grows(s) && Forward(s)
    ensures Progress(Last(s.lookouts), Last(next.lookouts)) && s.lookouts <= next.lookouts
  {
    hide Link;
    if step.WriteStatus? {
      ProgressByWrite(s, step, next);
    } else {
      ProgressByOthers(s, step, next);
    }
  }

  lemma ProgressComposes(first: State, middle: State, last: State)
    requires Indexed(first) && Indexed(middle) && Indexed(last)
    requires OneLife(last) && |first.lookouts| <= |middle.lookouts| && middle.lookouts <= last.lookouts
    requires OneLife(middle) && OneLife(first)
    requires Progress(Last(first.lookouts), Last(middle.lookouts)) && Progress(Last(middle.lookouts), Last(last.lookouts))
    ensures Progress(Last(first.lookouts), Last(last.lookouts)) && |first.lookouts| <= |last.lookouts|
  {
    assert last.lookouts[|middle.lookouts| - 1] == Last(middle.lookouts);
  }

  /** Reported progress never goes backward, between any two points of a run without external Job deletions. */
  lemma {:induction false} ProgressNeverGoesBackward(states: seq<State>, steps: seq<Step>, m: nat, n: nat)
    requires Run(states, steps) && m <= n <= |steps| && NoJobDeletions(steps)
    ensures Indexed(states[m]) && Indexed(states[n]) && |states[m].lookouts| <= |states[n].lookouts|
    ensures Progress(Last(states[m].lookouts), Last(states[n].lookouts))
    decreases n
  {
    hide Link;
    hide Holds, ConditionStored, Grows, Forward, OneLife;
    HoldsAlways(states, steps, m);
    HoldsAlways(states, steps, n);
    if m < n {
      ProgressNeverGoesBackward(states, steps, m, n - 1);
      HoldsAlways(states, steps, n - 1);
      ConditionStoredAlways(states, steps, n - 1);
      GrowsAlways(states, steps, n - 1);
      ForwardAlways(states, steps, n - 1);
      assert Link(states[n - 1], steps[n - 1], states[n]);
      ProgressStep(states[n - 1], steps[n - 1], states[n]);
      ProgressComposes(states[m], states[n - 1], states[n]);
    }
  }

  predicate TrueIsEarned(s: State)
    requires Indexed(s)
  {
    Last(s.lookouts).Some? && Last(s.lookouts).value.condition.Some?
    && Last(s.lookouts).value.condition.value.status == ConditionTrue ==>
      CompletedPartition(Last(s.partitions))
  }

  predicate CompletedPartition(job: Option<JobObj>) {
    job.Some? && HasTrue(job.value.conditions, JobComplete)
  }

  lemma StoredTrueIsEarned(s: State)
    requires Indexed(s) && ConditionStored(s) && Grows(s)
    ensures TrueIsEarned(s)
  {
    hide Link;
    if s.written.Written? {
      var job, last := s.partitions[s.written.partition].value, Last(s.partitions);
      assert last.Some? && VerdictFollows(job, last.value);
      ReasonMatchesJob(PARTITION_JOB, 0, last.value.conditions);
    }
  }

  /** Status True is never premature: the stored partition Job is Complete. */
  lemma TrueMeansPartitioned(states: seq<State>, steps: seq<Step>, n: nat)
    requires Run(states, steps) && n <= |steps| && NoJobDeletions(steps)
    ensures Indexed(states[n]) && TrueIsEarned(states[n])
  {
    hide Link;
    ConditionStoredAlways(states, steps, n);
    GrowsAlways(states, steps, n);
    StoredTrueIsEarned(states[n]);
  }

  // ---- The number of status writes ----

  function ConditionsOf(job: Option<JobObj>): Option<seq<JobCondition>> {
    if job.Some? then Some(job.value.conditions) else None
  }

  /** How often the conditions of the partition Job changed up to version `upTo`. */
  function ConditionChanges(jobs: seq<Option<JobObj>>, upTo: nat): nat
    requires upTo < |jobs|
  {
    if upTo == 0 then 0
    else ConditionChanges(jobs, upTo - 1) + if ConditionsOf(jobs[upTo]) != ConditionsOf(jobs[upTo - 1]) then 1 else 0
  }

  lemma {:induction false} ChangesGrow(jobs: seq<Option<JobObj>>, a: nat, b: nat)
    requires a <= b < |jobs|
    ensures ConditionChanges(jobs, a) <= ConditionChanges(jobs, b)
    ensures ConditionsOf(jobs[a]) != ConditionsOf(jobs[b]) ==> ConditionChanges(jobs, a) < ConditionChanges(jobs, b)
    decreases b
  {
    if a < b {
      ChangesGrow(jobs, a, b - 1);
    }
  }

  lemma {:induction false} ChangesOfExtension(jobs: seq<Option<JobObj>>, more: seq<Option<JobObj>>, upTo: nat)
    requires upTo < |jobs|
    ensures ConditionChanges(jobs + more, upTo) == ConditionChanges(jobs, upTo)
  {
    if upTo > 0 {
      ChangesOfExtension(jobs, more, upTo - 1);
    }
  }

  /** Each status write is paid for by an edit of the spec or a change of the Job the cache had delivered. */
  predicate WritesPaidFor(s: State)
    requires Indexed(s) && ConditionStored(s)
  {
    s.written.Written? ==>
      && s.statusWrites <= s.lookouts[s.written.lookout].value.generation + ConditionChanges(s.partitions, s.written.cached)
      && (s.phase.Reporting? ==> s.written.cached <= s.phase.cached)
  }

  /** The accounting of one status write: it differs from the last one, so something it was computed from changed. */
  lemma WritePaidFor(s: State, step: Step)
    requires Indexed(s) && Enabled(s, step) && step.WriteStatus?
    requires OneLife(s) && Holds(s) && ConditionStored(s) && WritesPaidFor(s)
    ensures s.statusWrites + 1 <= s.phase.seen.generation + ConditionChanges(s.partitions, s.phase.cached)
  {
    if s.written.Written? {
      var cached, cached' := s.written.cached, s.phase.cached;
      ChangesGrow(s.partitions, cached, cached');
      assert s.lookouts[s.written.lookout].value.generation <= s.phase.seen.generation;
    }
  }

  lemma WritesPaidForKeptByOthers(s: State, step: Step, next: State)
    requires Link(s, step, next) && Indexed(s) && (AddsVersion(step) || Delivers(step))
    requires OneLife(s) && Holds(s) && ConditionStored(s) && WritesPaidFor(s)
    ensures Indexed(next) && ConditionStored(next) && WritesPaidFor(next)
  {
    hide NewJob, Reported, Condition, VerdictOf, HasTrue, Finished, CompletedMigration, Partitions, Owned, OneLife, Holds, Begin;
    ConditionStoredKept(s, step, next);
    if next.written.Written? && next.partitions != s.partitions {
      ChangesOfExtension(s.partitions, next.partitions[|s.partitions|..], next.written.cached);
    }
  }

  lemma WritesPaidForKeptByReconcile(s: State, step: Step, next: State)
    requires Link(s, step, next) && Indexed(s) && !AddsVersion(step) && !Delivers(step)
    requires OneLife(s) && Holds(s) && ConditionStored(s) && WritesPaidFor(s)
    ensures Indexed(next) && ConditionStored(next) && WritesPaidFor(next)
  {
    hide NewJob, Reported, Condition, VerdictOf, HasTrue, Finished, CompletedMigration, Partitions, Owned, OneLife;
    ConditionStoredKept(s, step, next);
    if step.WriteStatus? {
      WritePaidFor(s, step);
    }
    if next.written.Written? && next.partitions != s.partitions {
      ChangesOfExtension(s.partitions, next.partitions[|s.partitions|..], next.written.cached);
    }
  }

  lemma WritesPaidForKept(s: State, step: Step, next: State)
    requires Link(s, step, next) && Indexed(s)
    requires OneLife(s) && Holds(s) && ConditionStored(s) && WritesPaidFor(s)
    ensures Indexed(next) && ConditionStored(next) && WritesPaidFor(next)
  {
    hide Link;
    if AddsVersion(step) || Delivers(step) {
      WritesPaidForKeptByOthers(s, step, next);
    } else {
      WritesPaidForKeptByReconcile(s, step, next);
    }
  }

  lemma {:induction false} WritesPaidForAlways(states: seq<State>, steps: seq<Step>, n: nat)
    requires Run(states, steps) && n <= |steps|
    ensures Indexed(states[n]) && ConditionStored(states[n]) && WritesPaidFor(states[n])
  {
    hide Link;
    if n > 0 {
      WritesPaidForAlways(states, steps, n - 1);
      HoldsAlways(states, steps, n - 1);
      assert Link(states[n - 1], steps[n - 1], states[n]);
      WritesPaidForKept(states[n - 1], steps[n - 1], states[n]);
    }
  }

  predicate WritesBounded(now: State)
    requires Indexed(now)
  {
    now.statusWrites <= 1 + now.edits + ConditionChanges(now.partitions, |now.partitions| - 1)
  }

  lemma PaidForIsBounded(now: State)
    requires Indexed(now) && OneLife(now) && ConditionStored(now) && WritesPaidFor(now)
    ensures WritesBounded(now)
  {
    if now.written.Written? {
      ChangesGrow(now.partitions, now.written.cached, |now.partitions| - 1);
    }
  }

  /** No self-triggered loop: in every run, whatever is deleted, created or lost on the way, there are at
      most one status write plus one for each spec edit and each change of the partition Job. */
  lemma StatusWritesBounded(states: seq<State>, steps: seq<Step>, n: nat)
    requires Run(states, steps) && n <= |steps|
    ensures Indexed(states[n]) && WritesBounded(states[n])
  {
    hide Link;
    WritesPaidForAlways(states, steps, n);
    HoldsAlways(states, steps, n);
    PaidForIsBounded(states[n]);
  }

  lemma StatusWriteIsExact(s: State, step: Step, next: State)
    requires Link(s, step, next) && Indexed(s) && step.WriteStatus? && Holds(s)
    ensures Indexed(next) && StatusWritten(Last(s.lookouts), Last(next.lookouts))
  {
  }

  predicate StatusWritten(before: Option<Lookout>, after: Option<Lookout>) {
    && before.Some? && after.Some? && after.value.condition.Some?
    && after.value == before.value.(condition := after.value.condition)
    && after.value.condition.value.observedGeneration == before.value.generation
    && after.value.condition != before.value.condition
  }

  /** A status write replaces the condition and nothing else of the stored Lookout, and the new
      condition names the generation stored at that moment. */
  lemma StatusWriteObservesGeneration(states: seq<State>, steps: seq<Step>, n: nat)
    requires Run(states, steps) && n < |steps| && steps[n].WriteStatus?
    ensures Indexed(states[n]) && Indexed(states[n + 1])
    ensures StatusWritten(Last(states[n].lookouts), Last(states[n + 1].lookouts))
  {
    hide Link;
    HoldsAlways(states, steps, n);
    assert Link(states[n], steps[n], states[n + 1]);
    StatusWriteIsExact(states[n], steps[n], states[n + 1]);
  }
}
