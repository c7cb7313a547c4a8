/** What every step of the Lookout protocol keeps. */
module LookoutInvariants {
  import opened Api
  import opened Finalizers
  import opened Jobs
  import opened LookoutProtocol

  /** The Lookout has one life: it is created once, and nothing follows its removal. */
  ghost predicate CreatedOnce(s: State) {
    && s.lookouts != [] && s.lookouts[0].None?
    && (forall i :: 0 < i < |s.lookouts| - 1 ==> s.lookouts[i].Some?)
  }

  /** Generations only grow, one with each edit. */
  ghost predicate GenerationsGrow(s: State) {
    && (forall i :: 0 <= i < |s.lookouts| && s.lookouts[i].Some? ==> 1 <= s.lookouts[i].value.generation <= 1 + s.edits)
    && (forall i, j :: 0 <= i < j < |s.lookouts| && s.lookouts[i].Some? && s.lookouts[j].Some? ==>
          s.lookouts[i].value.generation <= s.lookouts[j].value.generation)
  }

  ghost predicate OneLife(s: State) {
    CreatedOnce(s) && GenerationsGrow(s)
  }

  lemma CreatedOnceKept(s: State, step: Step, next: State)
    requires Link(s, step, next) && Indexed(s) && CreatedOnce(s) && Holds(s)
    ensures CreatedOnce(next)
  {
  }

  /** A new version has the generation of the one before it, or after an edit the next. */
  lemma NextGeneration(s: State, step: Step, next: State)
    requires Link(s, step, next) && Indexed(s) && CreatedOnce(s) && Holds(s)
    ensures s.edits <= next.edits
    ensures next.lookouts != s.lookouts ==> next.lookouts == s.lookouts + [Last(next.lookouts)]
    ensures next.lookouts != s.lookouts && Last(next.lookouts).Some? ==>
              var generation := Last(next.lookouts).value.generation;
              if Last(s.lookouts).None? then |s.lookouts| == 1 && generation == 1
              else generation == Last(s.lookouts).value.generation + next.edits - s.edits
  {
    hide Begin, NewJob, Reported, Condition, VerdictOf, HasTrue, Finished, CompletedMigration, ReportSource, Partitions, Owned;
  }

  lemma GenerationsGrowKept(s: State, step: Step, next: State)
    requires Link(s, step, next) && Indexed(s) && OneLife(s) && Holds(s)
    ensures GenerationsGrow(next)
  {
    hide Link, Holds;
    NextGeneration(s, step, next);
  }

  lemma OneLifeKept(s: State, step: Step, next: State)
    requires Link(s, step, next) && Indexed(s) && OneLife(s) && Holds(s)
    ensures OneLife(next)
  {
    hide Link;
    CreatedOnceKept(s, step, next);
    GenerationsGrowKept(s, step, next);
  }

  predicate Seen(s: State, version: nat, seen: Lookout) {
    version < |s.lookouts| && s.lookouts[version] == Some(seen)
  }

  predicate Live(s: State, version: nat, seen: Lookout) {
    Seen(s, version, seen) && seen.finalizer && !seen.deleting
  }

  predicate CompletedMigration(s: State, version: nat) {
    && version < |s.migrations| && s.migrations[version].Some?
    && HasTrue(s.migrations[version].value.conditions, JobComplete)
  }

  /** A partition Job is reported either as read from the cache, or as just created while the cache did not have it. */
  predicate ReportSource(s: State, cached: nat, partition: nat) {
    && cached <= s.partitionCache < |s.partitions| && partition < |s.partitions| && s.partitions[partition].Some?
    && (cached == partition
        || (cached < partition && s.partitions[cached].None? && s.partitions[partition - 1].None?
            && s.partitions[partition].value.conditions == []))
  }

  /** What a reconcile holds is what was stored at the versions it remembers. */
  predicate Holds(s: State)
    requires Indexed(s)
  {
    match s.phase
    case Idle => true
    case Attaching(version, seen) => Seen(s, version, seen) && ActionFor(seen.deleting, seen.finalizer) == Attach
    case Detaching(version, seen) => Seen(s, version, seen) && ActionFor(seen.deleting, seen.finalizer) == CleanUp
    case Preparing(version, seen) => Live(s, version, seen)
    case Waiting(version, seen) => Live(s, version, seen)
    case Installing(version, seen, migration, complete) =>
      && Live(s, version, seen) && migration <= s.migrationCache && s.migrations[migration].Some?
      && (complete <==> CompletedMigration(s, migration))
    case Reporting(version, seen, migration, cached, partition) =>
      && Live(s, version, seen) && migration <= s.migrationCache && CompletedMigration(s, migration)
      && Partitions(seen.spec) && ReportSource(s, cached, partition)
  }

  lemma HoldsKeptByOthers(s: State, step: Step, next: State)
    requires Link(s, step, next) && Indexed(s) && Holds(s) && (AddsVersion(step) || Delivers(step))
    ensures Indexed(next) && Holds(next)
  {
    hide Reported, Condition, VerdictOf, HasTrue, Finished, Owned, Begin, Partitions, ActionFor, NewJob;
  }

  lemma HoldsKeptByReconcile(s: State, step: Step, next: State)
    requires Link(s, step, next) && Indexed(s) && Holds(s) && !AddsVersion(step) && !Delivers(step)
    ensures Indexed(next) && Holds(next)
  {
    hide Reported, Condition, VerdictOf, HasTrue, Finished, Owned;
  }

  lemma HoldsKept(s: State, step: Step, next: State)
    requires Link(s, step, next) && Indexed(s) && Holds(s)
    ensures Indexed(next) && Holds(next)
  {
    hide Link;
    if AddsVersion(step) || Delivers(step) {
      HoldsKeptByOthers(s, step, next);
    } else {
      HoldsKeptByReconcile(s, step, next);
    }
  }

  lemma HoldsInitially(s: State)
    requires Init(s)
    ensures Indexed(s) && OneLife(s) && Holds(s)
  {
  }

  /** The invariants hold in every state of every run. */
  lemma {:induction false} HoldsAlways(states: seq<State>, steps: seq<Step>, n: nat)
    requires Run(states, steps) && n <= |steps|
    ensures Indexed(states[n]) && OneLife(states[n]) && Holds(states[n])
  {
    hide Link;
    if n == 0 {
      HoldsInitially(states[0]);
    } else {
      HoldsAlways(states, steps, n - 1);
      assert Link(states[n - 1], steps[n - 1], states[n]);
      OneLifeKept(states[n - 1], steps[n - 1], states[n]);
      HoldsKept(states[n - 1], steps[n - 1], states[n]);
    }
  }
}
