/** What the Lookout controller can always do: go on, and come to rest with everything installed. */
module LookoutProgress {
  import opened Api
  import opened Finalizers
  import opened Jobs
  import opened LookoutProtocol
  import opened LookoutInvariants
  import opened LookoutQuiescence

  // ---- No dead end ----

  predicate OfReconcile(step: Step) {
    !AddsVersion(step) && !Delivers(step)
  }

  /** A reconcile that waits for a migration Job which is not there or has not ended. */
  predicate StillWaits(s: State)
    requires Indexed(s)
  {
    s.phase.Waiting? && !(s.migrations[s.migrationCache].Some? && Finished(s.migrations[s.migrationCache].value.conditions))
  }

  /** A reconcile that works on what is stored can always go on without an error, unless the Job it waits for keeps it. */
  lemma NoDeadEnd(s: State) returns (step: Step)
    requires Indexed(s) && Holds(s) && CaughtUp(s) && !StillWaits(s)
    requires s.phase != Idle && s.phase.version == |s.lookouts| - 1
    ensures OfReconcile(step) && step != Fail && Enabled(s, step)
  {
    hide Condition, HasTrue, Finished, NewJob, Begin, ActionFor, Live, Seen, CompletedMigration, Partitions;
    var migration, partition := Last(s.migrations), Last(s.partitions);
    match s.phase
    case Attaching(_, _) => step := AttachFinalizer(true);
    case Detaching(_, _) => step := DetachFinalizer(true);
    case Preparing(_, _) => step := if migration.Some? then FindMigration else CreateMigration(true);
    case Waiting(_, _) => step := MigrationFinished;
    case Installing(_, _, _, _) =>
      step := if !WantsPartition(s.phase) then FinishWithoutPartition else if partition.Some? then FindPartition else CreatePartition(true);
    case Reporting(_, seen, _, _, _) => step := if seen.condition == Reported(s) then ConditionUnchanged else WriteStatus(true);
  }

  /** A state is quiescent exactly if nothing but what others do can happen in it. */
  lemma QuiescentIff(s: State)
    requires Indexed(s)
    ensures Quiescent(s) <==> forall step :: !AddsVersion(step) ==> !Enabled(s, step)
  {
    if forall step :: !AddsVersion(step) ==> !Enabled(s, step) {
      assert !Enabled(s, Fail) && !Enabled(s, Start);
      assert !Enabled(s, LookoutDelivered) && !Enabled(s, MigrationDelivered) && !Enabled(s, PartitionDelivered);
    }
  }

  // ---- Runs in which nothing goes wrong ----

  /** A delivery, or a step of a reconcile that sees no error. */
  predicate Unhindered(step: Step) {
    && !AddsVersion(step) && step != Fail
    && step != AttachFinalizer(false) && step != DetachFinalizer(false) && step != CreateMigration(false)
    && step != CreatePartition(false) && step != WriteStatus(false)
  }

  ghost predicate Leads(s: State, steps: seq<Step>, t: State)
    decreases |steps|
  {
    if steps == [] then s == t
    else
      && Indexed(s) && Enabled(s, steps[0]) && Unhindered(steps[0]) && Indexed(Apply(s, steps[0]))
      && Leads(Apply(s, steps[0]), steps[1..], t)
  }

  lemma {:induction false} LeadsJoin(s: State, a: seq<Step>, t: State, b: seq<Step>, u: State)
    requires Leads(s, a, t) && Leads(t, b, u)
    ensures Leads(s, a + b, u)
    decreases |a|
  {
    hide Enabled, Apply, Indexed, Unhindered;
    if a == [] {
      assert a + b == b;
    } else {
      LeadsJoin(Apply(s, a[0]), a[1..], t, b, u);
      assert (a + b)[1..] == a[1..] + b;
    }
  }

  lemma LeadsMore(s: State, steps: seq<Step>, t: State, step: Step)
    requires Leads(s, steps, t) && Indexed(t) && Enabled(t, step) && Unhindered(step) && Indexed(Apply(t, step))
    ensures Leads(s, steps + [step], Apply(t, step))
  {
    hide Enabled, Apply, Indexed, Unhindered;
    assert Leads(Apply(t, step), [], Apply(t, step));
    assert [step][1..] == [];
    LeadsJoin(s, steps, t, [step], Apply(t, step));
  }

  lemma Alone(s: State, step: Step)
    requires Indexed(s) && Enabled(s, step) && Unhindered(step) && Indexed(Apply(s, step))
    ensures Leads(s, [step], Apply(s, step))
  {
    hide Enabled, Apply, Indexed, Unhindered;
    assert Leads(Apply(s, step), [step][1..], Apply(s, step));
  }

  /** Everything stored is delivered, which changes nothing else and takes no request out of the queue. */
  lemma {:induction false} Deliver(s: State) returns (steps: seq<Step>, t: State)
    requires Indexed(s)
    ensures Leads(s, steps, t) && Indexed(t) && CaughtUp(t) && (s.queued ==> t.queued)
    ensures t == s.(lookoutCache := t.lookoutCache, migrationCache := t.migrationCache, partitionCache := t.partitionCache,
                    queued := t.queued)
    decreases |s.lookouts| - s.lookoutCache + |s.migrations| - s.migrationCache + |s.partitions| - s.partitionCache
  {
    if CaughtUp(s) {
      return [], s;
    }
    var step := if s.lookoutCache + 1 < |s.lookouts| then LookoutDelivered
                else if s.migrationCache + 1 < |s.migrations| then MigrationDelivered else PartitionDelivered;
    var rest;
    rest, t := Deliver(Apply(s, step));
    steps := [step] + rest;
    assert steps[1..] == rest;
  }

  // ---- One reconcile ----

  /** An idle controller with a request in its queue that has seen everything. */
  predicate Ready(s: State) {
    Indexed(s) && s.phase == Idle && s.queued && CaughtUp(s)
  }

  /** A stored Lookout that is not being deleted, whose migration Job has ended. */
  predicate Migrated(s: State)
    requires Indexed(s)
  {
    && Last(s.lookouts).Some? && !Last(s.lookouts).value.deleting
    && Last(s.migrations).Some? && Finished(Last(s.migrations).value.conditions)
  }

  /** There is nothing left to do for the Lookout that is stored: none is; or it has the finalizer, and if it asks for
      partitioning and its migration Job is Complete, it shows its partition Job. */
  predicate Installed(s: State)
    requires Indexed(s)
  {
    Last(s.lookouts).Some? ==>
      && Last(s.lookouts).value.finalizer && Migrated(s)
      && (Asks(Last(s.lookouts)) && CompletedMigration(s, |s.migrations| - 1) ==> Shows(Last(s.lookouts), Last(s.partitions)))
  }

  /** The same Lookout with the operator's finalizer. */
  function WithFinalizer(lookouts: seq<Option<Lookout>>): seq<Option<Lookout>>
    requires lookouts != []
  {
    match Last(lookouts)
    case Some(l) => if l.finalizer then lookouts else lookouts + [Some(l.(finalizer := true))]
    case None => lookouts
  }

  /** Up to where the Lookout's components are installed. */
  function AfterMigration(s: State): State
    requires Indexed(s) && Migrated(s)
  {
    var lookouts := WithFinalizer(s.lookouts);
    s.(queued := false, lookouts := lookouts,
       phase := Installing(|lookouts| - 1, Last(lookouts).value, s.migrationCache, CompletedMigration(s, s.migrationCache)))
  }

  function Prepared(s: State): State
    requires Indexed(s) && Migrated(s)
  {
    var lookouts := WithFinalizer(s.lookouts);
    s.(queued := false, lookouts := lookouts, phase := Preparing(|lookouts| - 1, Last(lookouts).value))
  }

  lemma Prepares(s: State) returns (steps: seq<Step>)
    requires Ready(s) && Migrated(s)
    ensures Leads(s, steps, Prepared(s))
  {
    hide Leads, Condition, Finished, HasTrue, NewJob;
    Alone(s, Start);
    steps := [Start];
    var t := Apply(s, Start);
    if t.phase.Attaching? {
      LeadsMore(s, steps, t, AttachFinalizer(true));
      steps := steps + [AttachFinalizer(true)];
    }
  }

  lemma Migrates(s: State) returns (steps: seq<Step>)
    requires Ready(s) && Migrated(s)
    ensures Leads(s, steps, AfterMigration(s))
  {
    hide Leads, Condition, Finished, HasTrue, NewJob, Begin;
    steps := Prepares(s);
    var t := Prepared(s);
    LeadsMore(s, steps, t, FindMigration);
    steps, t := steps + [FindMigration], Apply(t, FindMigration);
    LeadsMore(s, steps, t, MigrationFinished);
    steps := steps + [MigrationFinished];
  }

  /** A reconcile that has come to the partition Job, with what is stored in its hands and in the caches of the Jobs. */
  predicate AtPartition(s: State) {
    && Indexed(s) && s.migrationCache + 1 == |s.migrations| && s.partitionCache + 1 == |s.partitions|
    && s.phase.Installing? && s.phase.version == |s.lookouts| - 1 && Last(s.lookouts) == Some(s.phase.seen)
    && (s.phase.complete <==> CompletedMigration(s, |s.migrations| - 1))
  }

  /** From there to the report: the partition Job is found or created, or not wanted. */
  lemma ReadsPartition(s: State) returns (steps: seq<Step>, t: State)
    requires AtPartition(s) && WantsPartition(s.phase)
    ensures Leads(s, steps, t) && Indexed(t) && t == s.(phase := t.phase, partitions := t.partitions, creations := t.creations)
    ensures t.phase.Reporting? && t.phase.version == |t.lookouts| - 1 && t.phase.seen == s.phase.seen
    ensures Last(t.partitions).Some? && t.phase.partition == |t.partitions| - 1
    ensures Last(s.partitions).Some? ==> t.partitions == s.partitions && t.creations == s.creations
  {
    hide Condition, HasTrue, Finished;
    var step := if Last(s.partitions).Some? then FindPartition else CreatePartition(true);
    steps, t := [step], Apply(s, step);
  }

  /** The report, which is a status write unless the Lookout shows the partition Job already. */
  lemma Reports(s: State) returns (steps: seq<Step>, t: State)
    requires Indexed(s) && s.phase.Reporting? && s.phase.version == |s.lookouts| - 1 && Last(s.lookouts) == Some(s.phase.seen)
    requires Last(s.partitions).Some? && s.phase.partition == |s.partitions| - 1
    ensures Leads(s, steps, t) && Indexed(t) && t.phase == Idle && t.queued == s.queued
    ensures t.partitions == s.partitions && Shows(Last(t.lookouts), Last(t.partitions))
    ensures Last(t.lookouts) == Some(s.phase.seen.(condition := Last(t.lookouts).value.condition))
    ensures t == s.(phase := Idle, lookouts := t.lookouts, statusWrites := t.statusWrites, written := t.written)
    ensures Shows(Last(s.lookouts), Last(s.partitions)) ==> t == s.(phase := Idle)
  {
    hide Condition, HasTrue, Finished;
    var step := if s.phase.seen.condition == Reported(s) then ConditionUnchanged else WriteStatus(true);
    steps, t := [step], Apply(s, step);
  }

  lemma Installs(s: State) returns (steps: seq<Step>, t: State)
    requires AtPartition(s) && Migrated(s) && s.phase.seen.finalizer
    ensures Leads(s, steps, t) && Indexed(t) && t.phase == Idle && t.queued == s.queued && Installed(t)
    ensures t.migrations == s.migrations && Last(t.lookouts).Some? && Last(t.lookouts).value.spec == s.phase.seen.spec
    ensures Installed(s) ==> t == s.(phase := Idle)
  {
    hide Condition, HasTrue, Finished, Leads;
    if WantsPartition(s.phase) {
      var first, middle := ReadsPartition(s);
      var second;
      second, t := Reports(middle);
      LeadsJoin(s, first, middle, second, t);
      steps := first + second;
    } else {
      t := Apply(s, FinishWithoutPartition);
      Alone(s, FinishWithoutPartition);
      steps := [FinishWithoutPartition];
    }
  }

  /** A stored Lookout that is being deleted and carries the finalizer. */
  predicate Leaving(s: State)
    requires Indexed(s)
  {
    Last(s.lookouts).Some? && Last(s.lookouts).value.deleting && Last(s.lookouts).value.finalizer
  }

  lemma Cleans(s: State) returns (steps: seq<Step>, t: State)
    requires Ready(s) && Leaving(s)
    ensures Leads(s, steps, t) && t == s.(queued := false, lookouts := s.lookouts + [None])
  {
    hide Leads;
    Alone(s, Start);
    t := Apply(s, Start);
    LeadsMore(s, [Start], t, DetachFinalizer(true));
    steps, t := [Start, DetachFinalizer(true)], Apply(t, DetachFinalizer(true));
    assert [Start] + [DetachFinalizer(true)] == steps;
  }

  /** A whole reconcile of what is stored, in which nothing goes wrong. */
  lemma Reconciles(s: State) returns (steps: seq<Step>, t: State)
    requires Ready(s) && (Last(s.lookouts).None? || Leaving(s) || Migrated(s))
    ensures Leads(s, steps, t) && Indexed(t) && t.phase == Idle && !t.queued && Installed(t)
    ensures t.migrations == s.migrations && (Last(t.lookouts).Some? <==> Migrated(s))
    ensures Migrated(s) ==> Last(t.lookouts).value.spec == Last(s.lookouts).value.spec
    ensures Installed(s) ==> t == s.(queued := false)
  {
    hide Leads;
    if Migrated(s) {
      var first := Migrates(s);
      var middle := AfterMigration(s);
      var second;
      second, t := Installs(middle);
      LeadsJoin(s, first, middle, second, t);
      steps := first + second;
    } else if Leaving(s) {
      steps, t := Cleans(s);
    } else {
      Alone(s, Start);
      steps, t := [Start], Apply(s, Start);
    }
  }

  /** From any idle state with a request in the queue: deliveries and a reconcile, and if these ask for another one, that. */
  lemma ComesToRest(s: State) returns (steps: seq<Step>, t: State)
    requires Indexed(s) && s.phase == Idle && s.queued && (Last(s.lookouts).None? || Leaving(s) || Migrated(s))
    ensures Leads(s, steps, t) && Quiescent(t) && Installed(t)
    ensures t.migrations == s.migrations && (Last(t.lookouts).Some? <==> Migrated(s))
    ensures Migrated(s) ==> Last(t.lookouts).value.spec == Last(s.lookouts).value.spec
  {
    hide Leads, Migrated, Installed, Leaving, Apply, Enabled, Condition;
    var first, second, third, a, b, c;
    first, a := Deliver(s);
    SameToDo(s, a);
    second, b := Reconciles(a);
    third, c := Deliver(b);
    SameToDo(b, c);
    LeadsJoin(s, first, a, second, b);
    LeadsJoin(s, first + second, b, third, c);
    steps, t := first + second + third, c;
    if c.queued {
      InstalledIsMigrated(c);
      var fourth;
      fourth, t := Reconciles(c);
      SameToDo(c, t);
      LeadsJoin(s, steps, c, fourth, t);
      steps := steps + fourth;
    }
  }

  lemma InstalledIsMigrated(s: State)
    requires Indexed(s) && Installed(s)
    ensures Last(s.lookouts).None? || Migrated(s)
  {
  }

  lemma SameToDo(s: State, t: State)
    requires Indexed(s) && Indexed(t) && t.lookouts == s.lookouts && t.migrations == s.migrations && t.partitions == s.partitions
    ensures (Migrated(s) <==> Migrated(t)) && (Installed(s) <==> Installed(t)) && (Leaving(s) <==> Leaving(t))
  {
  }

  // ---- Every run ----

  lemma {:induction false} LeadsIsRun(s: State, steps: seq<Step>, t: State) returns (states: seq<State>)
    requires Leads(s, steps, t) && Indexed(s)
    ensures Follows(states, steps) && states[0] == s && Last(states) == t
    ensures forall step :: step in steps ==> Unhindered(step)
    decreases |steps|
  {
    hide Enabled, Apply, Indexed, Unhindered;
    if steps == [] {
      return [s];
    }
    var next := Apply(s, steps[0]);
    var rest := LeadsIsRun(next, steps[1..], t);
    states := [s] + rest;
    forall i | 0 <= i < |steps|
      ensures Link(states[i], steps[i], states[i + 1])
    {
      if i > 0 {
        assert Link(rest[i - 1], steps[1..][i - 1], rest[i - 1 + 1]);
      }
    }
    assert forall step :: step in steps ==> step == steps[0] || step in steps[1..];
  }

  /** The migration Job of a stored Lookout has ended, or the Lookout is being deleted or gone: nothing but the operator is
      needed for it to come to rest. */
  ghost predicate UpToTheOperator(s: State)
    requires Indexed(s)
  {
    Last(s.lookouts).None? || Leaving(s) || Migrated(s)
  }

  /** Whatever has happened, whatever a running reconcile is at: where a request is queued or a reconcile runs, and
      nothing but the operator is needed, there are steps of the caches and of the operator alone, none of them an error
      but for the end of what is running, after which the controller is at rest. Then a Lookout that was being deleted is
      gone, and one that was not has its finalizer, and if it asks for partitioning and its migration Job is Complete,
      its partition Job and the condition computed from that. */
  lemma ProgressFromAnywhere(states: seq<State>, steps: seq<Step>) returns (longer: seq<State>, more: seq<Step>)
    requires Run(states, steps) && (Last(states).queued || Last(states).phase != Idle)
    requires Indexed(Last(states)) && UpToTheOperator(Last(states))
    ensures var given := if Last(states).phase == Idle then steps else steps + [Fail];
            && Run(longer, given + more) && states <= longer
            && (forall step :: step in more ==> Unhindered(step))
    ensures var s, t := Last(states), Last(longer);
            && Indexed(t) && Quiescent(t) && Accurate(t) && t.migrations == s.migrations
            && (Last(t.lookouts).Some? <==> Migrated(s))
            && (Migrated(s) ==>
                  && Last(t.lookouts).value.spec == Last(s.lookouts).value.spec && Last(t.lookouts).value.finalizer
                  && (Asks(Last(s.lookouts)) && CompletedMigration(s, |s.migrations| - 1) ==> Shows(Last(t.lookouts), Last(t.partitions))))
  {
    hide Link, Enabled, Apply, Unhindered, Migrated, Leaving, Leads;
    var s, given := Last(states), steps;
    var from, before := s, states;
    if s.phase != Idle {
      from, given, before := GivenUp(s), steps + [Fail], states + [GivenUp(s)];
      FailEnds(states, steps);
    }
    SameToDo(s, from);
    var t, rest;
    more, t := ComesToRest(from);
    rest := LeadsIsRun(from, more, t);
    Concatenate(before, given, rest, more);
    longer := before + rest[1..];
    InstalledIsAccurate(t);
  }

  function GivenUp(s: State): State {
    s.(phase := Idle, queued := true)
  }

  lemma FailEnds(states: seq<State>, steps: seq<Step>)
    requires Run(states, steps) && Last(states).phase != Idle && Indexed(Last(states))
    ensures Run(states + [GivenUp(Last(states))], steps + [Fail])
  {
    var longer, more := states + [GivenUp(Last(states))], steps + [Fail];
    forall i | 0 <= i < |more|
      ensures Link(longer[i], more[i], longer[i + 1])
    {
      if i < |steps| {
        assert Link(states[i], steps[i], states[i + 1]);
      }
    }
  }

  lemma InstalledIsAccurate(s: State)
    requires Indexed(s) && Installed(s)
    ensures Accurate(s)
    ensures Last(s.lookouts).Some? ==>
              && !Last(s.lookouts).value.deleting && Last(s.lookouts).value.finalizer
              && (Asks(Last(s.lookouts)) && CompletedMigration(s, |s.migrations| - 1) ==> Shows(Last(s.lookouts), Last(s.partitions)))
  {
  }

  // ---- What the others may do ----

  /** What one write of the user may make of a Lookout: it is created once; its spec is edited, which counts its generation;
      it is written without a change; or its deletion is asked for, which removes it if no finalizer holds it. */
  predicate UserMayWrite(versions: nat, before: Option<Lookout>, after: Option<Lookout>) {
    match before
    case None =>
      && versions == 1 && after.Some?
      && after.value.generation == 1 && !after.value.deleting && after.value.condition == None
    case Some(l) =>
      match after
      case None => !l.deleting && !l.finalizer
      case Some(m) =>
        && m.finalizer == l.finalizer && m.condition == l.condition
        && if m.deleting != l.deleting then m.deleting && m.finalizer && m.spec == l.spec && m.generation == l.generation
           else m.generation == if m.spec == l.spec then l.generation else l.generation + 1
  }

  predicate OfUser(step: Step) {
    step.UserCreates? || step.UserEdits? || step.UserTouches? || step.UserDeletes?
  }

  /** The protocol leaves the user as free as that, in every state that can be reached. */
  lemma UsersAreFree(s: State, after: Option<Lookout>)
    requires Indexed(s) && CreatedOnce(s)
    ensures UserMayWrite(|s.lookouts|, Last(s.lookouts), after) <==>
            exists step :: OfUser(step) && Enabled(s, step) && Apply(s, step).lookouts == s.lookouts + [after]
  {
    if UserMayWrite(|s.lookouts|, Last(s.lookouts), after) {
      var step := match Last(s.lookouts)
                  case None => UserCreates(after.value.spec, after.value.finalizer)
                  case Some(l) =>
                    if after.None? || after.value.deleting != l.deleting then UserDeletes
                    else if after.value.spec == l.spec then UserTouches else UserEdits(after.value.spec);
      assert Enabled(s, step) && Apply(s, step).lookouts == s.lookouts + [after];
    }
    if step :| OfUser(step) && Enabled(s, step) && Apply(s, step).lookouts == s.lookouts + [after] {
      assert Last(s.lookouts + [after]) == after;
    }
  }

  /** It leaves everybody else as free with either Job: to create it, to delete it, or to change its conditions, except that
      a Job that has ended one way does not end another. */
  lemma JobsAreFree(s: State, job: Option<JobObj>)
    requires Indexed(s)
    ensures Enabled(s, PartitionChanges(job)) <==> OthersMayWrite(Last(s.partitions), job)
    ensures Enabled(s, MigrationChanges(job)) <==> OthersMayWrite(Last(s.migrations), job)
    ensures Enabled(s, PartitionChanges(job)) ==> Apply(s, PartitionChanges(job)).partitions == s.partitions + [job]
    ensures Enabled(s, MigrationChanges(job)) ==> Apply(s, MigrationChanges(job)).migrations == s.migrations + [job]
  {
    hide Begin, Condition, HasTrue, Partitions;
  }

  predicate OthersMayWrite(before: Option<JobObj>, after: Option<JobObj>) {
    match before
    case None => after.Some?
    case Some(job) =>
      after.Some? ==>
        && after.value != job && after.value == job.(conditions := after.value.conditions)
        && (VerdictOf(job.conditions) == Unfinished || VerdictOf(after.value.conditions) == VerdictOf(job.conditions))
  }
}
