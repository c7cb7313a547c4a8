/** What the controller of an Executor can always do: install all its cluster-scoped objects, and clean them up. */
module ExecutorProgress {
  import opened Api
  import opened ClusterRoles
  import opened ExecutorProtocol
  import opened Finalizers

  /** A delivery, or a step of a reconcile that sees no error. */
  predicate Unhindered(step: Step) {
    step == Delivered || step == Start || step == AttachFinalizer(true) || step == Upsert(true) || step == FinishInstall
    || step == Delete(true) || step == DetachFinalizer(true)
  }

  ghost predicate Leads(s: State, steps: seq<Step>, t: State)
    decreases |steps|
  {
    if steps == [] then s == t
    else
      && Indexed(s) && Enabled(s, steps[0]) && Unhindered(steps[0]) && Indexed(Apply(s, steps[0]))
      && Leads(Apply(s, steps[0]), steps[1..], t)
  }

  lemma First(s: State, step: Step, rest: seq<Step>, t: State)
    requires Indexed(s) && Enabled(s, step) && Unhindered(step) && Indexed(Apply(s, step)) && Leads(Apply(s, step), rest, t)
    ensures Leads(s, [step] + rest, t)
  {
    hide Enabled, Apply, Indexed, Unhindered;
    assert ([step] + rest)[1..] == rest;
  }

  lemma Nothing(s: State)
    ensures Leads(s, [], s)
  {
  }

  lemma {:induction false} Join(s: State, a: seq<Step>, t: State, b: seq<Step>, u: State)
    requires Leads(s, a, t) && Leads(t, b, u)
    ensures Leads(s, a + b, u)
    decreases |a|
  {
    hide Enabled, Apply, Indexed, Unhindered;
    if a == [] {
      assert a + b == b;
    } else {
      Join(Apply(s, a[0]), a[1..], t, b, u);
      assert (a + b)[1..] == a[1..] + b;
    }
  }

  lemma {:induction false} Deliver(s: State) returns (steps: seq<Step>)
    requires Indexed(s)
    ensures Leads(s, steps, s.(cache := |s.stored| - 1))
    decreases |s.stored| - s.cache
  {
    Nothing(s);
    steps := [];
    if s.cache + 1 < |s.stored| {
      var rest := Deliver(Apply(s, Delivered));
      First(s, Delivered, rest, s.(cache := |s.stored| - 1));
      steps := [Delivered] + rest;
    }
  }

  lemma KeysSplit(keys: seq<Key>)
    requires keys != []
    ensures KeySet(keys) == {keys[0]} + KeySet(keys[1..])
  {
    assert keys == [keys[0]] + keys[1..];
  }

  /** Every key that is left is upserted. */
  lemma {:induction false} UpsertsAll(s: State) returns (steps: seq<Step>)
    requires Indexed(s) && s.phase.Upserting?
    ensures Leads(s, steps, s.(phase := Idle, external := s.external + KeySet(s.phase.todo)))
    decreases |s.phase.todo|
  {
    var todo, t := s.phase.todo, s.(phase := Idle, external := s.external + KeySet(s.phase.todo));
    if todo == [] {
      Nothing(Apply(s, FinishInstall));
      First(s, FinishInstall, [], t);
      steps := [FinishInstall] + [];
    } else {
      KeysSplit(todo);
      var rest := UpsertsAll(Apply(s, Upsert(true)));
      assert s.external + {todo[0]} + KeySet(todo[1..]) == t.external;
      First(s, Upsert(true), rest, t);
      steps := [Upsert(true)] + rest;
    }
  }

  /** Every key that is left is deleted, and then the finalizer goes. */
  lemma {:induction false} DeletesAll(s: State) returns (steps: seq<Step>)
    requires Indexed(s) && s.phase.Cleaning? && s.phase.version == |s.stored| - 1
    ensures Leads(s, steps, s.(phase := Idle, external := s.external - KeySet(s.phase.todo),
                               stored := s.stored + [Settle(s.phase.seen.(finalizer := false))]))
    decreases |s.phase.todo|
  {
    var todo := s.phase.todo;
    var t := s.(phase := Idle, external := s.external - KeySet(todo), stored := s.stored + [Settle(s.phase.seen.(finalizer := false))]);
    if todo == [] {
      Nothing(Apply(s, DetachFinalizer(true)));
      First(s, DetachFinalizer(true), [], t);
      steps := [DetachFinalizer(true)] + [];
    } else {
      KeysSplit(todo);
      var rest := DeletesAll(Apply(s, Delete(true)));
      assert s.external - {todo[0]} - KeySet(todo[1..]) == t.external;
      First(s, Delete(true), rest, t);
      steps := [Delete(true)] + rest;
    }
  }

  /** What a reconcile in which nothing goes wrong makes of what is stored. */
  ghost function Reconciled(s: State): State
    requires Indexed(s) && s.cache == |s.stored| - 1
  {
    match Last(s.stored)
    case None => s
    case Some(seen) =>
      match ActionFor(seen.deleting, seen.finalizer)
      case Attach => s.(stored := s.stored + [Some(seen.(finalizer := true))], external := s.external + KeySet(Keys(s, seen)))
      case Proceed => s.(external := s.external + KeySet(Keys(s, seen)))
      case CleanUp => s.(stored := s.stored + [Settle(seen.(finalizer := false))], external := s.external - KeySet(Keys(s, seen)))
      case Stop => s
  }

  lemma Reconciles(s: State) returns (steps: seq<Step>)
    requires Indexed(s) && s.phase == Idle && s.cache == |s.stored| - 1
    ensures Leads(s, steps, Reconciled(s))
  {
    hide Leads;
    var t, begun := Reconciled(s), Apply(s, Start);
    var rest: seq<Step>;
    match begun.phase {
      case Idle =>
        Nothing(s);
        rest := [];
      case Attaching(_, _) =>
        var next := Apply(begun, AttachFinalizer(true));
        rest := UpsertsAll(next);
        First(begun, AttachFinalizer(true), rest, t);
        rest := [AttachFinalizer(true)] + rest;
      case Upserting(_, _) =>
        rest := UpsertsAll(begun);
      case Cleaning(_, _, _) =>
        rest := DeletesAll(begun);
    }
    First(s, Start, rest, t);
    steps := [Start] + rest;
  }

  lemma {:induction false} LeadsIsRun(s: State, steps: seq<Step>, t: State) returns (states: seq<State>)
    requires Leads(s, steps, t) && Indexed(s)
    ensures Follows(states, steps) && states[0] == s && Last(states) == t
    ensures forall step :: step in steps ==> Unhindered(step)
    decreases |steps|
  {
    hide Enabled, Apply, Indexed, Unhindered;
    if steps == [] {
      return [s];
    }
    var next := Apply(s, steps[0]);
    var rest := LeadsIsRun(next, steps[1..], t);
    states := [s] + rest;
    forall i | 0 <= i < |steps|
      ensures Link(states[i], steps[i], states[i + 1])
    {
      if i > 0 {
        assert Link(rest[i - 1], steps[1..][i - 1], rest[i - 1 + 1]);
      }
    }
    assert forall step :: step in steps ==> step == steps[0] || step in steps[1..];
  }

  function GivenUp(s: State): State {
    s.(phase := Idle)
  }

  lemma FailEnds(states: seq<State>, steps: seq<Step>)
    requires Run(states, steps) && Last(states).phase != Idle && Indexed(Last(states))
    ensures Run(states + [GivenUp(Last(states))], steps + [Fail])
  {
    var longer, more := states + [GivenUp(Last(states))], steps + [Fail];
    forall i | 0 <= i < |more|
      ensures Link(longer[i], more[i], longer[i + 1])
    {
      if i < |steps| {
        assert Link(states[i], steps[i], states[i + 1]);
      }
    }
  }

  lemma Concatenate(first: seq<State>, firstSteps: seq<Step>, second: seq<State>, secondSteps: seq<Step>)
    requires Follows(first, firstSteps) && Follows(second, secondSteps) && Last(first) == second[0]
    ensures Follows(first + second[1..], firstSteps + secondSteps)
    ensures Last(first + second[1..]) == Last(second)
  {
    hide Link;
    var states, steps := first + second[1..], firstSteps + secondSteps;
    forall i | 0 <= i < |steps|
      ensures Link(states[i], steps[i], states[i + 1])
    {
      if i < |firstSteps| {
        assert Link(first[i], firstSteps[i], first[i + 1]);
      } else {
        assert Link(second[i - |firstSteps|], secondSteps[i - |firstSteps|], second[i - |firstSteps| + 1]);
      }
    }
  }

  /** Whatever has happened and whatever a running reconcile is at, there are deliveries and steps of the operator alone,
      none of them an error but for the end of what is running, after which the controller is idle. Then an Executor that
      is not being deleted has its finalizer and all its cluster-scoped objects; and one that is and carried the finalizer
      has lost it and all of them, and is gone unless someone else's finalizer holds it. */
  lemma ProgressFromAnywhere(states: seq<State>, steps: seq<Step>) returns (longer: seq<State>, more: seq<Step>)
    requires Run(states, steps) && Indexed(Last(states)) && Last(Last(states).stored).Some?
    ensures var given := if Last(states).phase == Idle then steps else steps + [Fail];
            && Run(longer, given + more) && states <= longer
            && (forall step :: step in more ==> Unhindered(step))
    ensures var s, t := Last(states), Last(longer);
            var was, keys := Last(s.stored).value, KeySet(Keys(s, Last(s.stored).value));
            && Indexed(t) && t.phase == Idle && t.keys == s.keys
            && (if was.deleting && was.finalizer then
                  t.external == s.external - keys && Last(t.stored) == if was.others then Some(was.(finalizer := false)) else None
                else if was.deleting then t.external == s.external && t.stored == s.stored
                else t.external == s.external + keys && Last(t.stored) == Some(was.(finalizer := true)))
  {
    hide Link, Enabled, Apply, Unhindered, Leads;
    var s, given := Last(states), steps;
    var from, before := s, states;
    if s.phase != Idle {
      from, given, before := GivenUp(s), steps + [Fail], states + [GivenUp(s)];
      FailEnds(states, steps);
    }
    var first := Deliver(from);
    var middle := from.(cache := |from.stored| - 1);
    var second := Reconciles(middle);
    var t := Reconciled(middle);
    Join(from, first, middle, second, t);
    more := first + second;
    var rest := LeadsIsRun(from, more, t);
    Concatenate(before, given, rest, more);
    longer := before + rest[1..];
  }

  // ---- What the others may do ----

  /** What one write of the user may make of an Executor. */
  predicate UserMayWrite(before: Option<Executor>, after: Option<Executor>) {
    match before
    case None => after.Some? && !after.value.deleting
    case Some(e) =>
      match after
      case None => !e.finalizer && (e.deleting || !e.others)
      case Some(f) =>
        && f.finalizer == e.finalizer
        && (f.deleting == e.deleting || (f.deleting && f.spec == e.spec && f.others == e.others))
        && (f.deleting ==> f.finalizer || f.others)
  }

  predicate OfUser(step: Step) {
    step.UserCreates? || step.UserEdits? || step.UserDeletes?
  }

  /** The protocol leaves the user as free as that, and anyone may delete a cluster-scoped object at any time. */
  lemma OthersAreFree(s: State, after: Option<Executor>, key: Key)
    requires Indexed(s)
    ensures UserMayWrite(Last(s.stored), after) <==>
            exists step :: OfUser(step) && Enabled(s, step) && Apply(s, step).stored == s.stored + [after]
    ensures Enabled(s, SomeoneDeletes(key)) && Apply(s, SomeoneDeletes(key)).external == s.external - {key}
  {
    if UserMayWrite(Last(s.stored), after) {
      var step := match Last(s.stored)
                  case None => UserCreates(after.value)
                  case Some(e) =>
                    if after.None? then (if e.deleting then UserEdits(e.spec, false) else UserDeletes)
                    else if after.value.deleting != e.deleting then UserDeletes
                    else UserEdits(after.value.spec, after.value.others);
      assert Enabled(s, step) && Apply(s, step).stored == s.stored + [after];
    }
    if step :| OfUser(step) && Enabled(s, step) && Apply(s, step).stored == s.stored + [after] {
      assert Last(s.stored + [after]) == after;
    }
  }
}
