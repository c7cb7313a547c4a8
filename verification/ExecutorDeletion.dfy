/** The deletion handling of one reconcile, as it runs, is a run of the finalizer protocol's own steps. */
module ExecutorDeletion {
  import opened Api
  import opened ClusterRoles
  import opened ExecutorProtocol
  import opened Finalizers
  import opened ObjectDeletion

  // ---- Objects as the protocol sees them ----

  ghost function Abstract(meta: Meta, finalizer: string, spec: ExecutorSpec): Executor {
    Executor(spec, finalizer in meta.finalizers, exists f :: f in meta.finalizers && f != finalizer, meta.deleting)
  }

  ghost function AbstractVersions(written: seq<Option<Meta>>, finalizer: string, spec: ExecutorSpec): seq<Option<Executor>> {
    seq(|written|, i requires 0 <= i < |written| =>
      if written[i].None? then None else Some(Abstract(written[i].value, finalizer, spec)))
  }

  /** Finalizers come and go, and the last one takes the object with it, for both in the same way. */
  lemma AbstractUpdates(held: Meta, finalizer: string, spec: ExecutorSpec)
    ensures var seen := Abstract(held, finalizer, spec);
            && AbstractVersions([], finalizer, spec) == []
            && (!held.deleting ==>
                  AbstractVersions([Remaining(Meta(false, held.finalizers + [finalizer]))], finalizer, spec) == [Some(seen.(finalizer := true))])
            && (held.deleting ==>
                  AbstractVersions([Remaining(Meta(true, Without(held.finalizers, finalizer)))], finalizer, spec) ==
                  [Settle(seen.(finalizer := false))])
  {
    var seen, added, left := Abstract(held, finalizer, spec), held.finalizers + [finalizer], Without(held.finalizers, finalizer);
    if f :| f in held.finalizers && f != finalizer {
      assert f in added && f in left;
    }
    if left != [] {
      assert left[0] in left && left[0] != finalizer;
    }
  }

  // ---- The protocol's steps, with nobody else about ----

  predicate Handling(phase: Phase) {
    phase.Attaching? || phase.Cleaning?
  }

  predicate OfHandling(step: Step) {
    step.AttachFinalizer? || step.Delete? || step.DetachFinalizer? || step.Fail?
  }

  /** The steps after which the caller has an error. */
  predicate Errs(step: Step) {
    step == Fail || step == AttachFinalizer(false) || step == Delete(false) || step == DetachFinalizer(false)
  }

  /** The operator's own steps, up to the end of the deletion handling or to its first error. */
  ghost predicate Handles(s: State, steps: seq<Step>, t: State, failed: bool)
    decreases |steps|
  {
    if !Handling(s.phase) then steps == [] && t == s && !failed
    else
      && steps != [] && Indexed(s) && Enabled(s, steps[0]) && OfHandling(steps[0])
      && if Errs(steps[0]) then failed && steps[1..] == [] && t == Apply(s, steps[0])
         else Handles(Apply(s, steps[0]), steps[1..], t, failed)
  }

  lemma HandlesMore(s: State, step: Step, rest: seq<Step>, t: State, failed: bool)
    requires Handling(s.phase) && Indexed(s) && Enabled(s, step) && OfHandling(step)
    requires if Errs(step) then failed && rest == [] && t == Apply(s, step) else Handles(Apply(s, step), rest, t, failed)
    ensures Handles(s, [step] + rest, t, failed)
  {
    assert ([step] + rest)[1..] == rest;
  }

  /** Where a clean-up can end. */
  ghost predicate CleanedUp(s: State, t: State, failed: bool)
    requires s.phase.Cleaning?
  {
    var seen, todo := s.phase.seen, s.phase.todo;
    || (failed && t == s.(phase := Idle, external := t.external) && exists n :: Cleared(todo, n, s.external, t.external))
    || (s.phase.version == |s.stored| - 1 && Cleared(todo, |todo|, s.external, t.external)
        && t == s.(phase := Idle, external := t.external, stored := s.stored + [Settle(seen.(finalizer := false))]))
  }

  /** After the next key has been deleted. */
  lemma ClearedNext(keys: seq<Key>, n: nat, before: set<Key>, after: set<Key>)
    requires keys != []
    ensures Cleared(keys[1..], n, before - {keys[0]}, after) <==> Cleared(keys, n + 1, before, after)
  {
    if n < |keys| {
      assert keys[..n + 1] == [keys[0]] + keys[1..][..n];
    }
  }

  lemma {:induction false} HandlesCleansUp(s: State, steps: seq<Step>, t: State, failed: bool)
    requires s.phase.Cleaning? && Handles(s, steps, t, failed)
    ensures CleanedUp(s, t, failed)
    decreases |steps|
  {
    var todo, step := s.phase.todo, steps[0];
    assert Cleared(todo, 0, s.external, s.external);
    if step.Delete? {
      var next := Apply(s, step);
      assert Cleared(todo[1..], 0, next.external, next.external);
      ClearedNext(todo, 0, s.external, next.external);
      if step.reported {
        HandlesCleansUp(next, steps[1..], t, failed);
        ClearedNext(todo, |todo| - 1, s.external, t.external);
        if n: nat :| Cleared(todo[1..], n, next.external, t.external) {
          ClearedNext(todo, n, s.external, t.external);
        }
      }
    }
  }

  lemma {:induction false} CleansUpHandles(s: State, n: nat, t: State, failed: bool) returns (steps: seq<Step>)
    requires Indexed(s) && s.phase.Cleaning? && Cleared(s.phase.todo, n, s.external, t.external)
    requires if t.stored == s.stored then failed && t == s.(phase := Idle, external := t.external)
             else
               && n == |s.phase.todo| && s.phase.version == |s.stored| - 1
               && t == s.(phase := Idle, external := t.external, stored := s.stored + [Settle(s.phase.seen.(finalizer := false))])
    ensures Handles(s, steps, t, failed)
    decreases n
  {
    var todo := s.phase.todo;
    if n > 0 {
      var next := Apply(s, Delete(true));
      ClearedNext(todo, n - 1, s.external, t.external);
      var rest := CleansUpHandles(next, n - 1, t, failed);
      HandlesMore(s, Delete(true), rest, t, failed);
      steps := [Delete(true)] + rest;
    } else {
      steps := [if t.stored == s.stored then Fail else DetachFinalizer(!failed)];
    }
  }

  /** Where the deletion handling of an object can end: at the end of the reconcile, or where the install starts. */
  ghost predicate Handled(s: State, t: State, finish: bool, failed: bool)
    requires Indexed(s)
  {
    match s.phase
    case Attaching(version, seen) =>
      var attached := seen.(finalizer := true);
      || (finish && failed && t == s.(phase := Idle))
      || (version == |s.stored| - 1 && finish == failed
          && t == s.(phase := if finish then Idle else Upserting(attached, Keys(s, attached)), stored := s.stored + [Some(attached)]))
    case Cleaning(_, _, _) => finish && CleanedUp(s, t, failed)
    case _ => t == s && !failed && (finish <==> t.phase == Idle)
  }

  lemma HandledByRun(s: State, t: State, finish: bool, failed: bool) returns (steps: seq<Step>)
    requires Indexed(s) && Handled(s, t, finish, failed)
    ensures (finish <==> t.phase == Idle) && Handles(s, steps, t, failed)
  {
    match s.phase
    case Attaching(_, _) =>
      var step := if t.stored == s.stored then Fail else AttachFinalizer(!failed);
      HandlesMore(s, step, [], t, failed);
      steps := [step];
    case Cleaning(_, _, todo) =>
      var n: nat :| Cleared(todo, n, s.external, t.external) && (t.stored != s.stored ==> n == |todo|);
      steps := CleansUpHandles(s, n, t, failed);
    case _ =>
      steps := [];
  }

  lemma RunHandles(s: State, steps: seq<Step>, t: State, finish: bool, failed: bool)
    requires Indexed(s) && Handles(s, steps, t, failed) && (finish <==> t.phase == Idle)
    ensures Handled(s, t, finish, failed)
  {
    match s.phase
    case Attaching(_, _) =>
      assert Errs(steps[0]) || Handles(Apply(s, steps[0]), steps[1..], t, failed);
    case Cleaning(_, _, _) =>
      HandlesCleansUp(s, steps, t, failed);
    case _ =>
  }

  /** Some run of the handling leads to `t`. */
  ghost predicate HandlesTo(s: State, t: State, failed: bool) {
    exists steps :: Handles(s, steps, t, failed)
  }

  lemma HandledIff(s: State, t: State, finish: bool, failed: bool)
    requires Indexed(s) && (finish <==> t.phase == Idle)
    ensures Handled(s, t, finish, failed) <==> HandlesTo(s, t, failed)
  {
    if Handled(s, t, finish, failed) {
      var steps := HandledByRun(s, t, finish, failed);
    }
    if HandlesTo(s, t, failed) {
      var steps :| Handles(s, steps, t, failed);
      RunHandles(s, steps, t, finish, failed);
    }
  }

  // ---- The calls and the steps ----

  /** The versions that the deletion handling may store, if the cluster-scoped objects are left as `after`. */
  ghost predicate Stores(held: Meta, finalizer: string, keys: seq<Key>, current: bool, versions: seq<Option<Executor>>,
                         spec: ExecutorSpec, before: set<Key>, after: set<Key>, finish: bool, failed: bool) {
    exists written ::
      && DeletionOutcome(held, finalizer, keys, current, written, before, after, finish, failed)
      && AbstractVersions(written, finalizer, spec) == versions
  }

  /** The state of the protocol when the handling is over: the reconcile too, or the install about to start. */
  ghost predicate Over(s: State, seen: Executor, t: State, finish: bool) {
    && s.stored <= t.stored
    && t == s.(stored := t.stored, external := t.external,
               phase := if finish then Idle else Upserting(seen.(finalizer := true), Keys(s, seen)))
  }

  lemma StoresIsHandled(s: State, held: Meta, finalizer: string, spec: ExecutorSpec, t: State, finish: bool, failed: bool)
    requires Indexed(s) && s.phase == Idle && s.stored[s.cache] == Some(Abstract(held, finalizer, spec))
    requires Over(s, Abstract(held, finalizer, spec), t, finish)
    ensures Stores(held, finalizer, s.keys(spec), s.cache == |s.stored| - 1, t.stored[|s.stored|..], spec, s.external, t.external, finish, failed)
            <==> Handled(Apply(s, Start), t, finish, failed)
  {
    AbstractUpdates(held, finalizer, spec);
  }

  /** What the deletion handling may do to an object from the cache, with a clean-up that deletes the keys generated
      for it, is exactly what the protocol's steps do in a reconcile of that object until the handling is over. */
  lemma DeletionHandlingIsARun(s: State, held: Meta, finalizer: string, spec: ExecutorSpec, t: State, finish: bool, failed: bool)
    requires Indexed(s) && s.phase == Idle && s.stored[s.cache] == Some(Abstract(held, finalizer, spec))
    requires Over(s, Abstract(held, finalizer, spec), t, finish)
    ensures Stores(held, finalizer, s.keys(spec), s.cache == |s.stored| - 1, t.stored[|s.stored|..], spec, s.external, t.external, finish, failed)
            <==> HandlesTo(Apply(s, Start), t, failed)
  {
    StoresIsHandled(s, held, finalizer, spec, t, finish, failed);
    HandledIff(Apply(s, Start), t, finish, failed);
  }

  // ---- The PrometheusRule, which the protocol leaves out ----

  lemma KeySetJoin(a: seq<Key>, b: seq<Key>)
    ensures KeySet(a + b) == KeySet(a) + KeySet(b)
  {
  }

  /** Deleting one more key on the way shows only under that key. */
  lemma ClearedAside(a: seq<Key>, key: Key, b: seq<Key>, n: nat, before: set<Key>, after: set<Key>)
    requires n <= |a + [key] + b| && key !in a + b
    ensures Cleared(a + [key] + b, n, before, after) ==>
              Cleared(a + b, if n <= |a| then n else n - 1, before - {key}, after - {key})
  {
    var with, m := a + [key] + b, if n <= |a| then n else n - 1;
    if n <= |a| {
      assert with[..n] == (a + b)[..m];
    } else {
      assert with[..n] == a + [key] + b[..m - |a|] && (a + b)[..m] == a + b[..m - |a|];
      KeySetJoin(a, [key]);
      KeySetJoin(a + [key], b[..m - |a|]);
      KeySetJoin(a, b[..m - |a|]);
    }
  }

  /** The other way round, and it does not matter whether the one more key was there. */
  lemma AsideCleared(a: seq<Key>, key: Key, b: seq<Key>, m: nat, before: set<Key>, left: set<Key>) returns (n: nat, after: set<Key>)
    requires Cleared(a + b, m, before - {key}, left) && key !in a + b
    ensures Cleared(a + [key] + b, n, before, after) && after - {key} == left && (m == |a + b| ==> n == m + 1)
  {
    var with := a + [key] + b;
    if m < |a| {
      n := m;
      assert with[..n] == (a + b)[..m];
    } else {
      n := m + 1;
      assert with[..n] == a + [key] + b[..m - |a|] && (a + b)[..m] == a + b[..m - |a|];
      KeySetJoin(a, [key]);
      KeySetJoin(a + [key], b[..m - |a|]);
      KeySetJoin(a, b[..m - |a|]);
    }
    after := before - KeySet(with[..n]);
  }

  /** What the handling of an Executor may do, whatever becomes of its PrometheusRule. */
  ghost predicate OutcomeButRule(held: Meta, finalizer: string, keys: seq<Key>, current: bool, written: seq<Option<Meta>>,
                                 before: set<Key>, left: set<Key>, finish: bool, failed: bool, rule: Key) {
    exists after :: after - {rule} == left && DeletionOutcome(held, finalizer, keys, current, written, before, after, finish, failed)
  }

  lemma OneKeyMore(held: Meta, finalizer: string, a: seq<Key>, rule: Key, b: seq<Key>, current: bool,
                   written: seq<Option<Meta>>, before: set<Key>, left: set<Key>, finish: bool, failed: bool)
    requires rule !in a + b
    ensures OutcomeButRule(held, finalizer, a + [rule] + b, current, written, before, left, finish, failed, rule) <==>
            DeletionOutcome(held, finalizer, a + b, current, written, before - {rule}, left, finish, failed)
  {
    var with := a + [rule] + b;
    if OutcomeButRule(held, finalizer, with, current, written, before, left, finish, failed, rule) {
      var after :| after - {rule} == left && DeletionOutcome(held, finalizer, with, current, written, before, after, finish, failed);
      ClearedAside(a, rule, b, |with|, before, after);
      if n: nat :| Cleared(with, n, before, after) {
        ClearedAside(a, rule, b, n, before, after);
      }
    }
    if DeletionOutcome(held, finalizer, a + b, current, written, before - {rule}, left, finish, failed) {
      var after := before;
      if ActionFor(held.deleting, finalizer in held.finalizers) == CleanUp {
        var m: nat :| Cleared(a + b, m, before - {rule}, left) && (Cleared(a + b, |a + b|, before - {rule}, left) ==> m == |a + b|);
        var n;
        n, after := AsideCleared(a, rule, b, m, before, left);
      }
      assert DeletionOutcome(held, finalizer, with, current, written, before, after, finish, failed);
    }
  }

  /** The Executor's clean-up also deletes its PrometheusRule. But for that object the handling does what it does with
      a clean-up of the cluster-scoped keys alone. */
  lemma RuleAside(held: Meta, finalizer: string, name: string, namespace: string, spec: ExecutorSpec, rule: Key, current: bool,
                  written: seq<Option<Meta>>, before: set<Key>, left: set<Key>, finish: bool, failed: bool)
    requires rule.kind == PrometheusRule
    ensures var external := External(Some(RoleKey(name)), Some(rule), BindingsOf(name, namespace, spec));
            OutcomeButRule(held, finalizer, CleanupKeys(external), current, written, before, left, finish, failed, rule) <==>
            DeletionOutcome(held, finalizer, ExternalKeys(name, spec), current, written, before - {rule}, left, finish, failed)
  {
    var keys := BindingKeys(BindingsOf(name, namespace, spec));
    CleanupCoversExternalKeys(name, namespace, spec, None);
    assert [RoleKey(name)] + [] + keys == [RoleKey(name)] + keys;
    OneKeyMore(held, finalizer, [RoleKey(name)], rule, keys, current, written, before, left, finish, failed);
  }
}
