/** No cluster-scoped object outlives its Executor. */
module ExecutorSafety {
  import opened Api
  import opened ClusterRoles
  import opened Finalizers
  import opened ExecutorProtocol

  predicate Within(some: seq<Key>, all: seq<Key>) {
    forall key :: key in some ==> key in all
  }

  predicate Listed(some: set<Key>, all: seq<Key>) {
    forall key :: key in some ==> key in all
  }

  /** Whenever a cluster-scoped object exists, its Executor is stored, carries the operator finalizer and lists it. */
  predicate NoLeak(s: State)
    requires Indexed(s)
  {
    s.external != {} ==>
      && Last(s.stored).Some? && Last(s.stored).value.finalizer
      && Listed(s.external, Keys(s, Last(s.stored).value))
  }

  /** The binding list never shrinks. */
  predicate Growing(s: State, step: Step)
    requires Indexed(s) && Enabled(s, step)
  {
    step.UserEdits? ==> Within(Keys(s, Last(s.stored).value), s.keys(step.spec))
  }

  ghost predicate AlwaysGrowing(states: seq<State>, steps: seq<Step>)
    requires Follows(states, steps)
  {
    forall i :: 0 <= i < |steps| && Link(states[i], steps[i], states[i + 1]) ==> Growing(states[i], steps[i])
  }

  predicate Keeps(s: State, earlier: Executor, later: Option<Executor>) {
    later.Some? && later.value.finalizer && Within(Keys(s, earlier), Keys(s, later.value))
  }

  /** The informer cache only moves forward, so a version still to be read that is not being deleted and
      carries the finalizer has been followed only by versions that keep the finalizer. */
  ghost predicate UnreadKept(s: State) {
    forall i, j :: s.cache <= i <= j < |s.stored| && s.stored[i].Some?
                   && s.stored[i].value.finalizer && !s.stored[i].value.deleting ==>
                     Keeps(s, s.stored[i].value, s.stored[j])
  }

  predicate Read(s: State, version: nat, seen: Executor) {
    version <= s.cache < |s.stored| && s.stored[version] == Some(seen)
  }

  /** What the running reconcile may still do is covered by the stored Executor. */
  predicate PhaseCovered(s: State)
    requires Indexed(s)
  {
    match s.phase
    case Idle => true
    case Attaching(version, seen) => Read(s, version, seen) && ActionFor(seen.deleting, seen.finalizer) == Attach
    case Upserting(seen, todo) =>
      && Last(s.stored).Some? && Last(s.stored).value.finalizer
      && Within(todo, Keys(s, Last(s.stored).value))
    case Cleaning(version, seen, todo) =>
      && Read(s, version, seen) && ActionFor(seen.deleting, seen.finalizer) == CleanUp
      && (version == |s.stored| - 1 ==> Listed(s.external, todo))
  }

  ghost predicate Inv(s: State)
    requires Indexed(s)
  {
    NoLeak(s) && UnreadKept(s) && PhaseCovered(s)
  }

  lemma UnreadKeptStep(s: State, step: Step)
    requires Indexed(s) && Enabled(s, step) && Inv(s) && Growing(s, step)
    ensures UnreadKept(Apply(s, step))
  {
    var next := Apply(s, step);
    if next.stored != s.stored {
      forall i | next.cache <= i < |s.stored| && s.stored[i].Some? && s.stored[i].value.finalizer && !s.stored[i].value.deleting
        ensures Keeps(next, s.stored[i].value, Last(next.stored))
      {
        assert Keeps(s, s.stored[i].value, Last(s.stored));
      }
    }
  }

  lemma NoLeakStep(s: State, step: Step)
    requires Indexed(s) && Enabled(s, step) && Inv(s) && Growing(s, step)
    ensures NoLeak(Apply(s, step))
  {
    if step.Upsert? {
      assert s.phase.todo[0] in s.phase.todo;
    }
  }

  lemma PhaseCoveredStep(s: State, step: Step)
    requires Indexed(s) && Enabled(s, step) && Inv(s) && Growing(s, step)
    ensures PhaseCovered(Apply(s, step))
  {
    if step.Start? && s.stored[s.cache].Some? {
      var seen := s.stored[s.cache].value;
      if ActionFor(seen.deleting, seen.finalizer) == Proceed {
        assert Keeps(s, seen, Last(s.stored));
      }
    }
    if step.Upsert? || step.Delete? {
      assert s.phase.todo == [s.phase.todo[0]] + s.phase.todo[1..];
    }
  }

  lemma {:induction false} InvAlways(states: seq<State>, steps: seq<Step>, n: nat)
    requires Run(states, steps) && AlwaysGrowing(states, steps) && n <= |steps|
    ensures Indexed(states[n]) && Inv(states[n])
  {
    if n > 0 {
      InvAlways(states, steps, n - 1);
      assert Link(states[n - 1], steps[n - 1], states[n - 1 + 1]);
      UnreadKeptStep(states[n - 1], steps[n - 1]);
      NoLeakStep(states[n - 1], steps[n - 1]);
      PhaseCoveredStep(states[n - 1], steps[n - 1]);
    }
  }

  /** In every state of every run whose binding list never shrinks, nothing leaks. */
  lemma NoLeakAlways(states: seq<State>, steps: seq<Step>, n: nat)
    requires Run(states, steps) && AlwaysGrowing(states, steps) && n <= |steps|
    ensures Indexed(states[n]) && NoLeak(states[n])
  {
    InvAlways(states, steps, n);
  }

  // ---- When the binding list grows ----

  /** The keys of one spec include those of another exactly when its suffixes do. */
  lemma KeysGrowWithSuffixes(name: string, smaller: ExecutorSpec, larger: ExecutorSpec)
    requires name != ""
    ensures Within(ExternalKeys(name, smaller), ExternalKeys(name, larger)) <==>
            forall suffix :: suffix in Suffixes(smaller) ==> suffix in Suffixes(larger)
  {
    hide ExternalKeys;
    var some, all := ExternalKeys(name, smaller), ExternalKeys(name, larger);
    if Within(some, all) {
      forall suffix | suffix in Suffixes(smaller)
        ensures suffix in Suffixes(larger)
      {
        BindingListed(name, smaller, suffix);
        BindingListed(name, larger, suffix);
      }
    }
    if forall suffix :: suffix in Suffixes(smaller) ==> suffix in Suffixes(larger) {
      forall key | key in some
        ensures key in all
      {
        var suffix := WhichKey(name, smaller, larger, key);
        if key !in all {
          BindingListed(name, larger, suffix.value);
        }
      }
    }
  }

  /** A key is that of an additional binding or one that every spec has. */
  lemma WhichKey(name: string, spec: ExecutorSpec, other: ExecutorSpec, key: Key) returns (suffix: Option<string>)
    requires name != "" && key in ExternalKeys(name, spec)
    ensures suffix.None? ==> key in ExternalKeys(name, other)
    ensures suffix.Some? ==> suffix.value in Suffixes(spec) && key == BindingKey(name + "-" + suffix.value)
  {
    var i :| 0 <= i < |ExternalKeys(name, spec)| && ExternalKeys(name, spec)[i] == key;
    if i < 2 {
      assert ExternalKeys(name, other)[i] == key;
      suffix := None;
    } else {
      suffix := Some(Suffixes(spec)[i - 2]);
    }
  }

  lemma BindingListed(name: string, spec: ExecutorSpec, suffix: string)
    requires name != ""
    ensures BindingKey(name + "-" + suffix) in ExternalKeys(name, spec) <==> suffix in Suffixes(spec)
  {
    var keys, suffixes, prefix := ExternalKeys(name, spec), Suffixes(spec), name + "-";
    assert |prefix + suffix| > |name|;
    assert (prefix + suffix)[|prefix|..] == suffix;
    if BindingKey(prefix + suffix) in keys {
      var i :| 0 <= i < |keys| && keys[i] == BindingKey(prefix + suffix);
      assert i >= 2 && keys[i] == BindingKey(prefix + suffixes[i - 2]);
      assert (prefix + suffixes[i - 2])[|prefix|..] == suffixes[i - 2];
    }
    if suffix in suffixes {
      var i :| 0 <= i < |suffixes| && suffixes[i] == suffix;
      assert keys[i + 2] == BindingKey(prefix + suffix);
    }
  }

  lemma {:induction false} ConstantKeysGrow(states: seq<State>, steps: seq<Step>, n: nat)
    requires Follows(states, steps) && n <= |steps| && forall a, b :: states[0].keys(a) == states[0].keys(b)
    ensures states[n].keys == states[0].keys
  {
    if n > 0 {
      ConstantKeysGrow(states, steps, n - 1);
      assert Link(states[n - 1], steps[n - 1], states[n]);
      KeysNeverChange(states[n - 1], steps[n - 1]);
    }
  }

  lemma KeysNeverChange(s: State, step: Step)
    requires Indexed(s) && Enabled(s, step)
    ensures Apply(s, step).keys == s.keys
    ensures (forall a, b :: s.keys(a) == s.keys(b)) ==> Growing(s, step)
  {
  }

  /** A Binoculars object has one ClusterRole and one binding of its own name, whatever its spec says:
      its runs never leak, whatever the user edits. */
  lemma BinocularsNeverLeak(states: seq<State>, steps: seq<Step>, n: nat, name: string)
    requires Run(states, steps) && n <= |steps|
    requires states[0].keys == ((spec: ExecutorSpec) => [RoleKey(name), BindingKey(name)])
    ensures Indexed(states[n]) && NoLeak(states[n])
  {
    forall i | 0 <= i < |steps| && Link(states[i], steps[i], states[i + 1])
      ensures Growing(states[i], steps[i])
    {
      ConstantKeysGrow(states, steps, i);
      KeysNeverChange(states[i], steps[i]);
    }
    NoLeakAlways(states, steps, n);
  }

  // ---- What a clean-up removes ----

  predicate OperatorStep(step: Step) {
    step.Start? || step.Delete? || step.DetachFinalizer? || step.Fail?
  }

  /** A deleted Executor that still carries the finalizer, and whose deletion the cache has delivered. */
  predicate Deleted(s: State, executor: Executor)
    requires Indexed(s)
  {
    s.cache + 1 == |s.stored| && Last(s.stored) == Some(executor) && executor.deleting && executor.finalizer
  }

  /** The clean-up so far: nothing but listed objects is gone, and the finalizer goes only when all of them are. */
  ghost predicate CleaningUp(start: State, executor: Executor, s: State)
    requires Indexed(start) && Indexed(s)
  {
    var keys := KeySet(Keys(start, executor));
    && s.keys == start.keys && s.cache == start.cache && start.external - keys <= s.external <= start.external
    && s.stored[s.cache] == Some(executor)
    && (s.stored == start.stored
        || (s.stored == start.stored + [Settle(executor.(finalizer := false))] && s.external == start.external - keys))
    && match s.phase
       case Idle => true
       case Cleaning(version, seen, todo) =>
         version == s.cache && seen == executor && s.external <= (start.external - keys) + KeySet(todo)
       case _ => false
  }

  lemma CleaningUpStep(start: State, executor: Executor, s: State, step: Step)
    requires Indexed(start) && Deleted(start, executor) && Indexed(s) && CleaningUp(start, executor, s)
    requires Enabled(s, step) && OperatorStep(step)
    requires s.phase.Cleaning? ==> Within(s.phase.todo, Keys(start, executor))
    ensures CleaningUp(start, executor, Apply(s, step))
    ensures Apply(s, step).phase.Cleaning? ==> Within(Apply(s, step).phase.todo, Keys(start, executor))
  {
    if step.Delete? {
      var key, rest := s.phase.todo[0], s.phase.todo[1..];
      assert s.phase.todo == [key] + rest;
      assert key in KeySet(Keys(start, executor));
      assert KeySet(s.phase.todo) == {key} + KeySet(rest);
    }
  }

  /** From a state in which a deleted Executor waits for its clean-up, the operator acts undisturbed. */
  ghost predicate CleanUpRun(states: seq<State>, steps: seq<Step>, executor: Executor) {
    && Follows(states, steps) && Indexed(states[0]) && Deleted(states[0], executor) && states[0].phase == Idle
    && forall i :: 0 <= i < |steps| ==> OperatorStep(steps[i])
  }

  lemma {:induction false} CleaningUpAlways(states: seq<State>, steps: seq<Step>, executor: Executor, n: nat)
    requires CleanUpRun(states, steps, executor) && n <= |steps|
    ensures Indexed(states[n]) && CleaningUp(states[0], executor, states[n])
    ensures states[n].phase.Cleaning? ==> Within(states[n].phase.todo, Keys(states[0], executor))
  {
    if n > 0 {
      CleaningUpAlways(states, steps, executor, n - 1);
      assert Link(states[n - 1], steps[n - 1], states[n]);
      CleaningUpStep(states[0], executor, states[n - 1], steps[n - 1]);
    }
  }

  /** What a clean-up that began at `start` has left by now. */
  ghost predicate ExactlyCleaned(start: State, executor: Executor, now: State)
    requires Indexed(start) && Indexed(now)
  {
    var listed := KeySet(Keys(start, executor));
    if Last(now.stored) == Some(executor) then start.external - listed <= now.external <= start.external
    else now.external == start.external - listed && (NoLeak(now) <==> Listed(start.external, Keys(start, executor)))
  }

  lemma CleanedIsExact(start: State, executor: Executor, now: State)
    requires Indexed(start) && Deleted(start, executor) && Indexed(now) && CleaningUp(start, executor, now)
    ensures ExactlyCleaned(start, executor, now)
  {
    if Last(now.stored) != Some(executor) {
      assert NoLeak(now) <==> now.external == {};
      if !Listed(start.external, Keys(start, executor)) {
        var key :| key in start.external && key !in Keys(start, executor);
        assert key in now.external;
      }
    }
  }

  /** Any sequence of interrupted clean-ups keeps the finalizer until one of them has deleted every listed
      object; then exactly the listed objects are gone. So the deletion leaks nothing if and only if
      every object created for this Executor is listed by its spec when it is deleted. */
  lemma CleanupIsExact(states: seq<State>, steps: seq<Step>, executor: Executor, n: nat)
    requires CleanUpRun(states, steps, executor) && n <= |steps|
    ensures Indexed(states[n]) && ExactlyCleaned(states[0], executor, states[n])
  {
    CleaningUpAlways(states, steps, executor, n);
    CleanedIsExact(states[0], executor, states[n]);
  }

  // ---- A shrinking binding list leaks ----

  const BOUND := ExecutorSpec("", [AdditionalBinding("extra", "admin")], "")
  const UNBOUND := ExecutorSpec("", [], "")

  /** Installs an Executor of spec BOUND that already carries the finalizer. */
  function Install(): seq<Step> {
    [UserCreates(Executor(BOUND, true, false, false)), Delivered, Start, Upsert(true), Upsert(true), Upsert(true), FinishInstall]
  }

  /** Drops the additional binding from the spec, deletes the Executor and lets the operator clean up. */
  function Remove(): seq<Step> {
    [UserEdits(UNBOUND, false), UserDeletes, Delivered, Delivered, Start, Delete(true), Delete(true), DetachFinalizer(true)]
  }

  predicate ThreeKeys(keys: ExecutorSpec -> seq<Key>, role: Key, own: Key, extra: Key) {
    keys(BOUND) == [role, own, extra] && keys(UNBOUND) == [role, own] && extra != role && extra != own
  }

  lemma Installs(s: State, role: Key, own: Key, extra: Key) returns (states: seq<State>)
    requires Init(s) && ThreeKeys(s.keys, role, own, extra)
    ensures Follows(states, Install()) && states[0] == s
    ensures Last(states) == State(s.keys, [None, Some(Executor(BOUND, true, false, false))], 1, {role, own, extra}, Idle)
  {
    var s1 := Apply(s, UserCreates(Executor(BOUND, true, false, false)));
    var s2 := Apply(s1, Delivered);
    var s3 := Apply(s2, Start);
    var s4 := Apply(s3, Upsert(true));
    var s5 := Apply(s4, Upsert(true));
    var s6 := Apply(s5, Upsert(true));
    states := [s, s1, s2, s3, s4, s5, s6, Apply(s6, FinishInstall)];
  }

  lemma Removes(s: State, role: Key, own: Key, extra: Key) returns (states: seq<State>)
    requires ThreeKeys(s.keys, role, own, extra)
    requires s == State(s.keys, [None, Some(Executor(BOUND, true, false, false))], 1, {role, own, extra}, Idle)
    ensures Follows(states, Remove()) && states[0] == s
    ensures Indexed(Last(states))
    ensures Last(states).phase == Idle && Last(Last(states).stored) == None && Last(states).external == {extra}
  {
    var s1 := Apply(s, UserEdits(UNBOUND, false));
    var s2 := Apply(s1, UserDeletes);
    var s3 := Apply(s2, Delivered);
    var s4 := Apply(s3, Delivered);
    var s5 := Apply(s4, Start);
    var s6 := Apply(s5, Delete(true));
    var s7 := Apply(s6, Delete(true));
    states := [s, s1, s2, s3, s4, s5, s6, s7, Apply(s7, DetachFinalizer(true))];
  }

  lemma Join(first: seq<State>, firstSteps: seq<Step>, second: seq<State>, secondSteps: seq<Step>)
    requires Follows(first, firstSteps) && Follows(second, secondSteps) && Last(first) == second[0]
    ensures Follows(first + second[1..], firstSteps + secondSteps)
    ensures Last(first + second[1..]) == Last(second)
  {
    var states, steps := first + second[1..], firstSteps + secondSteps;
    forall i | 0 <= i < |steps|
      ensures Link(states[i], steps[i], states[i + 1])
    {
      if i < |firstSteps| {
        assert Link(first[i], firstSteps[i], first[i + 1]);
      } else {
        assert Link(second[i - |firstSteps|], secondSteps[i - |firstSteps|], second[i - |firstSteps| + 1]);
      }
    }
  }

  /** A binding whose suffix was dropped from the spec before the Executor was deleted stays behind. */
  lemma ShrinkingListLeaks() returns (states: seq<State>, steps: seq<Step>)
    ensures Run(states, steps) && states[0].keys == ((spec: ExecutorSpec) => ExternalKeys("executor", spec))
    ensures Indexed(Last(states)) && !NoLeak(Last(states)) && Last(states).phase == Idle
    ensures Last(Last(states).stored).None? && Last(states).external == {BindingKey("executor-extra")}
  {
    var keys := (spec: ExecutorSpec) => ExternalKeys("executor", spec);
    var role, own, extra := RoleKey("executor"), BindingKey("executor"), BindingKey("executor-extra");
    assert ThreeKeys(keys, role, own, extra) by {
      assert "executor" + "-" + "extra" == "executor-extra";
      assert |"executor"| != |"executor-extra"|;
    }
    var first := Installs(State(keys, [None], 0, {}, Idle), role, own, extra);
    var second := Removes(Last(first), role, own, extra);
    Join(first, Install(), second, Remove());
    states, steps := first + second[1..], Install() + Remove();
  }
}
