/** When exactly a plan settles, and when exactly the API server lets it through: both for every plan and every store. */
module Settling {
  import opened Api
  import opened Plans

  // ---- A second run that does nothing ----

  /** No key is both upserted and removed, and upserts of one key of a reset kind agree on the managed fields. */
  ghost predicate Agreeing(plan: seq<Op>) {
    && (forall a, b :: a in plan && b in plan && a.Upsert? && b.Remove? ==> a.key != b.key)
    && (forall a, b :: a in plan && b in plan && a.Upsert? && b.Upsert? && a.key == b.key && ResetKind(a.key.kind) ==>
          a.generated.managed == b.generated.managed)
  }

  /** An operation that makes no call on this store, a wait apart. */
  predicate Quiet(op: Op, store: Store) {
    match op
    case Upsert(key, generated) => key in store && (ResetKind(key.kind) ==> store[key].managed == generated.managed)
    case Gate(_) => true
    case Remove(key) => key !in store
  }

  ghost predicate AllQuiet(ops: seq<Op>, store: Store) {
    forall op :: op in ops ==> Quiet(op, store)
  }

  lemma QuietIffNoCall(defaulting: Defaulting, op: Op, store: Store)
    ensures Quiet(op, store) <==> OnlyWaits(CallsOf(op, store))
    ensures Quiet(op, store) ==> ApplyOp(defaulting, op, store) == store
  {
    var calls := CallsOf(op, store);
    if !Quiet(op, store) {
      assert calls[0] in calls;
    }
  }

  /** A run makes only waits exactly when each of its operations is quiet on the store it began with. */
  lemma {:induction false} OnlyWaitsIffQuiet(defaulting: Defaulting, ops: seq<Op>, store: Store)
    ensures OnlyWaits(Calls(defaulting, ops, store)) <==> AllQuiet(ops, store)
    ensures AllQuiet(ops, store) ==> Run(defaulting, ops, store) == store
  {
    if ops != [] {
      var before, last := ops[..|ops| - 1], ops[|ops| - 1];
      assert ops == before + [last];
      OnlyWaitsIffQuiet(defaulting, before, store);
      QuietIffNoCall(defaulting, last, Run(defaulting, before, store));
      assert Calls(defaulting, ops, store) == Calls(defaulting, before, store) + CallsOf(last, Run(defaulting, before, store));
    }
  }

  lemma QuietKept(defaulting: Defaulting, op: Op, other: Op, store: Store)
    requires Quiet(op, store) && Agreeing([op, other]) && FullySpecified(defaulting, [op, other])
    ensures Quiet(op, ApplyOp(defaulting, other, store)) && Quiet(other, ApplyOp(defaulting, other, store))
  {
    assert op in [op, other] && other in [op, other];
  }

  lemma {:induction false} QuietAfterRun(defaulting: Defaulting, plan: seq<Op>, store: Store)
    requires Agreeing(plan) && FullySpecified(defaulting, plan)
    ensures AllQuiet(plan, Run(defaulting, plan, store))
  {
    if plan != [] {
      var before, last := plan[..|plan| - 1], plan[|plan| - 1];
      assert plan == before + [last];
      QuietAfterRun(defaulting, before, store);
      var middle := Run(defaulting, before, store);
      forall op | op in plan
        ensures Quiet(op, ApplyOp(defaulting, last, middle))
      {
        if op in before {
          QuietKept(defaulting, op, last, middle);
        } else {
          LastIsQuiet(defaulting, last, middle);
        }
      }
    }
  }

  lemma LastIsQuiet(defaulting: Defaulting, op: Op, store: Store)
    requires FullySpecified(defaulting, [op])
    ensures Quiet(op, ApplyOp(defaulting, op, store))
  {
    assert op in [op];
  }

  /** Exactly when a plan settles: whatever was stored, a second complete run makes no call but its waits if
      and only if no key is both upserted and removed, upserts of one reset key agree, and defaulting changes
      no generated field. */
  lemma {:induction false} SettlesIff(defaulting: Defaulting, plan: seq<Op>, store: Store)
    requires Defaulted(defaulting, store) && forall m :: defaulting(defaulting(m)) == defaulting(m)
    ensures OnlyWaits(Calls(defaulting, plan, Run(defaulting, plan, store))) <==>
            Agreeing(plan) && FullySpecified(defaulting, plan)
  {
    var settled := Run(defaulting, plan, store);
    OnlyWaitsIffQuiet(defaulting, plan, settled);
    DefaultedAlways(defaulting, plan, store);
    if Agreeing(plan) && FullySpecified(defaulting, plan) {
      QuietAfterRun(defaulting, plan, store);
    }
    if AllQuiet(plan, settled) {
      assert FullySpecified(defaulting, plan);
      assert Agreeing(plan);
    }
  }

  // ---- A run the API server lets through ----

  ghost predicate KeepsRoleRefs(defaulting: Defaulting) {
    forall m :: RoleRef(defaulting(m)) == RoleRef(m)
  }

  predicate ForBinding(op: Op) {
    op.Upsert? && op.key.kind == ClusterRoleBinding
  }

  /** Bindings are upserted only, and those under one key have one role reference. */
  ghost predicate RoleRefsAgree(plan: seq<Op>) {
    forall a, b :: a in plan && b in plan && ForBinding(a) && ForBinding(b) && a.key == b.key ==>
      RoleRef(a.generated.managed) == RoleRef(b.generated.managed)
  }

  /** The bindings that are stored already have the role references wanted. */
  ghost predicate RoleRefsFit(plan: seq<Op>, store: Store) {
    forall op :: op in plan && ForBinding(op) ==> Accepts(op.key, op.generated.managed, store)
  }

  ghost predicate NoBindingRemoved(plan: seq<Op>) {
    forall op :: op in plan && op.Remove? ==> op.key.kind != ClusterRoleBinding
  }

  function StoredRoleRef(store: Store, key: Key): Option<Option<string>> {
    if key in store then Some(RoleRef(store[key].managed)) else None
  }

  /** Role references since the run began: the stored ones are as they were, the upserted ones as wanted. */
  ghost predicate RoleRefsKept(plan: seq<Op>, store: Store, after: Store) {
    && (forall key: Key :: key.kind == ClusterRoleBinding && key in store ==> StoredRoleRef(after, key) == StoredRoleRef(store, key))
    && (forall op :: op in plan && ForBinding(op) ==> StoredRoleRef(after, op.key) == Some(RoleRef(op.generated.managed)))
    && (forall key: Key :: key.kind == ClusterRoleBinding && key in after && key !in store ==> UpsertsBinding(plan, key))
  }

  ghost predicate UpsertsBinding(plan: seq<Op>, key: Key) {
    exists op :: op in plan && ForBinding(op) && op.key == key
  }

  lemma RoleRefsStep(defaulting: Defaulting, op: Op, store: Store)
    requires KeepsRoleRefs(defaulting) && Accepted(op, store) && (op.Remove? ==> op.key.kind != ClusterRoleBinding)
    ensures var after := ApplyOp(defaulting, op, store);
            && (forall key: Key :: key.kind == ClusterRoleBinding && key in store ==> StoredRoleRef(after, key) == StoredRoleRef(store, key))
            && (ForBinding(op) ==> StoredRoleRef(after, op.key) == Some(RoleRef(op.generated.managed)))
            && (forall key: Key :: key.kind == ClusterRoleBinding && key in after && key !in store ==> ForBinding(op) && op.key == key)
  {
  }

  lemma {:induction false} RoleRefsAfter(defaulting: Defaulting, plan: seq<Op>, store: Store)
    requires KeepsRoleRefs(defaulting) && NoBindingRemoved(plan) && Possible(defaulting, plan, store)
    ensures RoleRefsKept(plan, store, Run(defaulting, plan, store))
  {
    if plan != [] {
      var before, last := plan[..|plan| - 1], plan[|plan| - 1];
      assert plan == before + [last];
      RoleRefsAfter(defaulting, before, store);
      RoleRefsStep(defaulting, last, Run(defaulting, before, store));
      RoleRefsExtend(before, last, store, Run(defaulting, before, store), Run(defaulting, plan, store));
    }
  }

  lemma RoleRefsExtend(before: seq<Op>, last: Op, store: Store, middle: Store, after: Store)
    requires RoleRefsKept(before, store, middle)
    requires forall key: Key :: key.kind == ClusterRoleBinding && key in middle ==> StoredRoleRef(after, key) == StoredRoleRef(middle, key)
    requires ForBinding(last) ==> StoredRoleRef(after, last.key) == Some(RoleRef(last.generated.managed))
    requires forall key: Key :: key.kind == ClusterRoleBinding && key in after && key !in middle ==> ForBinding(last) && last.key == key
    ensures RoleRefsKept(before + [last], store, after)
  {
    forall key: Key | key.kind == ClusterRoleBinding && key in after && key !in store
      ensures UpsertsBinding(before + [last], key)
    {
      if key in middle {
        var op :| op in before && ForBinding(op) && op.key == key;
        assert op in before + [last];
      } else {
        assert last in before + [last];
      }
    }
  }

  lemma LastIsAccepted(plan: seq<Op>, last: Op, store: Store, middle: Store)
    requires last in plan && RoleRefsAgree(plan) && RoleRefsFit(plan, store)
    requires exists before :: RoleRefsKept(before, store, middle) && forall op :: op in before ==> op in plan
    ensures Accepted(last, middle)
  {
    var before :| RoleRefsKept(before, store, middle) && forall op :: op in before ==> op in plan;
    if ForBinding(last) && last.key in middle {
      if last.key in store {
        assert Accepts(last.key, last.generated.managed, store);
        assert StoredRoleRef(middle, last.key) == StoredRoleRef(store, last.key);
      } else {
        assert UpsertsBinding(before, last.key);
        var op :| op in before && ForBinding(op) && op.key == last.key;
        assert StoredRoleRef(middle, op.key) == Some(RoleRef(op.generated.managed));
      }
    }
  }

  lemma PartsInherit(plan: seq<Op>, some: seq<Op>, store: Store)
    requires RoleRefsAgree(plan) && RoleRefsFit(plan, store) && NoBindingRemoved(plan) && forall op :: op in some ==> op in plan
    ensures RoleRefsAgree(some) && RoleRefsFit(some, store) && NoBindingRemoved(some)
  {
  }

  lemma {:induction false} AgreeingIsPossible(defaulting: Defaulting, plan: seq<Op>, store: Store)
    requires KeepsRoleRefs(defaulting) && NoBindingRemoved(plan) && RoleRefsAgree(plan) && RoleRefsFit(plan, store)
    ensures Possible(defaulting, plan, store)
  {
    if plan != [] {
      var before, last := plan[..|plan| - 1], plan[|plan| - 1];
      PartsInherit(plan, before, store);
      AgreeingIsPossible(defaulting, before, store);
      RoleRefsAfter(defaulting, before, store);
      LastIsAccepted(plan, last, store, Run(defaulting, before, store));
    }
  }

  /** Exactly when the API server lets a plan through: the bindings under one key agree on their role, and
      those that are stored already have it. */
  lemma PossibleIff(defaulting: Defaulting, plan: seq<Op>, store: Store)
    requires KeepsRoleRefs(defaulting) && NoBindingRemoved(plan)
    ensures Possible(defaulting, plan, store) <==> RoleRefsAgree(plan) && RoleRefsFit(plan, store)
  {
    if Possible(defaulting, plan, store) {
      RoleRefsAfter(defaulting, plan, store);
      var after := Run(defaulting, plan, store);
      forall op | op in plan && ForBinding(op)
        ensures Accepts(op.key, op.generated.managed, store)
      {
        assert StoredRoleRef(after, op.key) == Some(RoleRef(op.generated.managed));
      }
      forall a, b | a in plan && b in plan && ForBinding(a) && ForBinding(b) && a.key == b.key
        ensures RoleRef(a.generated.managed) == RoleRef(b.generated.managed)
      {
        assert StoredRoleRef(after, a.key) == Some(RoleRef(a.generated.managed));
        assert StoredRoleRef(after, b.key) == Some(RoleRef(b.generated.managed));
      }
    }
    if RoleRefsAgree(plan) && RoleRefsFit(plan, store) {
      AgreeingIsPossible(defaulting, plan, store);
    }
  }

  lemma {:induction false} PossiblePrefix(defaulting: Defaulting, plan: seq<Op>, some: seq<Op>, store: Store)
    requires Possible(defaulting, plan, store) && some <= plan
    ensures Possible(defaulting, some, store)
    decreases |plan|
  {
    if |some| < |plan| {
      PossiblePrefix(defaulting, plan[..|plan| - 1], some, store);
    } else {
      assert some == plan;
    }
  }

  /** An aborted attempt neither spoils a reconcile that could complete nor helps one that could not. */
  lemma AbortedIsNoObstacle(defaulting: Defaulting, plan: seq<Op>, aborted: seq<Op>, store: Store)
    requires KeepsRoleRefs(defaulting) && NoBindingRemoved(plan) && aborted <= plan && Possible(defaulting, aborted, store)
    ensures Possible(defaulting, plan, Run(defaulting, aborted, store)) <==> Possible(defaulting, plan, store)
  {
    var middle := Run(defaulting, aborted, store);
    PossibleIff(defaulting, plan, store);
    PossibleIff(defaulting, plan, middle);
    assert NoBindingRemoved(aborted);
    RoleRefsAfter(defaulting, aborted, store);
    if RoleRefsAgree(plan) {
      forall op | op in plan && ForBinding(op)
        ensures Accepts(op.key, op.generated.managed, middle) <==> Accepts(op.key, op.generated.managed, store)
      {
        if op.key in store {
          assert StoredRoleRef(middle, op.key) == StoredRoleRef(store, op.key);
        } else if op.key in middle {
          assert UpsertsBinding(aborted, op.key);
          var earlier :| earlier in aborted && ForBinding(earlier) && earlier.key == op.key;
          assert StoredRoleRef(middle, op.key) == Some(RoleRef(earlier.generated.managed));
          assert earlier in plan;
        }
      }
    }
  }
}
