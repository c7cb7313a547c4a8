/** The Executor's plan: when the API server lets it through, and when it settles, exactly. */
module ExecutorPlans {
  import opened Api
  import opened ClusterRoles
  import opened Components
  import opened InstallOrder
  import opened Plans
  import opened Settling
  import opened Stages

  /** The object generated for a binding. */
  function BindingItem(binding: Binding, labels: map<string, string>): Item {
    Item(BindingKey(binding.name),
         Object(Managed(labels, map[], Bound(binding.role, [Subject(binding.serviceAccount, binding.namespace)])), ""))
  }

  /** What is generated for an Executor; no two components but the bindings may share a key. */
  ghost predicate Generates(generated: Generated, bindings: seq<Binding>, labels: map<string, string>) {
    && (forall i: nat :: BindingRole(i) in generated <==> i < |bindings|)
    && (forall i :: 0 <= i < |bindings| ==> generated[BindingRole(i)] == BindingItem(bindings[i], labels))
    && (forall a, b :: a in generated && b in generated && generated[a].key == generated[b].key ==>
          a == b || (a.BindingRole? && b.BindingRole?))
    && (forall role :: role in generated ==> generated[role].key.kind == KindOf(role))
  }

  /** Equal suffixes ask for equal roles. */
  ghost predicate RolesAgree(spec: ExecutorSpec) {
    forall i, j :: 0 <= i < |spec.additional| && 0 <= j < |spec.additional|
                   && spec.additional[i].nameSuffix == spec.additional[j].nameSuffix ==>
                     spec.additional[i].clusterRoleName == spec.additional[j].clusterRoleName
  }

  ghost predicate BindingsAgree(bindings: seq<Binding>) {
    forall i, j :: 0 <= i < |bindings| && 0 <= j < |bindings| && bindings[i].name == bindings[j].name ==>
      bindings[i] == bindings[j]
  }

  /** The bindings that are stored already have the roles wanted. */
  ghost predicate StoredRolesFit(bindings: seq<Binding>, store: Store) {
    forall b :: b in bindings && BindingKey(b.name) in store ==> RoleRef(store[BindingKey(b.name)].managed) == Some(b.role)
  }

  lemma SameAdditionalName(name: string, a: AdditionalBinding, b: AdditionalBinding)
    ensures AdditionalName(name, a) == AdditionalName(name, b) <==> a.nameSuffix == b.nameSuffix
    ensures AdditionalName(name, a) != name
  {
    var prefix := name + "-";
    assert (prefix + a.nameSuffix)[|prefix|..] == a.nameSuffix;
    assert (prefix + b.nameSuffix)[|prefix|..] == b.nameSuffix;
    assert |AdditionalName(name, a)| > |name|;
  }

  lemma NumberOfBindings(name: string, namespace: string, spec: ExecutorSpec)
    ensures |BindingsOf(name, namespace, spec)| == if ServiceAccountName(name, spec) == "" then 0 else |spec.additional| + 1
  {
  }

  /** Two additional bindings, and the first binding of all. */
  lemma TwoBindings(name: string, namespace: string, spec: ExecutorSpec, i: nat, j: nat)
    requires ServiceAccountName(name, spec) != "" && i < |spec.additional| && j < |spec.additional|
    ensures var bindings, a, b := BindingsOf(name, namespace, spec), spec.additional[i], spec.additional[j];
            && |bindings| == |spec.additional| + 1 && bindings[i + 1].name != bindings[0].name
            && (bindings[i + 1].name == bindings[j + 1].name <==> a.nameSuffix == b.nameSuffix)
            && (bindings[i + 1] == bindings[j + 1] <==> a.nameSuffix == b.nameSuffix && a.clusterRoleName == b.clusterRoleName)
  {
    SameAdditionalName(name, spec.additional[i], spec.additional[j]);
  }

  lemma BindingsAgreeIff(name: string, namespace: string, spec: ExecutorSpec)
    ensures BindingsAgree(BindingsOf(name, namespace, spec)) <==> ServiceAccountName(name, spec) == "" || RolesAgree(spec)
  {
    hide BindingsOf, ServiceAccountName;
    NumberOfBindings(name, namespace, spec);
    var bindings, more := BindingsOf(name, namespace, spec), spec.additional;
    if ServiceAccountName(name, spec) != "" {
      if BindingsAgree(bindings) {
        forall i, j | 0 <= i < |more| && 0 <= j < |more| && more[i].nameSuffix == more[j].nameSuffix
          ensures more[i].clusterRoleName == more[j].clusterRoleName
        {
          TwoBindings(name, namespace, spec, i, j);
        }
      }
      if RolesAgree(spec) {
        forall i, j | 0 <= i < |bindings| && 0 <= j < |bindings| && bindings[i].name == bindings[j].name
          ensures bindings[i] == bindings[j]
        {
          if i > 0 {
            TwoBindings(name, namespace, spec, i - 1, if j > 0 then j - 1 else i - 1);
          } else if j > 0 {
            TwoBindings(name, namespace, spec, j - 1, j - 1);
          }
        }
      }
    }
  }

  // ---- The operations on bindings ----

  lemma OnlyBindings(role: Role)
    requires KindOf(role) == ClusterRoleBinding
    ensures role.BindingRole?
  {
  }

  /** Stages that upsert components, every binding among them. */
  ghost predicate Covers(stages: seq<Stage>, bindings: nat) {
    && (forall stage :: stage in stages ==> stage.UpsertStage?)
    && (forall i: nat :: i < bindings ==> UpsertStage(BindingRole(i)) in stages)
  }

  function BindingOp(binding: Binding, labels: map<string, string>): Op {
    Upsert(BindingItem(binding, labels).key, BindingItem(binding, labels).value)
  }

  lemma BindingOps(generated: Generated, bindings: seq<Binding>, labels: map<string, string>, stages: seq<Stage>)
    requires Generates(generated, bindings, labels) && Covers(stages, |bindings|)
    ensures forall b :: b in bindings ==> BindingOp(b, labels) in Ops(generated, stages)
    ensures forall op :: op in Ops(generated, stages) && ForBinding(op) ==> exists b :: b in bindings && op == BindingOp(b, labels)
    ensures forall op :: op in Ops(generated, stages) ==> op.Upsert?
  {
    forall b | b in bindings
      ensures BindingOp(b, labels) in Ops(generated, stages)
    {
      var i :| 0 <= i < |bindings| && bindings[i] == b;
      StageHasOp(generated, stages, UpsertStage(BindingRole(i)));
    }
    forall op | op in Ops(generated, stages)
      ensures op.Upsert? && (ForBinding(op) ==> exists b :: b in bindings && op == BindingOp(b, labels))
    {
      var stage := OpHasStage(generated, stages, op);
      if ForBinding(op) {
        OnlyBindings(stage.role);
        assert bindings[stage.role.index] in bindings && op == BindingOp(bindings[stage.role.index], labels);
      }
    }
  }

  lemma RoleRefsAgreeIff(generated: Generated, bindings: seq<Binding>, labels: map<string, string>, stages: seq<Stage>, one: Binding)
    requires Generates(generated, bindings, labels) && Covers(stages, |bindings|)
    requires forall b :: b in bindings ==> b.serviceAccount == one.serviceAccount && b.namespace == one.namespace
    ensures RoleRefsAgree(Ops(generated, stages)) <==> BindingsAgree(bindings)
  {
    var ops := Ops(generated, stages);
    BindingOps(generated, bindings, labels, stages);
    if RoleRefsAgree(ops) {
      forall i, j | 0 <= i < |bindings| && 0 <= j < |bindings| && bindings[i].name == bindings[j].name
        ensures bindings[i] == bindings[j]
      {
        assert bindings[i] in bindings && bindings[j] in bindings;
        assert ForBinding(BindingOp(bindings[i], labels)) && ForBinding(BindingOp(bindings[j], labels));
      }
    }
    if BindingsAgree(bindings) {
      forall a, b | a in ops && b in ops && ForBinding(a) && ForBinding(b) && a.key == b.key
        ensures RoleRef(a.generated.managed) == RoleRef(b.generated.managed)
      {
        var x :| x in bindings && a == BindingOp(x, labels);
        var y :| y in bindings && b == BindingOp(y, labels);
        assert x == y;
      }
    }
  }

  lemma RoleRefsFitIff(generated: Generated, bindings: seq<Binding>, labels: map<string, string>, stages: seq<Stage>, store: Store)
    requires Generates(generated, bindings, labels) && Covers(stages, |bindings|)
    ensures RoleRefsFit(Ops(generated, stages), store) <==> StoredRolesFit(bindings, store)
  {
    var ops := Ops(generated, stages);
    BindingOps(generated, bindings, labels, stages);
    if RoleRefsFit(ops, store) {
      forall b | b in bindings && BindingKey(b.name) in store
        ensures RoleRef(store[BindingKey(b.name)].managed) == Some(b.role)
      {
        assert ForBinding(BindingOp(b, labels));
      }
    }
    if StoredRolesFit(bindings, store) {
      forall op | op in ops && ForBinding(op)
        ensures Accepts(op.key, op.generated.managed, store)
      {
        var b :| b in bindings && op == BindingOp(b, labels);
      }
    }
  }

  lemma ExecutorCovers(bindings: nat)
    ensures Covers(ExecutorStages(bindings), bindings)
  {
    forall i: nat | i < bindings
      ensures UpsertStage(BindingRole(i)) in ExecutorStages(bindings)
    {
      assert ExecutorStages(bindings)[2 + i] == UpsertStage(BindingRole(i));
    }
  }

  /** Whether the stages get through, for any stages that reach past the bindings. */
  lemma PossibleIffRolesAgree(defaulting: Defaulting, generated: Generated, name: string, namespace: string, spec: ExecutorSpec,
                              labels: map<string, string>, stages: seq<Stage>, store: Store)
    requires KeepsRoleRefs(defaulting) && Generates(generated, BindingsOf(name, namespace, spec), labels)
    requires Covers(stages, |BindingsOf(name, namespace, spec)|)
    ensures Possible(defaulting, Ops(generated, stages), store) <==>
            && (ServiceAccountName(name, spec) == "" || RolesAgree(spec))
            && StoredRolesFit(BindingsOf(name, namespace, spec), store)
  {
    var bindings := BindingsOf(name, namespace, spec);
    BindingOps(generated, bindings, labels, stages);
    PossibleIff(defaulting, Ops(generated, stages), store);
    RoleRefsAgreeIff(generated, bindings, labels, stages, Binding(name, name, ServiceAccountName(name, spec), namespace));
    RoleRefsFitIff(generated, bindings, labels, stages, store);
    BindingsAgreeIff(name, namespace, spec);
  }

  /** Two additional bindings with one suffix name different roles, or a binding that is stored already has another role
      than the spec names for it. */
  ghost predicate Clashes(name: string, namespace: string, spec: ExecutorSpec, store: Store) {
    ServiceAccountName(name, spec) != "" && (!RolesAgree(spec) || !StoredRolesFit(BindingsOf(name, namespace, spec), store))
  }

  /** Exactly when an Executor reconcile can complete: when the spec clashes neither with itself nor with what is stored. */
  lemma ExecutorCompletesIff(defaulting: Defaulting, generated: Generated, name: string, namespace: string, spec: ExecutorSpec,
                             labels: map<string, string>, store: Store)
    requires KeepsRoleRefs(defaulting) && Generates(generated, BindingsOf(name, namespace, spec), labels)
    ensures Possible(defaulting, Ops(generated, ExecutorStages(|BindingsOf(name, namespace, spec)|)), store) <==>
            !Clashes(name, namespace, spec, store)
  {
    var bindings := BindingsOf(name, namespace, spec);
    ExecutorCovers(|bindings|);
    PossibleIffRolesAgree(defaulting, generated, name, namespace, spec, labels, ExecutorStages(|bindings|), store);
  }

  /** While an Executor clashes, every reconcile stops before the Secret: the Deployment is never written. */
  lemma ClashStopsTheInstall(defaulting: Defaulting, generated: Generated, name: string, namespace: string, spec: ExecutorSpec,
                             labels: map<string, string>, store: Store, done: seq<Stage>)
    requires KeepsRoleRefs(defaulting) && Generates(generated, BindingsOf(name, namespace, spec), labels)
    requires done <= ExecutorStages(|BindingsOf(name, namespace, spec)|) && Possible(defaulting, Ops(generated, done), store)
    requires Clashes(name, namespace, spec, store)
    ensures UpsertStage(SecretRole) !in done && UpsertStage(DeploymentRole) !in done
  {
    var n := |BindingsOf(name, namespace, spec)|;
    if |done| > 2 + n {
      forall i: nat | i < n
        ensures UpsertStage(BindingRole(i)) in done
      {
        assert ExecutorStages(n)[2 + i] == UpsertStage(BindingRole(i)) && done[2 + i] == ExecutorStages(n)[2 + i];
      }
      ExecutorCovers(n);
      assert forall stage :: stage in done ==> stage in ExecutorStages(n);
      PossibleIffRolesAgree(defaulting, generated, name, namespace, spec, labels, done, store);
      assert false;
    }
    forall k | 0 <= k < |done|
      ensures done[k] != UpsertStage(SecretRole) && done[k] != UpsertStage(DeploymentRole)
    {
      assert done[k] == ExecutorStages(n)[k];
    }
  }

  /** And what such a reconcile has done until then resolves no clash, nor does it make one. */
  lemma {:induction false} ClashStays(defaulting: Defaulting, generated: Generated, name: string, namespace: string, spec: ExecutorSpec,
                   labels: map<string, string>, store: Store, done: seq<Stage>)
    requires KeepsRoleRefs(defaulting) && Generates(generated, BindingsOf(name, namespace, spec), labels)
    requires done <= ExecutorStages(|BindingsOf(name, namespace, spec)|) && Possible(defaulting, Ops(generated, done), store)
    ensures Clashes(name, namespace, spec, Run(defaulting, Ops(generated, done), store)) <==> Clashes(name, namespace, spec, store)
  {
    hide Clashes, Generates, BindingsOf, ExecutorStages, KeepsRoleRefs, Possible, Run;
    var bindings := BindingsOf(name, namespace, spec);
    var plan := Ops(generated, ExecutorStages(|bindings|));
    ExecutorCovers(|bindings|);
    BindingOps(generated, bindings, labels, ExecutorStages(|bindings|));
    OpsMonotone(generated, done, ExecutorStages(|bindings|));
    AbortedIsNoObstacle(defaulting, plan, Ops(generated, done), store);
    ExecutorCompletesIff(defaulting, generated, name, namespace, spec, labels, store);
    ExecutorCompletesIff(defaulting, generated, name, namespace, spec, labels, Run(defaulting, Ops(generated, done), store));
  }

  // ---- When the plan settles ----

  lemma AgreeingIff(generated: Generated, bindings: seq<Binding>, labels: map<string, string>, stages: seq<Stage>)
    requires Generates(generated, bindings, labels) && Covers(stages, |bindings|)
    requires forall b, c :: b in bindings && c in bindings ==> b.serviceAccount == c.serviceAccount && b.namespace == c.namespace
    ensures Agreeing(Ops(generated, stages)) <==> BindingsAgree(bindings)
  {
    var ops := Ops(generated, stages);
    BindingOps(generated, bindings, labels, stages);
    if Agreeing(ops) {
      forall i, j | 0 <= i < |bindings| && 0 <= j < |bindings| && bindings[i].name == bindings[j].name
        ensures bindings[i] == bindings[j]
      {
        assert BindingOp(bindings[i], labels) in ops && BindingOp(bindings[j], labels) in ops;
      }
    }
    if BindingsAgree(bindings) {
      forall a, b | a in ops && b in ops && a.key == b.key
        ensures a.generated.managed == b.generated.managed
      {
        SameKeySameOp(generated, bindings, labels, stages, a, b);
      }
    }
  }

  lemma SameKeySameOp(generated: Generated, bindings: seq<Binding>, labels: map<string, string>, stages: seq<Stage>, a: Op, b: Op)
    requires Generates(generated, bindings, labels) && Covers(stages, |bindings|) && BindingsAgree(bindings)
    requires a in Ops(generated, stages) && b in Ops(generated, stages) && a.key == b.key
    ensures a == b
  {
    var s := OpHasStage(generated, stages, a);
    var t := OpHasStage(generated, stages, b);
    if s.role != t.role {
      var i, j := s.role.index, t.role.index;
      assert bindings[i].name == bindings[j].name;
    }
  }

  lemma {:induction false} NoWaits(defaulting: Defaulting, ops: seq<Op>, store: Store)
    requires forall op :: op in ops ==> op.Upsert?
    ensures forall call :: call in Calls(defaulting, ops, store) ==> !call.Passed?
  {
    if ops != [] {
      NoWaits(defaulting, ops[..|ops| - 1], store);
    }
  }

  lemma NothingWaitedFor(calls: seq<Call>)
    requires forall call :: call in calls ==> !call.Passed?
    ensures OnlyWaits(calls) <==> calls == []
  {
    assert calls != [] ==> calls[0] in calls;
  }

  /** Upserts alone settle as SettlesIff says, with no wait to exempt. */
  lemma {:induction false} UpsertsSettleIff(defaulting: Defaulting, ops: seq<Op>, store: Store)
    requires forall op :: op in ops ==> op.Upsert?
    requires Defaulted(defaulting, store) && forall m :: defaulting(defaulting(m)) == defaulting(m)
    ensures Calls(defaulting, ops, Run(defaulting, ops, store)) == [] <==> Agreeing(ops) && FullySpecified(defaulting, ops)
  {
    SettlesIff(defaulting, ops, store);
    NoWaits(defaulting, ops, Run(defaulting, ops, store));
    NothingWaitedFor(Calls(defaulting, ops, Run(defaulting, ops, store)));
  }

  lemma ExecutorOps(generated: Generated, name: string, namespace: string, spec: ExecutorSpec, labels: map<string, string>)
    requires Generates(generated, BindingsOf(name, namespace, spec), labels)
    ensures var ops := Ops(generated, ExecutorStages(|BindingsOf(name, namespace, spec)|));
            && (forall op :: op in ops ==> op.Upsert?)
            && (Agreeing(ops) <==> ServiceAccountName(name, spec) == "" || RolesAgree(spec))
  {
    var bindings := BindingsOf(name, namespace, spec);
    var stages := ExecutorStages(|bindings|);
    ExecutorCovers(|bindings|);
    BindingOps(generated, bindings, labels, stages);
    AgreeingIff(generated, bindings, labels, stages);
    BindingsAgreeIff(name, namespace, spec);
  }

  /** Exactly when an Executor settles: once its operations have run on whatever was stored, running them again makes
      no call at all if and only if equal suffixes ask for equal roles and defaulting changes nothing generated. Where
      suffixes ask for different roles, ExecutorCompletesIff says that the API server does not let it come to that. */
  lemma ExecutorSettlesIff(defaulting: Defaulting, generated: Generated, name: string, namespace: string, spec: ExecutorSpec,
                           labels: map<string, string>, store: Store)
    requires Generates(generated, BindingsOf(name, namespace, spec), labels)
    requires Defaulted(defaulting, store) && forall m :: defaulting(defaulting(m)) == defaulting(m)
    ensures var ops := Ops(generated, ExecutorStages(|BindingsOf(name, namespace, spec)|));
            Calls(defaulting, ops, Run(defaulting, ops, store)) == [] <==>
            (ServiceAccountName(name, spec) == "" || RolesAgree(spec)) && FullySpecified(defaulting, ops)
  {
    ExecutorOps(generated, name, namespace, spec, labels);
    UpsertsSettleIff(defaulting, Ops(generated, ExecutorStages(|BindingsOf(name, namespace, spec)|)), store);
  }

  // ---- A spec that clashes ----

  const CLASHING := ExecutorSpec("", [AdditionalBinding("extra", "admin"), AdditionalBinding("extra", "view")], "")

  /** The bindings alone, as generated. */
  function BindingsAlone(bindings: seq<Binding>): Generated {
    map role | role in (set i: nat | i < |bindings| :: BindingRole(i)) :: BindingItem(bindings[role.index], map[])
  }

  lemma BindingsAloneAreGenerated(bindings: seq<Binding>)
    ensures Generates(BindingsAlone(bindings), bindings, map[])
  {
  }

  lemma ClashingDisagrees()
    ensures !RolesAgree(CLASHING)
  {
    assert CLASHING.additional[0].nameSuffix == CLASHING.additional[1].nameSuffix;
  }

  lemma BindingStagesCover(n: nat)
    ensures Covers(BindingStages(n), n)
  {
    forall i: nat | i < n
      ensures UpsertStage(BindingRole(i)) in BindingStages(n)
    {
      assert BindingStages(n)[i] == UpsertStage(BindingRole(i));
    }
  }

  /** Two bindings with different names are both created on an empty cluster. */
  lemma ClashingPrefix(defaulting: Defaulting, generated: Generated, bindings: seq<Binding>)
    requires KeepsRoleRefs(defaulting) && Generates(generated, bindings, map[]) && |bindings| == 3
    requires bindings[0].name != bindings[1].name
    ensures Possible(defaulting, Ops(generated, BindingStages(2)), map[])
  {
    var ops := Ops(generated, BindingStages(2));
    forall op | op in ops
      ensures op == BindingOp(bindings[0], map[]) || op == BindingOp(bindings[1], map[])
    {
      var stage := OpHasStage(generated, BindingStages(2), op);
    }
    PossibleIff(defaulting, ops, map[]);
  }

  /** This spec does not agree with itself. Its first two bindings are created on an empty cluster, the third
      is refused, then and whenever the reconcile is repeated. */
  lemma ClashingSpecIsRefused(defaulting: Defaulting, name: string, namespace: string)
    requires KeepsRoleRefs(defaulting) && name != ""
    ensures var bindings := BindingsOf(name, namespace, CLASHING);
            var generated := BindingsAlone(bindings);
            && !RolesAgree(CLASHING) && Generates(generated, bindings, map[])
            && Possible(defaulting, Ops(generated, BindingStages(2)), map[])
            && forall store :: !Possible(defaulting, Ops(generated, BindingStages(3)), store)
  {
    hide BindingsAlone, Generates;
    var bindings := BindingsOf(name, namespace, CLASHING);
    var generated := BindingsAlone(bindings);
    BindingsAloneAreGenerated(bindings);
    ClashingDisagrees();
    SameAdditionalName(name, CLASHING.additional[0], CLASHING.additional[1]);
    ClashingPrefix(defaulting, generated, bindings);
    BindingStagesCover(3);
    forall store
      ensures !Possible(defaulting, Ops(generated, BindingStages(3)), store)
    {
      PossibleIffRolesAgree(defaulting, generated, name, namespace, CLASHING, map[], BindingStages(3), store);
    }
  }
}
