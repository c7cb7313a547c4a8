/** What a reconcile that follows its plan does to the cluster: in which order, to which objects, and
    what is left when it has been repeated, aborted and started again. */
module InstallOrder {
  import opened Api
  import opened Components
  import opened Plans
  import opened Stages

  // ---- Assumptions on what is generated ----

  /** Components under one key are the same object, the partition Job has a key of its own, and keys have
      the kind of their role. */
  ghost predicate WellNamed(generated: Generated, partition: Option<Item>) {
    && (forall a, b :: a in generated && b in generated && generated[a].key == generated[b].key ==> generated[a] == generated[b])
    && (forall role :: role in generated ==> generated[role].key.kind == KindOf(role))
    && (partition.Some? ==> partition.value.key.kind == Kind.Job)
    && (partition.Some? ==> forall role :: role in generated ==> generated[role].key != partition.value.key)
  }

  /** A key under which nothing is generated. */
  ghost predicate Elsewhere(generated: Generated, partition: Option<Item>, key: Key) {
    && (forall role :: role in generated ==> generated[role].key != key)
    && (partition.Some? ==> partition.value.key != key)
  }

  /** Some component with the key of this one is written or removed. */
  ghost predicate Named(generated: Generated, stages: seq<Stage>, role: Role)
    requires role in generated
  {
    exists other :: other in generated && generated[other].key == generated[role].key
                    && (UpsertStage(other) in stages || RemoveStage(other) in stages)
  }

  // ---- From stages to operations ----

  lemma {:induction false} OpsMonotone(generated: Generated, some: seq<Stage>, all: seq<Stage>)
    requires some <= all
    ensures Ops(generated, some) <= Ops(generated, all)
    decreases |all|
  {
    if |some| < |all| {
      OpsMonotone(generated, some, all[..|all| - 1]);
    } else {
      assert some == all;
    }
  }

  /** Every operation is that of some stage. */
  lemma {:induction false} OpHasStage(generated: Generated, stages: seq<Stage>, op: Op) returns (stage: Stage)
    requires op in Ops(generated, stages)
    ensures stage in stages && OpsOf(generated, stage) == [op]
  {
    var before, last := stages[..|stages| - 1], stages[|stages| - 1];
    if op in Ops(generated, before) {
      stage := OpHasStage(generated, before, op);
    } else {
      stage := last;
    }
  }

  lemma {:induction false} StageHasOp(generated: Generated, stages: seq<Stage>, stage: Stage)
    requires stage in stages && OpsOf(generated, stage) != []
    ensures OpsOf(generated, stage)[0] in Ops(generated, stages)
  {
    if stage != stages[|stages| - 1] {
      StageHasOp(generated, stages[..|stages| - 1], stage);
    }
  }

  /** Only the CronJob is ever removed, and then it is not upserted; there is one partition Job at most. */
  ghost predicate OneStageEach(stages: seq<Stage>, partition: Option<Item>) {
    && (forall role :: RemoveStage(role) in stages ==> role == CronJobRole)
    && !(UpsertStage(CronJobRole) in stages && RemoveStage(CronJobRole) in stages)
    && (forall stage :: stage in stages && stage.PartitionStage? ==> partition == Some(stage.job))
  }

  lemma OnlyCronJobs(role: Role)
    requires KindOf(role) == CronJob
    ensures role == CronJobRole
  {
  }

  lemma SameOp(generated: Generated, stages: seq<Stage>, partition: Option<Item>, s: Stage, t: Stage)
    requires WellNamed(generated, partition) && OneStageEach(stages, partition) && s in stages && t in stages
    requires OpsOf(generated, s) != [] && OpsOf(generated, t) != [] && !s.AwaitStage? && !t.AwaitStage?
    requires OpsOf(generated, s)[0].key == OpsOf(generated, t)[0].key
    ensures OpsOf(generated, s)[0] == OpsOf(generated, t)[0]
  {
    if s.UpsertStage? && t.RemoveStage? {
      OnlyCronJobs(s.role);
    }
    if s.RemoveStage? && t.UpsertStage? {
      OnlyCronJobs(t.role);
    }
  }

  lemma OpsConsistent(generated: Generated, stages: seq<Stage>, partition: Option<Item>)
    requires WellNamed(generated, partition) && OneStageEach(stages, partition)
    ensures Consistent(Ops(generated, stages))
  {
    var ops := Ops(generated, stages);
    forall a, b | a in ops && b in ops && !a.Gate? && !b.Gate? && a.key == b.key
      ensures a == b
    {
      var s := OpHasStage(generated, stages, a);
      var t := OpHasStage(generated, stages, b);
      SameOp(generated, stages, partition, s, t);
    }
  }

  // ---- The effect of a complete reconcile ----

  /** What a complete reconcile leaves under the key of a generated object that its plan upserts or removes. */
  ghost predicate EndsAs(defaulting: Defaulting, item: Item, reset: bool, found: Option<Object>, after: Option<Object>) {
    after ==
    if found.None? then Some(Object(defaulting(item.value.managed), item.value.rest))
    else if reset then Some(Object(defaulting(item.value.managed), found.value.rest))
    else found
  }

  /** History independence for every controller: a reset component ends with exactly the generated managed
      fields whatever was stored; a Job, PrometheusRule or ServiceMonitor that was there is unchanged; a
      removed component is gone; and whatever the plan does not name, generated or not, is untouched. */
  lemma {:induction false} ReconcileEffect(defaulting: Defaulting, generated: Generated, plan: seq<Stage>, partition: Option<Item>, store: Store)
    requires WellNamed(generated, partition) && OneStageEach(plan, partition) && Defaulted(defaulting, store)
    ensures var after := Run(defaulting, Ops(generated, plan), store);
            && (forall role :: role in generated && UpsertStage(role) in plan ==>
                  EndsAs(defaulting, generated[role], Resets(role),
                          Lookup(store, generated[role].key), Lookup(after, generated[role].key)))
            && (forall role :: role in generated && RemoveStage(role) in plan ==> generated[role].key !in after)
            && (forall role :: role in generated && !Named(generated, plan, role) ==>
                  Lookup(after, generated[role].key) == Lookup(store, generated[role].key))
            && (forall key :: Elsewhere(generated, partition, key) ==> Lookup(after, key) == Lookup(store, key))
  {
    var ops := Ops(generated, plan);
    OpsConsistent(generated, plan, partition);
    forall role | role in generated
      ensures UpsertStage(role) in plan ==>
                EndsAs(defaulting, generated[role], Resets(role),
                        Lookup(store, generated[role].key), Lookup(Run(defaulting, ops, store), generated[role].key))
      ensures RemoveStage(role) in plan ==> generated[role].key !in Run(defaulting, ops, store)
      ensures !Named(generated, plan, role) ==>
                Lookup(Run(defaulting, ops, store), generated[role].key) == Lookup(store, generated[role].key)
    {
      RoleEffect(defaulting, generated, plan, partition, store, role);
    }
    forall key | Elsewhere(generated, partition, key)
      ensures Lookup(Run(defaulting, ops, store), key) == Lookup(store, key)
    {
      OtherKeyUntouched(defaulting, generated, plan, partition, store, key);
    }
  }

  lemma {:induction false} RoleUpserted(defaulting: Defaulting, generated: Generated, plan: seq<Stage>, store: Store, role: Role)
    requires WellNamed(generated, None) && Defaulted(defaulting, store) && Consistent(Ops(generated, plan))
    requires role in generated && UpsertStage(role) in plan
    ensures EndsAs(defaulting, generated[role], Resets(role), Lookup(store, generated[role].key),
                    Lookup(Run(defaulting, Ops(generated, plan), store), generated[role].key))
  {
    HistoryIndependence(defaulting, Ops(generated, plan), store, generated[role].key);
    ResetsByKind(role);
    StageHasOp(generated, plan, UpsertStage(role));
  }

  lemma {:induction false} RoleUntouched(defaulting: Defaulting, generated: Generated, plan: seq<Stage>, partition: Option<Item>,
                                         store: Store, role: Role)
    requires WellNamed(generated, partition) && OneStageEach(plan, partition)
    requires role in generated && !Named(generated, plan, role)
    ensures Lookup(Run(defaulting, Ops(generated, plan), store), generated[role].key) == Lookup(store, generated[role].key)
  {
    forall op | op in Ops(generated, plan)
      ensures !Touches(op, generated[role].key)
    {
      var stage := OpHasStage(generated, plan, op);
    }
    Frame(defaulting, Ops(generated, plan), store, generated[role].key);
  }

  lemma {:induction false} RoleEffect(defaulting: Defaulting, generated: Generated, plan: seq<Stage>, partition: Option<Item>, store: Store, role: Role)
    requires WellNamed(generated, partition) && OneStageEach(plan, partition) && Defaulted(defaulting, store)
    requires Consistent(Ops(generated, plan)) && role in generated
    ensures var found, after := Lookup(store, generated[role].key), Lookup(Run(defaulting, Ops(generated, plan), store), generated[role].key);
            && (UpsertStage(role) in plan ==> EndsAs(defaulting, generated[role], Resets(role), found, after))
            && (RemoveStage(role) in plan ==> after == None)
            && (!Named(generated, plan, role) ==> after == found)
  {
    if UpsertStage(role) in plan {
      RoleUpserted(defaulting, generated, plan, store, role);
    } else if RemoveStage(role) in plan {
      StageHasOp(generated, plan, RemoveStage(role));
      EachOpAlone(defaulting, Ops(generated, plan), store, Remove(generated[role].key));
    } else if !Named(generated, plan, role) {
      RoleUntouched(defaulting, generated, plan, partition, store, role);
    }
  }

  lemma OtherKeyUntouched(defaulting: Defaulting, generated: Generated, plan: seq<Stage>, partition: Option<Item>, store: Store, key: Key)
    requires OneStageEach(plan, partition)
    requires Elsewhere(generated, partition, key)
    ensures Lookup(Run(defaulting, Ops(generated, plan), store), key) == Lookup(store, key)
  {
    forall op | op in Ops(generated, plan)
      ensures !Touches(op, key)
    {
      var stage := OpHasStage(generated, plan, op);
    }
    Frame(defaulting, Ops(generated, plan), store, key);
  }

  // ---- Repeated and aborted reconciles ----

  /** The store after reconciles that each followed the plan up to some stage. */
  function RunReconciles(defaulting: Defaulting, generated: Generated, attempts: seq<seq<Stage>>, store: Store): Store {
    if attempts == [] then store
    else Run(defaulting, Ops(generated, attempts[|attempts| - 1]),
             RunReconciles(defaulting, generated, attempts[..|attempts| - 1], store))
  }

  /** Any number of reconciles aborted anywhere and then one that succeeds leave the store that a single
      successful reconcile leaves; one more changes nothing, creates nothing and deletes nothing. */
  lemma {:induction false} ReconcileConfluence(defaulting: Defaulting, generated: Generated, plan: seq<Stage>,
                                               partition: Option<Item>, attempts: seq<seq<Stage>>, store: Store)
    requires WellNamed(generated, partition) && OneStageEach(plan, partition)
    requires forall i :: 0 <= i < |attempts| ==> attempts[i] <= plan
    ensures var ops := Ops(generated, plan);
            var settled := Run(defaulting, ops, RunReconciles(defaulting, generated, attempts, store));
            && settled == Run(defaulting, ops, store)
            && Run(defaulting, ops, settled) == settled
            && OnlyUpdates(Calls(defaulting, ops, settled))
  {
    var ops := Ops(generated, plan);
    OpsConsistent(generated, plan, partition);
    if attempts != [] {
      var before := attempts[..|attempts| - 1];
      ReconcileConfluence(defaulting, generated, plan, partition, before, store);
      OpsMonotone(generated, attempts[|attempts| - 1], plan);
      AbortedThenComplete(defaulting, ops, Ops(generated, attempts[|attempts| - 1]), RunReconciles(defaulting, generated, before, store));
    }
    Idempotence(defaulting, ops, store);
  }

  // ---- Order ----

  /** The components that are written before the Jobs. */
  predicate BeforeJobs(role: Role) {
    role == ServiceAccountRole || role == SecretRole || role.JobRole?
  }

  /** The first `n` Jobs gate whatever comes after them, and each of them the next. */
  ghost predicate Gated(plan: seq<Stage>, n: nat) {
    forall k, i | 0 <= k < |plan| && 0 <= i < n && MustFollow(plan[k], i) :: AwaitStage(i) in plan[..k]
  }

  /** Whether a stage has to wait for Job `i`. */
  predicate MustFollow(stage: Stage, i: nat) {
    match stage
    case UpsertStage(JobRole(j)) => i < j
    case UpsertStage(role) => !BeforeJobs(role)
    case RemoveStage(_) => true
    case PartitionStage(_) => true
    case AwaitStage(_) => false
  }

  lemma GatedAround(n: nat, tail: seq<Stage>)
    ensures Gated(BEFORE_JOBS + JobStages(n) + tail, n)
  {
    var plan := BEFORE_JOBS + JobStages(n) + tail;
    forall k, i | 0 <= k < |plan| && 0 <= i < n && MustFollow(plan[k], i)
      ensures AwaitStage(i) in plan[..k]
    {
      var at := 2 + 2 * i + 1;
      assert JobStages(n)[2 * i + 1] == JobStage(2 * i + 1) == AwaitStage(i);
      assert plan[at] == AwaitStage(i);
      if 2 <= k < 2 + 2 * n {
        assert plan[k] == JobStage(k - 2);
      }
      assert at < k;
    }
  }

  lemma LookoutGates(jobs: nat, pruning: bool, partition: Option<Item>)
    ensures Gated(LookoutStages(jobs, pruning, partition), jobs)
  {
    var last := if partition.Some? then [PartitionStage(partition.value)] else [];
    GatedAround(jobs, LookoutTail(pruning) + last);
    assert LookoutStages(jobs, pruning, partition) == BEFORE_JOBS + JobStages(jobs) + (LookoutTail(pruning) + last);
  }

  lemma LookoutOneStageEach(jobs: nat, pruning: bool, partition: Option<Item>)
    ensures OneStageEach(LookoutStages(jobs, pruning, partition), partition)
  {
  }

  lemma LookoutGated(jobs: nat, pruning: bool, partition: Option<Item>)
    ensures Gated(LookoutStages(jobs, pruning, partition), jobs)
    ensures OneStageEach(LookoutStages(jobs, pruning, partition), partition)
  {
    LookoutGates(jobs, pruning, partition);
    LookoutOneStageEach(jobs, pruning, partition);
  }

  lemma ArmadaServerGated(jobs: nat, pulsarInit: bool)
    ensures Gated(ArmadaServerStages(jobs, pulsarInit), if pulsarInit then jobs else 0)
    ensures OneStageEach(ArmadaServerStages(jobs, pulsarInit), None)
  {
    GatedAround(if pulsarInit then jobs else 0, ARMADA_SERVER_TAIL);
  }

  lemma SchedulerGated(jobs: nat, pruner: bool)
    ensures Gated(SchedulerStages(jobs, pruner), if jobs > 0 then 1 else 0)
    ensures OneStageEach(SchedulerStages(jobs, pruner), None)
  {
    GatedAround(if jobs > 0 then 1 else 0, SchedulerTail(pruner));
  }

  lemma UngatedPlans(bindings: nat)
    ensures OneStageEach(ExecutorStages(bindings), None) && OneStageEach(BinocularsStages(bindings), None)
  {
  }

  /** Keys that may be written before Job `i` has ended: the ServiceAccount's, the Secret's and those of the Jobs up to it. */
  ghost predicate MayPrecede(generated: Generated, key: Key, i: nat) {
    exists role :: role in generated && generated[role].key == key
                   && (role == ServiceAccountRole || role == SecretRole || (role.JobRole? && role.index <= i))
  }

  ghost predicate PassedWithin(calls: seq<Call>, upTo: nat, key: Key) {
    exists q :: 0 <= q < upTo && q < |calls| && calls[q] == Passed(key)
  }

  lemma CallsSnoc(defaulting: Defaulting, generated: Generated, stages: seq<Stage>, store: Store)
    requires stages != []
    ensures var before, ops := Ops(generated, stages[..|stages| - 1]), OpsOf(generated, stages[|stages| - 1]);
            Calls(defaulting, Ops(generated, stages), store) ==
            Calls(defaulting, before, store) + if ops == [] then [] else CallsOf(ops[0], Run(defaulting, before, store))
  {
    var before, ops := Ops(generated, stages[..|stages| - 1]), OpsOf(generated, stages[|stages| - 1]);
    if ops == [] {
      assert before + ops == before;
    } else {
      assert ops == [ops[0]];
      RunSnoc(defaulting, before, ops[0], store);
    }
  }

  lemma {:induction false} AwaitPasses(defaulting: Defaulting, generated: Generated, stages: seq<Stage>, store: Store, i: nat)
    requires AwaitStage(i) in stages && JobRole(i) in generated
    ensures var calls := Calls(defaulting, Ops(generated, stages), store);
            PassedWithin(calls, |calls|, generated[JobRole(i)].key)
  {
    var before, key := stages[..|stages| - 1], generated[JobRole(i)].key;
    var earlier, calls := Calls(defaulting, Ops(generated, before), store), Calls(defaulting, Ops(generated, stages), store);
    CallsSnoc(defaulting, generated, stages, store);
    if stages[|stages| - 1] == AwaitStage(i) {
      assert calls[|earlier|] == Passed(key);
    } else {
      AwaitPasses(defaulting, generated, before, store, i);
      var q :| 0 <= q < |earlier| && earlier[q] == Passed(key);
      assert calls[q] == Passed(key);
    }
  }

  /** A stage that writes something else than what may precede Job `i` comes after it in the plan. */
  lemma WriteMustFollow(generated: Generated, stage: Stage, store: Store, call: Call, i: nat)
    requires OpsOf(generated, stage) != [] && call in CallsOf(OpsOf(generated, stage)[0], store)
    requires !call.Passed? && !MayPrecede(generated, call.key, i)
    ensures MustFollow(stage, i)
  {
  }

  lemma GateComesFirst(plan: seq<Stage>, n: nat, done: seq<Stage>, i: nat)
    requires Gated(plan, n) && done <= plan && done != [] && i < n && MustFollow(done[|done| - 1], i)
    ensures AwaitStage(i) in done[..|done| - 1]
  {
    assert plan[|done| - 1] == done[|done| - 1] && plan[..|done| - 1] == done[..|done| - 1];
  }

  lemma PassedLater(earlier: seq<Call>, calls: seq<Call>, p: nat, p': nat, key: Key)
    requires earlier <= calls && PassedWithin(earlier, p, key) && (p <= p' || |earlier| <= p')
    ensures PassedWithin(calls, p', key)
  {
    var q :| 0 <= q < p && q < |earlier| && earlier[q] == Passed(key);
    assert calls[q] == Passed(key);
  }

  /** Install ordering. In every reconcile, however far it gets, nothing but the ServiceAccount, the Secret
      and the Jobs up to a gating Job is written before that Job was seen to have ended in that reconcile. */
  lemma {:induction false} WritesFollowGates(defaulting: Defaulting, generated: Generated, plan: seq<Stage>, n: nat,
                                             done: seq<Stage>, store: Store, p: nat, i: nat)
    requires Gated(plan, n) && done <= plan && i < n && JobRole(i) in generated
    requires var calls := Calls(defaulting, Ops(generated, done), store);
             p < |calls| && !calls[p].Passed? && !MayPrecede(generated, calls[p].key, i)
    ensures PassedWithin(Calls(defaulting, Ops(generated, done), store), p, generated[JobRole(i)].key)
  {
    var before, stage, key := done[..|done| - 1], done[|done| - 1], generated[JobRole(i)].key;
    var earlier, calls := Calls(defaulting, Ops(generated, before), store), Calls(defaulting, Ops(generated, done), store);
    CallsSnoc(defaulting, generated, done, store);
    if p < |earlier| {
      WritesFollowGates(defaulting, generated, plan, n, before, store, p, i);
      PassedLater(earlier, calls, p, p, key);
    } else {
      WriteMustFollow(generated, stage, Run(defaulting, Ops(generated, before), store), calls[p], i);
      GateComesFirst(plan, n, done, i);
      AwaitPasses(defaulting, generated, before, store, i);
      PassedLater(earlier, calls, |earlier|, p, key);
    }
  }

  lemma CannotPrecede(generated: Generated, key: Key, i: nat)
    requires WellNamed(generated, None) && key.kind !in {ServiceAccount, Secret}
    requires key.kind == Kind.Job ==> forall j: nat :: j <= i && JobRole(j) in generated ==> key != generated[JobRole(j)].key
    ensures !MayPrecede(generated, key, i)
  {
  }

  /** So no Deployment, Service, Ingress, CronJob, role, binding or any other object but ServiceAccounts, Secrets and Jobs is
      written or removed before every gating Job was seen to have ended, and no Job before those that gate it. */
  lemma {:induction false} NothingElseBeforeGates(defaulting: Defaulting, generated: Generated, plan: seq<Stage>, n: nat,
                                                  done: seq<Stage>, store: Store, p: nat, i: nat)
    requires WellNamed(generated, None) && Gated(plan, n) && done <= plan && i < n && JobRole(i) in generated
    requires var calls := Calls(defaulting, Ops(generated, done), store);
             p < |calls| && !calls[p].Passed? && calls[p].key.kind !in {ServiceAccount, Secret}
             && (calls[p].key.kind == Kind.Job ==>
                   forall j: nat :: j <= i && JobRole(j) in generated ==> calls[p].key != generated[JobRole(j)].key)
    ensures PassedWithin(Calls(defaulting, Ops(generated, done), store), p, generated[JobRole(i)].key)
  {
    hide WellNamed, Gated, Calls, Ops, MayPrecede;
    CannotPrecede(generated, Calls(defaulting, Ops(generated, done), store)[p].key, i);
    WritesFollowGates(defaulting, generated, plan, n, done, store, p, i);
  }

  predicate NoJobIn(stages: seq<Stage>) {
    forall k :: 0 <= k < |stages| ==> stages[k].UpsertStage? && !stages[k].role.JobRole?
  }

  lemma {:induction false} NoJobCalled(defaulting: Defaulting, generated: Generated, done: seq<Stage>, store: Store)
    requires WellNamed(generated, None) && NoJobIn(done)
    ensures forall call :: call in Calls(defaulting, Ops(generated, done), store) ==> !call.Passed? && call.key.kind != Kind.Job
  {
    if done != [] {
      var before := done[..|done| - 1];
      NoJobCalled(defaulting, generated, before, store);
      CallsSnoc(defaulting, generated, done, store);
      if OpsOf(generated, done[|done| - 1]) != [] {
        NoJobCall(generated, done[|done| - 1], Run(defaulting, Ops(generated, before), store));
      }
    }
  }

  lemma NoJobCall(generated: Generated, stage: Stage, store: Store)
    requires WellNamed(generated, None) && stage.UpsertStage? && !stage.role.JobRole? && OpsOf(generated, stage) != []
    ensures forall call :: call in CallsOf(OpsOf(generated, stage)[0], store) ==> !call.Passed? && call.key.kind != Kind.Job
  {
    NoJobKey(generated, stage.role);
  }

  lemma NoJobKey(generated: Generated, role: Role)
    requires WellNamed(generated, None) && !role.JobRole?
    ensures role in generated ==> generated[role].key.kind != Kind.Job
  {
  }

  /** With PulsarInit off the ArmadaServer reconcile makes no call on any Job, so its empty placeholder Job stays where it is. */
  lemma PlaceholderJobNeverSent(defaulting: Defaulting, generated: Generated, jobs: nat, done: seq<Stage>, store: Store)
    requires WellNamed(generated, None) && done <= ArmadaServerStages(jobs, false)
    ensures forall call :: call in Calls(defaulting, Ops(generated, done), store) ==> !call.Passed? && call.key.kind != Kind.Job
  {
    var plan := ArmadaServerStages(jobs, false);
    assert plan == BEFORE_JOBS + ARMADA_SERVER_TAIL;
    assert NoJobIn(plan);
    NoJobCalled(defaulting, generated, done, store);
  }

  // ---- What each controller leaves ----

  /** The CronJob follows its flag. */
  ghost predicate CronJobIff(defaulting: Defaulting, generated: Generated, plan: seq<Stage>, store: Store, enabled: bool)
    requires CronJobRole in generated
  {
    generated[CronJobRole].key in Run(defaulting, Ops(generated, plan), store) <==> enabled
  }

  /** A component is left as ReconcileEffect says of one that is upserted. */
  ghost predicate Installed(defaulting: Defaulting, generated: Generated, plan: seq<Stage>, store: Store, role: Role)
    requires role in generated
  {
    EndsAs(defaulting, generated[role], Resets(role), Lookup(store, generated[role].key),
            Lookup(Run(defaulting, Ops(generated, plan), store), generated[role].key))
  }

  ghost predicate NotInstalled(defaulting: Defaulting, generated: Generated, plan: seq<Stage>, store: Store, role: Role)
    requires role in generated
  {
    Lookup(Run(defaulting, Ops(generated, plan), store), generated[role].key) == Lookup(store, generated[role].key)
  }

  /** A partition Job that was there is left as it is, a missing one is created. */
  ghost predicate JobInstalled(defaulting: Defaulting, generated: Generated, plan: seq<Stage>, store: Store, job: Item) {
    EndsAs(defaulting, job, false, Lookup(store, job.key), Lookup(Run(defaulting, Ops(generated, plan), store), job.key))
  }

  lemma CronJobEffect(defaulting: Defaulting, generated: Generated, plan: seq<Stage>, partition: Option<Item>, store: Store, enabled: bool)
    requires WellNamed(generated, partition) && OneStageEach(plan, partition) && Defaulted(defaulting, store)
    requires CronJobRole in generated && Toggle(enabled) in plan
    ensures CronJobIff(defaulting, generated, plan, store, enabled)
  {
    OpsConsistent(generated, plan, partition);
    RoleEffect(defaulting, generated, plan, partition, store, CronJobRole);
  }

  lemma UpsertEffect(defaulting: Defaulting, generated: Generated, plan: seq<Stage>, partition: Option<Item>, store: Store, role: Role)
    requires WellNamed(generated, partition) && OneStageEach(plan, partition) && Defaulted(defaulting, store)
    requires role in generated
    ensures UpsertStage(role) in plan ==> Installed(defaulting, generated, plan, store, role)
    ensures !Named(generated, plan, role) ==> NotInstalled(defaulting, generated, plan, store, role)
  {
    OpsConsistent(generated, plan, partition);
    RoleEffect(defaulting, generated, plan, partition, store, role);
  }

  lemma PartitionEffect(defaulting: Defaulting, generated: Generated, plan: seq<Stage>, job: Item, store: Store)
    requires WellNamed(generated, Some(job)) && OneStageEach(plan, Some(job)) && Defaulted(defaulting, store)
    requires PartitionStage(job) in plan
    ensures JobInstalled(defaulting, generated, plan, store, job)
  {
    OpsConsistent(generated, plan, Some(job));
    StageHasOp(generated, plan, PartitionStage(job));
    HistoryIndependence(defaulting, Ops(generated, plan), store, job.key);
  }

  lemma LookoutNames(jobs: nat, pruning: bool, partition: Option<Item>)
    ensures var plan := LookoutStages(jobs, pruning, partition);
            && Toggle(pruning) in plan
            && (partition.Some? ==> PartitionStage(partition.value) in plan)
            && UpsertStage(ServiceProfilingRole) !in plan && RemoveStage(ServiceProfilingRole) !in plan
  {
    var plan := LookoutStages(jobs, pruning, partition);
    assert plan[2 + 2 * jobs + 3] == Toggle(pruning);
    if partition.Some? {
      assert plan[|plan| - 1] == PartitionStage(partition.value);
    }
  }

  lemma SchedulerNames(jobs: nat, pruner: bool)
    ensures var plan := SchedulerStages(jobs, pruner);
            Toggle(pruner) in plan && UpsertStage(ServiceProfilingRole) in plan && UpsertStage(IngressProfilingRole) in plan
  {
    var plan, n := SchedulerStages(jobs, pruner), if jobs > 0 then 1 else 0;
    assert plan[2 * n + 9] == Toggle(pruner);
    assert plan[2 * n + 4] == UpsertStage(ServiceProfilingRole) && plan[2 * n + 6] == UpsertStage(IngressProfilingRole);
  }

  lemma ProfilingServiceNotNamed(generated: Generated, plan: seq<Stage>, partition: Option<Item>)
    requires WellNamed(generated, partition) && ServiceProfilingRole in generated
    requires ServiceRole in generated ==> generated[ServiceRole].key != generated[ServiceProfilingRole].key
    requires UpsertStage(ServiceProfilingRole) !in plan && RemoveStage(ServiceProfilingRole) !in plan
    ensures !Named(generated, plan, ServiceProfilingRole)
  {
    forall other | other in generated && generated[other].key == generated[ServiceProfilingRole].key
      ensures other == ServiceProfilingRole
    {
      assert KindOf(other) == Service;
    }
  }

  /** After a complete Lookout reconcile the CronJob exists exactly when pruning is on, the profiling Service
      is as it was, and a partition Job exists if one was asked for, the one that was there if there was one. */
  lemma LookoutEffect(defaulting: Defaulting, generated: Generated, jobs: nat, pruning: bool, partition: Option<Item>, store: Store)
    requires WellNamed(generated, partition) && Defaulted(defaulting, store)
    requires CronJobRole in generated && ServiceProfilingRole in generated
    requires ServiceRole in generated ==> generated[ServiceRole].key != generated[ServiceProfilingRole].key
    ensures var plan := LookoutStages(jobs, pruning, partition);
            && CronJobIff(defaulting, generated, plan, store, pruning)
            && NotInstalled(defaulting, generated, plan, store, ServiceProfilingRole)
            && (partition.Some? ==> JobInstalled(defaulting, generated, plan, store, partition.value))
  {
    var plan := LookoutStages(jobs, pruning, partition);
    LookoutGated(jobs, pruning, partition);
    LookoutNames(jobs, pruning, partition);
    CronJobEffect(defaulting, generated, plan, partition, store, pruning);
    ProfilingServiceNotNamed(generated, plan, partition);
    UpsertEffect(defaulting, generated, plan, partition, store, ServiceProfilingRole);
    if partition.Some? {
      PartitionEffect(defaulting, generated, plan, partition.value, store);
    }
  }

  /** The Scheduler's CronJob follows its flag too; and it is the one controller that installs its profiling
      Service and Ingress. */
  lemma {:induction false} SchedulerEffect(defaulting: Defaulting, generated: Generated, jobs: nat, pruner: bool, store: Store, role: Role)
    requires WellNamed(generated, None) && Defaulted(defaulting, store) && CronJobRole in generated
    requires role in generated && (role == ServiceProfilingRole || role == IngressProfilingRole)
    ensures var plan := SchedulerStages(jobs, pruner);
            CronJobIff(defaulting, generated, plan, store, pruner) && Installed(defaulting, generated, plan, store, role)
  {
    var plan := SchedulerStages(jobs, pruner);
    SchedulerGated(jobs, pruner);
    SchedulerNames(jobs, pruner);
    CronJobEffect(defaulting, generated, plan, None, store, pruner);
    UpsertEffect(defaulting, generated, plan, None, store, role);
  }
}
