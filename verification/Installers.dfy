/** Reconciles in a row: the Reconcile methods, each on objects generated anew, with one client on one cluster. */
module Installers {
  import opened Api
  import opened ClusterRoles
  import opened Components
  import opened ExecutorPlans
  import opened InstallOrder
  import opened Jobs
  import opened LookoutStatus
  import opened Plans
  import Protocol = LookoutProtocol
  import opened Reconcilers
  import opened Sessions
  import opened Settling
  import opened Stages

  /** A controller with the flags of the object it reconciles, and for a Lookout its partition Job if it asks for one. */
  datatype Controller =
    | Lookout(dbPruningEnabled: Option<bool>, partition: Option<Item>)
    | ArmadaServer(pulsarInit: bool)
    | Scheduler(pruner: bool)
    | Executor
    | Binoculars

  function PlanOf(controller: Controller, jobs: nat, bindings: nat): seq<Stage> {
    match controller
    case Lookout(enabled, partition) => LookoutStages(jobs, enabled == Some(true), partition)
    case ArmadaServer(pulsarInit) => ArmadaServerStages(jobs, pulsarInit)
    case Scheduler(pruner) => SchedulerStages(jobs, pruner)
    case Executor => ExecutorStages(bindings)
    case Binoculars => BinocularsStages(bindings)
  }

  function PartitionOf(controller: Controller): Option<Item> {
    match controller
    case Lookout(_, partition) => partition
    case _ => None
  }

  /** How many Jobs gate what comes after them. */
  function GatesOf(controller: Controller, jobs: nat): nat {
    match controller
    case Lookout(_, _) => jobs
    case ArmadaServer(pulsarInit) => if pulsarInit then jobs else 0
    case Scheduler(_) => if jobs > 0 then 1 else 0
    case Executor => 0
    case Binoculars => 0
  }

  lemma WaitsForJobs(n: nat)
    ensures forall i: nat :: AwaitStage(i) in JobStages(n) <==> i < n
  {
    forall i: nat | i < n
      ensures AwaitStage(i) in JobStages(n)
    {
      assert JobStages(n)[2 * i + 1] == AwaitStage(i);
    }
  }

  lemma {:induction false} PlanIsGated(controller: Controller, jobs: nat, bindings: nat)
    ensures Gated(PlanOf(controller, jobs, bindings), GatesOf(controller, jobs))
    ensures OneStageEach(PlanOf(controller, jobs, bindings), PartitionOf(controller))
  {
    match controller
    case Lookout(enabled, partition) => LookoutGated(jobs, enabled == Some(true), partition);
    case ArmadaServer(pulsarInit) => ArmadaServerGated(jobs, pulsarInit);
    case Scheduler(pruner) => SchedulerGated(jobs, pruner);
    case Executor => UngatedPlans(bindings);
    case Binoculars => UngatedPlans(bindings);
  }

  /** And these are all Jobs it waits for. */
  lemma WaitsForItsGates(controller: Controller, jobs: nat, bindings: nat)
    ensures forall i: nat :: AwaitStage(i) in PlanOf(controller, jobs, bindings) <==> i < GatesOf(controller, jobs)
  {
    hide JobStages;
    WaitsForJobs(jobs);
    WaitsForJobs(1);
    WaitsForJobs(0);
  }

  /** A Lookout has a migration Job, and its partition Job is a Job. */
  predicate Suits(controller: Controller, jobs: nat) {
    controller.Lookout? ==> jobs > 0 && (controller.partition.Some? ==> controller.partition.value.key.kind == Kind.Job)
  }

  /** The one way to succeed without the whole plan: the migration Job was seen to have ended, but not Complete. */
  ghost predicate StoppedAtMigration(controller: Controller, h: History) {
    controller.Lookout? && controller.partition.Some? && 0 in h.observed && !HasTrue(h.observed[0], JobComplete)
  }

  /** The same controller, if it asked for no partition Job. */
  function Unpartitioned(controller: Controller): Controller {
    match controller
    case Lookout(enabled, _) => Lookout(enabled, None)
    case _ => controller
  }

  /** The stages a reconcile went through, and why it went no further. */
  ghost predicate Went(controller: Controller, jobs: nat, bindings: nat, failed: bool, h: History) {
    && h.stages <= PlanOf(controller, jobs, bindings)
    && (!failed ==>
          || h.stages == PlanOf(controller, jobs, bindings)
          || (StoppedAtMigration(controller, h) && h.stages == PlanOf(Unpartitioned(controller), jobs, bindings)))
  }

  /** What a reconcile that began with call `from` rests on: whatever was waited for was shown to have ended by the answer to
      a call of its own; it succeeds only if all its calls went through, and fails only because one did not, the API server
      refused the next stage or time was up, or, for a Lookout, its status update failed or came too late. */
  ghost predicate Accounts(controller: Controller, client: Client, generated: Generated, jobs: nat, bindings: nat, from: nat,
                           failed: bool, h: History, conflict: bool)
    reads client
  {
    && from <= client.calls
    && (forall i :: AwaitStage(i) in h.stages ==> i in h.observed)
    && (forall i :: i in h.observed ==>
          JobRole(i) in generated && Finished(h.observed[i]) && client.Saw(generated[JobRole(i)].key, from, h.observed[i]))
    && (if failed then client.Stops(generated, PlanOf(controller, jobs, bindings), from, h.stages) || (controller.Lookout? && conflict)
        else AllThrough(client.fate, from, client.calls))
  }

  lemma EndAccounts(controller: Controller, s: Session, plan: seq<Stage>, failed: bool, h: History, conflict: bool)
    requires s.Ended(h) && Within(plan, h) && plan <= PlanOf(controller, s.live.jobs, s.live.bindings)
    requires if failed then s.client.Stops(s.generated, plan, s.baseCalls, h.stages) || (controller.Lookout? && conflict)
             else AllThrough(s.client.fate, s.baseCalls, s.client.calls)
    ensures Accounts(controller, s.client, s.generated, s.live.jobs, s.live.bindings, s.baseCalls, failed, h, conflict)
  {
    if s.client.Stops(s.generated, plan, s.baseCalls, h.stages) {
      StopsToo(s.client, s.generated, plan, PlanOf(controller, s.live.jobs, s.live.bindings), s.baseCalls, h.stages);
    }
  }

  method ReconcileOther(controller: Controller, s: Session) returns (failed: bool, ghost h: History)
    requires s.Valid(NOTHING_DONE) && !controller.Lookout?
    modifies s.client, s.live, s.slots.Values
    ensures var plan := PlanOf(controller, s.live.jobs, s.live.bindings); Goes(s, plan, |plan|, failed, h)
  {
    hide Session.Valid, Session.Ended, Client.Stops, At, Within, ArmadaServerStages, SchedulerStages, ExecutorStages, BinocularsStages;
    match controller {
      case ArmadaServer(pulsarInit) => failed, h := ReconcileArmadaServer(s, pulsarInit);
      case Scheduler(pruner) => failed, h := ReconcileScheduler(s, pruner);
      case Executor => failed, h := ReconcileExecutor(s);
      case Binoculars => failed, h := ReconcileBinoculars(s);
    }
  }

  lemma LookoutWent(controller: Controller, jobs: nat, bindings: nat, failed: bool, h: History)
    requires controller.Lookout?
    requires Within(LookoutStages(jobs, controller.dbPruningEnabled == Some(true), Wanted(controller.partition, h)), h)
    requires !failed ==>
               && 0 in h.observed
               && h.stages == LookoutStages(jobs, controller.dbPruningEnabled == Some(true), Wanted(controller.partition, h))
    ensures Went(controller, jobs, bindings, failed, h)
    ensures LookoutStages(jobs, controller.dbPruningEnabled == Some(true), Wanted(controller.partition, h))
            <= PlanOf(controller, jobs, bindings)
  {
    if Wanted(controller.partition, h).None? {
      LookoutPrefix(jobs, controller.dbPruningEnabled == Some(true), LookoutStages(jobs, controller.dbPruningEnabled == Some(true), None), controller.partition);
      LookoutPrefix(jobs, controller.dbPruningEnabled == Some(true), h.stages, controller.partition);
    }
  }

  method Reconcile(controller: Controller, s: Session, lookout: LookoutObject, server: LookoutServer,
                   meanwhile: seq<Option<Protocol.Lookout>>)
    returns (failed: bool, ghost h: History)
    requires s.Valid(NOTHING_DONE) && Suits(controller, s.live.jobs)
    modifies s.client, s.live, s.slots.Values, lookout, server
    ensures s.StoreIs(h.stages, s.client.store, s.client.log)
    ensures Went(controller, s.live.jobs, s.live.bindings, failed, h)
    ensures Accounts(controller, s.client, s.generated, s.live.jobs, s.live.bindings, s.baseCalls, failed, h,
                     Conflicts(lookout.version, server, old(server.calls), |old(server.lookouts) + meanwhile|))
  {
    hide Session.StoreIs, Session.Witnessed, Session.Consistent, Client.Stops, LookoutStages, PlanOf, Went, Wanted, StatusLeft, Accounts, Goes, Within;
    ghost var conflict := false;
    if controller.Lookout? {
      ghost var read;
      failed, h, read := ReconcileLookout(s, lookout, server, controller.dbPruningEnabled, controller.partition, meanwhile);
      LookoutWent(controller, s.live.jobs, s.live.bindings, failed, h);
      EndAccounts(controller, s, LookoutStages(s.live.jobs, controller.dbPruningEnabled == Some(true), Wanted(controller.partition, h)),
                  failed, h, Conflicts(lookout.version, server, old(server.calls), |old(server.lookouts) + meanwhile|));
    } else {
      failed, h := ReconcileOther(controller, s);
      OtherWent(controller, s, failed, h, Conflicts(lookout.version, server, old(server.calls), |old(server.lookouts) + meanwhile|));
    }
  }

  lemma OtherWent(controller: Controller, s: Session, failed: bool, h: History, conflict: bool)
    requires var plan := PlanOf(controller, s.live.jobs, s.live.bindings); Goes(s, plan, |plan|, failed, h)
    ensures s.Ended(h) && Went(controller, s.live.jobs, s.live.bindings, failed, h)
    ensures Accounts(controller, s.client, s.generated, s.live.jobs, s.live.bindings, s.baseCalls, failed, h, conflict)
  {
    hide Session.Consistent, Session.StoreIs, Client.Stops, PlanOf;
    ghost var plan := PlanOf(controller, s.live.jobs, s.live.bindings);
    FailsIffStopped(s, plan, failed, h);
    EndAccounts(controller, s, plan, failed, h, conflict);
  }

  /** No call touches anything but what may precede Job `i` before that Job was seen to have ended, for the first `n` Jobs. */
  ghost predicate InOrder(generated: Generated, n: nat, calls: seq<Call>) {
    forall p, i | 0 <= p < |calls| && 0 <= i < n && JobRole(i) in generated
                  && !calls[p].Passed? && !MayPrecede(generated, calls[p].key, i) ::
      PassedWithin(calls, p, generated[JobRole(i)].key)
  }

  /** What an attempt that went through `done` has done to the cluster, and in which order. */
  ghost predicate Did(controller: Controller, jobs: nat, defaulting: Defaulting, generated: Generated, done: seq<Stage>,
                      store: Store, log: seq<Call>, store': Store, log': seq<Call>) {
    var ops := Ops(generated, done);
    && Possible(defaulting, ops, store)
    && store' == Run(defaulting, ops, store)
    && log' == log + Calls(defaulting, ops, store)
    && InOrder(generated, GatesOf(controller, jobs), Calls(defaulting, ops, store))
  }

  lemma {:induction false} AttemptInOrder(controller: Controller, jobs: nat, bindings: nat, generated: Generated, defaulting: Defaulting,
                       done: seq<Stage>, store: Store, log: seq<Call>, store': Store, log': seq<Call>)
    requires done <= PlanOf(controller, jobs, bindings)
    requires Possible(defaulting, Ops(generated, done), store)
    requires store' == Run(defaulting, Ops(generated, done), store)
    requires log' == log + Calls(defaulting, Ops(generated, done), store)
    ensures Did(controller, jobs, defaulting, generated, done, store, log, store', log')
  {
    var plan, n, calls := PlanOf(controller, jobs, bindings), GatesOf(controller, jobs), Calls(defaulting, Ops(generated, done), store);
    PlanIsGated(controller, jobs, bindings);
    forall p, i | 0 <= p < |calls| && 0 <= i < n && JobRole(i) in generated
                  && !calls[p].Passed? && !MayPrecede(generated, calls[p].key, i)
      ensures PassedWithin(calls, p, generated[JobRole(i)].key)
    {
      WritesFollowGates(defaulting, generated, plan, n, done, store, p, i);
    }
  }

  /** What a generator produces: every component under a key of its kind, bindings and Jobs numbered from zero. */
  ghost predicate Complete(generated: Generated, bindings: nat, jobs: nat) {
    && {SecretRole, DeploymentRole} <= generated.Keys
    && (forall role {:trigger KindOf(role)} :: role in generated ==> generated[role].key.kind == KindOf(role))
    && (forall i: nat :: BindingRole(i) in generated <==> i < bindings)
    && (forall i: nat :: JobRole(i) in generated <==> i < jobs)
  }

  method NewObject(role: Role, item: Item) returns (o: ApiObject)
    ensures fresh(o) && o.role == role && o.key == item.key && o.Value() == item.value
    ensures fresh(o.content) && fresh(o.labels) && fresh(o.annotations)
  {
    var labels := new Cell(item.value.managed.labels);
    var annotations := new Cell(item.value.managed.annotations);
    var content := new Cell(item.value.managed.content);
    o := new ApiObject(role, item.key, labels, annotations, content, item.value.rest);
  }

  ghost predicate Carries(o: ApiObject, role: Role, item: Item)
    reads o, o.labels, o.annotations, o.content
  {
    o.role == role && o.key == item.key && o.Value() == item.value
  }

  lemma ItemsOf(slots: map<Role, ApiObject>, generated: Generated)
    requires slots.Keys == generated.Keys && forall role :: role in slots ==> Carries(slots[role], role, generated[role])
    ensures Items(slots, ViewOf(slots)) == generated
  {
  }

  /** The objects of one reconcile. */
  method Generate(generated: Generated, bindings: nat, jobs: nat) returns (live: CommonComponents)
    requires Complete(generated, bindings, jobs)
    ensures fresh(live) && fresh(live.slots.Values) && live.Typed() && live.slots.Keys == generated.Keys
    ensures live.jobs == jobs && live.bindings == bindings && Items(live.slots, ViewOf(live.slots)) == generated
  {
    var slots: map<Role, ApiObject>, todo := map[], generated.Keys;
    while todo != {}
      invariant slots.Keys + todo == generated.Keys && slots.Keys !! todo
      invariant forall role :: role in slots ==> fresh(slots[role]) && Carries(slots[role], role, generated[role])
    {
      var role :| role in todo;
      var o := NewObject(role, generated[role]);
      slots, todo := slots[role := o], todo - {role};
    }
    live := new CommonComponents(slots, bindings, jobs);
    ItemsOf(slots, generated);
  }

  /** The version of a Lookout that a reconcile reads from the cache, and what the user writes to it until the report. */
  datatype Turn = Turn(version: nat, held: Protocol.Lookout, meanwhile: seq<Option<Protocol.Lookout>>)

  /** Where a reconcile begins: how many calls and status updates there have been, and how many versions of the Lookout there
      are when it comes to report. */
  datatype Beginning = Beginning(calls: nat, updates: nat, versions: nat)

  /** The reconcile of objects that have been generated. */
  method Work(controller: Controller, client: Client, live: CommonComponents, lookout: LookoutObject, server: LookoutServer,
              meanwhile: seq<Option<Protocol.Lookout>>)
    returns (failed: bool, ghost h: History)
    requires live.Typed() && {SecretRole, DeploymentRole} <= live.slots.Keys && Suits(controller, live.jobs)
    modifies client, live, live.slots.Values, lookout, server
    ensures Went(controller, live.jobs, live.bindings, failed, h)
    ensures Did(controller, live.jobs, client.defaulting, old(Items(live.slots, ViewOf(live.slots))), h.stages,
                old(client.store), old(client.log), client.store, client.log)
    ensures Accounts(controller, client, old(Items(live.slots, ViewOf(live.slots))), live.jobs, live.bindings, old(client.calls), failed, h,
                     Conflicts(lookout.version, server, old(server.calls), |old(server.lookouts) + meanwhile|))
  {
    hide Did, Calls, Run, Ops, Possible, Accounts, Conflicts;
    ghost var generated := Items(live.slots, ViewOf(live.slots));
    var s := Begin(client, live);
    assert s.generated == generated;
    failed, h := Reconcile(controller, s, lookout, server, meanwhile);
    s.StoreIsRun(h.stages, client.store, client.log);
    AttemptInOrder(controller, live.jobs, live.bindings, generated, client.defaulting, h.stages, s.base, s.baseLog,
                   client.store, client.log);
  }

  /** One reconcile from beginning to end, on objects generated anew, with whatever version of a Lookout it read. */
  method Attempt(controller: Controller, client: Client, generated: Generated, bindings: nat, jobs: nat, server: LookoutServer, turn: Turn)
    returns (failed: bool, ghost h: History)
    requires Complete(generated, bindings, jobs) && Suits(controller, jobs)
    modifies client, server
    ensures Went(controller, jobs, bindings, failed, h)
    ensures Did(controller, jobs, client.defaulting, generated, h.stages, old(client.store), old(client.log), client.store, client.log)
    ensures Accounts(controller, client, generated, jobs, bindings, old(client.calls), failed, h,
                     Conflicts(turn.version, server, old(server.calls), |old(server.lookouts) + turn.meanwhile|))
  {
    hide Did, Went, Accounts, Conflicts;
    var lookout := new LookoutObject(turn.version, turn.held);
    var live := Generate(generated, bindings, jobs);
    failed, h := Work(controller, client, live, lookout, server, turn.meanwhile);
  }

  ghost predicate AllWithin(tries: seq<seq<Stage>>, plan: seq<Stage>) {
    forall k :: 0 <= k < |tries| ==> tries[k] <= plan
  }

  lemma NothingTried(defaulting: Defaulting, generated: Generated, plan: seq<Stage>, store: Store)
    ensures AllWithin([], plan) && RunReconciles(defaulting, generated, [], store) == store
  {
  }

  lemma TriedAgain(defaulting: Defaulting, generated: Generated, plan: seq<Stage>, tries: seq<seq<Stage>>, done: seq<Stage>, store: Store)
    requires AllWithin(tries, plan) && done <= plan
    ensures AllWithin(tries + [done], plan)
    ensures RunReconciles(defaulting, generated, tries + [done], store) ==
            Run(defaulting, Ops(generated, done), RunReconciles(defaulting, generated, tries, store))
  {
    assert (tries + [done])[..|tries|] == tries;
  }

  /** The partition Job is the last to be installed, and nothing else touches it. */
  lemma PartitionLast(defaulting: Defaulting, generated: Generated, jobs: nat, pruning: bool, job: Item, done: seq<Stage>, store: Store)
    requires WellNamed(generated, Some(job)) && done <= LookoutStages(jobs, pruning, None)
    ensures Lookup(Run(defaulting, Ops(generated, done), store), job.key) == Lookup(store, job.key)
    ensures var after := Run(defaulting, Ops(generated, LookoutStages(jobs, pruning, Some(job))), store);
            && job.key in after
            && (job.key in store ==> after == Run(defaulting, Ops(generated, LookoutStages(jobs, pruning, None)), store))
  {
    hide LookoutStages, Ops, Run, OneStageEach;
    var short := LookoutStages(jobs, pruning, None);
    LookoutPrefix(jobs, pruning, short, Some(job));
    LookoutOneStageEach(jobs, pruning, None);
    PartitionUntouched(defaulting, generated, short, job, done, store);
    PartitionUntouched(defaulting, generated, short, job, short, store);
    OpsSnoc(generated, short, PartitionStage(job));
    RunSnoc(defaulting, Ops(generated, short), Upsert(job.key, job.value), store);
  }

  lemma PartitionUntouched(defaulting: Defaulting, generated: Generated, plan: seq<Stage>, job: Item, done: seq<Stage>, store: Store)
    requires WellNamed(generated, Some(job)) && OneStageEach(plan, None) && done <= plan
    ensures Lookup(Run(defaulting, Ops(generated, done), store), job.key) == Lookup(store, job.key)
  {
    OpsMonotone(generated, done, plan);
    forall op | op in Ops(generated, done)
      ensures !Touches(op, job.key)
    {
      var stage := OpHasStage(generated, plan, op);
    }
    Frame(defaulting, Ops(generated, done), store, job.key);
  }

  lemma PrefixOrAll(done: seq<Stage>, short: seq<Stage>, stage: Stage)
    requires done <= short + [stage]
    ensures done <= short || done == short + [stage]
  {
  }

  /** Reconciles that never came to the partition Job, or one that did and so left a Job. */
  lemma {:induction false} CameToPartition(defaulting: Defaulting, generated: Generated, jobs: nat, pruning: bool, job: Item,
                                           tries: seq<seq<Stage>>, store: Store)
    requires WellNamed(generated, Some(job)) && AllWithin(tries, LookoutStages(jobs, pruning, Some(job)))
    ensures AllWithin(tries, LookoutStages(jobs, pruning, None)) || job.key in RunReconciles(defaulting, generated, tries, store)
  {
    hide LookoutStages, WellNamed, Run, Ops;
    if tries != [] {
      var before, last := tries[..|tries| - 1], tries[|tries| - 1];
      var short, middle := LookoutStages(jobs, pruning, None), RunReconciles(defaulting, generated, before, store);
      CameToPartition(defaulting, generated, jobs, pruning, job, before, store);
      LookoutPrefix(jobs, pruning, short, Some(job));
      PrefixOrAll(last, short, PartitionStage(job));
      PartitionLast(defaulting, generated, jobs, pruning, job, if last <= short then last else short, middle);
    }
  }

  /** Reconciles of a Lookout that asks for a partition Job, and a last one that does not come to it: if there is a
      partition Job the cluster is as after one reconcile that does, otherwise as after one that does not. */
  lemma StoppedShort(defaulting: Defaulting, generated: Generated, jobs: nat, pruning: bool, job: Item, tries: seq<seq<Stage>>, store: Store)
    requires WellNamed(generated, Some(job)) && AllWithin(tries, LookoutStages(jobs, pruning, Some(job)))
    ensures var after := Run(defaulting, Ops(generated, LookoutStages(jobs, pruning, None)), RunReconciles(defaulting, generated, tries, store));
            after == Run(defaulting, Ops(generated, LookoutStages(jobs, pruning, if job.key in after then Some(job) else None)), store)
  {
    hide LookoutStages, WellNamed, Run, Ops, OneStageEach;
    var short, full := LookoutStages(jobs, pruning, None), LookoutStages(jobs, pruning, Some(job));
    var middle := RunReconciles(defaulting, generated, tries, store);
    CameToPartition(defaulting, generated, jobs, pruning, job, tries, store);
    PartitionLast(defaulting, generated, jobs, pruning, job, short, middle);
    if job.key in middle {
      LookoutOneStageEach(jobs, pruning, Some(job));
      ReconcileConfluence(defaulting, generated, full, Some(job), tries, store);
    } else {
      LookoutOneStageEach(jobs, pruning, None);
      WellNamedWithout(generated, job);
      ReconcileConfluence(defaulting, generated, short, None, tries, store);
    }
  }

  lemma WellNamedWithout(generated: Generated, job: Item)
    requires WellNamed(generated, Some(job))
    ensures WellNamed(generated, None)
  {
  }

  /** What a reconcile that succeeds has installed, now or earlier: everything, except a partition Job that is not there. */
  function Reached(controller: Controller, store: Store): Controller {
    var partition := PartitionOf(controller);
    if partition.Some? && partition.value.key !in store then Unpartitioned(controller) else controller
  }

  /** The last of a number of reconciles succeeds. */
  lemma LastSucceeds(controller: Controller, jobs: nat, bindings: nat, defaulting: Defaulting, generated: Generated,
                     tries: seq<seq<Stage>>, h: History, store: Store)
    requires WellNamed(generated, PartitionOf(controller)) && AllWithin(tries, PlanOf(controller, jobs, bindings))
    requires Went(controller, jobs, bindings, false, h)
    ensures var after := Run(defaulting, Ops(generated, h.stages), RunReconciles(defaulting, generated, tries, store));
            after == Run(defaulting, Ops(generated, PlanOf(Reached(controller, after), jobs, bindings)), store)
  {
    hide WellNamed, Run, Ops, RunReconciles, OneStageEach, Gated;
    var plan, middle := PlanOf(controller, jobs, bindings), RunReconciles(defaulting, generated, tries, store);
    if h.stages == plan {
      PlanIsGated(controller, jobs, bindings);
      ReconcileConfluence(defaulting, generated, plan, PartitionOf(controller), tries, store);
      if PartitionOf(controller).Some? {
        var pruning := controller.dbPruningEnabled == Some(true);
        PartitionLast(defaulting, generated, jobs, pruning, controller.partition.value, LookoutStages(jobs, pruning, None), middle);
      }
    } else {
      StoppedShort(defaulting, generated, jobs, controller.dbPruningEnabled == Some(true), controller.partition.value, tries, store);
    }
  }

  // ---- When a reconcile succeeds ----

  /** From a call on, every call goes through and no wait for a stored Job times out. */
  ghost predicate Smooth(client: Client, generated: Generated, from: nat) {
    && (forall n :: from <= n ==> client.fate(n) == Through)
    && (forall i: nat, start: nat, made: nat :: JobRole(i) in generated && from <= start ==>
          !TimesOut(client, generated[JobRole(i)].key, start, made))
  }

  ghost predicate TimesOut(client: Client, key: Key, start: nat, made: nat) {
    WaitOutcome(PollAnswers(client.fate, client.status, key, true, start),
                MinNat(JOB_TIMEOUT / JOB_POLL_INTERVAL, client.patience(start)), made, TimedOut)
  }

  /** Nothing stops a reconcile whose calls go through, whose Jobs end in time and whose plan the API server lets through. */
  lemma NothingStops(client: Client, generated: Generated, plan: seq<Stage>, from: nat, done: seq<Stage>, base: Store)
    requires Smooth(client, generated, from) && from <= client.calls && done <= plan
    requires Possible(client.defaulting, Ops(generated, plan), base) && client.store == Run(client.defaulting, Ops(generated, done), base)
    ensures !client.Stops(generated, plan, from, done)
  {
    hide Possible, Run, Ops, Smooth, AllThrough, Client.Waited;
    ThroughFrom(client, generated, from);
    if |done| < |plan| {
      var next := plan[|done|];
      assert plan[..|done| + 1] == done + [next];
      OpsMonotone(generated, done + [next], plan);
      PossiblePrefix(client.defaulting, Ops(generated, plan), Ops(generated, done + [next]), base);
      NextIsAccepted(client.defaulting, generated, done, next, base);
      if next.AwaitStage? && JobRole(next.index) in generated && generated[JobRole(next.index)].key in client.store {
        EndsInTime(client, generated, from, next.index);
      }
    }
  }

  lemma ThroughFrom(client: Client, generated: Generated, from: nat)
    requires Smooth(client, generated, from)
    ensures AllThrough(client.fate, from, client.calls)
  {
  }

  lemma EndsInTime(client: Client, generated: Generated, from: nat, i: nat)
    requires Smooth(client, generated, from) && JobRole(i) in generated && generated[JobRole(i)].key in client.store
    ensures forall start :: from <= start <= client.calls ==> !client.Waited(generated[JobRole(i)].key, start, client.calls, TimedOut)
  {
    var key := generated[JobRole(i)].key;
    forall start | from <= start <= client.calls
      ensures !client.Waited(key, start, client.calls, TimedOut)
    {
      assert !TimesOut(client, key, start, client.calls - start);
    }
  }

  lemma NextIsAccepted(defaulting: Defaulting, generated: Generated, done: seq<Stage>, next: Stage, base: Store)
    requires Possible(defaulting, Ops(generated, done + [next]), base)
    ensures OpsOf(generated, next) != [] ==> Accepted(OpsOf(generated, next)[0], Run(defaulting, Ops(generated, done), base))
  {
    OpsSnoc(generated, done, next);
    if OpsOf(generated, next) != [] {
      assert OpsOf(generated, next) == [OpsOf(generated, next)[0]];
      RunSnoc(defaulting, Ops(generated, done), OpsOf(generated, next)[0], base);
    }
  }

  /** Earlier attempts are no obstacle for the last one. */
  lemma {:induction false} StillPossible(defaulting: Defaulting, generated: Generated, plan: seq<Stage>, partition: Option<Item>,
                                         tries: seq<seq<Stage>>, store: Store)
    requires KeepsRoleRefs(defaulting) && WellNamed(generated, partition) && OneStageEach(plan, partition) && AllWithin(tries, plan)
    requires Possible(defaulting, Ops(generated, plan), store)
    ensures Possible(defaulting, Ops(generated, plan), RunReconciles(defaulting, generated, tries, store))
  {
    if tries != [] {
      var before, last := tries[..|tries| - 1], tries[|tries| - 1];
      var middle := RunReconciles(defaulting, generated, before, store);
      StillPossible(defaulting, generated, plan, partition, before, store);
      OpsMonotone(generated, last, plan);
      PossiblePrefix(defaulting, Ops(generated, plan), Ops(generated, last), middle);
      BindingsStay(generated, plan, partition);
      AbortedIsNoObstacle(defaulting, Ops(generated, plan), Ops(generated, last), middle);
    }
  }

  lemma BindingsStay(generated: Generated, plan: seq<Stage>, partition: Option<Item>)
    requires WellNamed(generated, partition) && OneStageEach(plan, partition)
    ensures NoBindingRemoved(Ops(generated, plan))
  {
    forall op | op in Ops(generated, plan) && op.Remove?
      ensures op.key.kind != ClusterRoleBinding
    {
      var stage := OpHasStage(generated, plan, op);
    }
  }

  /** Any number of reconciles of one object, with any failures, and one more: when the last one succeeds, the
      cluster is as after a single reconcile that does, one without the partition Job only if there is none; and
      it is so too when the last one goes through the whole plan and yet fails. If the API server lets the plan through on
      the cluster first found, the last one succeeds as soon as its own calls go through and its Jobs end in time. */
  method Install(controller: Controller, client: Client, generated: Generated, bindings: nat, jobs: nat,
                 server: LookoutServer, turns: nat -> Turn, attempts: nat)
    returns (failed: bool, ghost h: History, ghost last: Beginning)
    requires Complete(generated, bindings, jobs) && Suits(controller, jobs) && WellNamed(generated, PartitionOf(controller))
    modifies client, server
    ensures Went(controller, jobs, bindings, failed, h)
    ensures Accounts(controller, client, generated, jobs, bindings, last.calls, failed, h,
                     Conflicts(turns(attempts).version, server, last.updates, last.versions))
    ensures h.stages == PlanOf(controller, jobs, bindings) ==>
              client.store == Run(client.defaulting, Ops(generated, PlanOf(controller, jobs, bindings)), old(client.store))
    ensures !failed ==>
              client.store == Run(client.defaulting, Ops(generated, PlanOf(Reached(controller, client.store), jobs, bindings)), old(client.store))
    ensures KeepsRoleRefs(client.defaulting) && Smooth(client, generated, last.calls)
            && Possible(client.defaulting, Ops(generated, PlanOf(controller, jobs, bindings)), old(client.store)) ==>
              !failed || (controller.Lookout? && Conflicts(turns(attempts).version, server, last.updates, last.versions))
  {
    hide PlanOf, Run, RunReconciles, Ops, Calls, Possible, InOrder, WellNamed, Complete, Suits, Went, Reached, Unpartitioned,
         Accounts, Conflicts, Smooth, KeepsRoleRefs;
    ghost var store, tries: seq<seq<Stage>> := client.store, [];
    ghost var plan := PlanOf(controller, jobs, bindings);
    NothingTried(client.defaulting, generated, plan, store);
    for i := 0 to attempts
      invariant AllWithin(tries, plan) && client.store == RunReconciles(client.defaulting, generated, tries, store)
    {
      failed, h := Attempt(controller, client, generated, bindings, jobs, server, turns(i));
      WentWithin(controller, jobs, bindings, failed, h);
      TriedAgain(client.defaulting, generated, plan, tries, h.stages, store);
      tries := tries + [h.stages];
    }
    ghost var found := client.store;
    last := Beginning(client.calls, server.calls, |server.lookouts + turns(attempts).meanwhile|);
    failed, h := Attempt(controller, client, generated, bindings, jobs, server, turns(attempts));
    PlanIsGated(controller, jobs, bindings);
    ReconcileConfluence(client.defaulting, generated, plan, PartitionOf(controller), tries, store);
    if !failed {
      LastSucceeds(controller, jobs, bindings, client.defaulting, generated, tries, h, store);
    } else if KeepsRoleRefs(client.defaulting) && Smooth(client, generated, last.calls) && Possible(client.defaulting, Ops(generated, plan), store) {
      StillPossible(client.defaulting, generated, plan, PartitionOf(controller), tries, store);
      WentWithin(controller, jobs, bindings, failed, h);
      HasReason(controller, client, generated, jobs, bindings, last.calls, h,
                Conflicts(turns(attempts).version, server, last.updates, last.versions));
      NothingStops(client, generated, plan, last.calls, h.stages, found);
    }
  }

  lemma HasReason(controller: Controller, client: Client, generated: Generated, jobs: nat, bindings: nat, from: nat, h: History, conflict: bool)
    requires Accounts(controller, client, generated, jobs, bindings, from, true, h, conflict)
    ensures from <= client.calls
    ensures client.Stops(generated, PlanOf(controller, jobs, bindings), from, h.stages) || (controller.Lookout? && conflict)
  {
  }

  lemma WentWithin(controller: Controller, jobs: nat, bindings: nat, failed: bool, h: History)
    requires Went(controller, jobs, bindings, failed, h)
    ensures h.stages <= PlanOf(controller, jobs, bindings)
  {
  }

  // ---- A spec that clashes never gets its Deployment ----

  lemma DeploymentUntouched(defaulting: Defaulting, generated: Generated, bindings: seq<Binding>, labels: map<string, string>,
                            done: seq<Stage>, store: Store)
    requires Generates(generated, bindings, labels) && DeploymentRole in generated
    requires (forall stage :: stage in done ==> stage.UpsertStage?) && UpsertStage(DeploymentRole) !in done
    ensures Lookup(Run(defaulting, Ops(generated, done), store), generated[DeploymentRole].key) ==
            Lookup(store, generated[DeploymentRole].key)
  {
    forall op | op in Ops(generated, done)
      ensures !Touches(op, generated[DeploymentRole].key)
    {
      var stage := OpHasStage(generated, done, op);
    }
    Frame(defaulting, Ops(generated, done), store, generated[DeploymentRole].key);
  }

  lemma DeploymentIsPlanned(bindings: nat, done: seq<Stage>)
    requires done <= ExecutorStages(bindings)
    ensures UpsertStage(DeploymentRole) in ExecutorStages(bindings)
    ensures forall stage :: stage in done ==> stage.UpsertStage?
  {
    assert ExecutorStages(bindings)[bindings + 3] == UpsertStage(DeploymentRole);
    ExecutorCovers(bindings);
    assert forall stage :: stage in done ==> stage in ExecutorStages(bindings);
  }

  /** One reconcile of an Executor that clashes. */
  lemma ClashingAttemptFails(defaulting: Defaulting, generated: Generated, name: string, namespace: string, spec: ExecutorSpec,
                             labels: map<string, string>, jobs: nat, failed: bool, h: History,
                             store: Store, log: seq<Call>, store': Store, log': seq<Call>)
    requires KeepsRoleRefs(defaulting) && Generates(generated, BindingsOf(name, namespace, spec), labels)
    requires DeploymentRole in generated && Clashes(name, namespace, spec, store)
    requires Went(Controller.Executor, jobs, |BindingsOf(name, namespace, spec)|, failed, h)
    requires Did(Controller.Executor, jobs, defaulting, generated, h.stages, store, log, store', log')
    ensures failed && Clashes(name, namespace, spec, store')
    ensures Lookup(store', generated[DeploymentRole].key) == Lookup(store, generated[DeploymentRole].key)
  {
    hide Generates, ExecutorStages, BindingsOf, Clashes, KeepsRoleRefs, Ops, Run, Calls, Possible, InOrder;
    ClashStopsTheInstall(defaulting, generated, name, namespace, spec, labels, store, h.stages);
    ClashStays(defaulting, generated, name, namespace, spec, labels, store, h.stages);
    DeploymentIsPlanned(|BindingsOf(name, namespace, spec)|, h.stages);
    DeploymentUntouched(defaulting, generated, BindingsOf(name, namespace, spec), labels, h.stages, store);
  }

  lemma DeploymentGenerated(generated: Generated, bindings: nat, jobs: nat)
    requires Complete(generated, bindings, jobs)
    ensures DeploymentRole in generated
  {
  }

  /** However often an Executor that clashes is reconciled, and whatever else fails, every reconcile fails, it clashes
      as before, and the Deployment stays as it was found. */
  method InstallClashing(client: Client, generated: Generated, name: string, namespace: string, spec: ExecutorSpec,
                         labels: map<string, string>, jobs: nat, server: LookoutServer, turns: nat -> Turn, attempts: nat)
    returns (failures: nat)
    requires Complete(generated, |BindingsOf(name, namespace, spec)|, jobs)
    requires Generates(generated, BindingsOf(name, namespace, spec), labels) && KeepsRoleRefs(client.defaulting)
    requires Clashes(name, namespace, spec, client.store)
    modifies client, server
    ensures failures == attempts && Clashes(name, namespace, spec, client.store)
    ensures Lookup(client.store, generated[DeploymentRole].key) == old(Lookup(client.store, generated[DeploymentRole].key))
  {
    hide Went, Did, Accounts, Conflicts, Complete, Generates, Clashes, KeepsRoleRefs, BindingsOf;
    DeploymentGenerated(generated, |BindingsOf(name, namespace, spec)|, jobs);
    failures := 0;
    for i := 0 to attempts
      invariant failures == i && Clashes(name, namespace, spec, client.store)
      invariant Lookup(client.store, generated[DeploymentRole].key) == old(Lookup(client.store, generated[DeploymentRole].key))
    {
      ghost var store, log := client.store, client.log;
      var failed: bool;
      ghost var h: History;
      failed, h := Attempt(Controller.Executor, client, generated, |BindingsOf(name, namespace, spec)|, jobs, server, turns(i));
      ClashingAttemptFails(client.defaulting, generated, name, namespace, spec, labels, jobs, failed, h, store, log,
                           client.store, client.log);
      if failed {
        failures := failures + 1;
      }
    }
  }
}
