/** The objects a reconcile generates, their snapshot, and the function that resets the ones from the other. */
module Components {
  import opened Api
  import opened Jobs

  datatype Role =
    | DeploymentRole
    | IngressGrpcRole
    | IngressHttpRole
    | IngressProfilingRole
    | ServiceRole
    | ServiceProfilingRole
    | ServiceAccountRole
    | SecretRole
    | ClusterRoleRole
    | BindingRole(index: nat)
    | PrometheusRuleRole
    | ServiceMonitorRole
    | PodDisruptionBudgetRole
    | JobRole(index: nat)
    | CronJobRole

  function KindOf(role: Role): Kind {
    match role
    case DeploymentRole => Deployment
    case IngressGrpcRole => Ingress
    case IngressHttpRole => Ingress
    case IngressProfilingRole => Ingress
    case ServiceRole => Service
    case ServiceProfilingRole => Service
    case ServiceAccountRole => ServiceAccount
    case SecretRole => Secret
    case ClusterRoleRole => ClusterRole
    case BindingRole(_) => ClusterRoleBinding
    case PrometheusRuleRole => PrometheusRule
    case ServiceMonitorRole => ServiceMonitor
    case PodDisruptionBudgetRole => PodDisruptionBudget
    case JobRole(_) => Job
    case CronJobRole => CronJob
  }

  /** The data behind a Go map, slice or nested pointer: assigning the field shares the cell. */
  class Cell<T> {
    var value: T

    constructor (value: T)
      ensures this.value == value
    {
      this.value := value;
    }
  }

  type Strings = Cell?<map<string, string>>

  function Entries(strings: Strings): map<string, string>
    reads strings
  {
    if strings == null then map[] else strings.value
  }

  method CopyStrings(strings: Strings) returns (copy: Strings)
    ensures copy == null <==> strings == null
    ensures copy != null ==> fresh(copy) && copy.value == strings.value
  {
    if strings == null {
      return null;
    }
    copy := new Cell(strings.value);
  }

  /** One generated object. `rest` and a Job's `conditions` are not managed by the operator. */
  class ApiObject {
    const role: Role
    const key: Key
    var labels: Strings
    var annotations: Strings
    var content: Cell<Content>
    var rest: string
    var conditions: seq<JobCondition>

    constructor (role: Role, key: Key, labels: Strings, annotations: Strings, content: Cell<Content>, rest: string)
      ensures this.role == role && this.key == key && this.labels == labels && this.annotations == annotations
      ensures this.content == content && this.rest == rest && this.conditions == []
    {
      this.role, this.key := role, key;
      this.labels, this.annotations, this.content := labels, annotations, content;
      this.rest, this.conditions := rest, [];
    }

    function Value(): Object
      reads this, labels, annotations, content
    {
      Object(Managed(Entries(labels), Entries(annotations), content.value), rest)
    }

    method DeepCopy() returns (copy: ApiObject)
      ensures fresh(copy) && copy.role == role && copy.key == key
      ensures copy.Value() == Value() && copy.conditions == conditions
      ensures (copy.labels == null <==> labels == null) && (copy.annotations == null <==> annotations == null)
      ensures fresh(copy.content) && (copy.labels != null ==> fresh(copy.labels)) && (copy.annotations != null ==> fresh(copy.annotations))
    {
      var l := CopyStrings(labels);
      var a := CopyStrings(annotations);
      var c := new Cell(content.value);
      copy := new ApiObject(role, key, l, a, c, rest);
      copy.conditions := conditions;
    }

    /** A read from the cluster replaces every field; nothing is written through the old ones. */
    method Replace(value: Object, conditions: seq<JobCondition>)
      modifies this
      ensures Value() == value && this.conditions == conditions
      ensures fresh(content) && fresh(labels) && fresh(annotations)
    {
      labels := new Cell(value.managed.labels);
      annotations := new Cell(value.managed.annotations);
      content := new Cell(value.managed.content);
      rest := value.rest;
      this.conditions := conditions;
    }

    /** The managed fields now share their data with the source's. */
    method Share(source: ApiObject)
      modifies `labels, `annotations, `content
      ensures labels == old(source.labels) && annotations == old(source.annotations) && content == old(source.content)
    {
      labels, annotations, content := source.labels, source.annotations, source.content;
    }
  }

  twostate predicate SeparateCopy(new copy: ApiObject, source: ApiObject)
    reads copy, copy.labels, copy.annotations, copy.content, source, source.labels, source.annotations, source.content
  {
    && copy.role == source.role && copy.key == source.key && copy.Value() == source.Value()
    && copy.conditions == source.conditions
    && fresh(copy.content) && (copy.labels != null ==> fresh(copy.labels)) && (copy.annotations != null ==> fresh(copy.annotations))
  }

  ghost predicate SharesWith(live: ApiObject, snapshot: ApiObject)
    reads live, snapshot
  {
    live.labels == snapshot.labels && live.annotations == snapshot.annotations && live.content == snapshot.content
  }

  /** The roles whose managed fields ReconcileComponents resets. */
  predicate Resets(role: Role) {
    !role.JobRole? && !role.PrometheusRuleRole? && !role.ServiceMonitorRole?
  }

  lemma ResetsByKind(role: Role)
    ensures Resets(role) <==> ResetKind(KindOf(role))
  {
  }

  ghost predicate Apart(live: map<Role, ApiObject>, snapshot: map<Role, ApiObject>) {
    forall a, b :: a in live && b in snapshot ==> live[a] != snapshot[b]
  }

  /** Every object sits in the slot of its role, so no two slots share an object, and the two slices have no nil. */
  ghost predicate TypedSlots(slots: map<Role, ApiObject>, bindings: nat, jobs: nat) {
    && (forall role :: role in slots ==> slots[role].role == role)
    && (forall role {:trigger KindOf(role)} :: role in slots ==> slots[role].key.kind == KindOf(role))
    && (forall i: nat :: BindingRole(i) in slots <==> i < bindings)
    && (forall i: nat :: JobRole(i) in slots <==> i < jobs)
  }

  /** The snapshot shares no object with the live graph, both have a Secret and a Deployment, and the
      snapshot has no object the live graph lacks, and no fewer bindings. */
  ghost predicate Resettable(live: map<Role, ApiObject>, bindings: nat, snapshot: map<Role, ApiObject>, kept: nat) {
    && Apart(live, snapshot) && {SecretRole, DeploymentRole} <= live.Keys * snapshot.Keys
    && bindings <= kept && Covers(live, snapshot)
  }

  /** The struct of pointers: `slots` holds its non-nil fields by role, the bindings and the Jobs by index. */
  class CommonComponents {
    var slots: map<Role, ApiObject>
    const bindings: nat
    const jobs: nat

    constructor (slots: map<Role, ApiObject>, bindings: nat, jobs: nat)
      ensures this.slots == slots && this.bindings == bindings && this.jobs == jobs
    {
      this.slots, this.bindings, this.jobs := slots, bindings, jobs;
    }

    ghost predicate Typed()
      reads this
    {
      TypedSlots(slots, bindings, jobs)
    }

    /** What ReconcileComponents needs so as not to dereference nil or leave a slice, with a snapshot of its own. */
    ghost predicate Ready(snapshot: CommonComponents)
      reads this, snapshot
    {
      && Typed() && snapshot.Typed() && snapshot != this
      && Resettable(slots, bindings, snapshot.slots, snapshot.bindings)
    }

    /** A separate copy of every object, nil where the original is nil. */
    method DeepCopy() returns (copy: CommonComponents)
      requires Typed()
      ensures fresh(copy) && copy.Typed() && copy.slots.Keys == slots.Keys
      ensures copy.bindings == bindings && copy.jobs == jobs
      ensures forall role :: role in slots ==> fresh(copy.slots[role]) && SeparateCopy(copy.slots[role], slots[role])
    {
      var copies: map<Role, ApiObject>, todo := map[], slots.Keys;
      while todo != {}
        invariant copies.Keys + todo == slots.Keys && copies.Keys !! todo
        invariant forall role :: role in copies ==> fresh(copies[role]) && SeparateCopy(copies[role], slots[role])
      {
        var role :| role in todo;
        var one := slots[role].DeepCopy();
        copies, todo := copies[role := one], todo - {role};
      }
      copy := new CommonComponents(copies, bindings, jobs);
    }

    /** The graph `start`, whose objects had the fields `initial`, after the blocks of the roles in `done`. */
    ghost predicate Progress(snapshot: CommonComponents, start: map<Role, ApiObject>, initial: map<Role, Fields>, done: set<Role>)
      reads this, snapshot, start.Values, snapshot.slots.Values
    {
      && slots == (map role | role in start && (role in done ==> role in snapshot.slots) :: start[role])
      && start.Keys == initial.Keys
      && (forall role :: role in start && role in snapshot.slots && role in done ==> SharesWith(start[role], snapshot.slots[role]))
      && (forall role :: role in start && (role !in done || role !in snapshot.slots) ==> FieldsOf(start[role]) == initial[role])
    }

    /** One block: reset the live object, or drop it when the snapshot has none. */
    method ResetSlot(role: Role, snapshot: CommonComponents,
                     ghost start: map<Role, ApiObject>, ghost initial: map<Role, Fields>, ghost done: set<Role>)
      requires Progress(snapshot, start, initial, done) && role !in done && snapshot != this
      requires InPlace(start) && Apart(start, snapshot.slots) && (role in snapshot.slots ==> role in start)
      modifies `slots, start.Values`labels, start.Values`annotations, start.Values`content
      ensures Progress(snapshot, start, initial, done + {role})
    {
      if role in snapshot.slots {
        ShareSlot(role, snapshot, start, initial, done);
      } else {
        slots := slots - {role};
      }
    }

    method ShareSlot(role: Role, snapshot: CommonComponents,
                     ghost start: map<Role, ApiObject>, ghost initial: map<Role, Fields>, ghost done: set<Role>)
      requires Progress(snapshot, start, initial, done) && role !in done && snapshot != this
      requires InPlace(start) && Apart(start, snapshot.slots) && role in snapshot.slots && role in start
      modifies start.Values`labels, start.Values`annotations, start.Values`content
      ensures Progress(snapshot, start, initial, done + {role})
    {
      slots[role].Share(snapshot.slots[role]);
    }

    method ResetBindings(snapshot: CommonComponents,
                         ghost start: map<Role, ApiObject>, ghost initial: map<Role, Fields>, ghost done: set<Role>)
      requires Progress(snapshot, start, initial, done) && snapshot != this
      requires InPlace(start) && Apart(start, snapshot.slots)
      requires forall i: nat :: (i < bindings ==> BindingRole(i) in start) && BindingRole(i) !in done
      modifies `slots, start.Values`labels, start.Values`annotations, start.Values`content
      ensures Progress(snapshot, start, initial, done + Bindings(bindings))
    {
      assert done + Bindings(0) == done;
      for i := 0 to bindings
        invariant Progress(snapshot, start, initial, done + Bindings(i))
      {
        ResetSlot(BindingRole(i), snapshot, start, initial, done + Bindings(i));
        BindingsGrow(done, i);
      }
    }

    /** All blocks; `initial` are the fields the objects had before. */
    method ResetAllBlocks(snapshot: CommonComponents, ghost start: map<Role, ApiObject>, ghost initial: map<Role, Fields>)
      requires Ready(snapshot) && start == slots && initial == map role | role in slots :: FieldsOf(slots[role])
      modifies `slots, start.Values`labels, start.Values`annotations, start.Values`content
      ensures slots == map role | role in start && (Resets(role) ==> role in snapshot.slots) :: start[role]
      ensures forall role :: role in slots && Resets(role) ==> SharesWith(slots[role], snapshot.slots[role])
      ensures forall role :: role in slots && !Resets(role) ==> FieldsOf(slots[role]) == initial[role]
    {
      assert Progress(snapshot, start, initial, {});
      ResetSlots(snapshot, start, initial);
      FinishedReset(snapshot, start, initial, RoleSet(BLOCKS) + Bindings(bindings) + {CronJobRole});
    }

    /** Resets the managed fields of every live object of a reset kind from the snapshot, or drops the
        object; touches neither Jobs, PrometheusRule nor ServiceMonitor, nor any status. */
    method ReconcileComponents(snapshot: CommonComponents)
      requires Ready(snapshot)
      modifies `slots, slots.Values`labels, slots.Values`annotations, slots.Values`content
      ensures slots == map role | role in old(slots) && (Resets(role) ==> role in snapshot.slots) :: old(slots)[role]
      ensures forall role :: role in slots && Resets(role) ==> SharesWith(slots[role], snapshot.slots[role])
      ensures forall role :: role in slots && !Resets(role) ==> unchanged(slots[role])
    {
      hide Ready, SharesWith, Resets;
      ghost var start := slots;
      ghost var initial := map role | role in slots :: FieldsOf(slots[role]);
      ResetAllBlocks(snapshot, start, initial);
      forall role | role in slots && !Resets(role)
        ensures unchanged(slots[role])
      {
        assert FieldsOf(start[role]) == initial[role] == old(FieldsOf(start[role]));
      }
    }

    /** The blocks of the single pointers, in the order of the source. */
    method ResetBlocks(snapshot: CommonComponents, ghost start: map<Role, ApiObject>, ghost initial: map<Role, Fields>)
      requires Progress(snapshot, start, initial, {}) && snapshot != this
      requires InPlace(start) && Apart(start, snapshot.slots) && Covers(start, snapshot.slots)
      modifies `slots, start.Values`labels, start.Values`annotations, start.Values`content
      ensures Progress(snapshot, start, initial, RoleSet(BLOCKS))
    {
      for k := 0 to |BLOCKS|
        invariant Progress(snapshot, start, initial, RoleSet(BLOCKS[..k]))
      {
        BlocksDistinct(k);
        ResetSlot(BLOCKS[k], snapshot, start, initial, RoleSet(BLOCKS[..k]));
      }
      assert BLOCKS[..|BLOCKS|] == BLOCKS;
    }

    method ResetSlots(snapshot: CommonComponents, ghost start: map<Role, ApiObject>, ghost initial: map<Role, Fields>)
      requires Progress(snapshot, start, initial, {}) && snapshot != this
      requires InPlace(start) && Apart(start, snapshot.slots) && Covers(start, snapshot.slots)
      requires forall i: nat :: i < bindings ==> BindingRole(i) in start
      modifies `slots, start.Values`labels, start.Values`annotations, start.Values`content
      ensures Progress(snapshot, start, initial, RoleSet(BLOCKS) + Bindings(bindings) + {CronJobRole})
    {
      ResetBlocks(snapshot, start, initial);
      NoOtherBlocks();
      ResetBindings(snapshot, start, initial, RoleSet(BLOCKS));
      ResetSlot(CronJobRole, snapshot, start, initial, RoleSet(BLOCKS) + Bindings(bindings));
    }

    lemma FinishedReset(snapshot: CommonComponents, start: map<Role, ApiObject>, initial: map<Role, Fields>, done: set<Role>)
      requires Progress(snapshot, start, initial, done) && done == RoleSet(BLOCKS) + Bindings(bindings) + {CronJobRole}
      requires forall i: nat :: BindingRole(i) in start <==> i < bindings
      ensures slots == map role | role in start && (Resets(role) ==> role in snapshot.slots) :: start[role]
      ensures forall role :: role in slots && Resets(role) ==> SharesWith(slots[role], snapshot.slots[role])
      ensures forall role :: role in slots && !Resets(role) ==> FieldsOf(slots[role]) == initial[role]
    {
      forall role | role in start
        ensures Resets(role) <==> role in done
      {
        DoneIffReset(role, bindings);
      }
    }
  }

  /** The managed fields of an object, as references. */
  datatype Fields = Fields(labels: Strings, annotations: Strings, content: Cell<Content>)

  ghost function FieldsOf(o: ApiObject): Fields
    reads o
  {
    Fields(o.labels, o.annotations, o.content)
  }

  /** Every object of a reset kind in the snapshot, the bindings apart, has a live counterpart. */
  ghost predicate Covers(live: map<Role, ApiObject>, snapshot: map<Role, ApiObject>) {
    forall role :: role in snapshot && Resets(role) && !role.BindingRole? ==> role in live
  }

  ghost predicate InPlace(slots: map<Role, ApiObject>) {
    forall role :: role in slots ==> slots[role].role == role
  }

  ghost function Bindings(n: nat): set<Role> {
    set i: nat | i < n :: BindingRole(i)
  }

  ghost function RoleSet(roles: seq<Role>): set<Role> {
    set role | role in roles
  }

  /** The single pointers of a reset kind but the CronJob, in the order ReconcileComponents takes them. */
  const BLOCKS: seq<Role> :=
    [SecretRole, DeploymentRole, ServiceRole, ServiceProfilingRole, ServiceAccountRole, ClusterRoleRole,
     IngressGrpcRole, IngressHttpRole, IngressProfilingRole, PodDisruptionBudgetRole]

  lemma BlocksDistinct(k: nat)
    requires k < |BLOCKS|
    ensures BLOCKS[k] !in RoleSet(BLOCKS[..k]) && Resets(BLOCKS[k]) && !BLOCKS[k].BindingRole?
    ensures RoleSet(BLOCKS[..k]) + {BLOCKS[k]} == RoleSet(BLOCKS[..k + 1])
  {
    assert BLOCKS[..k + 1] == BLOCKS[..k] + [BLOCKS[k]];
  }

  lemma BlocksAreTheseRoles()
    ensures RoleSet(BLOCKS) ==
            {SecretRole, DeploymentRole, ServiceRole, ServiceProfilingRole, ServiceAccountRole, ClusterRoleRole,
             IngressGrpcRole, IngressHttpRole, IngressProfilingRole, PodDisruptionBudgetRole}
  {
    assert BLOCKS[0] == SecretRole && BLOCKS[1] == DeploymentRole && BLOCKS[2] == ServiceRole
        && BLOCKS[3] == ServiceProfilingRole && BLOCKS[4] == ServiceAccountRole && BLOCKS[5] == ClusterRoleRole
        && BLOCKS[6] == IngressGrpcRole && BLOCKS[7] == IngressHttpRole && BLOCKS[8] == IngressProfilingRole
        && BLOCKS[9] == PodDisruptionBudgetRole;
  }

  lemma DoneIffReset(role: Role, n: nat)
    requires role.BindingRole? ==> role.index < n
    ensures Resets(role) <==> role in RoleSet(BLOCKS) + Bindings(n) + {CronJobRole}
  {
    BlocksAreTheseRoles();
  }

  lemma NoOtherBlocks()
    ensures CronJobRole !in RoleSet(BLOCKS) && forall i: nat :: BindingRole(i) !in RoleSet(BLOCKS)
  {
  }

  lemma BindingsGrow(done: set<Role>, i: nat)
    ensures done + Bindings(i) + {BindingRole(i)} == done + Bindings(i + 1)
  {
  }

  // ---- Snapshot isolation ----

  datatype Event = MutateFn | ReadFromCluster(role: Role, value: Object, conditions: seq<JobCondition>)

  datatype Seen = Seen(value: Object, conditions: seq<JobCondition>)

  function SeenOf(o: ApiObject): Seen
    reads o, o.labels, o.annotations, o.content
  {
    Seen(o.Value(), o.conditions)
  }

  /** The objects of a graph as values. */
  type View = map<Role, Seen>

  ghost function ViewOf(slots: map<Role, ApiObject>): View
    reads slots.Values
    reads set role | role in slots :: slots[role].labels
    reads set role | role in slots :: slots[role].annotations
    reads set role | role in slots :: slots[role].content
  {
    map role | role in slots :: SeenOf(slots[role])
  }

  /** What the object of a role holds after a reset, given what the snapshot has for it. */
  function Reset(role: Role, kept: Seen, before: Seen): Seen {
    if Resets(role) then before.(value := before.value.(managed := kept.value.managed)) else before
  }

  function ResetView(kept: View, before: View): View {
    map role | role in before :: if role in kept then Reset(role, kept[role], before[role]) else before[role]
  }

  function Next(kept: View, before: View, event: Event): (r: View)
    requires before.Keys == kept.Keys && (event.ReadFromCluster? ==> event.role in before)
    ensures r.Keys == kept.Keys
  {
    match event
    case MutateFn => ResetView(kept, before)
    case ReadFromCluster(role, value, conditions) => before[role := Seen(value, conditions)]
  }

  predicate AllIn(events: seq<Event>, view: View) {
    forall event :: event in events && event.ReadFromCluster? ==> event.role in view
  }

  function After(kept: View, initial: View, events: seq<Event>): (r: View)
    requires initial.Keys == kept.Keys && AllIn(events, initial)
    ensures r.Keys == kept.Keys
  {
    if events == [] then initial
    else Next(kept, After(kept, initial, events[..|events| - 1]), events[|events| - 1])
  }

  /** What was last read into a role, or what it held at first. */
  function LastSeen(role: Role, initial: Seen, events: seq<Event>): Seen {
    if events == [] then initial
    else match events[|events| - 1]
      case MutateFn => LastSeen(role, initial, events[..|events| - 1])
      case ReadFromCluster(r, value, conditions) =>
        if r == role then Seen(value, conditions) else LastSeen(role, initial, events[..|events| - 1])
  }

  /** Resets never lose what was read last: a Job, PrometheusRule or ServiceMonitor holds it whole, status
      included, any other object all of it but its managed fields, and these are the snapshot's after a reset. */
  lemma {:induction false} ResetsKeepWhatWasRead(kept: View, initial: View, events: seq<Event>, role: Role)
    requires initial.Keys == kept.Keys && AllIn(events, initial) && role in kept
    ensures var now, last := After(kept, initial, events)[role], LastSeen(role, initial[role], events);
            && now.conditions == last.conditions && now.value.rest == last.value.rest
            && (!Resets(role) ==> now == last)
            && (Resets(role) && events != [] && events[|events| - 1] == MutateFn ==>
                  now.value.managed == kept[role].value.managed)
  {
    if events != [] {
      ResetsKeepWhatWasRead(kept, initial, events[..|events| - 1], role);
    }
  }

  /** Objects outside the live graph keep what they hold. */
  twostate lemma UntouchedView(slots: map<Role, ApiObject>)
    requires forall role :: role in slots ==> SeenOf(slots[role]) == old(SeenOf(slots[role]))
    ensures ViewOf(slots) == old(ViewOf(slots))
  {
  }

  lemma ViewAfterReset(live: map<Role, ApiObject>, kept: View, before: View)
    requires live.Keys == before.Keys == kept.Keys
    requires forall role :: role in live ==> SeenOf(live[role]) == Reset(role, kept[role], before[role])
    ensures ViewOf(live) == ResetView(kept, before)
  {
  }

  /** What an object holds that shares its managed fields with another. */
  lemma SharedSeen(o: ApiObject, kept: ApiObject)
    requires SharesWith(o, kept)
    ensures SeenOf(o) == Seen(Object(SeenOf(kept).value.managed, o.rest), o.conditions)
  {
  }

  /** An object whose fields stay, and all that they refer to, holds what it held. */
  twostate lemma SeenStays(o: ApiObject)
    requires unchanged(o) && (o.labels != null ==> unchanged(o.labels)) && (o.annotations != null ==> unchanged(o.annotations))
    requires unchanged(o.content)
    ensures SeenOf(o) == old(SeenOf(o))
  {
  }

  /** The parts of what an object held before that no managed field decides. */
  twostate lemma SeenBefore(o: ApiObject)
    ensures old(SeenOf(o)).value.rest == old(o.rest) && old(SeenOf(o)).conditions == old(o.conditions)
  {
  }

  lemma ReadyIsApart(live: CommonComponents, snapshot: CommonComponents)
    requires live.Ready(snapshot)
    ensures snapshot != live && Apart(live.slots, snapshot.slots)
  {
  }

  /** A reset leaves what the snapshot holds. */
  method ResetFromSnapshot(live: CommonComponents, snapshot: CommonComponents)
    requires live.Ready(snapshot) && live.slots.Keys == snapshot.slots.Keys
    modifies live`slots, live.slots.Values`labels, live.slots.Values`annotations, live.slots.Values`content
    ensures live.slots == old(live.slots)
    ensures forall role :: role in live.slots && Resets(role) ==> SharesWith(live.slots[role], snapshot.slots[role])
    ensures forall role :: role in live.slots && !Resets(role) ==> unchanged(live.slots[role])
    ensures forall role :: role in snapshot.slots ==> SeenOf(snapshot.slots[role]) == old(SeenOf(snapshot.slots[role]))
  {
    hide CommonComponents.Ready, SeenOf, SharesWith, Resets;
    ghost var start, kept := live.slots, snapshot.slots;
    ReadyIsApart(live, snapshot);
    live.ReconcileComponents(snapshot);
    assert live.slots == start;
    forall role | role in kept
      ensures SeenOf(kept[role]) == old(SeenOf(kept[role]))
    {
      assert kept[role] !in start.Values;
      SeenStays(kept[role]);
    }
  }

  method ResetEach(live: CommonComponents, snapshot: CommonComponents)
    requires live.Ready(snapshot) && live.slots.Keys == snapshot.slots.Keys
    modifies live, live.slots.Values
    ensures live.slots == old(live.slots)
    ensures forall role :: role in snapshot.slots ==> SeenOf(snapshot.slots[role]) == old(SeenOf(snapshot.slots[role]))
    ensures forall role :: role in live.slots ==>
              SeenOf(live.slots[role]) == Reset(role, old(SeenOf(snapshot.slots[role])), old(SeenOf(live.slots[role])))
  {
    hide CommonComponents.Ready, SharesWith, Resets, SeenOf;
    ghost var start := live.slots;
    ResetFromSnapshot(live, snapshot);
    forall role | role in start
      ensures SeenOf(start[role]) == Reset(role, old(SeenOf(snapshot.slots[role])), old(SeenOf(start[role])))
    {
      if Resets(role) {
        SharedSeen(start[role], snapshot.slots[role]);
        SeenBefore(start[role]);
      } else {
        SeenStays(start[role]);
      }
    }
  }

  method ResetAll(live: CommonComponents, snapshot: CommonComponents)
    requires live.Ready(snapshot) && live.slots.Keys == snapshot.slots.Keys
    modifies live, live.slots.Values
    ensures live.slots == old(live.slots) && ViewOf(snapshot.slots) == old(ViewOf(snapshot.slots))
    ensures ViewOf(live.slots) == old(ResetView(ViewOf(snapshot.slots), ViewOf(live.slots)))
  {
    ghost var kept, before := ViewOf(snapshot.slots), ViewOf(live.slots);
    ResetEach(live, snapshot);
    UntouchedView(snapshot.slots);
    ViewAfterReset(live.slots, kept, before);
  }

  /** The shared mutate function: a reset of the whole live graph, as values. */
  method Mutate(live: CommonComponents, snapshot: CommonComponents)
    requires live.Ready(snapshot) && live.slots.Keys == snapshot.slots.Keys
    modifies live, live.slots.Values
    ensures live.slots == old(live.slots) && live.Ready(snapshot) && ViewOf(snapshot.slots) == old(ViewOf(snapshot.slots))
    ensures ViewOf(live.slots) == old(ResetView(ViewOf(snapshot.slots), ViewOf(live.slots)))
  {
    hide SeenOf, ResetView;
    ReadyIsApart(live, snapshot);
    ResetAll(live, snapshot);
  }

  lemma ViewAfterRead(live: map<Role, ApiObject>, before: View, role: Role)
    requires live.Keys == before.Keys && role in live
    requires forall r :: r in live && r != role ==> SeenOf(live[r]) == before[r]
    ensures ViewOf(live) == before[role := SeenOf(live[role])]
  {
  }

  /** A read from the cluster replaces what one role holds. */
  method ReadInto(live: CommonComponents, snapshot: CommonComponents, role: Role, value: Object, conditions: seq<JobCondition>)
    requires live.Ready(snapshot) && live.slots.Keys == snapshot.slots.Keys && role in live.slots
    modifies live.slots[role]
    ensures live.Ready(snapshot) && ViewOf(snapshot.slots) == old(ViewOf(snapshot.slots))
    ensures ViewOf(live.slots) == old(ViewOf(live.slots))[role := Seen(value, conditions)]
  {
    var o := live.slots[role];
    o.Replace(value, conditions);
    forall r | r in snapshot.slots
      ensures SeenOf(snapshot.slots[r]) == old(SeenOf(snapshot.slots[r]))
    {
      assert snapshot.slots[r] != o;
    }
    forall r | r in live.slots && r != role
      ensures SeenOf(live.slots[r]) == old(SeenOf(live.slots[r]))
    {
      assert live.slots[r].role != o.role;
    }
    UntouchedView(snapshot.slots);
    ViewAfterRead(live.slots, old(ViewOf(live.slots)), role);
  }

  method Happen(live: CommonComponents, snapshot: CommonComponents, event: Event)
    requires live.Ready(snapshot) && live.slots.Keys == snapshot.slots.Keys
    requires event.ReadFromCluster? ==> event.role in live.slots
    modifies live, live.slots.Values
    ensures live.slots == old(live.slots) && ViewOf(snapshot.slots) == old(ViewOf(snapshot.slots))
    ensures ViewOf(live.slots) == old(Next(ViewOf(snapshot.slots), ViewOf(live.slots), event))
  {
    match event {
      case MutateFn => Mutate(live, snapshot);
      case ReadFromCluster(role, value, conditions) => ReadInto(live, snapshot, role, value, conditions);
    }
  }

  lemma AfterSnoc(kept: View, initial: View, events: seq<Event>, n: nat)
    requires initial.Keys == kept.Keys && AllIn(events, initial) && n < |events|
    ensures events[n].ReadFromCluster? ==> events[n].role in initial
    ensures AllIn(events[..n], initial) && AllIn(events[..n + 1], initial)
    ensures After(kept, initial, events[..n + 1]) == Next(kept, After(kept, initial, events[..n]), events[n])
  {
    assert events[..n + 1][..n] == events[..n] && events[n] in events;
  }

  /** Snapshot isolation. Whatever resets and cluster reads happen in whatever order, the live pointers
      and their nil-ness stay, the snapshot graph keeps its values, and every live object holds exactly
      what the events make of it. */
  method Interleave(live: CommonComponents, snapshot: CommonComponents, events: seq<Event>)
    requires live.Ready(snapshot) && live.slots.Keys == snapshot.slots.Keys
    requires AllIn(events, ViewOf(live.slots))
    modifies live, live.slots.Values
    ensures live.slots == old(live.slots) && ViewOf(snapshot.slots) == old(ViewOf(snapshot.slots))
    ensures ViewOf(live.slots) == old(After(ViewOf(snapshot.slots), ViewOf(live.slots), events))
  {
    ghost var kept, initial := ViewOf(snapshot.slots), ViewOf(live.slots);
    for n := 0 to |events|
      invariant live.slots == old(live.slots) && ViewOf(snapshot.slots) == kept
      invariant AllIn(events[..n], initial) && ViewOf(live.slots) == After(kept, initial, events[..n])
    {
      AfterSnoc(kept, initial, events, n);
      Happen(live, snapshot, events[n]);
    }
    assert events[..|events|] == events;
  }
}
