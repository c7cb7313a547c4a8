/** The generated deep copies of the API types. A Go struct is a value whose maps, slices and pointers are
    references: each method here starts from a plain copy of that value, replaces its references one by one and
    returns what the source writes to its out argument. A copy has references of its own at every depth, nil
    where the source has nil. Struct types of the Kubernetes API are reduced to a text and one pointer. */
module SpecCopies {
  import opened Api
  import opened ClusterRoles
  import opened Components
  import opened Jobs

  type Pointer<T> = Cell?<T>
  type Slice<T> = array?<T>

  function Deref<T>(p: Pointer<T>): Option<T>
    reads p
  {
    if p == null then None else Some(p.value)
  }

  function Elements<T>(s: Slice<T>): Option<seq<T>>
    reads s
  {
    if s == null then None else Some(s[..])
  }

  method CopyPointer<T>(p: Pointer<T>) returns (copy: Pointer<T>)
    ensures Deref(copy) == Deref(p) && (copy != null ==> fresh(copy))
  {
    if p == null {
      return null;
    }
    copy := new Cell(p.value);
  }

  method CopySlice<T(0)>(s: Slice<T>) returns (copy: Slice<T>)
    ensures Elements(copy) == Elements(s) && (copy != null ==> fresh(copy))
  {
    if s == null {
      return null;
    }
    var out := new T[s.Length];
    for i := 0 to s.Length
      invariant forall j :: 0 <= j < i ==> out[j] == s[j]
    {
      out[i] := s[i];
    }
    assert out[..] == s[..];
    copy := out;
  }

  // ---- Slices of structs that hold pointers: Toleration, EnvVar, Volume, VolumeMount ----

  datatype Struct = Struct(text: string, inner: Pointer<string>)
  datatype StructValue = StructValue(text: string, inner: Option<string>)

  ghost function StructOf(s: Struct): StructValue
    reads s.inner
  {
    StructValue(s.text, Deref(s.inner))
  }

  ghost function ArrayParts(a: Slice<Struct>): (parts: set<object?>)
    reads a
    ensures a in parts
  {
    if a == null then {null} else {a} + set i | 0 <= i < a.Length :: a[i].inner
  }

  ghost function StructsOf(a: Slice<Struct>): Option<seq<StructValue>>
    reads a, ArrayParts(a)
  {
    if a == null then None
    else Some(seq(a.Length, i requires 0 <= i < a.Length reads a, ArrayParts(a) => StructOf(a[i])))
  }

  method CopyStruct(s: Struct) returns (copy: Struct)
    ensures StructOf(copy) == StructOf(s) && (copy.inner != null ==> fresh(copy.inner))
  {
    copy := s;
    var inner := CopyPointer(s.inner);
    copy := copy.(inner := inner);
  }

  lemma SameStructs(a: array<Struct>, b: array<Struct>)
    requires a.Length == b.Length && forall i :: 0 <= i < a.Length ==> StructOf(a[i]) == StructOf(b[i])
    ensures StructsOf(a) == StructsOf(b)
  {
    assert StructsOf(a).value == StructsOf(b).value;
  }

  method CopyStructs(a: Slice<Struct>) returns (copy: Slice<Struct>)
    ensures StructsOf(copy) == StructsOf(a) && fresh(ArrayParts(copy) - {null})
    ensures allocated(ArrayParts(a)) && allocated(ArrayParts(copy))
  {
    if a == null {
      return null;
    }
    var out := new Struct[a.Length](_ => Struct("", null));
    for i := 0 to a.Length
      invariant forall j :: 0 <= j < i ==> StructOf(out[j]) == StructOf(a[j]) && (out[j].inner != null ==> fresh(out[j].inner))
      invariant forall j :: i <= j < a.Length ==> out[j].inner == null
    {
      var one := CopyStruct(a[i]);
      out[i] := one;
    }
    copy := out;
    SameStructs(a, out);
  }

  ghost function StructParts(p: Pointer<Struct>): (parts: set<object?>)
    reads p
    ensures p in parts
  {
    if p == null then {null} else {p, p.value.inner, null}
  }

  ghost function StructAt(p: Pointer<Struct>): Option<StructValue>
    reads p, StructParts(p)
  {
    if p == null then None else Some(StructOf(p.value))
  }

  method CopyStructPointer(p: Pointer<Struct>) returns (copy: Pointer<Struct>)
    ensures StructAt(copy) == StructAt(p) && fresh(StructParts(copy) - {null})
    ensures allocated(StructParts(p)) && allocated(StructParts(copy))
  {
    if p == null {
      return null;
    }
    var out := CopyStruct(p.value);
    copy := new Cell(out);
  }

  // ---- The structs of this API that others point to ----

  /** Each struct is declared once, for the references it holds and for what these amount to. */
  datatype PrometheusConfig<M, P> = PrometheusConfig(enabled: bool, labels: M, scrapeInterval: P)
  datatype ServiceAccountConfig<S, P> =
    ServiceAccountConfig(secrets: S, imagePullSecrets: S, automountServiceAccountToken: P)

  type StringMap = Option<map<string, string>>
  type Ingress = IngressConfig<Strings, Slice<string>>
  type IngressValue = IngressConfig<StringMap, Option<seq<string>>>
  type Prometheus = PrometheusConfig<Strings, Pointer<int>>
  type PrometheusValue = PrometheusConfig<StringMap, Option<int>>
  type ServiceAccounts = ServiceAccountConfig<Slice<string>, Pointer<bool>>
  type ServiceAccountValue = ServiceAccountConfig<Option<seq<string>>, Option<bool>>
  type PartitionJobTable = PartitionJobTableConfig<Pointer<int>>
  type PartitionValue = PartitionJobTableConfig<Option<int>>

  ghost function IngressOf(c: Ingress): IngressValue
    reads c.labels, c.annotations, c.hostnames
  {
    IngressConfig(Deref(c.labels), Deref(c.annotations), c.ingressClass, Elements(c.hostnames), c.clusterIssuer)
  }

  ghost function IngressParts(p: Pointer<Ingress>): (parts: set<object?>)
    reads p
    ensures p in parts
  {
    if p == null then {null} else {p, p.value.labels, p.value.annotations, p.value.hostnames, null}
  }

  method CopyIngressConfig(c: Ingress) returns (out: Ingress)
    ensures IngressOf(out) == IngressOf(c) && fresh({out.labels, out.annotations, out.hostnames} - {null})
  {
    out := c;
    var labels := CopyPointer(c.labels);
    out := out.(labels := labels);
    var annotations := CopyPointer(c.annotations);
    out := out.(annotations := annotations);
    var hostnames := CopySlice(c.hostnames);
    out := out.(hostnames := hostnames);
  }

  ghost function IngressAt(p: Pointer<Ingress>): Option<IngressValue>
    reads p, IngressParts(p)
  {
    if p == null then None else Some(IngressOf(p.value))
  }

  method CopyIngressPointer(p: Pointer<Ingress>) returns (copy: Pointer<Ingress>)
    ensures IngressAt(copy) == IngressAt(p) && fresh(IngressParts(copy) - {null})
    ensures allocated(IngressParts(p)) && allocated(IngressParts(copy))
  {
    if p == null {
      return null;
    }
    var out := CopyIngressConfig(p.value);
    copy := new Cell(out);
  }

  ghost function PrometheusParts(p: Pointer<Prometheus>): (parts: set<object?>)
    reads p
    ensures p in parts
  {
    if p == null then {null} else {p, p.value.labels, p.value.scrapeInterval, null}
  }

  ghost function PrometheusAt(p: Pointer<Prometheus>): Option<PrometheusValue>
    reads p, PrometheusParts(p)
  {
    if p == null then None else Some(PrometheusConfig(p.value.enabled, Deref(p.value.labels), Deref(p.value.scrapeInterval)))
  }

  method CopyPrometheusPointer(p: Pointer<Prometheus>) returns (copy: Pointer<Prometheus>)
    ensures PrometheusAt(copy) == PrometheusAt(p) && fresh(PrometheusParts(copy) - {null})
    ensures allocated(PrometheusParts(p)) && allocated(PrometheusParts(copy))
  {
    if p == null {
      return null;
    }
    var out := p.value;
    var labels := CopyPointer(p.value.labels);
    out := out.(labels := labels);
    var scrapeInterval := CopyPointer(p.value.scrapeInterval);
    out := out.(scrapeInterval := scrapeInterval);
    copy := new Cell(out);
  }

  ghost function ServiceAccountParts(p: Pointer<ServiceAccounts>): (parts: set<object?>)
    reads p
    ensures p in parts
  {
    if p == null then {null} else {p, p.value.secrets, p.value.imagePullSecrets, p.value.automountServiceAccountToken, null}
  }

  ghost function ServiceAccountAt(p: Pointer<ServiceAccounts>): Option<ServiceAccountValue>
    reads p, ServiceAccountParts(p)
  {
    if p == null then None
    else Some(ServiceAccountConfig(Elements(p.value.secrets), Elements(p.value.imagePullSecrets),
                                   Deref(p.value.automountServiceAccountToken)))
  }

  method CopyServiceAccountPointer(p: Pointer<ServiceAccounts>) returns (copy: Pointer<ServiceAccounts>)
    ensures ServiceAccountAt(copy) == ServiceAccountAt(p) && fresh(ServiceAccountParts(copy) - {null})
    ensures allocated(ServiceAccountParts(p)) && allocated(ServiceAccountParts(copy))
  {
    if p == null {
      return null;
    }
    var out := p.value;
    var secrets := CopySlice(p.value.secrets);
    out := out.(secrets := secrets);
    var imagePullSecrets := CopySlice(p.value.imagePullSecrets);
    out := out.(imagePullSecrets := imagePullSecrets);
    var token := CopyPointer(p.value.automountServiceAccountToken);
    out := out.(automountServiceAccountToken := token);
    copy := new Cell(out);
  }

  ghost function PartitionParts(p: Pointer<PartitionJobTable>): (parts: set<object?>)
    reads p
    ensures p in parts
  {
    if p == null then {null} else {p, p.value.activeDeadlineSeconds, null}
  }

  ghost function PartitionAt(p: Pointer<PartitionJobTable>): Option<PartitionValue>
    reads p, PartitionParts(p)
  {
    if p == null then None else Some(PartitionJobTableConfig(p.value.enabled, Deref(p.value.activeDeadlineSeconds)))
  }

  method CopyPartitionPointer(p: Pointer<PartitionJobTable>) returns (copy: Pointer<PartitionJobTable>)
    ensures PartitionAt(copy) == PartitionAt(p) && fresh(PartitionParts(copy) - {null})
    ensures allocated(PartitionParts(p)) && allocated(PartitionParts(copy))
  {
    if p == null {
      return null;
    }
    var deadline := CopyPointer(p.value.activeDeadlineSeconds);
    copy := new Cell(p.value.(activeDeadlineSeconds := deadline));
  }

  // ---- The common part of every spec, its fields grouped by what they need ----

  datatype Flat<M, B, N> = Flat(labels: M, applicationConfig: B, terminationGracePeriodSeconds: N, nodeSelector: M)
  datatype Nested<P, R, A> = Nested(prometheus: P, resources: R, serviceAccount: A)
  datatype Lists<E> = Lists(tolerations: E, environment: E, additionalVolumes: E, additionalVolumeMounts: E)
  datatype CommonSpecBase<F, N, L> =
    CommonSpecBase(image: string, customServiceAccount: string, topologyKey: string, flat: F, nested: N, lists: L)

  type CommonFlat = Flat<Strings, Slice<char>, Pointer<int>>
  type CommonNested = Nested<Pointer<Prometheus>, Pointer<Struct>, Pointer<ServiceAccounts>>
  type CommonLists = Lists<Slice<Struct>>
  type Common = CommonSpecBase<CommonFlat, CommonNested, CommonLists>
  type FlatValue = Flat<StringMap, Option<seq<char>>, Option<int>>
  type NestedValue = Nested<Option<PrometheusValue>, Option<StructValue>, Option<ServiceAccountValue>>
  type ListsValue = Lists<Option<seq<StructValue>>>
  type CommonValue = CommonSpecBase<FlatValue, NestedValue, ListsValue>

  ghost function FlatParts(f: CommonFlat): set<object?> {
    {f.labels, f.applicationConfig, f.terminationGracePeriodSeconds, f.nodeSelector, null}
  }

  ghost function FlatOf(f: CommonFlat): FlatValue
    reads FlatParts(f)
  {
    Flat(Deref(f.labels), Elements(f.applicationConfig), Deref(f.terminationGracePeriodSeconds), Deref(f.nodeSelector))
  }

  method CopyFlat(f: CommonFlat) returns (out: CommonFlat)
    ensures FlatOf(out) == FlatOf(f) && fresh(FlatParts(out) - {null})
    ensures allocated(FlatParts(f)) && allocated(FlatParts(out))
  {
    hide Deref, Elements;
    out := f;
    var labels := CopyPointer(f.labels);
    out := out.(labels := labels);
    var config := CopySlice(f.applicationConfig);
    out := out.(applicationConfig := config);
    var seconds := CopyPointer(f.terminationGracePeriodSeconds);
    out := out.(terminationGracePeriodSeconds := seconds);
    var nodeSelector := CopyPointer(f.nodeSelector);
    out := out.(nodeSelector := nodeSelector);
  }

  ghost function NestedParts(n: CommonNested): (parts: set<object?>)
    reads n.prometheus, n.resources, n.serviceAccount
    ensures n.prometheus in parts && n.resources in parts && n.serviceAccount in parts
  {
    PrometheusParts(n.prometheus) + StructParts(n.resources) + ServiceAccountParts(n.serviceAccount)
  }

  ghost function NestedOf(n: CommonNested): NestedValue
    reads n.prometheus, n.resources, n.serviceAccount, NestedParts(n)
  {
    Nested(PrometheusAt(n.prometheus), StructAt(n.resources), ServiceAccountAt(n.serviceAccount))
  }

  method CopyNested(n: CommonNested) returns (out: CommonNested)
    ensures NestedOf(out) == NestedOf(n) && fresh(NestedParts(out) - {null})
    ensures allocated(NestedParts(n)) && allocated(NestedParts(out))
  {
    hide PrometheusAt, PrometheusParts, StructAt, StructParts, ServiceAccountAt, ServiceAccountParts;
    out := n;
    var prometheus := CopyPrometheusPointer(n.prometheus);
    out := out.(prometheus := prometheus);
    var resources := CopyStructPointer(n.resources);
    out := out.(resources := resources);
    var serviceAccount := CopyServiceAccountPointer(n.serviceAccount);
    out := out.(serviceAccount := serviceAccount);
  }

  ghost function ListsParts(l: CommonLists): (parts: set<object?>)
    reads l.tolerations, l.environment, l.additionalVolumes, l.additionalVolumeMounts
    ensures l.tolerations in parts && l.environment in parts && l.additionalVolumes in parts && l.additionalVolumeMounts in parts
  {
    ArrayParts(l.tolerations) + ArrayParts(l.environment) + ArrayParts(l.additionalVolumes) + ArrayParts(l.additionalVolumeMounts)
  }

  ghost function ListsOf(l: CommonLists): ListsValue
    reads l.tolerations, l.environment, l.additionalVolumes, l.additionalVolumeMounts, ListsParts(l)
  {
    Lists(StructsOf(l.tolerations), StructsOf(l.environment), StructsOf(l.additionalVolumes), StructsOf(l.additionalVolumeMounts))
  }

  method CopyTwo(a: Slice<Struct>, b: Slice<Struct>) returns (copyA: Slice<Struct>, copyB: Slice<Struct>)
    ensures StructsOf(copyA) == StructsOf(a) && StructsOf(copyB) == StructsOf(b)
    ensures fresh(ArrayParts(copyA) - {null}) && fresh(ArrayParts(copyB) - {null})
    ensures allocated(ArrayParts(a)) && allocated(ArrayParts(b)) && allocated(ArrayParts(copyA)) && allocated(ArrayParts(copyB))
  {
    hide StructsOf, ArrayParts;
    copyA := CopyStructs(a);
    copyB := CopyStructs(b);
  }

  method CopyLists(l: CommonLists) returns (out: CommonLists)
    ensures ListsOf(out) == ListsOf(l) && fresh(ListsParts(out) - {null})
    ensures allocated(ListsParts(l)) && allocated(ListsParts(out))
  {
    hide StructsOf, ArrayParts;
    var tolerations, environment := CopyTwo(l.tolerations, l.environment);
    var volumes, mounts := CopyTwo(l.additionalVolumes, l.additionalVolumeMounts);
    out := Lists(tolerations, environment, volumes, mounts);
  }

  ghost function CommonRoots(c: Common): set<object?> {
    {c.nested.prometheus, c.nested.resources, c.nested.serviceAccount,
     c.lists.tolerations, c.lists.environment, c.lists.additionalVolumes, c.lists.additionalVolumeMounts, null}
  }

  ghost function CommonParts(c: Common): (parts: set<object?>)
    reads CommonRoots(c)
    ensures CommonRoots(c) <= parts
  {
    FlatParts(c.flat) + NestedParts(c.nested) + ListsParts(c.lists)
  }

  ghost function CommonOf(c: Common): CommonValue
    reads CommonRoots(c), CommonParts(c)
  {
    CommonSpecBase(c.image, c.customServiceAccount, c.topologyKey, FlatOf(c.flat), NestedOf(c.nested), ListsOf(c.lists))
  }

  method CopyCommon(c: Common) returns (out: Common)
    ensures CommonOf(out) == CommonOf(c) && fresh(CommonParts(out) - {null})
    ensures allocated(CommonParts(c)) && allocated(CommonParts(out))
  {
    hide FlatOf, NestedOf, ListsOf, PrometheusParts, StructParts, ServiceAccountParts, ArrayParts;
    out := c;
    var flat := CopyFlat(c.flat);
    out := out.(flat := flat);
    var nested := CopyNested(c.nested);
    out := out.(nested := nested);
    var lists := CopyLists(c.lists);
    out := out.(lists := lists);
  }

  // ---- The specs of the Lookout and of the ExecutorRefs ----

  /** Replicas, node selector and the one list a spec adds: the host names, or the additional bindings. */
  datatype Placement<N, M, S> = Placement(replicas: N, nodeSelector: M, names: S)
  datatype Contexts<E> = Contexts(securityContext: E, podSecurityContext: E)
  datatype Database<B, T> =
    Database(migrate: B, migrationDbWaitImage: T, dbPruningEnabled: B, dbPruningSchedule: T)
  datatype Fronts<I, P> = Fronts(ingress: I, profilingIngressConfig: I, partitionJobTable: P)

  type PlacementOver<T> = Placement<Pointer<int>, Strings, Slice<T>>
  type PodContexts = Contexts<Pointer<Struct>>
  type LookoutDatabase = Database<Pointer<bool>, Pointer<string>>
  type LookoutFronts = Fronts<Pointer<Ingress>, Pointer<PartitionJobTable>>

  ghost function PlacementParts<T>(p: PlacementOver<T>): set<object?> {
    {p.replicas, p.nodeSelector, p.names, null}
  }

  ghost function PlacementOf<T>(p: PlacementOver<T>): Placement<Option<int>, StringMap, Option<seq<T>>>
    reads PlacementParts(p)
  {
    Placement(Deref(p.replicas), Deref(p.nodeSelector), Elements(p.names))
  }

  method CopyPlacement<T(0)>(p: PlacementOver<T>) returns (out: PlacementOver<T>)
    ensures PlacementOf(out) == PlacementOf(p) && fresh(PlacementParts(out) - {null})
    ensures allocated(PlacementParts(p)) && allocated(PlacementParts(out))
  {
    hide Deref, Elements;
    out := p;
    var replicas := CopyPointer(p.replicas);
    out := out.(replicas := replicas);
    var nodeSelector := CopyPointer(p.nodeSelector);
    out := out.(nodeSelector := nodeSelector);
    var names := CopySlice(p.names);
    out := out.(names := names);
  }

  ghost function DatabaseParts(d: LookoutDatabase): set<object?> {
    {d.migrate, d.migrationDbWaitImage, d.dbPruningEnabled, d.dbPruningSchedule, null}
  }

  ghost function DatabaseOf(d: LookoutDatabase): Database<Option<bool>, Option<string>>
    reads DatabaseParts(d)
  {
    Database(Deref(d.migrate), Deref(d.migrationDbWaitImage), Deref(d.dbPruningEnabled), Deref(d.dbPruningSchedule))
  }

  method CopyDatabase(d: LookoutDatabase) returns (out: LookoutDatabase)
    ensures DatabaseOf(out) == DatabaseOf(d) && fresh(DatabaseParts(out) - {null})
    ensures allocated(DatabaseParts(d)) && allocated(DatabaseParts(out))
  {
    hide Deref;
    out := d;
    var migrate := CopyPointer(d.migrate);
    out := out.(migrate := migrate);
    var image := CopyPointer(d.migrationDbWaitImage);
    out := out.(migrationDbWaitImage := image);
    var enabled := CopyPointer(d.dbPruningEnabled);
    out := out.(dbPruningEnabled := enabled);
    var schedule := CopyPointer(d.dbPruningSchedule);
    out := out.(dbPruningSchedule := schedule);
  }

  ghost function ContextsRoots(c: PodContexts): set<object?> {
    {c.securityContext, c.podSecurityContext, null}
  }

  ghost function ContextsParts(c: PodContexts): (parts: set<object?>)
    reads ContextsRoots(c)
    ensures ContextsRoots(c) <= parts
  {
    StructParts(c.securityContext) + StructParts(c.podSecurityContext)
  }

  ghost function ContextsOf(c: PodContexts): Contexts<Option<StructValue>>
    reads ContextsRoots(c), ContextsParts(c)
  {
    Contexts(StructAt(c.securityContext), StructAt(c.podSecurityContext))
  }

  method CopyContexts(c: PodContexts) returns (out: PodContexts)
    ensures ContextsOf(out) == ContextsOf(c) && fresh(ContextsParts(out) - {null})
    ensures allocated(ContextsParts(c)) && allocated(ContextsParts(out))
  {
    hide StructAt, StructParts;
    out := c;
    var securityContext := CopyStructPointer(c.securityContext);
    out := out.(securityContext := securityContext);
    var podSecurityContext := CopyStructPointer(c.podSecurityContext);
    out := out.(podSecurityContext := podSecurityContext);
  }

  ghost function FrontsRoots(f: LookoutFronts): set<object?> {
    {f.ingress, f.profilingIngressConfig, f.partitionJobTable, null}
  }

  ghost function FrontsParts(f: LookoutFronts): (parts: set<object?>)
    reads FrontsRoots(f)
    ensures FrontsRoots(f) <= parts
  {
    IngressParts(f.ingress) + IngressParts(f.profilingIngressConfig) + PartitionParts(f.partitionJobTable)
  }

  ghost function FrontsOf(f: LookoutFronts): Fronts<Option<IngressValue>, Option<PartitionValue>>
    reads FrontsRoots(f), FrontsParts(f)
  {
    Fronts(IngressAt(f.ingress), IngressAt(f.profilingIngressConfig), PartitionAt(f.partitionJobTable))
  }

  method CopyFronts(f: LookoutFronts) returns (out: LookoutFronts)
    ensures FrontsOf(out) == FrontsOf(f) && fresh(FrontsParts(out) - {null})
    ensures allocated(FrontsParts(f)) && allocated(FrontsParts(out))
  {
    hide IngressAt, IngressParts, PartitionAt, PartitionParts;
    out := f;
    var ingress := CopyIngressPointer(f.ingress);
    out := out.(ingress := ingress);
    var profiling := CopyIngressPointer(f.profilingIngressConfig);
    out := out.(profilingIngressConfig := profiling);
    var partition := CopyPartitionPointer(f.partitionJobTable);
    out := out.(partitionJobTable := partition);
  }

  /** Everything of a Lookout spec but its common part, which is embedded. */
  datatype LookoutFields<P, D, S, F> = LookoutFields(clusterIssuer: string, placement: P, database: D, contexts: S, fronts: F)
  type OwnFields = LookoutFields<PlacementOver<string>, LookoutDatabase, PodContexts, LookoutFronts>
  type OwnValue =
    LookoutFields<Placement<Option<int>, StringMap, Option<seq<string>>>, Database<Option<bool>, Option<string>>,
                  Contexts<Option<StructValue>>, Fronts<Option<IngressValue>, Option<PartitionValue>>>

  ghost function OwnRoots(l: OwnFields): set<object?> {
    ContextsRoots(l.contexts) + FrontsRoots(l.fronts)
  }

  ghost function OwnParts(l: OwnFields): (parts: set<object?>)
    reads OwnRoots(l)
    ensures OwnRoots(l) <= parts
  {
    PlacementParts(l.placement) + DatabaseParts(l.database) + ContextsParts(l.contexts) + FrontsParts(l.fronts)
  }

  ghost function OwnOf(l: OwnFields): OwnValue
    reads OwnRoots(l), OwnParts(l)
  {
    LookoutFields(l.clusterIssuer, PlacementOf(l.placement), DatabaseOf(l.database), ContextsOf(l.contexts), FrontsOf(l.fronts))
  }

  method CopyOwn(l: OwnFields) returns (out: OwnFields)
    ensures OwnOf(out) == OwnOf(l) && fresh(OwnParts(out) - {null})
    ensures allocated(OwnParts(l)) && allocated(OwnParts(out))
  {
    hide PlacementOf, PlacementParts, DatabaseOf, DatabaseParts;
    hide ContextsOf, ContextsRoots, ContextsParts, FrontsOf, FrontsRoots, FrontsParts;
    out := l;
    var placement := CopyPlacement(l.placement);
    out := out.(placement := placement);
    var database := CopyDatabase(l.database);
    out := out.(database := database);
    var contexts := CopyContexts(l.contexts);
    out := out.(contexts := contexts);
    var fronts := CopyFronts(l.fronts);
    out := out.(fronts := fronts);
  }

  datatype LookoutSpec<C, O> = LookoutSpec(common: C, own: O)
  type SpecOfLookout = LookoutSpec<Common, OwnFields>

  ghost function SpecRoots(l: SpecOfLookout): set<object?> {
    CommonRoots(l.common) + OwnRoots(l.own)
  }

  ghost function SpecParts(l: SpecOfLookout): (parts: set<object?>)
    reads SpecRoots(l)
    ensures SpecRoots(l) <= parts
  {
    CommonParts(l.common) + OwnParts(l.own)
  }

  ghost function SpecOf(l: SpecOfLookout): LookoutSpec<CommonValue, OwnValue>
    reads SpecRoots(l), SpecParts(l)
  {
    LookoutSpec(CommonOf(l.common), OwnOf(l.own))
  }

  method CopyLookoutSpec(l: SpecOfLookout) returns (out: SpecOfLookout)
    ensures SpecOf(out) == SpecOf(l) && fresh(SpecParts(out) - {null})
    ensures allocated(SpecParts(l)) && allocated(SpecParts(out))
  {
    hide CommonOf, CommonRoots, CommonParts, OwnOf, OwnRoots, OwnParts;
    out := l;
    var common := CopyCommon(l.common);
    out := out.(common := common);
    var own := CopyOwn(l.own);
    out := out.(own := own);
  }

  // ---- A whole Lookout: metadata, spec and status ----

  /** The metadata that every object has, its flat fields apart. */
  datatype MetaFlat<M, S, P> =
    MetaFlat(labels: M, annotations: M, finalizers: S, deletionTimestamp: P, deletionGracePeriodSeconds: P)
  datatype Metadata<F, E> = Metadata(text: string, flat: F, ownerReferences: E, managedFields: E)

  type MetaFlatRefs = MetaFlat<Strings, Slice<string>, Pointer<int>>
  type MetaFlatValue = MetaFlat<StringMap, Option<seq<string>>, Option<int>>
  type MetaRefs = Metadata<MetaFlatRefs, Slice<Struct>>
  type MetaValue = Metadata<MetaFlatValue, Option<seq<StructValue>>>

  ghost function MetaFlatParts(f: MetaFlatRefs): set<object?> {
    {f.labels, f.annotations, f.finalizers, f.deletionTimestamp, f.deletionGracePeriodSeconds, null}
  }

  ghost function MetaFlatOf(f: MetaFlatRefs): MetaFlatValue
    reads MetaFlatParts(f)
  {
    MetaFlat(Deref(f.labels), Deref(f.annotations), Elements(f.finalizers), Deref(f.deletionTimestamp),
             Deref(f.deletionGracePeriodSeconds))
  }

  method CopyTwoPointers<T>(a: Pointer<T>, b: Pointer<T>) returns (copyA: Pointer<T>, copyB: Pointer<T>)
    ensures Deref(copyA) == Deref(a) && Deref(copyB) == Deref(b) && fresh({copyA, copyB} - {null})
  {
    hide Deref;
    copyA := CopyPointer(a);
    copyB := CopyPointer(b);
  }

  method CopyMetaFlat(f: MetaFlatRefs) returns (out: MetaFlatRefs)
    ensures MetaFlatOf(out) == MetaFlatOf(f) && fresh(MetaFlatParts(out) - {null})
    ensures allocated(MetaFlatParts(f)) && allocated(MetaFlatParts(out))
  {
    hide Deref, Elements;
    out := f;
    var deletionTimestamp, seconds := CopyTwoPointers(f.deletionTimestamp, f.deletionGracePeriodSeconds);
    out := out.(deletionTimestamp := deletionTimestamp, deletionGracePeriodSeconds := seconds);
    var labels, annotations := CopyTwoPointers(f.labels, f.annotations);
    out := out.(labels := labels, annotations := annotations);
    var finalizers := CopySlice(f.finalizers);
    out := out.(finalizers := finalizers);
  }

  ghost function MetaRoots(m: MetaRefs): set<object?> {
    {m.ownerReferences, m.managedFields, null}
  }

  ghost function MetaParts(m: MetaRefs): (parts: set<object?>)
    reads MetaRoots(m)
    ensures MetaRoots(m) <= parts
  {
    MetaFlatParts(m.flat) + ArrayParts(m.ownerReferences) + ArrayParts(m.managedFields)
  }

  ghost function MetaOf(m: MetaRefs): MetaValue
    reads MetaRoots(m), MetaParts(m)
  {
    Metadata(m.text, MetaFlatOf(m.flat), StructsOf(m.ownerReferences), StructsOf(m.managedFields))
  }

  method CopyMetadata(m: MetaRefs) returns (out: MetaRefs)
    ensures MetaOf(out) == MetaOf(m) && fresh(MetaParts(out) - {null})
    ensures allocated(MetaParts(m)) && allocated(MetaParts(out))
  {
    hide MetaFlatOf, MetaFlatParts, StructsOf, ArrayParts;
    out := m;
    var flat := CopyMetaFlat(m.flat);
    out := out.(flat := flat);
    var ownerReferences, managedFields := CopyTwo(m.ownerReferences, m.managedFields);
    out := out.(ownerReferences := ownerReferences, managedFields := managedFields);
  }

  datatype LookoutStruct<M, S, C> = LookoutStruct(kind: string, metadata: M, spec: S, conditions: C)
  type LookoutRefs = LookoutStruct<MetaRefs, SpecOfLookout, Slice<StatusCondition>>
  type LookoutValue = LookoutStruct<MetaValue, LookoutSpec<CommonValue, OwnValue>, Option<seq<StatusCondition>>>

  ghost function LookoutRoots(l: LookoutRefs): set<object?> {
    MetaRoots(l.metadata) + SpecRoots(l.spec)
  }

  /** Whatever a Lookout reaches. */
  ghost function LookoutParts(l: LookoutRefs): (parts: set<object?>)
    reads LookoutRoots(l)
    ensures LookoutRoots(l) <= parts
  {
    MetaParts(l.metadata) + SpecParts(l.spec) + {l.conditions, null}
  }

  ghost function LookoutOf(l: LookoutRefs): LookoutValue
    reads LookoutRoots(l), LookoutParts(l)
  {
    LookoutStruct(l.kind, MetaOf(l.metadata), SpecOf(l.spec), Elements(l.conditions))
  }

  method CopyLookout(l: LookoutRefs) returns (out: LookoutRefs)
    ensures LookoutOf(out) == LookoutOf(l) && fresh(LookoutParts(out) - {null})
    ensures allocated(LookoutParts(l)) && allocated(LookoutParts(out))
  {
    hide MetaRoots, MetaParts, MetaOf, SpecRoots, SpecParts, SpecOf, Elements;
    out := l;
    var metadata := CopyMetadata(l.metadata);
    out := out.(metadata := metadata);
    var spec := CopyLookoutSpec(l.spec);
    out := out.(spec := spec);
    var conditions := CopySlice(l.conditions);
    out := out.(conditions := conditions);
  }

  datatype ExecutorStruct<C, P, S, I> = ExecutorStruct(common: C, placement: P, contexts: S, profilingIngressConfig: I)
  type ExecutorRefs = ExecutorStruct<Common, PlacementOver<AdditionalBinding>, PodContexts, Pointer<Ingress>>
  type ExecutorValue =
    ExecutorStruct<CommonValue, Placement<Option<int>, StringMap, Option<seq<AdditionalBinding>>>, Contexts<Option<StructValue>>,
                 Option<IngressValue>>

  ghost function ExecutorRoots(e: ExecutorRefs): set<object?> {
    CommonRoots(e.common) + ContextsRoots(e.contexts) + {e.profilingIngressConfig}
  }

  /** Whatever an ExecutorRefs spec reaches. */
  ghost function ExecutorParts(e: ExecutorRefs): (parts: set<object?>)
    reads ExecutorRoots(e)
    ensures ExecutorRoots(e) <= parts
  {
    CommonParts(e.common) + PlacementParts(e.placement) + ContextsParts(e.contexts) + IngressParts(e.profilingIngressConfig)
  }

  ghost function ExecutorOf(e: ExecutorRefs): ExecutorValue
    reads ExecutorRoots(e), ExecutorParts(e)
  {
    ExecutorStruct(CommonOf(e.common), PlacementOf(e.placement), ContextsOf(e.contexts),
                              IngressAt(e.profilingIngressConfig))
  }

  method CopyExecutorSpec(e: ExecutorRefs) returns (out: ExecutorRefs)
    ensures ExecutorOf(out) == ExecutorOf(e) && fresh(ExecutorParts(out) - {null})
    ensures allocated(ExecutorParts(e)) && allocated(ExecutorParts(out))
  {
    hide CommonOf, CommonRoots, CommonParts, PlacementOf, PlacementParts;
    hide ContextsOf, ContextsRoots, ContextsParts, IngressAt, IngressParts;
    out := e;
    var common := CopyCommon(e.common);
    out := out.(common := common);
    var placement := CopyPlacement(e.placement);
    out := out.(placement := placement);
    var contexts := CopyContexts(e.contexts);
    out := out.(contexts := contexts);
    var ingress := CopyIngressPointer(e.profilingIngressConfig);
    out := out.(profilingIngressConfig := ingress);
  }

  // ---- Independence ----

  /** Changes to what a common part reaches, at several depths. */
  method OverwriteCommon(c: Common)
    modifies CommonParts(c)
  {
    var entries: map<string, string>, text: string, elsewhere: Pointer<string> := *, *, *;
    if c.flat.labels != null {
      c.flat.labels.value := entries;
    }
    var prometheus := c.nested.prometheus;
    if prometheus != null && prometheus.value.labels != null {
      prometheus.value.labels.value := entries;
    }
    var environment := c.lists.environment;
    if environment != null && environment.Length > 0 {
      if environment[0].inner != null {
        environment[0].inner.value := text;
      }
      environment[0] := Struct(text, elsewhere);
    }
  }

  method Overwrite(l: LookoutRefs)
    modifies LookoutParts(l)
  {
    OverwriteCommon(l.spec.common);
    var text: string := *;
    if l.conditions != null && l.conditions.Length > 0 {
      l.conditions[0] := l.conditions[0].(message := text);
    }
  }

  /** Whatever is written to what one copy reaches is invisible in the original, and whatever is written to
      what the original reaches, in another copy; `seen` is what the original holds after the first change. */
  method CopiesAreIndependent(l: LookoutRefs) returns (copy: LookoutRefs, ghost seen: LookoutValue)
    modifies LookoutParts(l)
    ensures LookoutOf(copy) == seen == old(LookoutOf(l))
  {
    hide MetaRoots, MetaParts, MetaOf, SpecRoots, SpecParts, SpecOf, Elements;
    assert allocated(LookoutParts(l));
    copy := CopyLookout(l);
    var scratch := CopyLookout(l);
    Overwrite(scratch);
    seen := LookoutOf(l);
    Overwrite(l);
  }

  /** The same for an ExecutorRefs spec. */
  method ExecutorCopiesAreIndependent(e: ExecutorRefs) returns (copy: ExecutorRefs, ghost seen: ExecutorValue)
    modifies ExecutorParts(e)
    ensures ExecutorOf(copy) == seen == old(ExecutorOf(e))
  {
    hide CommonOf, CommonRoots, CommonParts, PlacementOf, PlacementParts;
    hide ContextsOf, ContextsRoots, ContextsParts, IngressAt, IngressParts;
    assert allocated(ExecutorParts(e));
    copy := CopyExecutorSpec(e);
    var scratch := CopyExecutorSpec(e);
    OverwriteExecutor(scratch);
    seen := ExecutorOf(e);
    OverwriteExecutor(e);
  }

  method OverwriteExecutor(e: ExecutorRefs)
    modifies ExecutorParts(e)
  {
    OverwriteCommon(e.common);
    var binding: AdditionalBinding := *;
    if e.placement.names != null && e.placement.names.Length > 0 {
      e.placement.names[0] := binding;
    }
  }
}
