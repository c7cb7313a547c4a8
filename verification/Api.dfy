/** The vocabulary shared by every module: optional values, Go maps and the objects the API server stores. */
module Api {

  datatype Option<+T> = None | Some(value: T)

  /** The version that is stored, of all versions so far. */
  function Last<T>(versions: seq<T>): T
    requires versions != []
  {
    versions[|versions| - 1]
  }

  /** What becomes of a client call: it arrives and is answered, it never arrives, or its answer is lost. */
  datatype Fate = Through | Unsent | Unanswered

  /** The calls from one to another all arrived and were answered. */
  ghost predicate AllThrough(fate: nat -> Fate, from: nat, to: nat) {
    forall n :: from <= n < to ==> fate(n) == Through
  }

  /** A Go map: nil and empty are different values, and both range over no entry. */
  datatype GoMap = NilMap | MadeMap(made: map<string, string>)
  {
    function Entries(): map<string, string> {
      match this
      case NilMap => map[]
      case MadeMap(m) => m
    }
  }

  datatype Kind =
    | ServiceAccount
    | Secret
    | Job
    | Deployment
    | Service
    | Ingress
    | PodDisruptionBudget
    | CronJob
    | ServiceMonitor
    | PrometheusRule
    | ClusterRole
    | ClusterRoleBinding

  /** The kinds whose managed fields are overwritten on every upsert; the others are created once and then left alone. */
  predicate ResetKind(kind: Kind) {
    kind != Job && kind != PrometheusRule && kind != ServiceMonitor
  }

  datatype Key = Key(kind: Kind, namespace: string, name: string)

  datatype Subject = Subject(name: string, namespace: string)

  /** The RoleRef and Subjects of a binding, or as an uninterpreted text the Spec, the Data, the Rules or the
      three fields of a ServiceAccount. */
  datatype Content = Text(text: string) | Bound(roleRef: string, subjects: seq<Subject>)

  /** The fields of an object the operator manages. Objects are compared with nil and empty maps equal, so a
      nil map is the empty map here. */
  datatype Managed = Managed(labels: map<string, string>, annotations: map<string, string>, content: Content)

  function RoleRef(managed: Managed): Option<string> {
    match managed.content
    case Bound(roleRef, _) => Some(roleRef)
    case Text(_) => None
  }

  /** A stored object: its managed fields and everything else (owner references, Secret type, ...). */
  datatype Object = Object(managed: Managed, rest: string)

  // ---- Structs of the API, for what their maps, slices and pointers are taken to be ----

  datatype IngressConfig<M, S> =
    IngressConfig(labels: M, annotations: M, ingressClass: string, hostnames: S, clusterIssuer: string)

  datatype PartitionJobTableConfig<P> = PartitionJobTableConfig(enabled: bool, activeDeadlineSeconds: P)
}
