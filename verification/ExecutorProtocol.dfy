/** The finalizer protocol of a controller with cluster-scoped objects, as a state machine: one name, the
    versions of the Executor stored under it, the informer cache, the cluster-scoped objects the
    operator created for it, and a reconcile whose every client call may fail, interleaved with the
    user. The index of a version is its resourceVersion. */
module ExecutorProtocol {
  import opened Api
  import opened ClusterRoles
  import opened Finalizers

  /** `others` tells whether the object carries finalizers of someone else. */
  datatype Executor = Executor(spec: ExecutorSpec, finalizer: bool, others: bool, deleting: bool)

  datatype Phase =
    | Idle
    | Attaching(version: nat, seen: Executor)
    | Upserting(seen: Executor, todo: seq<Key>)
    | Cleaning(version: nat, seen: Executor, todo: seq<Key>)

  /** `keys` gives the cluster-scoped keys generated from a spec: ClusterRoles.ExternalKeys for the Executor,
      the two constant keys of the Binoculars controller, or any other generator. */
  datatype State = State(keys: ExecutorSpec -> seq<Key>, stored: seq<Option<Executor>>, cache: nat, external: set<Key>, phase: Phase)

  /** `reported` is false when the API server applied a write but the caller got an error. */
  datatype Step =
    | UserCreates(executor: Executor)
    | UserEdits(spec: ExecutorSpec, others: bool)
    | UserDeletes
    | SomeoneDeletes(key: Key)
    | Delivered
    | Start
    | AttachFinalizer(reported: bool)
    | Upsert(reported: bool)
    | FinishInstall
    | Delete(reported: bool)
    | DetachFinalizer(reported: bool)
    | Fail

  predicate Indexed(s: State) {
    s.cache < |s.stored|
  }

  predicate Init(s: State) {
    s.stored == [None] && s.cache == 0 && s.external == {} && s.phase == Idle
  }

  /** The API server removes an object being deleted once it has no finalizer. */
  function Settle(executor: Executor): Option<Executor> {
    if executor.deleting && !executor.finalizer && !executor.others then None else Some(executor)
  }

  function Keys(s: State, executor: Executor): seq<Key> {
    s.keys(executor.spec)
  }

  predicate Enabled(s: State, step: Step)
    requires Indexed(s)
  {
    match step
    case UserCreates(executor) => Last(s.stored).None? && !executor.deleting
    case UserEdits(_, _) => Last(s.stored).Some?
    case UserDeletes => Last(s.stored).Some? && !Last(s.stored).value.deleting
    case SomeoneDeletes(_) => true
    case Delivered => s.cache + 1 < |s.stored|
    case Start => s.phase == Idle
    case AttachFinalizer(_) => s.phase.Attaching? && s.phase.version == |s.stored| - 1
    case Upsert(_) => s.phase.Upserting? && s.phase.todo != []
    case FinishInstall => s.phase.Upserting? && s.phase.todo == []
    case Delete(_) => s.phase.Cleaning? && s.phase.todo != []
    case DetachFinalizer(_) => s.phase.Cleaning? && s.phase.todo == [] && s.phase.version == |s.stored| - 1
    case Fail => s.phase != Idle
  }

  function Begin(s: State): Phase
    requires Indexed(s)
  {
    match s.stored[s.cache]
    case None => Idle
    case Some(seen) =>
      match ActionFor(seen.deleting, seen.finalizer)
      case Attach => Attaching(s.cache, seen)
      case Proceed => Upserting(seen, Keys(s, seen))
      case CleanUp => Cleaning(s.cache, seen, Keys(s, seen))
      case Stop => Idle
  }

  function Apply(s: State, step: Step): State
    requires Indexed(s) && Enabled(s, step)
  {
    match step
    case UserCreates(executor) => s.(stored := s.stored + [Some(executor)])
    case UserEdits(spec, others) =>
      s.(stored := s.stored + [Settle(Last(s.stored).value.(spec := spec, others := others))])
    case UserDeletes => s.(stored := s.stored + [Settle(Last(s.stored).value.(deleting := true))])
    case SomeoneDeletes(key) => s.(external := s.external - {key})
    case Delivered => s.(cache := s.cache + 1)
    case Start => s.(phase := Begin(s))
    case AttachFinalizer(reported) =>
      var seen := s.phase.seen.(finalizer := true);
      s.(stored := s.stored + [Some(seen)], phase := if reported then Upserting(seen, Keys(s, seen)) else Idle)
    case Upsert(reported) =>
      s.(external := s.external + {s.phase.todo[0]},
         phase := if reported then Upserting(s.phase.seen, s.phase.todo[1..]) else Idle)
    case FinishInstall => s.(phase := Idle)
    case Delete(reported) =>
      s.(external := s.external - {s.phase.todo[0]},
         phase := if reported then Cleaning(s.phase.version, s.phase.seen, s.phase.todo[1..]) else Idle)
    case DetachFinalizer(reported) =>
      s.(stored := s.stored + [Settle(s.phase.seen.(finalizer := false))], phase := Idle)
    case Fail => s.(phase := Idle)
  }

  /** A step from one state to the next. */
  ghost predicate Link(s: State, step: Step, next: State) {
    Indexed(s) && Enabled(s, step) && next == Apply(s, step) && Indexed(next)
  }

  /** States that follow each other, step by step. */
  ghost predicate Follows(states: seq<State>, steps: seq<Step>) {
    |states| == |steps| + 1 && forall i :: 0 <= i < |steps| ==> Link(states[i], steps[i], states[i + 1])
  }

  /** A run: from an initial state through any steps, each enabled where it is taken. */
  ghost predicate Run(states: seq<State>, steps: seq<Step>) {
    Follows(states, steps) && Init(states[0])
  }
}
