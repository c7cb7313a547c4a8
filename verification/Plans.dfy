/** What a reconcile does to the cluster, as a sequence of operations on the store, and what any number
    of complete and aborted reconciles amount to. */
module Plans {
  import opened Api

  type Store = map<Key, Object>

  /** Create the object or reset its managed fields; wait until the Job is observed terminal; delete. */
  datatype Op = Upsert(key: Key, generated: Object) | Gate(key: Key) | Remove(key: Key)

  datatype Call = Created(key: Key) | Updated(key: Key) | Deleted(key: Key) | Passed(key: Key)

  /** The API server's defaulting of the managed fields. */
  type Defaulting = Managed -> Managed

  function ApplyOp(defaulting: Defaulting, op: Op, store: Store): Store {
    match op
    case Upsert(key, generated) =>
      if key !in store then store[key := Object(defaulting(generated.managed), generated.rest)]
      else if ResetKind(key.kind) && store[key].managed != generated.managed then
        store[key := store[key].(managed := defaulting(generated.managed))]
      else store
    case Gate(_) => store
    case Remove(key) => store - {key}
  }

  function CallsOf(op: Op, store: Store): seq<Call> {
    match op
    case Upsert(key, generated) =>
      if key !in store then [Created(key)]
      else if ResetKind(key.kind) && store[key].managed != generated.managed then [Updated(key)]
      else []
    case Gate(key) => [Passed(key)]
    case Remove(key) => if key in store then [Deleted(key)] else []
  }

  function Run(defaulting: Defaulting, ops: seq<Op>, store: Store): Store {
    if ops == [] then store
    else ApplyOp(defaulting, ops[|ops| - 1], Run(defaulting, ops[..|ops| - 1], store))
  }

  function Calls(defaulting: Defaulting, ops: seq<Op>, store: Store): seq<Call> {
    if ops == [] then []
    else
      var before := ops[..|ops| - 1];
      Calls(defaulting, before, store) + CallsOf(ops[|ops| - 1], Run(defaulting, before, store))
  }

  /** The API server refuses an update that changes the role reference of a binding. */
  predicate Accepts(key: Key, sent: Managed, store: Store) {
    key in store && key.kind == ClusterRoleBinding ==> RoleRef(store[key].managed) == RoleRef(sent)
  }

  predicate Accepted(op: Op, store: Store) {
    op.Upsert? ==> Accepts(op.key, op.generated.managed, store)
  }

  /** Whether the API server lets a reconcile get through these operations. */
  predicate Possible(defaulting: Defaulting, ops: seq<Op>, store: Store) {
    ops == [] || (Possible(defaulting, ops[..|ops| - 1], store)
                  && Accepted(ops[|ops| - 1], Run(defaulting, ops[..|ops| - 1], store)))
  }

  function Lookup(store: Store, key: Key): Option<Object> {
    if key in store then Some(store[key]) else None
  }

  predicate Touches(op: Op, key: Key) {
    !op.Gate? && op.key == key
  }

  /** A key has one operation: two operations on it are the same one. */
  ghost predicate Consistent(ops: seq<Op>) {
    forall a, b :: a in ops && b in ops && !a.Gate? && !b.Gate? && a.key == b.key ==> a == b
  }

  lemma RunSnoc(defaulting: Defaulting, ops: seq<Op>, op: Op, store: Store)
    ensures Run(defaulting, ops + [op], store) == ApplyOp(defaulting, op, Run(defaulting, ops, store))
    ensures Calls(defaulting, ops + [op], store) ==
            Calls(defaulting, ops, store) + CallsOf(op, Run(defaulting, ops, store))
    ensures Possible(defaulting, ops + [op], store) <==>
            Possible(defaulting, ops, store) && Accepted(op, Run(defaulting, ops, store))
  {
    assert (ops + [op])[..|ops|] == ops;
  }

  /** Keys without an operation are untouched. */
  lemma {:induction false} Frame(defaulting: Defaulting, ops: seq<Op>, store: Store, key: Key)
    requires forall op :: op in ops ==> !Touches(op, key)
    ensures Lookup(Run(defaulting, ops, store), key) == Lookup(store, key)
  {
    if ops != [] {
      Frame(defaulting, ops[..|ops| - 1], store, key);
      assert ops[|ops| - 1] in ops;
    }
  }

  /** In a reconcile, complete or aborted, each key ends as if its own operation had run alone on the store found. */
  lemma {:induction false} EachOpAlone(defaulting: Defaulting, ops: seq<Op>, store: Store, op: Op)
    requires Consistent(ops) && op in ops && !op.Gate?
    ensures Lookup(Run(defaulting, ops, store), op.key) == Lookup(ApplyOp(defaulting, op, store), op.key)
  {
    var before, last := ops[..|ops| - 1], ops[|ops| - 1];
    assert ops == before + [last];
    if op in before {
      EachOpAlone(defaulting, before, store, op);
    } else {
      Frame(defaulting, before, store, op.key);
    }
  }

  ghost predicate Defaulted(defaulting: Defaulting, store: Store) {
    forall k :: k in store ==> defaulting(store[k].managed) == store[k].managed
  }

  /** Idempotent defaulting keeps every stored object a fixed point of the defaulting. */
  lemma {:induction false} DefaultedAlways(defaulting: Defaulting, ops: seq<Op>, store: Store)
    requires Defaulted(defaulting, store) && forall m :: defaulting(defaulting(m)) == defaulting(m)
    ensures Defaulted(defaulting, Run(defaulting, ops, store))
  {
    if ops != [] {
      DefaultedAlways(defaulting, ops[..|ops| - 1], store);
    }
  }

  /** History independence with a frame. Whatever was stored before, after a successful reconcile every
      object of a reset kind has exactly the generated managed fields and keeps the rest; a Job,
      PrometheusRule or ServiceMonitor that was there is unchanged; a removed object is gone; and every
      other key is untouched. */
  lemma HistoryIndependence(defaulting: Defaulting, plan: seq<Op>, store: Store, key: Key)
    requires Consistent(plan) && Defaulted(defaulting, store)
    ensures var found, after := Lookup(store, key), Lookup(Run(defaulting, plan, store), key);
            && (forall generated :: Upsert(key, generated) in plan && ResetKind(key.kind) ==>
                  after == Some(Object(defaulting(generated.managed), if found.Some? then found.value.rest else generated.rest)))
            && (forall generated :: Upsert(key, generated) in plan && !ResetKind(key.kind) ==>
                  after == if found.Some? then found else Some(Object(defaulting(generated.managed), generated.rest)))
            && (Remove(key) in plan ==> after == None)
            && ((forall op :: op in plan ==> !Touches(op, key)) ==> after == found)
  {
    forall op | op in plan && Touches(op, key) {
      EachOpAlone(defaulting, plan, store, op);
    }
    if forall op :: op in plan ==> !Touches(op, key) {
      Frame(defaulting, plan, store, key);
    }
  }

  // ---- Aborted attempts ----

  /** The store after attempts that were each aborted somewhere. */
  function RunAttempts(defaulting: Defaulting, attempts: seq<seq<Op>>, store: Store): Store {
    if attempts == [] then store
    else Run(defaulting, attempts[|attempts| - 1], RunAttempts(defaulting, attempts[..|attempts| - 1], store))
  }

  lemma AbortedThenComplete(defaulting: Defaulting, plan: seq<Op>, aborted: seq<Op>, store: Store)
    requires Consistent(plan) && aborted <= plan
    ensures Run(defaulting, plan, Run(defaulting, aborted, store)) == Run(defaulting, plan, store)
  {
    var middle := Run(defaulting, aborted, store);
    forall key
      ensures Lookup(Run(defaulting, plan, middle), key) == Lookup(Run(defaulting, plan, store), key)
    {
      if op :| op in plan && Touches(op, key) {
        EachOpAlone(defaulting, plan, middle, op);
        EachOpAlone(defaulting, plan, store, op);
        if op in aborted {
          EachOpAlone(defaulting, aborted, store, op);
        } else {
          Frame(defaulting, aborted, store, key);
        }
      } else {
        Frame(defaulting, plan, middle, key);
        Frame(defaulting, plan, store, key);
        Frame(defaulting, aborted, store, key);
      }
    }
    SameLookups(Run(defaulting, plan, middle), Run(defaulting, plan, store));
  }

  lemma SameLookups(a: Store, b: Store)
    requires forall key :: Lookup(a, key) == Lookup(b, key)
    ensures a == b
  {
    forall key | key in a
      ensures key in b && a[key] == b[key]
    {
      assert Lookup(a, key) == Lookup(b, key);
    }
    forall key | key in b
      ensures key in a
    {
      assert Lookup(a, key) == Lookup(b, key);
    }
  }

  /** Retry confluence: any number of attempts aborted anywhere, then one that succeeds on the same spec,
      leave the store that a single successful attempt leaves. */
  lemma {:induction false} RetryConfluence(defaulting: Defaulting, plan: seq<Op>, attempts: seq<seq<Op>>, store: Store)
    requires Consistent(plan) && forall i :: 0 <= i < |attempts| ==> attempts[i] <= plan
    ensures Run(defaulting, plan, RunAttempts(defaulting, attempts, store)) == Run(defaulting, plan, store)
  {
    if attempts != [] {
      var before, aborted := attempts[..|attempts| - 1], attempts[|attempts| - 1];
      RetryConfluence(defaulting, plan, before, store);
      AbortedThenComplete(defaulting, plan, aborted, RunAttempts(defaulting, before, store));
    }
  }

  // ---- Idempotence ----

  ghost predicate OnlyWaits(calls: seq<Call>) {
    forall call :: call in calls ==> call.Passed?
  }

  ghost predicate OnlyUpdates(calls: seq<Call>) {
    forall call :: call in calls ==> call.Updated? || call.Passed?
  }

  /** Defaulting changes nothing that is generated and reset. */
  ghost predicate FullySpecified(defaulting: Defaulting, plan: seq<Op>) {
    forall op :: op in plan && op.Upsert? && ResetKind(op.key.kind) ==>
      defaulting(op.generated.managed) == op.generated.managed
  }

  /** An operation of the plan finds a settled store as it would leave it. */
  lemma SecondTime(defaulting: Defaulting, plan: seq<Op>, op: Op, store: Store)
    requires Consistent(plan) && op in plan
    ensures var settled := Run(defaulting, plan, store);
            && ApplyOp(defaulting, op, settled) == settled && OnlyUpdates(CallsOf(op, settled))
            && (FullySpecified(defaulting, plan) ==> OnlyWaits(CallsOf(op, settled)))
  {
    if !op.Gate? {
      EachOpAlone(defaulting, plan, store, op);
    }
  }

  lemma {:induction false} SecondRunCalls(defaulting: Defaulting, plan: seq<Op>, n: nat, store: Store)
    requires Consistent(plan) && n <= |plan|
    ensures var settled := Run(defaulting, plan, store);
            && Run(defaulting, plan[..n], settled) == settled && OnlyUpdates(Calls(defaulting, plan[..n], settled))
            && (FullySpecified(defaulting, plan) ==> OnlyWaits(Calls(defaulting, plan[..n], settled)))
    decreases n
  {
    if n > 0 {
      var settled, op := Run(defaulting, plan, store), plan[n - 1];
      SecondRunCalls(defaulting, plan, n - 1, store);
      assert plan[..n] == plan[..n - 1] + [op];
      RunSnoc(defaulting, plan[..n - 1], op, settled);
      SecondTime(defaulting, plan, op, store);
    }
  }

  /** Idempotence under any server defaulting: with no outside change a second reconcile leaves the store
      equal, creates nothing and deletes nothing; when defaulting changes no generated field it writes nothing at all. */
  lemma Idempotence(defaulting: Defaulting, plan: seq<Op>, store: Store)
    requires Consistent(plan)
    ensures var settled := Run(defaulting, plan, store);
            && Run(defaulting, plan, settled) == settled
            && OnlyUpdates(Calls(defaulting, plan, settled))
            && (FullySpecified(defaulting, plan) ==> OnlyWaits(Calls(defaulting, plan, settled)))
  {
    SecondRunCalls(defaulting, plan, |plan|, store);
    assert plan[..|plan|] == plan;
  }
}
