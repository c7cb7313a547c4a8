/** One Reconcile call at work: the client, the generated components and the snapshot its mutate function resets them from. */
module Sessions {
  import opened Api
  import opened Components
  import opened Jobs
  import opened Plans
  import opened Stages

  datatype Answer = CallFailed | Answered(found: Option<Object>, conditions: seq<JobCondition>)

  function Saved(defaulting: Defaulting, key: Key, value: Object, store: Store): Store {
    if Lookup(store, key) == Some(value) then store
    else store[key := Object(defaulting(value.managed), value.rest)]
  }

  function SaveCalls(key: Key, value: Object, store: Store): seq<Call> {
    if key !in store then [Created(key)] else if store[key] == value then [] else [Updated(key)]
  }

  /** What the API answers to polls of a Job, from a call on; `there` tells whether it is stored. */
  function PollAnswers(fate: nat -> Fate, status: (Key, nat) -> seq<JobCondition>, key: Key, there: bool, from: nat): (answers: seq<Read>)
    ensures |answers| == JOB_TIMEOUT / JOB_POLL_INTERVAL
    ensures forall i :: 0 <= i < |answers| ==>
              answers[i] == if there && fate(from + i) == Through then ReadJob(status(key, from + i)) else ReadError
  {
    seq(JOB_TIMEOUT / JOB_POLL_INTERVAL, i requires 0 <= i =>
      if there && fate(from + i) == Through then ReadJob(status(key, from + i)) else ReadError)
  }

  /** The API server behind a client. What becomes of the calls and what is answered is not the operator's choice: `fate` is
      that of the n-th call, `status` what the Job controller has made of a Job when that call is made, and `patience` the
      number of intervals after which the context of a wait that begins with it ends. */
  class Client {
    const defaulting: Defaulting
    const fate: nat -> Fate
    const status: (Key, nat) -> seq<JobCondition>
    const patience: nat -> nat
    var store: Store
    var log: seq<Call>
    var calls: nat

    constructor (defaulting: Defaulting, fate: nat -> Fate, status: (Key, nat) -> seq<JobCondition>, patience: nat -> nat, store: Store)
      ensures this.defaulting == defaulting && this.fate == fate && this.status == status && this.patience == patience
      ensures this.store == store && log == [] && calls == 0
    {
      this.defaulting, this.fate, this.status, this.patience := defaulting, fate, status, patience;
      this.store, log, calls := store, [], 0;
    }

    /** A get. */
    method Read(key: Key) returns (answer: Answer)
      modifies `calls
      ensures calls == old(calls) + 1
      ensures answer == if fate(old(calls)) != Through then CallFailed else Answered(Lookup(store, key), status(key, old(calls)))
    {
      var n := calls;
      calls := n + 1;
      answer := if fate(n) != Through then CallFailed else Answered(Lookup(store, key), status(key, n));
    }

    /** Polls a Job until it has ended, a poll fails or time is up, which it is after 24 polls or when the context ends. */
    method Poll(key: Key, job: JobObject) returns (result: WaitResult)
      modifies `calls, job
      ensures calls <= old(calls) + 24 && calls <= old(calls) + patience(old(calls))
      ensures result == TimedOut ==> calls == old(calls) + 24 || calls == old(calls) + patience(old(calls))
      ensures Waited(key, old(calls), calls, result)
      ensures result == Observed ==> job.conditions == status(key, calls - 1) && Finished(job.conditions)
    {
      var answers := PollAnswers(fate, status, key, key in store, calls);
      var made: nat;
      made, result := WaitForJob(job, answers, patience(calls), JOB_POLL_INTERVAL, JOB_TIMEOUT);
      calls := calls + made;
      if result == Observed {
        assert answers[..made][|answers[..made]| - 1] == answers[made - 1];
      }
    }

    /** The calls from one to another are the polls of one wait for a Job, with this result. */
    ghost predicate Waited(key: Key, from: nat, to: nat, result: WaitResult)
      reads `store
    {
      from <= to && WaitOutcome(PollAnswers(fate, status, key, key in store, from),
                                MinNat(JOB_TIMEOUT / JOB_POLL_INTERVAL, patience(from)), to - from, result)
    }

    method Create(key: Key, value: Object) returns (failed: bool, stored: Object, ghost applied: bool)
      modifies this
      ensures calls == old(calls) + 1
      ensures applied <==> old(key !in store) && fate(old(calls)) != Unsent
      ensures failed <==> !(applied && fate(old(calls)) == Through)
      ensures store == if applied then old(store)[key := Object(defaulting(value.managed), value.rest)] else old(store)
      ensures log == if applied then old(log) + [Created(key)] else old(log)
      ensures !failed ==> stored == store[key]
    {
      var n := calls;
      calls := n + 1;
      stored := Object(defaulting(value.managed), value.rest);
      if fate(n) == Unsent || key in store {
        return true, stored, false;
      }
      store, log := store[key := stored], log + [Created(key)];
      return fate(n) == Unanswered, stored, true;
    }

    /** Refused if the object is gone, or if it is a binding whose role reference would change. */
    method Update(key: Key, value: Object) returns (failed: bool, stored: Object, ghost applied: bool)
      modifies this
      ensures calls == old(calls) + 1
      ensures applied <==> old(key in store) && Accepts(key, value.managed, old(store)) && fate(old(calls)) != Unsent
      ensures failed <==> !(applied && fate(old(calls)) == Through)
      ensures store == if applied then old(store)[key := Object(defaulting(value.managed), value.rest)] else old(store)
      ensures log == if applied then old(log) + [Updated(key)] else old(log)
      ensures !failed ==> stored == store[key]
    {
      var n := calls;
      calls := n + 1;
      stored := Object(defaulting(value.managed), value.rest);
      if fate(n) == Unsent || key !in store {
        return true, stored, false;
      }
      if key.kind == ClusterRoleBinding && RoleRef(store[key].managed) != RoleRef(value.managed) {
        return true, stored, false;
      }
      store, log := store[key := stored], log + [Updated(key)];
      return fate(n) == Unanswered, stored, true;
    }

    /** Notes that a Job was seen to have ended. */
    method NotePassed(key: Key)
      modifies `log
      ensures log == old(log) + [Passed(key)]
    {
      log := log + [Passed(key)];
    }

    method Delete(key: Key) returns (failed: bool, notFound: bool, ghost applied: bool)
      modifies this
      ensures calls == old(calls) + 1
      ensures applied <==> old(key in store) && fate(old(calls)) != Unsent
      ensures store == if applied then old(store) - {key} else old(store)
      ensures log == if applied then old(log) + [Deleted(key)] else old(log)
      ensures notFound <==> old(key !in store) && fate(old(calls)) == Through
      ensures failed <==> !(applied && fate(old(calls)) == Through)
    {
      var n := calls;
      calls := n + 1;
      if fate(n) == Unsent {
        return true, false, false;
      }
      if key !in store {
        return true, fate(n) == Through, false;
      }
      store, log := store - {key}, log + [Deleted(key)];
      return fate(n) == Unanswered, false, true;
    }

    /** Create what was not found, update what was found different, with one call, and with none what was found equal;
        `stored` is the server's answer, if one came. */
    method Save(key: Key, value: Object, found: Option<Object>) returns (failed: bool, stored: Option<Object>, ghost applied: bool)
      requires found == Lookup(store, key)
      modifies this
      ensures calls == old(calls) + |SaveCalls(key, value, old(store))|
      ensures applied <==> SaveCalls(key, value, old(store)) == [] || (Accepts(key, value.managed, old(store)) && fate(old(calls)) != Unsent)
      ensures failed <==> !(applied && AllThrough(fate, old(calls), calls))
      ensures store == if applied then Saved(defaulting, key, value, old(store)) else old(store)
      ensures log == if applied then old(log) + SaveCalls(key, value, old(store)) else old(log)
      ensures stored == if failed || SaveCalls(key, value, old(store)) == [] then None else Lookup(store, key)
    {
      if found == Some(value) {
        return false, None, true;
      }
      var answer: Object;
      if found.None? {
        failed, answer, applied := Create(key, value);
      } else {
        failed, answer, applied := Update(key, value);
      }
      stored := if failed then None else Some(answer);
    }

    // ---- Why a reconcile stops ----

    /** The API server refuses the operation of this stage, or time is up in the wait for its Job. */
    ghost predicate Refuses(generated: Generated, stage: Stage, from: nat)
      reads this
    {
      match stage
      case UpsertStage(role) => role in generated && !Accepted(Op.Upsert(generated[role].key, generated[role].value), store)
      case AwaitStage(i) =>
        && JobRole(i) in generated && generated[JobRole(i)].key in store
        && exists start :: from <= start <= calls && Waited(generated[JobRole(i)].key, start, calls, TimedOut)
      case RemoveStage(_) => false
      case PartitionStage(_) => false
    }

    /** A reconcile that began with call `from` and did these stages could not go on: one of its calls failed, or
        the next stage of its plan is refused. */
    ghost predicate Stops(generated: Generated, plan: seq<Stage>, from: nat, done: seq<Stage>)
      reads this
    {
      || !AllThrough(fate, from, calls)
      || (|done| < |plan| && Refuses(generated, plan[|done|], from))
    }

    /** Some call from `from` on was answered with these conditions of the Job. */
    ghost predicate Saw(key: Key, from: nat, conditions: seq<JobCondition>)
      reads `calls
    {
      exists n :: from <= n < calls && fate(n) == Through && status(key, n) == conditions
    }
  }

  /** What a reconcile has done: the stages that took effect, the roles tried, and the terminal Jobs seen. */
  datatype History = History(stages: seq<Stage>, touched: set<Role>, observed: map<nat, seq<JobCondition>>)

  /** Roles that were not written yet still hold what was generated for them. */
  ghost predicate Untouched(now: View, kept: View, touched: set<Role>) {
    now.Keys == kept.Keys && forall role :: role in now && role !in touched ==> now[role] == kept[role]
  }

  /** The Jobs whose end was waited for still show the conditions that were read then. */
  ghost predicate StillObserved(now: View, touched: set<Role>, observed: map<nat, seq<JobCondition>>) {
    forall i :: i in observed ==>
      JobRole(i) in touched && JobRole(i) in now && now[JobRole(i)].conditions == observed[i] && Finished(observed[i])
  }

  /** The snapshot mutate functions reset from: a graph of its own with the same values. */
  method TakeSnapshot(live: CommonComponents) returns (snapshot: CommonComponents)
    requires live.Typed() && {SecretRole, DeploymentRole} <= live.slots.Keys
    ensures fresh(snapshot) && live.Ready(snapshot) && snapshot.slots.Keys == live.slots.Keys
    ensures ViewOf(snapshot.slots) == ViewOf(live.slots) == old(ViewOf(live.slots)) && unchanged(live)
  {
    snapshot := live.DeepCopy();
    SameValues(live.slots, snapshot.slots);
    UntouchedView(live.slots);
  }

  twostate lemma SameValues(slots: map<Role, ApiObject>, new copies: map<Role, ApiObject>)
    requires slots.Keys == copies.Keys
    requires forall role :: role in slots ==> fresh(copies[role]) && SeparateCopy(copies[role], slots[role])
    ensures ViewOf(copies) == ViewOf(slots) && Apart(slots, copies)
  {
  }

  /** A reset keeps both, for whatever has been read so far. */
  lemma ResetKeeps(now: View, kept: View, touched: set<Role>, observed: map<nat, seq<JobCondition>>)
    requires Untouched(now, kept, touched) && StillObserved(now, touched, observed)
    ensures Untouched(ResetView(kept, now), kept, touched) && StillObserved(ResetView(kept, now), touched, observed)
  {
  }

  /** So does a read into a role that was not tried yet, which from then on counts as tried. */
  lemma ReadKeeps(now: View, kept: View, touched: set<Role>, observed: map<nat, seq<JobCondition>>, role: Role, seen: Seen)
    requires Untouched(now, kept, touched) && StillObserved(now, touched, observed) && role in now
    requires forall i :: i in observed ==> role != JobRole(i)
    ensures Untouched(now[role := seen], kept, touched + {role}) && StillObserved(now[role := seen], touched, observed)
  {
  }

  lemma AwaitKeeps(now: View, kept: View, touched: set<Role>, observed: map<nat, seq<JobCondition>>, index: nat, seen: Seen)
    requires Untouched(now, kept, touched) && StillObserved(now, touched, observed)
    requires JobRole(index) in now && JobRole(index) in touched && index !in observed && Finished(seen.conditions)
    ensures Untouched(now[JobRole(index) := seen], kept, touched)
    ensures StillObserved(now[JobRole(index) := seen], touched, observed[index := seen.conditions])
  {
  }

  function Items(slots: map<Role, ApiObject>, view: View): Generated
    requires slots.Keys == view.Keys
  {
    map role | role in slots :: Item(slots[role].key, view[role].value)
  }

  lemma Associative<T>(a: seq<T>, b: seq<T>, c: seq<T>)
    ensures a + (b + c) == (a + b) + c
  {
  }

  lemma NothingAdded<T>(a: seq<T>, b: seq<T>)
    requires b == []
    ensures a + b == a
  {
  }

  class Session {
    const client: Client
    const live: CommonComponents
    const snapshot: CommonComponents
    /** What was generated, and where the store stood when the reconcile began. */
    ghost const slots: map<Role, ApiObject>
    ghost const generated: Generated
    ghost const kept: View
    ghost const base: Store
    ghost const baseLog: seq<Call>
    ghost const baseCalls: nat

    /** The live graph is the one generated, with its snapshot intact. */
    ghost predicate Linked()
      reads *
    {
      && live.slots == slots && slots.Keys == kept.Keys == generated.Keys
      && live.Ready(snapshot) && slots.Keys == snapshot.slots.Keys && Generates() && ViewOf(snapshot.slots) == kept
    }

    ghost predicate Generates() {
      slots.Keys == kept.Keys && generated == Items(slots, kept)
    }

    lemma Facts()
      requires Linked()
      ensures live.slots == slots && slots.Keys == kept.Keys == generated.Keys && slots.Keys == snapshot.slots.Keys
      ensures live.Ready(snapshot) && Generates() && ViewOf(snapshot.slots) == kept
    {
    }

    lemma IsLinked()
      requires live.slots == slots && slots.Keys == kept.Keys == generated.Keys && slots.Keys == snapshot.slots.Keys
      requires live.Ready(snapshot) && Generates() && ViewOf(snapshot.slots) == kept
      ensures Linked()
    {
    }

    lemma GeneratedItem(role: Role)
      requires Linked() && role in slots
      ensures live.slots == slots && role in generated && role in kept && ViewOf(slots).Keys == kept.Keys
      ensures generated[role] == Item(slots[role].key, kept[role].value) && slots[role].key.kind == KindOf(role)
      ensures slots[role].Value() == ViewOf(slots)[role].value
    {
      assert slots[role].key.kind == KindOf(role);
    }

    /** The live graph is consistent with what has been done. */
    ghost predicate Consistent(touched: set<Role>, observed: map<nat, seq<JobCondition>>)
      reads *
    {
      Linked() && Untouched(ViewOf(slots), kept, touched) && StillObserved(ViewOf(slots), touched, observed)
    }

    /** The store and the calls made are those of the stages done, from where the reconcile began. */
    ghost predicate StoreIs(stages: seq<Stage>, store: Store, log: seq<Call>) {
      && store == Run(client.defaulting, Ops(generated, stages), base)
      && log == baseLog + Calls(client.defaulting, Ops(generated, stages), base)
      && Possible(client.defaulting, Ops(generated, stages), base)
    }

    lemma StoreIsRun(stages: seq<Stage>, store: Store, log: seq<Call>)
      requires StoreIs(stages, store, log)
      ensures store == Run(client.defaulting, Ops(generated, stages), base)
      ensures log == baseLog + Calls(client.defaulting, Ops(generated, stages), base)
      ensures Possible(client.defaulting, Ops(generated, stages), base)
    {
    }

    /** What has been seen of the Jobs waited for was the answer to some call of this reconcile. */
    ghost predicate Witnessed(observed: map<nat, seq<JobCondition>>)
      reads client`calls
    {
      && baseCalls <= client.calls
      && forall i :: i in observed ==>
           JobRole(i) in generated && Finished(observed[i]) && client.Saw(generated[JobRole(i)].key, baseCalls, observed[i])
    }

    /** What holds when a reconcile ends, wherever that is. */
    ghost predicate Ended(h: History)
      reads client
    {
      StoreIs(h.stages, client.store, client.log) && Witnessed(h.observed)
    }

    /** What holds between two stages: no call has failed so far. */
    ghost predicate Valid(h: History)
      reads *
    {
      && Ended(h) && AllThrough(client.fate, baseCalls, client.calls)
      && Consistent(h.touched, h.observed)
    }

    /** What has been seen stays seen. */
    twostate lemma WitnessedStays(observed: map<nat, seq<JobCondition>>)
      requires old(Witnessed(observed)) && old(client.calls) <= client.calls
      ensures Witnessed(observed)
    {
      forall i | i in observed
        ensures client.Saw(generated[JobRole(i)].key, baseCalls, observed[i])
      {
        assert old(client.Saw(generated[JobRole(i)].key, baseCalls, observed[i]));
      }
    }

    lemma WitnessedToo(observed: map<nat, seq<JobCondition>>, index: nat)
      requires Witnessed(observed) && JobRole(index) in generated
      requires baseCalls < client.calls && client.fate(client.calls - 1) == Through
      requires Finished(client.status(generated[JobRole(index)].key, client.calls - 1))
      ensures Witnessed(observed[index := client.status(generated[JobRole(index)].key, client.calls - 1)])
    {
    }

    lemma Known(h: History)
      requires Valid(h)
      ensures live.slots == slots && slots.Keys == generated.Keys && Witnessed(h.observed) && baseCalls <= client.calls
    {
      hide StoreIs, Untouched, StillObserved, Witnessed, Generates;
      assert Witnessed(h.observed);
      Facts();
      SinceBegin(h);
    }

    lemma SinceBegin(h: History)
      requires Ended(h)
      ensures Witnessed(h.observed) && baseCalls <= client.calls
    {
      hide StoreIs;
    }

    lemma NilTouched(h: History, role: Role)
      requires Valid(h) && role !in slots
      ensures Consistent(h.touched + {role}, h.observed)
    {
      hide StoreIs, Witnessed, Linked, SeenOf, ViewOf;
    }

    /** The Jobs of the generated graph are there, none of them nil. */
    lemma JobIsThere(h: History, index: nat)
      requires Valid(h) && index < live.jobs
      ensures JobRole(index) in slots
    {
    }

    constructor (client: Client, live: CommonComponents, snapshot: CommonComponents)
      ensures this.client == client && this.live == live && this.snapshot == snapshot
      ensures slots == live.slots && kept == ViewOf(live.slots) && generated == Items(slots, kept)
      ensures base == client.store && baseLog == client.log && baseCalls == client.calls
    {
      this.client, this.live, this.snapshot := client, live, snapshot;
      slots, kept := live.slots, ViewOf(live.slots);
      generated := Items(live.slots, ViewOf(live.slots));
      base, baseLog, baseCalls := client.store, client.log, client.calls;
    }

    twostate predicate GraphUntouched()
      reads *
    {
      && unchanged(live) && unchanged(snapshot)
      && ViewOf(slots) == old(ViewOf(slots)) && ViewOf(snapshot.slots) == old(ViewOf(snapshot.slots))
    }

    /** A call that writes no object of either graph leaves both as they were. */
    twostate lemma CallsWriteNoObject()
      requires unchanged(live) && unchanged(snapshot)
      requires forall role :: role in slots ==> SeenOf(slots[role]) == old(SeenOf(slots[role]))
      requires forall role :: role in snapshot.slots ==> SeenOf(snapshot.slots[role]) == old(SeenOf(snapshot.slots[role]))
      ensures GraphUntouched()
    {
      UntouchedView(slots);
      UntouchedView(snapshot.slots);
    }

    twostate lemma LinkedStays()
      requires old(Linked()) && GraphUntouched()
      ensures Linked()
    {
    }

    method MutateFn()
      requires Linked()
      modifies live, slots.Values
      ensures Linked() && unchanged(client)
      ensures ViewOf(slots) == ResetView(kept, old(ViewOf(slots)))
    {
      hide Linked, Generates, ResetView, SeenOf, ViewOf, CommonComponents.Ready;
      Facts();
      Mutate(live, snapshot);
      IsLinked();
    }

    method Receive(role: Role, value: Object, conditions: seq<JobCondition>)
      requires Linked() && role in slots
      modifies slots[role]
      ensures Linked() && unchanged(client)
      ensures ViewOf(slots) == old(ViewOf(slots))[role := Seen(value, conditions)]
    {
      hide Linked, Generates, SeenOf, ViewOf, CommonComponents.Ready;
      Facts();
      ReadInto(live, snapshot, role, value, conditions);
      IsLinked();
    }

    method Ask(key: Key) returns (answer: Answer)
      requires Linked()
      modifies client`calls
      ensures Linked() && ViewOf(slots) == old(ViewOf(slots)) && unchanged(live) && client.calls == old(client.calls) + 1
      ensures answer == if client.fate(old(client.calls)) != Through then CallFailed
                        else Answered(Lookup(client.store, key), client.status(key, old(client.calls)))
    {
      hide Linked, SeenOf, ViewOf;
      answer := client.Read(key);
      CallsWriteNoObject();
      LinkedStays();
    }

    /** An object that was found is read over the live one, and then the whole graph is reset. */
    method ReadAndReset(role: Role, existing: Object, conditions: seq<JobCondition>)
      requires Linked() && role in slots
      modifies live, slots.Values
      ensures Linked() && unchanged(client)
      ensures old(ViewOf(slots)).Keys == kept.Keys
      ensures ViewOf(slots) == ResetView(kept, old(ViewOf(slots))[role := Seen(existing, conditions)])
    {
      hide Linked, ResetView, SeenOf;
      GeneratedItem(role);
      ghost var before := ViewOf(slots);
      Receive(role, existing, conditions);
      ghost var middle := ViewOf(slots);
      assert middle == before[role := Seen(existing, conditions)];
      MutateFn();
      assert ViewOf(slots) == ResetView(kept, middle);
    }

    /** The first half of CreateOrUpdate: read the object over the live one, then reset the whole graph. */
    method Fetch(role: Role) returns (answer: Answer)
      requires Linked() && role in slots
      modifies live, slots.Values, client`calls
      ensures Linked() && client.calls == old(client.calls) + 1
      ensures answer == if client.fate(old(client.calls)) != Through then CallFailed
                        else Answered(Lookup(client.store, slots[role].key), client.status(slots[role].key, old(client.calls)))
      ensures ViewOf(slots) == Fetched(old(ViewOf(slots)), role, answer)
    {
      hide Linked, ResetView, SeenOf, ViewOf;
      GeneratedItem(role);
      ghost var before := ViewOf(slots);
      answer := Ask(live.slots[role].key);
      match answer {
        case CallFailed =>
        case Answered(None, _) =>
          MutateFn();
          assert ViewOf(slots) == ResetView(kept, before);
        case Answered(Some(existing), conditions) =>
          ReadAndReset(role, existing, conditions);
      }
    }

    ghost function Fetched(before: View, role: Role, answer: Answer): View {
      match answer
      case CallFailed => before
      case Answered(None, _) => ResetView(kept, before)
      case Answered(Some(existing), conditions) => ResetView(kept, before[role := Seen(existing, conditions)])
    }

    lemma FetchKeeps(before: View, role: Role, answer: Answer, touched: set<Role>, observed: map<nat, seq<JobCondition>>)
      requires role in generated && role in kept && generated[role].value == kept[role].value && role !in touched
      requires Untouched(before, kept, touched) && StillObserved(before, touched, observed)
      ensures var now := Fetched(before, role, answer);
              && Untouched(now, kept, touched + {role}) && StillObserved(now, touched, observed)
              && (answer.Answered? ==> now[role].value == Desired(role, answer.found))
              && (answer.Answered? && answer.found.Some? ==> now[role].conditions == answer.conditions)
    {
      match answer {
        case CallFailed =>
        case Answered(None, _) =>
          ResetKeeps(before, kept, touched, observed);
        case Answered(Some(existing), conditions) =>
          ReadKeeps(before, kept, touched, observed, role, Seen(existing, conditions));
          var read := before[role := Seen(existing, conditions)];
          ResetKeeps(read, kept, touched + {role}, observed);
      }
    }

    /** What CreateOrUpdate sends: the generated object, or the stored one with its managed fields if they are reset. */
    ghost function Desired(role: Role, found: Option<Object>): Object
      requires role in generated
    {
      match found
      case None => generated[role].value
      case Some(existing) => if Resets(role) then existing.(managed := generated[role].value.managed) else existing
    }

    /** Sending the desired object is the upsert operation. */
    lemma DesiredIsUpsert(role: Role, store: Store)
      requires role in generated && generated[role].key.kind == KindOf(role)
      ensures var op, key := UpsertOf(role), generated[role].key;
              var value := Desired(role, Lookup(store, key));
              && ApplyOp(client.defaulting, op, store) == Saved(client.defaulting, key, value, store)
              && CallsOf(op, store) == SaveCalls(key, value, store)
              && (Accepts(key, value.managed, store) <==> Accepted(op, store))
              && (SaveCalls(key, value, store) == [] ==>
                    Accepted(op, store) && Lookup(store, key) == Some(value) && Saved(client.defaulting, key, value, store) == store)
              && key in Saved(client.defaulting, key, value, store)
    {
      ResetsByKind(role);
    }

    method Send(key: Key, value: Object, found: Option<Object>) returns (failed: bool, stored: Option<Object>, ghost applied: bool)
      requires found == Lookup(client.store, key)
      modifies client
      ensures GraphUntouched() && client.calls == old(client.calls) + |SaveCalls(key, value, old(client.store))|
      ensures applied <==> SaveCalls(key, value, old(client.store)) == []
                           || (Accepts(key, value.managed, old(client.store)) && client.fate(old(client.calls)) != Unsent)
      ensures failed <==> !(applied && AllThrough(client.fate, old(client.calls), client.calls))
      ensures stored == if failed || SaveCalls(key, value, old(client.store)) == [] then None else Lookup(client.store, key)
      ensures client.store == if applied then Saved(client.defaulting, key, value, old(client.store)) else old(client.store)
      ensures client.log == if applied then old(client.log) + SaveCalls(key, value, old(client.store)) else old(client.log)
    {
      failed, stored, applied := client.Save(key, value, found);
      CallsWriteNoObject();
    }

    /** The second half of CreateOrUpdate: save the desired object and read the answer back. */
    method Write(role: Role, answer: Answer) returns (failed: bool, ghost applied: bool, ghost seen: Seen)
      requires Linked() && role in slots && answer.Answered? && answer.found == Lookup(client.store, slots[role].key)
      requires ViewOf(slots)[role].value == Desired(role, answer.found)
      requires answer.found.Some? ==> ViewOf(slots)[role].conditions == answer.conditions
      modifies client, slots[role]
      ensures Linked() && ViewOf(slots) == old(ViewOf(slots))[role := seen]
      ensures !failed ==> slots[role].key in client.store
                          && seen == Seen(client.store[slots[role].key], if answer.found.None? then [] else answer.conditions)
      ensures client.calls == old(client.calls) + |CallsOf(UpsertOf(role), old(client.store))|
      ensures applied ==> Accepted(UpsertOf(role), old(client.store))
      ensures failed <==> !(AllThrough(client.fate, old(client.calls), client.calls) && Accepted(UpsertOf(role), old(client.store)))
      ensures !failed ==> applied
      ensures client.store == if applied then ApplyOp(client.defaulting, UpsertOf(role), old(client.store)) else old(client.store)
      ensures client.log == if applied then old(client.log) + CallsOf(UpsertOf(role), old(client.store)) else old(client.log)
    {
      hide Linked, SeenOf, ViewOf, Desired, ApplyOp, CallsOf, Saved, SaveCalls, Accepts, Accepted;
      GeneratedItem(role);
      DesiredIsUpsert(role, client.store);
      var stored: Option<Object>;
      seen := ViewOf(slots)[role];
      assert ViewOf(slots)[role := seen] == ViewOf(slots);
      failed, stored, applied := Send(live.slots[role].key, live.slots[role].Value(), answer.found);
      LinkedStays();
      if stored.Some? {
        var conditions := if answer.found.None? then [] else answer.conditions;
        seen := Seen(stored.value, conditions);
        Receive(role, stored.value, conditions);
      }
    }

    ghost function UpsertOf(role: Role): Op
      requires role in generated
    {
      Op.Upsert(generated[role].key, generated[role].value)
    }

    /** On success the live object is the one stored, with the status that the API answered of it. */
    ghost predicate ReadBack(role: Role, before: Store, from: nat)
      reads *
      requires role in slots
    {
      var key := slots[role].key;
      && key in client.store
      && ViewOf(slots)[role] == Seen(client.store[key], if key in before then client.status(key, from) else [])
    }

    lemma WasReadBack(role: Role, before: Store, from: nat, seen: Seen)
      requires role in slots && slots[role].key in client.store && role in ViewOf(slots) && ViewOf(slots)[role] == seen
      requires seen == Seen(client.store[slots[role].key], if slots[role].key in before then client.status(slots[role].key, from) else [])
      ensures ReadBack(role, before, from)
    {
    }

    method CreateOrUpdate(role: Role, ghost touched: set<Role>, ghost observed: map<nat, seq<JobCondition>>)
      returns (failed: bool, ghost applied: bool)
      requires Consistent(touched, observed) && role in slots && role !in touched
      modifies client, live, slots.Values
      ensures Consistent(touched + {role}, observed) && old(client.calls) < client.calls
      ensures !failed ==> ReadBack(role, old(client.store), old(client.calls))
      ensures failed <==> !(AllThrough(client.fate, old(client.calls), client.calls) && Accepted(UpsertOf(role), old(client.store)))
      ensures !failed ==> client.calls == old(client.calls) + 1 + |CallsOf(UpsertOf(role), old(client.store))|
      ensures !failed ==> applied
      ensures applied ==> Accepted(UpsertOf(role), old(client.store))
      ensures client.store == if applied then ApplyOp(client.defaulting, UpsertOf(role), old(client.store)) else old(client.store)
      ensures client.log == if applied then old(client.log) + CallsOf(UpsertOf(role), old(client.store)) else old(client.log)
    {
      hide Linked, SeenOf, ViewOf, Untouched, StillObserved, ApplyOp, CallsOf, Accepted, Desired, Fetched, ReadBack;
      GeneratedItem(role);
      ghost var before, seen := ViewOf(slots), ViewOf(slots)[role];
      ghost var stored, from := client.store, client.calls;
      var answer := Fetch(role);
      assert client.store == old(client.store) && client.log == old(client.log);
      FetchKeeps(before, role, answer, touched, observed);
      failed, applied := true, false;
      ghost var fetched := ViewOf(slots);
      WriteKeeps(fetched, role, seen, touched, observed);
      if answer.Answered? {
        failed, applied, seen := Write(role, answer);
        WriteKeeps(fetched, role, seen, touched, observed);
        if !failed {
          WasReadBack(role, stored, from, seen);
        }
      }
    }

    lemma WriteKeeps(before: View, role: Role, seen: Seen, touched: set<Role>, observed: map<nat, seq<JobCondition>>)
      requires role in before && role !in touched
      requires Untouched(before, kept, touched + {role}) && StillObserved(before, touched, observed)
      ensures Untouched(before, kept, touched + {role}) && StillObserved(before, touched + {role}, observed)
      ensures Untouched(before[role := seen], kept, touched + {role})
      ensures StillObserved(before[role := seen], touched + {role}, observed)
    {
    }

    /** What a stage adds: nothing if its component is nil, its operation otherwise. */
    lemma {:induction false} StageApplied(stages: seq<Stage>, stage: Stage, store: Store, log: seq<Call>)
      requires StoreIs(stages, store, log)
      ensures OpsOf(generated, stage) == [] ==> StoreIs(stages + [stage], store, log)
      ensures OpsOf(generated, stage) != [] ==>
                var op := OpsOf(generated, stage)[0];
                Accepted(op, store) ==> StoreIs(stages + [stage], ApplyOp(client.defaulting, op, store), log + CallsOf(op, store))
    {
      var done, ops := Ops(generated, stages), OpsOf(generated, stage);
      OpsSnoc(generated, stages, stage);
      if ops == [] {
        NothingAdded(done, ops);
      } else {
        assert ops == [ops[0]];
        RunSnoc(client.defaulting, done, ops[0], base);
        Associative(baseLog, Calls(client.defaulting, done, base), CallsOf(ops[0], store));
      }
    }

    /** What a wait adds: nothing to the store. */
    lemma WaitApplied(h: History, index: nat)
      requires Valid(h) && JobRole(index) in slots
      ensures JobRole(index) in generated
      ensures StoreIs(h.stages + [AwaitStage(index)], client.store, client.log + CallsOf(Gate(generated[JobRole(index)].key), client.store))
    {
      hide StoreIs, Linked, Untouched, StillObserved;
      GeneratedItem(JobRole(index));
      StageApplied(h.stages, AwaitStage(index), client.store, client.log);
    }

    /** What a deletion adds: nothing if its component is nil. */
    lemma RemovalApplied(h: History, role: Role)
      requires Valid(h)
      ensures live.slots == slots && slots.Keys == generated.Keys
      ensures role !in slots ==> StoreIs(h.stages + [RemoveStage(role)], client.store, client.log)
      ensures role in slots ==>
                var op := Remove(generated[role].key);
                StoreIs(h.stages + [RemoveStage(role)], ApplyOp(client.defaulting, op, client.store), client.log + CallsOf(op, client.store))
    {
      hide StoreIs, Linked, Untouched, StillObserved, Witnessed, Generates, CommonComponents.Ready, ViewOf;
      Facts();
      StageApplied(h.stages, RemoveStage(role), client.store, client.log);
    }

    lemma UpsertStores(key: Key, value: Object, before: Store)
      ensures key in ApplyOp(client.defaulting, Op.Upsert(key, value), before)
    {
    }

    /** Creates or resets one component, unless it is nil: fails exactly if one of its own calls does or the API server refuses. */
    method Upsert(role: Role, ghost h: History) returns (failed: bool, ghost next: History)
      requires Valid(h) && role !in h.touched
      modifies client, live, slots.Values
      ensures if failed then Ended(next) else Valid(next)
      ensures next.touched == h.touched + {role} && next.observed == h.observed
      ensures next.stages == h.stages + [UpsertStage(role)] || (failed && next.stages == h.stages)
      ensures failed ==>
                || !AllThrough(client.fate, baseCalls, client.calls)
                || (next.stages == h.stages && client.Refuses(generated, UpsertStage(role), baseCalls))
      ensures !failed && role in slots ==> role in generated && generated[role].key in client.store
      ensures !failed && role in slots ==> ReadBack(role, old(client.store), old(client.calls))
    {
      hide StoreIs, Witnessed, Linked, Untouched, StillObserved, ApplyOp, CallsOf;
      StageApplied(h.stages, UpsertStage(role), client.store, client.log);
      Known(h);
      if role !in live.slots {
        NilTouched(h, role);
        return false, h.(touched := h.touched + {role}, stages := h.stages + [UpsertStage(role)]);
      }
      ghost var before, applied: bool := client.store, false;
      failed, applied := CreateOrUpdate(role, h.touched, h.observed);
      WitnessedStays(h.observed);
      UpsertStores(generated[role].key, generated[role].value, before);
      assert failed && AllThrough(client.fate, baseCalls, client.calls) ==> !Accepted(UpsertOf(role), before) && client.store == before;
      next := h.(touched := h.touched + {role}, stages := if applied then h.stages + [UpsertStage(role)] else h.stages);
    }

    /** Polls a Job; whatever the polls find, nothing in the cluster is written. */
    method Poll(key: Key, initial: seq<JobCondition>) returns (result: WaitResult, conditions: seq<JobCondition>)
      requires Linked()
      modifies client`calls
      ensures Linked() && ViewOf(slots) == old(ViewOf(slots)) && unchanged(live)
      ensures client.Waited(key, old(client.calls), client.calls, result)
      ensures result == Observed ==> conditions == client.status(key, client.calls - 1) && Finished(conditions)
    {
      hide Linked, SeenOf, ViewOf, Client.Waited;
      var job := new JobObject(initial);
      result := client.Poll(key, job);
      conditions := job.conditions;
      CallsWriteNoObject();
      LinkedStays();
    }

    /** Waits for the end of a Job. It succeeds only if the last answer it asked for under the Job's key showed it ended, and
        that is what the live Job then shows; all earlier answers were unfinished. */
    method AwaitJob(index: nat, ghost h: History) returns (failed: bool, ghost next: History, ghost result: WaitResult)
      requires Valid(h) && JobRole(index) in slots && JobRole(index) in h.touched && index !in h.observed
      modifies client, live, slots.Values
      ensures if failed then next == h && Ended(next) else Valid(next)
      ensures next.touched == h.touched
      ensures JobRole(index) in generated && client.Waited(generated[JobRole(index)].key, old(client.calls), client.calls, result)
      ensures failed <==> result != Observed
      ensures !failed ==>
                && next.stages == h.stages + [AwaitStage(index)]
                && next.observed == h.observed[index := client.status(generated[JobRole(index)].key, client.calls - 1)]
                && generated[JobRole(index)].key in client.store
                && ViewOf(slots) == old(ViewOf(slots))[JobRole(index) := Seen(client.store[generated[JobRole(index)].key], next.observed[index])]
      ensures failed && generated[JobRole(index)].key in client.store ==>
                !AllThrough(client.fate, baseCalls, client.calls) || client.Refuses(generated, AwaitStage(index), baseCalls)
      ensures client.store == old(client.store)
    {
      hide StoreIs, Witnessed, Consistent, OpsOf, CallsOf, Client.Waited;
      Known(h);
      WaitApplied(h, index);
      ghost var key, from, conditions: seq<JobCondition> := generated[JobRole(index)].key, client.calls, [];
      failed, conditions, result := Wait(index, h.touched, h.observed);
      WaitEnds(key, from, result);
      WitnessedStays(h.observed);
      if !failed {
        WitnessedToo(h.observed, index);
      }
      next := if failed then h else History(h.stages + [AwaitStage(index)], h.touched, h.observed[index := conditions]);
    }

    /** What the result of a wait says about its calls. */
    lemma WaitEnds(key: Key, from: nat, result: WaitResult)
      requires client.Waited(key, from, client.calls, result)
      ensures from <= client.calls
      ensures result == Observed ==> from < client.calls && AllThrough(client.fate, from, client.calls)
      ensures result == FailedToRead ==> key !in client.store || (from < client.calls && client.fate(client.calls - 1) != Through)
    {
      ghost var answers := PollAnswers(client.fate, client.status, key, key in client.store, from);
      forall n | result == Observed && from <= n < client.calls
        ensures client.fate(n) == Through
      {
        assert answers[n - from] != ReadError;
      }
    }

    method Wait(index: nat, ghost touched: set<Role>, ghost observed: map<nat, seq<JobCondition>>)
      returns (failed: bool, ghost seen: seq<JobCondition>, ghost result: WaitResult)
      requires Consistent(touched, observed) && JobRole(index) in slots && JobRole(index) in touched && index !in observed
      modifies client, slots.Values
      ensures Consistent(touched, if failed then observed else observed[index := seen])
      ensures client.store == old(client.store)
      ensures client.log == if failed then old(client.log) else old(client.log) + CallsOf(Gate(generated[JobRole(index)].key), old(client.store))
      ensures client.Waited(generated[JobRole(index)].key, old(client.calls), client.calls, result)
      ensures failed <==> result != Observed
      ensures !failed ==>
                && seen == client.status(generated[JobRole(index)].key, client.calls - 1) && Finished(seen)
                && generated[JobRole(index)].key in client.store
                && ViewOf(slots) == old(ViewOf(slots))[JobRole(index) := Seen(client.store[generated[JobRole(index)].key], seen)]
    {
      hide Linked, StillObserved, Untouched, Finished, SeenOf, ViewOf, Client.Waited, CallsOf;
      var role := JobRole(index);
      GeneratedItem(role);
      ghost var from := client.calls;
      var ended, conditions := Poll(live.slots[role].key, live.slots[role].conditions);
      result := ended;
      if ended != Observed {
        return true, [], result;
      }
      ObservedIsStored(live.slots[role].key, from);
      EndWait(index, client.store[live.slots[role].key], conditions, touched, observed);
      return false, conditions, result;
    }

    lemma ObservedIsStored(key: Key, from: nat)
      requires client.Waited(key, from, client.calls, Observed)
      ensures key in client.store
    {
      assert PollAnswers(client.fate, client.status, key, key in client.store, from)[client.calls - from - 1] != ReadError;
    }

    /** The Job was seen to have ended. */
    method EndWait(index: nat, value: Object, conditions: seq<JobCondition>,
                   ghost touched: set<Role>, ghost observed: map<nat, seq<JobCondition>>)
      requires Consistent(touched, observed) && JobRole(index) in slots && JobRole(index) in touched && index !in observed
      requires Finished(conditions)
      modifies client`log, slots.Values
      ensures Consistent(touched, observed[index := conditions])
      ensures ViewOf(slots) == old(ViewOf(slots))[JobRole(index) := Seen(value, conditions)]
      ensures client.log == old(client.log) + CallsOf(Gate(generated[JobRole(index)].key), old(client.store))
    {
      hide Linked, StillObserved, Untouched, Finished, SeenOf, ViewOf;
      GeneratedItem(JobRole(index));
      AwaitKeeps(ViewOf(slots), kept, touched, observed, index, Seen(value, conditions));
      KeepEnd(JobRole(index), value, conditions);
    }

    /** The last read of the wait stays in the live Job. */
    method KeepEnd(role: Role, value: Object, conditions: seq<JobCondition>)
      requires Linked() && role in slots
      modifies client`log, slots[role]
      ensures Linked() && ViewOf(slots) == old(ViewOf(slots))[role := Seen(value, conditions)]
      ensures client.log == old(client.log) + [Passed(slots[role].key)]
    {
      Receive(role, value, conditions);
      label Received:
      Pass(live.slots[role].key);
      LinkedStays@Received();
    }

    method Pass(key: Key)
      modifies client`log
      ensures GraphUntouched()
      ensures client.log == old(client.log) + [Passed(key)]
    {
      client.NotePassed(key);
      CallsWriteNoObject();
    }

    /** Deletes one component unless it is nil; an object that is not there counts as deleted, so only the call itself can fail. */
    method DeleteIfPresent(role: Role, ghost h: History) returns (failed: bool, ghost next: History)
      requires Valid(h)
      modifies client
      ensures if failed then Ended(next) && !AllThrough(client.fate, baseCalls, client.calls) else Valid(next)
      ensures next.touched == h.touched && next.observed == h.observed
      ensures next.stages == h.stages + [RemoveStage(role)] || (failed && next.stages == h.stages)
    {
      hide StoreIs, Witnessed, Consistent, OpsOf, ApplyOp, CallsOf;
      Known(h);
      RemovalApplied(h, role);
      if role !in live.slots {
        return false, h.(stages := h.stages + [RemoveStage(role)]);
      }
      ghost var applied: bool;
      failed, applied := DeletePresent(role, h.touched, h.observed);
      WitnessedStays(h.observed);
      next := h.(stages := if applied then h.stages + [RemoveStage(role)] else h.stages);
    }

    /** What a live Job shows is still what the wait for it read last. */
    method ConditionsOf(index: nat, ghost h: History) returns (conditions: seq<JobCondition>)
      requires Valid(h) && index in h.observed
      ensures conditions == h.observed[index] && Finished(conditions)
    {
      assert ViewOf(slots)[JobRole(index)] == SeenOf(slots[JobRole(index)]);
      conditions := live.slots[JobRole(index)].conditions;
    }

    /** The partition Job, upserted with a mutate function that changes nothing: an existing Job is only read, and what is
        returned is what the API answered of it, or that a Job just created has no conditions. Only its own calls can fail. */
    method UpsertPartition(job: Item, ghost h: History)
      returns (failed: bool, conditions: seq<JobCondition>, ghost next: History)
      requires Ended(h) && job.key.kind == Kind.Job
      modifies client
      ensures Ended(next) && old(client.calls) < client.calls
      ensures next.stages == h.stages + [PartitionStage(job)] || (failed && next.stages == h.stages)
      ensures next.observed == h.observed
      ensures failed <==> !AllThrough(client.fate, old(client.calls), client.calls)
      ensures !failed ==>
                if job.key in old(client.store)
                then client.calls == old(client.calls) + 1 && conditions == client.status(job.key, client.calls - 1)
                else client.calls == old(client.calls) + 2 && conditions == []
    {
      hide StoreIs, Witnessed;
      StageApplied(h.stages, PartitionStage(job), client.store, client.log);
      var answer := client.Read(job.key);
      WitnessedStays(h.observed);
      label Asked:
      conditions := [];
      if answer == CallFailed {
        return true, [], h;
      }
      ghost var applied := true;
      if answer.found.None? {
        var stored: Object;
        failed, stored, applied := client.Create(job.key, job.value);
        WitnessedStays@Asked(h.observed);
      } else {
        failed, conditions := false, answer.conditions;
        NothingAdded(client.log, CallsOf(Op.Upsert(job.key, job.value), client.store));
      }
      next := h.(stages := if applied then h.stages + [PartitionStage(job)] else h.stages);
    }

    method DeletePresent(role: Role, ghost touched: set<Role>, ghost observed: map<nat, seq<JobCondition>>)
      returns (failed: bool, ghost applied: bool)
      requires Consistent(touched, observed) && role in slots
      modifies client
      ensures Consistent(touched, observed) && client.calls == old(client.calls) + 1
      ensures failed <==> client.fate(old(client.calls)) != Through
      ensures !failed ==> applied
      ensures var op := Remove(generated[role].key);
              && client.store == (if applied then ApplyOp(client.defaulting, op, old(client.store)) else old(client.store))
              && client.log == (if applied then old(client.log) + CallsOf(op, old(client.store)) else old(client.log))
    {
      GeneratedItem(role);
      failed, applied := Discard(live.slots[role].key);
      LinkedStays();
    }

    method Discard(key: Key) returns (failed: bool, ghost applied: bool)
      modifies client
      ensures GraphUntouched() && client.calls == old(client.calls) + 1
      ensures failed <==> client.fate(old(client.calls)) != Through
      ensures !failed ==> applied
      ensures var op := Remove(key);
              && client.store == (if applied then ApplyOp(client.defaulting, op, old(client.store)) else old(client.store))
              && client.log == (if applied then old(client.log) + CallsOf(op, old(client.store)) else old(client.log))
    {
      var notFound: bool;
      failed, notFound, applied := client.Delete(key);
      if notFound {
        failed, applied := false, true;
      }
      CallsWriteNoObject();
    }
  }

  const NOTHING_DONE := History([], {}, map[])

  method NewSession(client: Client, live: CommonComponents, snapshot: CommonComponents) returns (session: Session)
    ensures fresh(session) && session.client == client && session.live == live && session.snapshot == snapshot
    ensures session.slots == live.slots && session.kept == ViewOf(live.slots) && session.Generates()
    ensures session.base == client.store && session.baseLog == client.log && session.baseCalls == client.calls
    ensures ViewOf(live.slots) == old(ViewOf(live.slots)) && ViewOf(snapshot.slots) == old(ViewOf(snapshot.slots))
    ensures unchanged(live) && unchanged(snapshot) && unchanged(client)
  {
    session := new Session(client, live, snapshot);
    UntouchedView(live.slots);
    UntouchedView(snapshot.slots);
  }

  method Link(client: Client, live: CommonComponents) returns (session: Session)
    requires live.Typed() && {SecretRole, DeploymentRole} <= live.slots.Keys
    ensures fresh(session) && session.Linked() && ViewOf(live.slots) == session.kept
    ensures session.client == client && session.live == live && session.slots == live.slots
    ensures session.kept == old(ViewOf(live.slots)) && session.Generates() && unchanged(client)
    ensures session.base == client.store && session.baseLog == client.log && session.baseCalls == client.calls
  {
    var snapshot := TakeSnapshot(live);
    session := NewSession(client, live, snapshot);
    session.IsLinked();
  }

  /** Takes the snapshot and starts with nothing done. */
  method Begin(client: Client, live: CommonComponents) returns (session: Session)
    requires live.Typed() && {SecretRole, DeploymentRole} <= live.slots.Keys
    ensures fresh(session) && session.Valid(NOTHING_DONE)
    ensures session.client == client && session.live == live && session.slots == live.slots
    ensures session.kept == old(ViewOf(live.slots)) && session.Generates() && unchanged(client)
    ensures session.base == client.store && session.baseLog == client.log && session.baseCalls == client.calls
  {
    session := Link(client, live);
    Unstarted(session);
  }

  lemma Unstarted(session: Session)
    requires session.Linked() && ViewOf(session.slots) == session.kept
    requires session.base == session.client.store && session.baseLog == session.client.log && session.baseCalls == session.client.calls
    ensures session.Valid(NOTHING_DONE)
  {
    hide Session.Linked;
  }
}
