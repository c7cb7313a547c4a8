/** The cluster-scoped objects of an Executor, which no owner reference protects, and their clean-up. */
module ClusterRoles {
  import opened Api

  datatype AdditionalBinding = AdditionalBinding(nameSuffix: string, clusterRoleName: string)
  datatype ExecutorSpec = ExecutorSpec(customServiceAccount: string, additional: seq<AdditionalBinding>, rest: string)

  datatype Binding = Binding(name: string, role: string, serviceAccount: string, namespace: string)

  function ServiceAccountName(name: string, spec: ExecutorSpec): string {
    if spec.customServiceAccount == "" then name else spec.customServiceAccount
  }

  function AdditionalName(name: string, additional: AdditionalBinding): string {
    name + "-" + additional.nameSuffix
  }

  method CreateAdditionalClusterRoleBindings(name: string, namespace: string, spec: ExecutorSpec, serviceAccount: string)
    returns (bindings: seq<Binding>)
    ensures |bindings| == |spec.additional|
    ensures forall i :: 0 <= i < |bindings| ==>
              && bindings[i].name == AdditionalName(name, spec.additional[i])
              && bindings[i].role == spec.additional[i].clusterRoleName
              && bindings[i].serviceAccount == serviceAccount && bindings[i].namespace == namespace
  {
    bindings := [];
    for i := 0 to |spec.additional|
      invariant |bindings| == i
      invariant forall j :: 0 <= j < i ==>
                  bindings[j] == Binding(AdditionalName(name, spec.additional[j]), spec.additional[j].clusterRoleName, serviceAccount, namespace)
    {
      var b := spec.additional[i];
      bindings := bindings + [Binding(name + "-" + b.nameSuffix, b.clusterRoleName, serviceAccount, namespace)];
    }
  }

  /** The Executor's own binding, then the additional ones. */
  function BindingsOf(name: string, namespace: string, spec: ExecutorSpec): seq<Binding> {
    var serviceAccount := ServiceAccountName(name, spec);
    if serviceAccount == "" then []
    else [Binding(name, name, serviceAccount, namespace)]
         + seq(|spec.additional|, i requires 0 <= i < |spec.additional| =>
             Binding(AdditionalName(name, spec.additional[i]), spec.additional[i].clusterRoleName, serviceAccount, namespace))
  }

  /** The bindings of generateExecutorInstallComponents. */
  method CreateClusterRoleBindings(name: string, namespace: string, spec: ExecutorSpec) returns (bindings: seq<Binding>)
    ensures bindings == BindingsOf(name, namespace, spec)
    ensures [RoleKey(name)] + BindingKeys(bindings) == ExternalKeys(name, spec)
    ensures |ExternalKeys(name, spec)| == |bindings| + 1 && ExternalKeys(name, spec)[0] == Key(ClusterRole, "", name)
    ensures forall i :: 0 <= i < |bindings| ==> ExternalKeys(name, spec)[i + 1] == Key(ClusterRoleBinding, "", bindings[i].name)
    ensures forall b :: b in bindings ==>
              && b.serviceAccount == (if spec.customServiceAccount != "" then spec.customServiceAccount else name)
              && b.namespace == namespace
    ensures bindings == [] <==> name == "" && spec.customServiceAccount == ""
    ensures bindings != [] ==>
              && bindings[0].name == bindings[0].role == name && |bindings| == 1 + |spec.additional|
              && forall i :: 0 <= i < |spec.additional| ==>
                   && bindings[i + 1].name == name + "-" + spec.additional[i].nameSuffix
                   && bindings[i + 1].role == spec.additional[i].clusterRoleName
  {
    bindings := [];
    var serviceAccount := ServiceAccountName(name, spec);
    if serviceAccount != "" {
      var additional := CreateAdditionalClusterRoleBindings(name, namespace, spec, serviceAccount);
      bindings := [Binding(name, name, serviceAccount, namespace)] + additional;
    }
  }

  function RoleKey(name: string): Key {
    Key(ClusterRole, "", name)
  }

  function BindingKey(name: string): Key {
    Key(ClusterRoleBinding, "", name)
  }

  function BindingKeys(bindings: seq<Binding>): seq<Key> {
    seq(|bindings|, i requires 0 <= i < |bindings| => BindingKey(bindings[i].name))
  }

  /** The cluster-scoped keys of an Executor, in the order they are upserted and deleted. */
  function ExternalKeys(name: string, spec: ExecutorSpec): seq<Key> {
    [RoleKey(name)] +
    if ServiceAccountName(name, spec) == "" then []
    else [BindingKey(name)] +
         seq(|spec.additional|, i requires 0 <= i < |spec.additional| => BindingKey(AdditionalName(name, spec.additional[i])))
  }

  predicate Distinct<T(==)>(items: seq<T>) {
    forall i, j :: 0 <= i < j < |items| ==> items[i] != items[j]
  }

  function Suffixes(spec: ExecutorSpec): seq<string> {
    seq(|spec.additional|, i requires 0 <= i < |spec.additional| => spec.additional[i].nameSuffix)
  }

  /** The keys of one Executor collide exactly when two of its suffixes do; a suffix never hits the base name. */
  lemma KeysDistinctIffSuffixesDistinct(name: string, spec: ExecutorSpec)
    requires ServiceAccountName(name, spec) != ""
    ensures Distinct(ExternalKeys(name, spec)) <==> Distinct(Suffixes(spec))
  {
    var keys, suffixes := ExternalKeys(name, spec), Suffixes(spec);
    forall i | 0 <= i < |suffixes|
      ensures keys[i + 2] == BindingKey(name + "-" + suffixes[i]) && keys[i + 2] != BindingKey(name)
    {
      assert |name + "-" + suffixes[i]| > |name|;
    }
    forall i, j | 0 <= i < j < |suffixes|
      ensures keys[i + 2] == keys[j + 2] <==> suffixes[i] == suffixes[j]
    {
      var prefix := name + "-";
      assert (prefix + suffixes[i])[|prefix|..] == suffixes[i];
      assert (prefix + suffixes[j])[|prefix|..] == suffixes[j];
    }
    if Distinct(keys) {
      forall i, j | 0 <= i < j < |suffixes|
        ensures suffixes[i] != suffixes[j]
      {
        assert keys[i + 2] != keys[j + 2];
      }
    }
    if Distinct(suffixes) {
      forall i, j | 0 <= i < j < |keys|
        ensures keys[i] != keys[j]
      {
        if i >= 2 {
          assert suffixes[i - 2] != suffixes[j - 2];
        }
      }
    }
  }

  ghost function KeySet(keys: seq<Key>): set<Key> {
    set key | key in keys
  }

  lemma KeySetSnoc(keys: seq<Key>, n: nat)
    requires n < |keys|
    ensures KeySet(keys[..n + 1]) == KeySet(keys[..n]) + {keys[n]}
  {
    assert keys[..n + 1] == keys[..n] + [keys[n]];
  }

  /** The components a clean-up function deletes, None for those its controller does not have. The Executor
      has all of them, Binoculars a role and one binding, the ArmadaServer the PrometheusRule alone. */
  datatype External = External(role: Option<Key>, rule: Option<Key>, bindings: seq<Binding>)

  function ListOf(key: Option<Key>): seq<Key> {
    match key
    case None => []
    case Some(k) => [k]
  }

  /** Everything a clean-up deletes, in order. */
  function CleanupKeys(external: External): seq<Key> {
    ListOf(external.role) + ListOf(external.rule) + BindingKeys(external.bindings)
  }

  /** Without its PrometheusRule, which has an owner reference, an Executor's clean-up is its cluster-scoped keys. */
  lemma CleanupCoversExternalKeys(name: string, namespace: string, spec: ExecutorSpec, rule: Option<Key>)
    ensures var external := External(Some(RoleKey(name)), rule, BindingsOf(name, namespace, spec));
            KeySet(CleanupKeys(external)) == KeySet(ExternalKeys(name, spec)) + KeySet(ListOf(rule))
    ensures CleanupKeys(External(Some(RoleKey(name)), None, BindingsOf(name, namespace, spec))) == ExternalKeys(name, spec)
  {
    var keys := BindingKeys(BindingsOf(name, namespace, spec));
    assert [RoleKey(name)] + keys == ExternalKeys(name, spec);
    assert [RoleKey(name)] + [] + keys == [RoleKey(name)] + keys;
  }

  /** The first `n` keys are gone, and nothing else. */
  ghost predicate Cleared(keys: seq<Key>, n: nat, before: set<Key>, after: set<Key>) {
    n <= |keys| && after == before - KeySet(keys[..n])
  }

  /** How many of the objects whose calls were made in a row have been dealt with, if only the last call may have failed. */
  function Effective(fate: nat -> Fate, from: nat, to: nat): nat {
    if from < to then to - from - (if fate(to - 1) == Unsent then 1 else 0) else 0
  }

  /** The cluster's external objects behind a client. What becomes of its calls is not the operator's choice: `fate` is
      that of the n-th of them. */
  class Cluster {
    const fate: nat -> Fate
    var external: set<Key>
    var calls: nat

    constructor (fate: nat -> Fate)
      ensures this.fate == fate && external == {} && calls == 0
    {
      this.fate, external, calls := fate, {}, 0;
    }

    method Delete(key: Key) returns (failed: bool, notFound: bool)
      modifies this
      ensures calls == old(calls) + 1
      ensures external == if fate(old(calls)) == Unsent then old(external) else old(external) - {key}
      ensures notFound <==> fate(old(calls)) == Through && key !in old(external)
      ensures failed <==> fate(old(calls)) != Through || key !in old(external)
    {
      var n := calls;
      calls := n + 1;
      if fate(n) == Unsent {
        return true, false;
      }
      notFound := key !in external && fate(n) == Through;
      failed := key !in external || fate(n) == Unanswered;
      external := external - {key};
    }

    method Upsert(key: Key) returns (failed: bool)
      modifies this
      ensures calls == old(calls) + 1
      ensures external == if fate(old(calls)) == Unsent then old(external) else old(external) + {key}
      ensures failed <==> fate(old(calls)) != Through
    {
      var n := calls;
      calls := n + 1;
      if fate(n) == Unsent {
        return true;
      }
      external := external + {key};
      return fate(n) == Unanswered;
    }

    /** One call each for the first keys, all of them through, and these keys are gone. */
    ghost predicate Done(keys: seq<Key>, from: nat, before: set<Key>)
      reads this
    {
      from <= calls && AllThrough(fate, from, calls) && Cleared(keys, calls - from, before, external)
    }

    /** A call that failed ended the clean-up. */
    ghost predicate GaveUp(keys: seq<Key>, from: nat, before: set<Key>)
      reads this
    {
      && from < calls && AllThrough(fate, from, calls - 1) && fate(calls - 1) != Through
      && calls - from <= |keys| && Cleared(keys, Effective(fate, from, calls), before, external)
    }

    /** Deletes the next key; a missing object counts as deleted. */
    method DeleteNext(key: Key, ghost keys: seq<Key>, ghost from: nat, ghost before: set<Key>) returns (failed: bool)
      requires Done(keys, from, before) && calls - from < |keys| && keys[calls - from] == key
      modifies this
      ensures calls == old(calls) + 1 && (failed <==> fate(old(calls)) != Through)
      ensures if failed then GaveUp(keys, from, before) else Done(keys, from, before)
    {
      KeySetSnoc(keys, calls - from);
      var notFound: bool;
      failed, notFound := Delete(key);
      failed := failed && !notFound;
    }

    lemma NothingDeleted(keys: seq<Key>)
      ensures Done(keys, calls, external)
    {
    }

    lemma Outcome(keys: seq<Key>, from: nat, before: set<Key>, failed: bool)
      requires if failed then GaveUp(keys, from, before) else Done(keys, from, before)
      ensures from <= calls && (failed <==> !AllThrough(fate, from, calls))
      ensures Cleared(keys, Effective(fate, from, calls), before, external)
    {
    }

    /** The role, the rule and the bindings, in this order, with one call each; the first error other than a missing object
        ends the clean-up, and no other one does. */
    method DeleteExternalResources(components: External) returns (failed: bool)
      modifies this
      ensures old(calls) <= calls && (failed <==> !AllThrough(fate, old(calls), calls))
      ensures Cleared(CleanupKeys(components), Effective(fate, old(calls), calls), old(external), external)
      ensures !failed ==> calls == old(calls) + |CleanupKeys(components)|
    {
      ghost var keys, before, from := CleanupKeys(components), external, calls;
      failed := DeleteAll(components, keys, from, before);
      Outcome(keys, from, before, failed);
    }

    method DeleteAll(components: External, ghost keys: seq<Key>, ghost from: nat, ghost before: set<Key>) returns (failed: bool)
      requires keys == CleanupKeys(components) && calls == from && external == before
      modifies this
      ensures if failed then GaveUp(keys, from, before) else Done(keys, from, before) && calls == from + |keys|
    {
      hide Done, GaveUp, KeySet;
      NothingDeleted(keys);
      failed := false;
      if components.role.Some? {
        failed := DeleteNext(components.role.value, keys, from, before);
        if failed { return; }
      }
      if components.rule.Some? {
        failed := DeleteNext(components.rule.value, keys, from, before);
        if failed { return; }
      }
      ghost var start := calls - from;
      for i := 0 to |components.bindings|
        invariant calls - from == start + i && !failed && Done(keys, from, before)
      {
        failed := DeleteNext(BindingKey(components.bindings[i].name), keys, from, before);
        if failed { return; }
      }
    }

    /** The upserts of the ClusterRole and of every binding. */
    method UpsertExternalResources(keys: seq<Key>) returns (failed: bool)
      modifies this
      ensures old(calls) <= calls <= old(calls) + |keys| && (failed <==> !AllThrough(fate, old(calls), calls))
      ensures external == old(external) + KeySet(keys[..Effective(fate, old(calls), calls)])
      ensures !failed ==> calls == old(calls) + |keys|
    {
      for i := 0 to |keys|
        invariant calls == old(calls) + i && AllThrough(fate, old(calls), calls)
        invariant external == old(external) + KeySet(keys[..i])
      {
        KeySetSnoc(keys, i);
        failed := Upsert(keys[i]);
        if failed {
          return true;
        }
      }
      assert keys[..|keys|] == keys;
      return false;
    }
  }
}
