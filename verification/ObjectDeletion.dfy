/** The finalizer functions as they run: an object in memory, the stored one behind the API server, and
    the clean-up of its cluster-scoped objects. */
module ObjectDeletion {
  import opened Api
  import opened ClusterRoles
  import opened Finalizers

  datatype Meta = Meta(deleting: bool, finalizers: seq<string>)

  function Without(finalizers: seq<string>, finalizer: string): (r: seq<string>)
    ensures finalizer !in r
    ensures forall f :: f != finalizer ==> (f in r <==> f in finalizers)
    ensures finalizer !in finalizers ==> r == finalizers
  {
    if finalizers == [] then []
    else (if finalizers[0] == finalizer then [] else [finalizers[0]]) + Without(finalizers[1..], finalizer)
  }

  /** What comes before and after a finalizer stays in its order. */
  lemma {:induction false} WithoutKeepsOrder(before: seq<string>, finalizer: string, after: seq<string>)
    requires finalizer !in before
    ensures Without(before + [finalizer] + after, finalizer) == before + Without(after, finalizer)
  {
    var all := before + [finalizer] + after;
    if before == [] {
      assert all[1..] == after;
    } else {
      assert all[1..] == before[1..] + [finalizer] + after;
      WithoutKeepsOrder(before[1..], finalizer, after);
    }
  }

  /** The API server removes an object being deleted once it has no finalizer left. */
  function Remaining(meta: Meta): Option<Meta> {
    if meta.deleting && meta.finalizers == [] then None else Some(meta)
  }

  /** What an update stores: nothing if it fails early, and only over the version that was read. */
  ghost predicate UpdateOutcome(sent: Meta, current: bool, written: seq<Option<Meta>>, failed: bool) {
    (written == [] && failed) || (current && written == [Remaining(sent)])
  }

  /** What the deletion handling of an object held in memory may do: to the stored object, which gets at most one new
      version, and to the cluster-scoped objects with `keys`. */
  ghost predicate DeletionOutcome(held: Meta, finalizer: string, keys: seq<Key>, current: bool, written: seq<Option<Meta>>,
                                  before: set<Key>, after: set<Key>, finish: bool, failed: bool) {
    match ActionFor(held.deleting, finalizer in held.finalizers)
    case Proceed => !finish && !failed && written == [] && after == before
    case Stop => finish && !failed && written == [] && after == before
    case Attach =>
      && finish == failed && after == before
      && UpdateOutcome(Meta(false, held.finalizers + [finalizer]), current, written, failed)
    case CleanUp =>
      finish
      && (|| (failed && written == [] && exists n :: Cleared(keys, n, before, after))
          || (Cleared(keys, |keys|, before, after)
              && UpdateOutcome(Meta(true, Without(held.finalizers, finalizer)), current, written, failed)))
  }

  /** The components of a clean-up function, none for a controller without one. */
  function KeysOf(external: Option<External>): seq<Key> {
    if external.Some? then CleanupKeys(external.value) else []
  }

  ghost function Removed(external: Option<External>): set<Key> {
    KeySet(KeysOf(external))
  }

  /** The version that a call has stored, if it has stored one. */
  function Written(before: nat, after: nat, stored: Option<Meta>): seq<Option<Meta>> {
    if after == before then [] else [stored]
  }

  /** The object a reconcile works on. */
  class ObjectInMemory {
    const deleting: bool
    var finalizers: seq<string>
    var version: nat

    constructor (deleting: bool, finalizers: seq<string>, version: nat)
      ensures this.deleting == deleting && this.finalizers == finalizers && this.version == version
    {
      this.deleting, this.finalizers, this.version := deleting, finalizers, version;
    }
  }

  class ApiServer {
    const fate: nat -> Fate
    const cluster: Cluster
    var stored: Option<Meta>
    var version: nat
    var calls: nat

    constructor (fate: nat -> Fate, stored: Option<Meta>, version: nat, cluster: Cluster)
      ensures this.fate == fate && this.stored == stored && this.version == version && this.cluster == cluster && calls == 0
    {
      this.fate, this.stored, this.version, this.cluster, calls := fate, stored, version, cluster, 0;
    }

    /** The object was read from this server: while nobody else has written, it is what is stored. */
    ghost predicate Reads(resource: ObjectInMemory)
      reads this, resource
    {
      resource.version == version ==> stored == Some(Meta(resource.deleting, resource.finalizers))
    }

    /** An update with optimistic concurrency; the call may fail before or after taking effect, and does so for no reason of its own. */
    method Update(resource: ObjectInMemory) returns (failed: bool)
      modifies this, resource
      ensures resource.finalizers == old(resource.finalizers) && calls == old(calls) + 1
      ensures var accepted := old(stored != None && resource.version == version);
              && (failed <==> !(accepted && fate(old(calls)) == Through))
              && stored == (if accepted && fate(old(calls)) != Unsent then Remaining(Meta(resource.deleting, resource.finalizers)) else old(stored))
              && version == (if accepted && fate(old(calls)) != Unsent then old(version) + 1 else old(version))
      ensures resource.version == if failed then old(resource.version) else version
    {
      var n := calls;
      calls := n + 1;
      if fate(n) == Unsent || stored == None || resource.version != version {
        return true;
      }
      stored := Remaining(Meta(resource.deleting, resource.finalizers));
      version := version + 1;
      if fate(n) == Unanswered {
        return true;
      }
      resource.version := version;
      return false;
    }

    /** No call if the finalizer is there; otherwise one update, which fails only if the call does or the object is not current. */
    method AddFinalizerIfNeeded(resource: ObjectInMemory, finalizer: string) returns (failed: bool)
      requires !resource.deleting && Reads(resource)
      modifies this, resource
      ensures finalizer in resource.finalizers && old(calls) <= calls
      ensures old(finalizer in resource.finalizers) ==> !failed && stored == old(stored) && version == old(version) && calls == old(calls)
      ensures old(finalizer !in resource.finalizers) && !failed ==> stored == Some(Meta(false, old(resource.finalizers) + [finalizer]))
      ensures stored == old(stored) || stored == Some(Meta(false, old(resource.finalizers) + [finalizer]))
      ensures version == old(version) ==> stored == old(stored)
      ensures old(finalizer !in resource.finalizers) ==>
                && (failed <==> !(AllThrough(fate, old(calls), calls) && old(resource.version == version)))
                && UpdateOutcome(Meta(false, old(resource.finalizers) + [finalizer]), old(resource.version == version),
                                 Written(old(version), version, stored), failed)
    {
      if finalizer !in resource.finalizers {
        resource.finalizers := resource.finalizers + [finalizer];
        failed := Update(resource);
        return failed;
      }
      return false;
    }

    /** `external` are the components of the clean-up function, None when the controller has none. It succeeds unless one of
        its own calls fails or the object is not current: so whatever an earlier clean-up has deleted, the next one can complete. */
    method HandleObjectDeletion(resource: ObjectInMemory, finalizer: string, external: Option<External>)
      returns (finish: bool, failed: bool)
      requires resource.deleting && Reads(resource)
      modifies this, resource, cluster
      ensures finish && old(calls) <= calls && old(cluster.calls) <= cluster.calls
      ensures old(finalizer !in resource.finalizers) ==>
                !failed && stored == old(stored) && cluster.external == old(cluster.external)
      ensures old(cluster.external) - Removed(external) <= cluster.external <= old(cluster.external)
      ensures old(finalizer in resource.finalizers) && !failed ==> stored != old(stored)
      ensures stored != old(stored) ==>
                && stored == Remaining(Meta(true, Without(old(resource.finalizers), finalizer)))
                && cluster.external == old(cluster.external) - Removed(external)
      ensures version == old(version) ==> stored == old(stored)
      ensures DeletionOutcome(Meta(true, old(resource.finalizers)), finalizer, KeysOf(external), old(resource.version == version),
                              Written(old(version), version, stored), old(cluster.external), cluster.external, finish, failed)
      ensures old(finalizer in resource.finalizers) ==>
                (failed <==> !(&& AllThrough(fate, old(calls), calls) && AllThrough(cluster.fate, old(cluster.calls), cluster.calls)
                               && old(resource.version == version)))
    {
      if finalizer in resource.finalizers {
        if external.Some? {
          failed := cluster.DeleteExternalResources(external.value);
          if failed {
            return true, true;
          }
        }
        resource.finalizers := Without(resource.finalizers, finalizer);
        failed := Update(resource);
        if failed {
          return true, true;
        }
      }
      return true, false;
    }

    /** The four cases of the decision, with everything a failing call may leave behind. */
    method CheckAndHandleObjectDeletion(resource: ObjectInMemory, finalizer: string, external: Option<External>)
      returns (finish: bool, failed: bool)
      requires Reads(resource)
      modifies this, resource, cluster
      ensures var attached := Some(Meta(false, old(resource.finalizers) + [finalizer]));
              match ActionFor(resource.deleting, old(finalizer in resource.finalizers))
              case Proceed => !finish && !failed && stored == old(stored) && cluster.external == old(cluster.external)
              case Stop => finish && !failed && stored == old(stored) && cluster.external == old(cluster.external)
              case Attach =>
                && finish == failed && cluster.external == old(cluster.external)
                && (stored == old(stored) || stored == attached) && (!failed ==> stored == attached)
              case CleanUp =>
                && finish
                && old(cluster.external) - Removed(external) <= cluster.external <= old(cluster.external)
                && (!failed ==> stored != old(stored))
                && (stored != old(stored) ==>
                      && stored == Remaining(Meta(true, Without(old(resource.finalizers), finalizer)))
                      && cluster.external == old(cluster.external) - Removed(external))
      ensures version == old(version) ==> stored == old(stored)
      ensures DeletionOutcome(Meta(resource.deleting, old(resource.finalizers)), finalizer, KeysOf(external),
                              old(resource.version == version), Written(old(version), version, stored),
                              old(cluster.external), cluster.external, finish, failed)
      ensures var action := ActionFor(resource.deleting, old(finalizer in resource.finalizers));
              failed <==>
              && (action == Attach || action == CleanUp)
              && !(&& AllThrough(fate, old(calls), calls) && AllThrough(cluster.fate, old(cluster.calls), cluster.calls)
                   && old(resource.version == version))
      ensures old(calls) <= calls && old(cluster.calls) <= cluster.calls
    {
      if !resource.deleting {
        failed := AddFinalizerIfNeeded(resource, finalizer);
        if failed {
          return true, true;
        }
      } else {
        finish, failed := HandleObjectDeletion(resource, finalizer, external);
        return finish, failed;
      }
      return false, false;
    }
  }
}
