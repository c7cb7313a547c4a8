/** The status update at the end of a Lookout reconcile: the Lookout in memory, the stored one behind the
    API server, and what the update has to do with the protocol of whole runs. */
module LookoutStatus {
  import opened Api
  import opened Jobs
  import opened LookoutInvariants
  import opened LookoutProtocol

  /** The Lookout in the cluster, every version of it; the index of a version is its resourceVersion. `fate` is that of
      the n-th status update. */
  class LookoutServer {
    const fate: nat -> Fate
    var lookouts: seq<Option<Lookout>>
    var calls: nat

    constructor (fate: nat -> Fate, lookouts: seq<Option<Lookout>>)
      ensures this.fate == fate && this.lookouts == lookouts && calls == 0
    {
      this.fate, this.lookouts, calls := fate, lookouts, 0;
    }

    /** What the user does to it while a reconcile runs. */
    method OthersWrite(more: seq<Option<Lookout>>)
      modifies `lookouts
      ensures lookouts == old(lookouts) + more
    {
      lookouts := lookouts + more;
    }

    /** Refused if it is based on another version than the stored one; the call may fail before or after taking effect. */
    method UpdateStatus(version: nat, lookout: Lookout) returns (failed: bool)
      modifies this
      ensures calls == old(calls) + 1
      ensures var current := version + 1 == |old(lookouts)|;
              && (failed <==> !(current && fate(old(calls)) == Through))
              && lookouts == if current && fate(old(calls)) != Unsent then old(lookouts) + [Some(lookout)] else old(lookouts)
    {
      var n := calls;
      calls := n + 1;
      if fate(n) == Unsent || version + 1 != |lookouts| {
        return true;
      }
      lookouts := lookouts + [Some(lookout)];
      return fate(n) == Unanswered;
    }
  }

  /** The Lookout in the hands of a reconcile: as it was stored at `version`, until a condition is set. */
  class LookoutObject {
    const version: nat
    var held: Lookout

    constructor (version: nat, held: Lookout)
      ensures this.version == version && this.held == held
    {
      this.version, this.held := version, held;
    }

    /** SetStatusCondition followed by the status update it asks for, which fails only if the call does or the Lookout has
        been written since it was read. */
    method Report(server: LookoutServer, condition: StatusCondition) returns (failed: bool)
      modifies this, server
      ensures held == old(held).(condition := Some(condition)) && old(server.calls) <= server.calls
      ensures failed <==> old(held).condition != Some(condition)
                          && !(AllThrough(server.fate, old(server.calls), server.calls) && version + 1 == |old(server.lookouts)|)
      ensures ReportOutcome(old(held), version, condition, old(server.lookouts), server.lookouts, failed)
    {
      if held.condition == Some(condition) {
        return false;
      }
      held := held.(condition := Some(condition));
      failed := server.UpdateStatus(version, held);
    }
  }

  /** What reporting a condition may do to the stored Lookout: nothing if it has it already; otherwise the
      condition is written over the version that was read, or it is not and the reconcile fails. */
  ghost predicate ReportOutcome(held: Lookout, version: nat, condition: StatusCondition,
                                before: seq<Option<Lookout>>, after: seq<Option<Lookout>>, failed: bool) {
    if held.condition == Some(condition) then after == before && !failed
    else
      || (after == before && failed)
      || (version + 1 == |before| && after == before + [Some(held.(condition := Some(condition)))])
  }

  /** The steps that end a reporting reconcile; the operator going down in between is a failure too, but not
      one of the report. */
  predicate OfReport(s: State, step: Step)
    requires s.phase.Reporting?
  {
    step.ConditionUnchanged? || step.WriteStatus? || (step.Fail? && s.phase.seen.condition != Reported(s))
  }

  /** What a report may do is exactly what these steps of the protocol do. */
  lemma ReportIsAStep(s: State, after: seq<Option<Lookout>>, failed: bool)
    requires Indexed(s) && Holds(s) && s.phase.Reporting? && !s.queued
    ensures Reported(s).Some?
    ensures ReportOutcome(s.phase.seen, s.phase.version, Reported(s).value, s.lookouts, after, failed) <==>
            exists step :: OfReport(s, step) && Enabled(s, step)
                           && Apply(s, step).lookouts == after && Apply(s, step).queued == failed && Apply(s, step).phase == Idle
  {
    if s.phase.seen.condition == Reported(s) {
      assert after == s.lookouts && !failed ==> Apply(s, ConditionUnchanged).lookouts == after;
    } else {
      assert Apply(s, Fail).lookouts == s.lookouts && Apply(s, Fail).queued;
      if s.phase.version + 1 == |s.lookouts| {
        assert Enabled(s, WriteStatus(!failed)) && Apply(s, WriteStatus(!failed)).queued == failed;
      }
    }
  }
}
