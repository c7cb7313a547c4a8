/** Job conditions, the bounded wait for a Job and the JobTablePartitioned status condition. */
module Jobs {
  import opened Api

  datatype JobConditionType = JobComplete | JobFailed | JobSuspended | OtherJobCondition(name: string)
  datatype ConditionStatus = ConditionTrue | ConditionFalse | ConditionUnknown
  datatype JobCondition = JobCondition(kind: JobConditionType, status: ConditionStatus, message: string)

  predicate IsTrue(condition: JobCondition, kind: JobConditionType) {
    condition.kind == kind && condition.status == ConditionTrue
  }

  predicate HasTrue(conditions: seq<JobCondition>, kind: JobConditionType) {
    exists i :: 0 <= i < |conditions| && IsTrue(conditions[i], kind)
  }

  predicate Finished(conditions: seq<JobCondition>) {
    HasTrue(conditions, JobComplete) || HasTrue(conditions, JobFailed)
  }

  function FirstTrue(conditions: seq<JobCondition>, kind: JobConditionType): Option<JobCondition> {
    if conditions == [] then None
    else if IsTrue(conditions[0], kind) then Some(conditions[0])
    else FirstTrue(conditions[1..], kind)
  }

  /** The condition found is the earliest true one of its kind, and one is found exactly when one exists. */
  lemma {:induction false} FirstTrueIsEarliest(conditions: seq<JobCondition>, kind: JobConditionType)
    ensures FirstTrue(conditions, kind).Some? <==> HasTrue(conditions, kind)
    ensures FirstTrue(conditions, kind).Some? ==>
              exists i :: 0 <= i < |conditions| && conditions[i] == FirstTrue(conditions, kind).value
                          && IsTrue(conditions[i], kind)
                          && forall j :: 0 <= j < i ==> !IsTrue(conditions[j], kind)
  {
    if conditions != [] && !IsTrue(conditions[0], kind) {
      var tail := conditions[1..];
      FirstTrueIsEarliest(tail, kind);
      assert forall j :: 0 < j < |conditions| ==> conditions[j] == tail[j - 1];
      if FirstTrue(tail, kind).Some? {
        var i :| 0 <= i < |tail| && tail[i] == FirstTrue(tail, kind).value && IsTrue(tail[i], kind)
                 && forall j :: 0 <= j < i ==> !IsTrue(tail[j], kind);
        assert conditions[i + 1] == FirstTrue(conditions, kind).value;
        assert forall j :: 0 < j < i + 1 ==> !IsTrue(conditions[j], kind);
      }
      if HasTrue(conditions, kind) {
        var i :| 0 <= i < |conditions| && IsTrue(conditions[i], kind);
        assert IsTrue(tail[i - 1], kind);
      }
    }
  }

  method IsJobFinished(conditions: seq<JobCondition>) returns (finished: bool)
    ensures finished <==> Finished(conditions)
    ensures finished <==> exists c :: c in conditions && (c.kind == JobComplete || c.kind == JobFailed) && c.status == ConditionTrue
  {
    for i := 0 to |conditions|
      invariant forall j :: 0 <= j < i ==> !IsTrue(conditions[j], JobComplete) && !IsTrue(conditions[j], JobFailed)
    {
      if (conditions[i].kind == JobComplete || conditions[i].kind == JobFailed) && conditions[i].status == ConditionTrue {
        assert IsTrue(conditions[i], conditions[i].kind);
        return true;
      }
    }
    return false;
  }

  method GetTrueJobCondition(conditions: seq<JobCondition>, kind: JobConditionType) returns (found: Option<JobCondition>)
    ensures found == FirstTrue(conditions, kind)
    ensures found.Some? <==> HasTrue(conditions, kind)
    ensures found.Some? ==> found.value in conditions && found.value.kind == kind && found.value.status == ConditionTrue
    ensures found.None? ==> forall c :: c in conditions && c.kind == kind ==> c.status != ConditionTrue
  {
    FirstTrueIsEarliest(conditions, kind);
    for i := 0 to |conditions|
      invariant FirstTrue(conditions, kind) == FirstTrue(conditions[i..], kind)
    {
      if conditions[i].kind == kind && conditions[i].status == ConditionTrue {
        return Some(conditions[i]);
      }
      assert conditions[i..][1..] == conditions[i + 1..];
    }
    return None;
  }

  /** What the conditions of a Job say about it, as far as the operator is concerned. */
  datatype Verdict = Unfinished | Succeeded | FailedWith(message: string)

  function VerdictOf(conditions: seq<JobCondition>): Verdict {
    if FirstTrue(conditions, JobComplete).Some? then Succeeded
    else match FirstTrue(conditions, JobFailed)
      case Some(failed) => FailedWith(failed.message)
      case None => Unfinished
  }

  datatype Reason = Running | Done | Failed

  /** The JobTablePartitioned condition, without its transition time. */
  datatype StatusCondition =
    StatusCondition(status: ConditionStatus, observedGeneration: nat, reason: Reason, message: string)

  function ConditionFor(job: string, generation: nat, verdict: Verdict): StatusCondition {
    match verdict
    case Unfinished => StatusCondition(ConditionFalse, generation, Running, "Job " + job + " is running")
    case Succeeded => StatusCondition(ConditionTrue, generation, Done, "Job " + job + " succeeded")
    case FailedWith(message) =>
      StatusCondition(ConditionFalse, generation, Failed, "Job " + job + " failed: " + message)
  }

  method NewJobTablePartitionedCondition(job: string, generation: nat, conditions: seq<JobCondition>)
    returns (condition: StatusCondition)
    ensures condition == ConditionFor(job, generation, VerdictOf(conditions))
    ensures condition.observedGeneration == generation
    ensures match condition.reason
            case Running => condition.status == ConditionFalse && condition.message == "Job " + job + " is running"
            case Done => condition.status == ConditionTrue && condition.message == "Job " + job + " succeeded"
            case Failed =>
              condition.status == ConditionFalse
              && exists c :: c in conditions && c.kind == JobFailed && c.status == ConditionTrue
                             && condition.message == "Job " + job + " failed: " + c.message
  {
    condition := StatusCondition(ConditionFalse, generation, Running, "Job " + job + " is running");
    var complete := GetTrueJobCondition(conditions, JobComplete);
    if complete.Some? {
      condition := condition.(status := ConditionTrue, reason := Done, message := "Job " + job + " succeeded");
    } else {
      var failed := GetTrueJobCondition(conditions, JobFailed);
      if failed.Some? {
        condition := condition.(reason := Failed, message := "Job " + job + " failed: " + failed.value.message);
      }
    }
  }

  /** Running is reported exactly for an unfinished Job, True exactly for a Complete one and
      Failed exactly for a Job that failed and never completed. */
  lemma ReasonMatchesJob(job: string, generation: nat, conditions: seq<JobCondition>)
    ensures var condition := ConditionFor(job, generation, VerdictOf(conditions));
            && (condition.reason == Running <==> !Finished(conditions))
            && (condition.status == ConditionTrue <==> HasTrue(conditions, JobComplete))
            && (condition.reason == Done <==> HasTrue(conditions, JobComplete))
            && (condition.reason == Failed <==> HasTrue(conditions, JobFailed) && !HasTrue(conditions, JobComplete))
  {
    FirstTrueIsEarliest(conditions, JobComplete);
    FirstTrueIsEarliest(conditions, JobFailed);
  }

  /** The answer of the API to one read of the Job. */
  datatype Read = ReadError | ReadJob(conditions: seq<JobCondition>)
  datatype WaitResult = Observed | TimedOut | FailedToRead

  /** The caller's Job object, which every successful read replaces. */
  class JobObject {
    var conditions: seq<JobCondition>

    constructor (conditions: seq<JobCondition>)
      ensures this.conditions == conditions
    {
      this.conditions := conditions;
    }
  }

  predicate KeepsWaiting(read: Read) {
    read.ReadJob? && !Finished(read.conditions)
  }

  /** What the first `limit` answers decide: how many of them are made, and with which result. */
  predicate WaitOutcome(answers: seq<Read>, limit: nat, made: nat, result: WaitResult)
    requires limit <= |answers|
  {
    && made <= limit
    && (forall i :: 0 <= i < made - 1 ==> KeepsWaiting(answers[i]))
    && match result
       case TimedOut => made == limit && (made > 0 ==> KeepsWaiting(answers[made - 1]))
       case FailedToRead => made > 0 && answers[made - 1] == ReadError
       case Observed => made > 0 && answers[made - 1].ReadJob? && Finished(answers[made - 1].conditions)
  }

  /** The conditions the caller's Job is left with. */
  function LastRead(initial: seq<JobCondition>, answers: seq<Read>): seq<JobCondition> {
    if answers == [] then initial
    else if answers[|answers| - 1].ReadJob? then answers[|answers| - 1].conditions
    else LastRead(initial, answers[..|answers| - 1])
  }

  /** The wait has one possible outcome for given answers: WaitOutcome is a full specification. */
  lemma WaitOutcomeIsUnique(answers: seq<Read>, limit: nat, made: nat, result: WaitResult, made': nat, result': WaitResult)
    requires limit <= |answers|
    requires WaitOutcome(answers, limit, made, result) && WaitOutcome(answers, limit, made', result')
    ensures made == made' && result == result'
  {
  }

  /** Polls after every interval, never before the first one. `answers[n]` is whatever the API answers
      to read n, so the Job may change between reads; `cancelledAfter` is the number of intervals
      after which the caller's context ends early. */
  method WaitForJob(job: JobObject, answers: seq<Read>, cancelledAfter: nat, pollInterval: nat, timeout: nat)
    returns (made: nat, result: WaitResult)
    requires pollInterval > 0 && timeout / pollInterval <= |answers|
    modifies job
    ensures made <= timeout / pollInterval && made <= cancelledAfter
    ensures result == TimedOut ==> made == timeout / pollInterval || made == cancelledAfter
    ensures WaitOutcome(answers, MinNat(timeout / pollInterval, cancelledAfter), made, result)
    ensures job.conditions == LastRead(old(job.conditions), answers[..made])
    ensures result == Observed ==> Finished(job.conditions)
  {
    made := 0;
    var limit := MinNat(timeout / pollInterval, cancelledAfter);
    while made < limit
      invariant 0 <= made <= limit
      invariant forall i :: 0 <= i < made ==> KeepsWaiting(answers[i])
      invariant job.conditions == LastRead(old(job.conditions), answers[..made])
    {
      assert answers[..made + 1] == answers[..made] + [answers[made]];
      var read := answers[made];
      made := made + 1;
      match read {
        case ReadError =>
          return made, FailedToRead;
        case ReadJob(conditions) =>
          job.conditions := conditions;
          var finished := IsJobFinished(job.conditions);
          if finished {
            return made, Observed;
          }
      }
    }
    return made, TimedOut;
  }

  /** In seconds. */
  const JOB_TIMEOUT := 120
  const JOB_POLL_INTERVAL := 5

  function MinNat(a: nat, b: nat): nat {
    if a <= b then a else b
  }
}
