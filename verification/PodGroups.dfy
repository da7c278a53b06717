/** What the pod group tells the job: that it has been scheduled, and that it
    has been evicted. */
module PodGroups {
  import opened Decimal
  import opened JobPhases

  datatype ConditionType =
    | ScheduledCondition
    | FailedCondition
    | EvictedCondition
    | ReadyCondition
    | OtherCondition(name: string)

  datatype Truth = True | False | Unknown

  datatype Reason = Preempted | OtherReason(text: string)

  datatype Condition = Condition(ctype: ConditionType, status: Truth, reason: Reason)

  type ConditionList = seq<Condition>

  /** The part of a job's status that is read and written here. */
  datatype Status = Status(phase: JobPhase, conditions: ConditionList)

  /** How the library records a condition of status True; its code is not part
      of this model. */
  type Recorder = (ConditionList, ConditionType, Reason) -> ConditionList

  function GetCondition(conditions: ConditionList, ctype: ConditionType): (r: Option<Condition>)
    ensures r.Some? ==> r.value in conditions && r.value.ctype == ctype
    ensures r.None? ==> forall c <- conditions :: c.ctype != ctype
  {
    if conditions == [] then None
    else if conditions[0].ctype == ctype then Some(conditions[0])
    else
      assert conditions == [conditions[0]] + conditions[1..];
      GetCondition(conditions[1..], ctype)
  }

  predicate IsScheduled(conditions: ConditionList) {
    var c := GetCondition(conditions, ScheduledCondition);
    c.Some? && c.value.status == True
  }

  predicate SaysPreempted(c: Condition) {
    c.ctype == FailedCondition && c.status == True && c.reason == Preempted
  }

  predicate Evicted(status: Status) {
    status.phase == JobFailed && exists c <- status.conditions :: SaysPreempted(c)
  }

  predicate PodGroupSaysScheduled(c: Condition) {
    c.ctype == ScheduledCondition && c.status == True
  }

  predicate PodGroupSaysEvicted(c: Condition) {
    c.ctype == EvictedCondition && c.status == True
  }

  predicate PodSaysPreempted(c: Condition) {
    c.ctype == ReadyCondition && c.status == False && c.reason == Preempted
  }

  predicate AnySays(conditions: ConditionList, says: Condition -> bool) {
    exists c <- conditions :: says(c)
  }

  predicate AnyPreempted(pods: seq<ConditionList>) {
    exists p <- pods :: AnySays(p, PodSaysPreempted)
  }

  datatype Action = Continue | Skip | Break

  /** What `SyncFromPodGroup` read: whether the job is gang-scheduled, the pod
      group's conditions unless it is missing or unreadable, the conditions of
      the job's pods unless they are unreadable, and whether the API server
      takes a status update. */
  datatype Seen = Seen(gang: bool, podGroup: Option<ConditionList>, pods: Option<seq<ConditionList>>, accepted: bool)

  /** The action, or `None` for an error, and the status then stored. */
  function Sync(record: Recorder, seen: Seen, status: Status): (Option<Action>, Status) {
    if !seen.gang || seen.podGroup.None? then (Some(Continue), status)
    else if !IsScheduled(status.conditions) && AnySays(seen.podGroup.value, PodGroupSaysScheduled) then
      if seen.accepted then
        (Some(Break), status.(conditions := record(status.conditions, ScheduledCondition, OtherReason("Scheduled"))))
      else (None, status)
    else if Evicted(status) then (Some(Skip), status)
    else if AnySays(seen.podGroup.value, PodGroupSaysEvicted) then
      if seen.accepted then
        (Some(Break), Status(JobFailed, record(status.conditions, FailedCondition, Preempted)))
      else (None, status)
    else if seen.pods.Some? && AnyPreempted(seen.pods.value) then (Some(Skip), status)
    else (Some(Continue), status)
  }

  /** The exact action for a gang-scheduled job whose pod group can be read.
      News of scheduling or of a sure eviction is stored and ends the pass, or
      is an error if it cannot be stored; an eviction already recorded, or a
      possible one, only keeps the pods from being reconciled. */
  lemma SyncReading(record: Recorder, seen: Seen, status: Status)
    requires seen.gang && seen.podGroup.Some?
    ensures var group := seen.podGroup.value;
            var scheduled := !IsScheduled(status.conditions)
                             && exists c <- group :: c.ctype == ScheduledCondition && c.status == True;
            var recorded := status.phase == JobFailed
                            && exists c <- status.conditions ::
                                 c.ctype == FailedCondition && c.status == True && c.reason == Preempted;
            var sure := exists c <- group :: c.ctype == EvictedCondition && c.status == True;
            var possible := seen.pods.Some?
                            && exists pod <- seen.pods.value ::
                                 exists c <- pod ::
                                   c.ctype == ReadyCondition && c.status == False && c.reason == Preempted;
            var (action, stored) := Sync(record, seen, status);
            && (action == Some(Break) <==> (scheduled || (!recorded && sure)) && seen.accepted)
            && (action == None <==> (scheduled || (!recorded && sure)) && !seen.accepted)
            && (action == Some(Skip) <==> !scheduled && (recorded || (!sure && possible)))
            && (action == Some(Continue) <==> !scheduled && !recorded && !sure && !possible)
            && (action != Some(Break) ==> stored == status)
            && (action == Some(Break) && scheduled ==>
                  stored.phase == status.phase
                  && stored.conditions == record(status.conditions, ScheduledCondition, OtherReason("Scheduled")))
            && (action == Some(Break) && !scheduled ==>
                  stored == Status(JobFailed, record(status.conditions, FailedCondition, Preempted)))
  {
  }

  // ----- The same in place -----

  method Find(conditions: ConditionList, says: Condition -> bool) returns (found: bool)
    ensures found == AnySays(conditions, says)
  {
    for i := 0 to |conditions|
      invariant forall j | 0 <= j < i :: !says(conditions[j])
    {
      if says(conditions[i]) {
        return true;
      }
    }
    found := false;
  }

  /** The API server's copy of the status. */
  class StatusServer {
    var status: Status

    constructor (status: Status)
      ensures this.status == status
    {
      this.status := status;
    }

    method Update(next: Status, accepted: bool) returns (ok: bool)
      modifies this
      ensures ok == accepted && status == if accepted then next else old(status)
    {
      if accepted {
        status := next;
      }
      ok := accepted;
    }
  }

  /** The pass's own copy of the job. */
  class GangJob {
    const gang: bool
    const record: Recorder
    var status: Status

    constructor (gang: bool, record: Recorder, status: Status)
      ensures this.gang == gang && this.record == record && this.status == status
    {
      this.gang, this.record, this.status := gang, record, status;
    }

    method UpdateScheduled(podGroup: ConditionList, server: StatusServer, accepted: bool)
      returns (updated: bool, failed: bool)
      modifies this, server
      ensures var due := !IsScheduled(old(status).conditions) && AnySays(podGroup, PodGroupSaysScheduled);
              && updated == (due && accepted) && failed == (due && !accepted)
              && (!due ==> status == old(status))
      ensures server.status == if !updated then old(server.status) else
                old(status).(conditions := record(old(status).conditions, ScheduledCondition, OtherReason("Scheduled")))
    {
      var cond := GetCondition(status.conditions, ScheduledCondition);
      if cond.Some? && cond.value.status == True {
        return false, false;
      }
      var scheduled := Find(podGroup, PodGroupSaysScheduled);
      if !scheduled {
        return false, false;
      }
      status := status.(conditions := record(status.conditions, ScheduledCondition, OtherReason("Scheduled")));
      var ok := server.Update(status, accepted);
      updated, failed := ok, !ok;
    }

    method IsPodPreempted(pods: Option<seq<ConditionList>>) returns (preempted: bool)
      ensures preempted == (pods.Some? && AnyPreempted(pods.value))
    {
      if pods.None? {
        return false;
      }
      for i := 0 to |pods.value|
        invariant forall j | 0 <= j < i :: !AnySays(pods.value[j], PodSaysPreempted)
      {
        var found := Find(pods.value[i], PodSaysPreempted);
        if found {
          return true;
        }
      }
      preempted := false;
    }

    /** `Some(true)` is sure and `Some(false)` possible eviction. */
    method CheckEviction(podGroup: ConditionList, pods: Option<seq<ConditionList>>) returns (evicted: Option<bool>)
      modifies this
      ensures evicted == if AnySays(podGroup, PodGroupSaysEvicted) then Some(true)
                         else if pods.Some? && AnyPreempted(pods.value) then Some(false) else None
      ensures status == if AnySays(podGroup, PodGroupSaysEvicted)
                        then old(status).(conditions := record(old(status).conditions, FailedCondition, Preempted))
                        else old(status)
    {
      var sure := Find(podGroup, PodGroupSaysEvicted);
      if sure {
        status := status.(conditions := record(status.conditions, FailedCondition, Preempted));
        return Some(true);
      }
      var possible := IsPodPreempted(pods);
      evicted := if possible then Some(false) else None;
    }

    method SyncFromPodGroup(seen: Seen, server: StatusServer) returns (action: Option<Action>)
      requires seen.gang == gang && server.status == status
      modifies this, server
      ensures (action, server.status) == Sync(record, seen, old(status))
    {
      if !gang {
        return Some(Continue);
      }
      if seen.podGroup.None? {
        return Some(Continue);
      }
      var updated, failed := UpdateScheduled(seen.podGroup.value, server, seen.accepted);
      if failed {
        return None;
      }
      if updated {
        return Some(Break);
      }
      var alreadyEvicted := Find(status.conditions, SaysPreempted);
      if status.phase == JobFailed && alreadyEvicted {
        return Some(Skip);
      }
      var evicted := CheckEviction(seen.podGroup.value, seen.pods);
      if evicted.None? {
        return Some(Continue);
      }
      if !evicted.value {
        return Some(Skip);
      }
      if status.phase != JobFailed {
        status := status.(phase := JobFailed);
      }
      var ok := server.Update(status, seen.accepted);
      action := if ok then Some(Break) else None;
    }
  }

  // ----- Passes -----

  /** A pass over an unchanged, valid spec.  The gates before the pod group may
      end it: the job is being deleted, its defaults are rewritten, or an
      expectation is open.  `outcome` is the status the framework's
      `ReconcileJobs` leaves if it is reached. */
  datatype PassInput = PassInput(deleted: bool, rewritten: bool, satisfied: bool, seen: Seen, outcome: Status)

  /** The pass gets to the framework's `ReconcileJobs`, the only place where
      pods are created. */
  predicate Reaches(record: Recorder, p: PassInput, status: Status) {
    !p.deleted && !p.rewritten && p.satisfied && Sync(record, p.seen, status).0 == Some(Continue)
  }

  function PassStatus(record: Recorder, p: PassInput, status: Status): Status {
    if p.deleted || p.rewritten || !p.satisfied then status
    else if Reaches(record, p, status) then p.outcome
    else Sync(record, p.seen, status).1
  }

  /** The gates of `Reconcile` in their order. */
  method Reconcile(p: PassInput, job: GangJob, server: StatusServer) returns (reached: bool)
    requires p.seen.gang == job.gang && server.status == job.status
    modifies job, server
    ensures reached == Reaches(job.record, p, old(job.status))
    ensures server.status == PassStatus(job.record, p, old(job.status))
  {
    if p.deleted {
      return false;
    }
    if p.rewritten {
      return false;
    }
    if !p.satisfied {
      return false;
    }
    var action := job.SyncFromPodGroup(p.seen, server);
    if action != Some(Continue) {
      return false;
    }
    server.status := p.outcome;
    reached := true;
  }

  /** Exactly when a pass that the earlier gates let through gets to the
      framework. */
  lemma ReachesExactly(record: Recorder, p: PassInput, status: Status)
    requires !p.deleted && !p.rewritten && p.satisfied
    ensures Reaches(record, p, status) <==>
              || !p.seen.gang
              || p.seen.podGroup.None?
              || (&& ((exists c <- p.seen.podGroup.value :: c.ctype == ScheduledCondition && c.status == True)
                      ==> IsScheduled(status.conditions))
                  && !(status.phase == JobFailed
                       && exists c <- status.conditions ::
                            c.ctype == FailedCondition && c.status == True && c.reason == Preempted)
                  && !(exists c <- p.seen.podGroup.value :: c.ctype == EvictedCondition && c.status == True)
                  && (p.seen.pods.Some? ==>
                        forall pod <- p.seen.pods.value ::
                          !exists c <- pod :: c.ctype == ReadyCondition && c.status == False && c.reason == Preempted))
  {
  }

  ghost predicate IsHistory(record: Recorder, passes: seq<PassInput>, statuses: seq<Status>) {
    && |statuses| == |passes| + 1
    && forall i | 0 <= i < |passes| :: statuses[i + 1] == PassStatus(record, passes[i], statuses[i])
  }

  /** A recorder that keeps a failure when it records something else. */
  ghost predicate KeepsFailure(record: Recorder) {
    forall conditions, ctype, reason, c | c in conditions && SaysPreempted(c) && ctype != FailedCondition ::
      c in record(conditions, ctype, reason)
  }

  /** A recorder that records. */
  ghost predicate Records(record: Recorder) {
    forall conditions, ctype, reason ::
      GetCondition(record(conditions, ctype, reason), ctype) == Some(Condition(ctype, True, reason))
  }

  predicate Gang(p: PassInput) {
    p.seen.gang && p.seen.podGroup.Some?
  }

  lemma EvictionIsRecorded(record: Recorder, p: PassInput, status: Status)
    requires Records(record) && Gang(p) && !p.deleted && !p.rewritten && p.satisfied && p.seen.accepted
    requires AnySays(p.seen.podGroup.value, PodGroupSaysEvicted)
    requires AnySays(p.seen.podGroup.value, PodGroupSaysScheduled) ==> IsScheduled(status.conditions)
    ensures Evicted(PassStatus(record, p, status))
  {
    var c := Condition(FailedCondition, True, Preempted);
    assert GetCondition(record(status.conditions, FailedCondition, Preempted), FailedCondition) == Some(c);
  }

  lemma EvictedPass(record: Recorder, p: PassInput, status: Status)
    requires KeepsFailure(record) && Gang(p) && Evicted(status)
    ensures !Reaches(record, p, status) && Evicted(PassStatus(record, p, status))
  {
    var c :| c in status.conditions && SaysPreempted(c);
    assert c in record(status.conditions, ScheduledCondition, OtherReason("Scheduled"));
  }

  /** Eviction is absorbing: from then on no pass with gang scheduling on and
      the pod group readable gets to the framework, and the job stays evicted. */
  lemma {:induction false} EvictionIsAbsorbing(record: Recorder, passes: seq<PassInput>, statuses: seq<Status>, j: nat,
                                               k: nat)
    requires KeepsFailure(record) && IsHistory(record, passes, statuses)
    requires j <= k < |passes| && Evicted(statuses[j])
    requires forall i | j <= i < |passes| :: Gang(passes[i])
    ensures Evicted(statuses[k]) && !Reaches(record, passes[k], statuses[k]) && Evicted(statuses[k + 1])
  {
    if j < k {
      EvictionIsAbsorbing(record, passes, statuses, j, k - 1);
    }
    EvictedPass(record, passes[k], statuses[k]);
  }

  /** The pass is ended by the news that the job has been scheduled. */
  predicate BreaksOnScheduled(record: Recorder, p: PassInput, status: Status) {
    && !p.deleted && !p.rewritten && p.satisfied && Gang(p) && p.seen.accepted
    && !IsScheduled(status.conditions) && AnySays(p.seen.podGroup.value, PodGroupSaysScheduled)
  }

  /** Whether the next such pass is ended again depends on the recorder alone. */
  lemma BreaksAgainIffNotRecorded(record: Recorder, p: PassInput, status: Status)
    requires BreaksOnScheduled(record, p, status)
    ensures BreaksOnScheduled(record, p, PassStatus(record, p, status))
            <==> !IsScheduled(record(status.conditions, ScheduledCondition, OtherReason("Scheduled")))
  {
  }

  /** A recorder that keeps the scheduled condition when it records a failure. */
  ghost predicate KeepsScheduled(record: Recorder) {
    forall conditions | IsScheduled(conditions) :: IsScheduled(record(conditions, FailedCondition, Preempted))
  }

  /** With a recorder that records, and a framework that leaves the condition
      alone, the news ends at most one pass. */
  lemma {:induction false} ScheduledBreaksAtMostOnce(record: Recorder, passes: seq<PassInput>, statuses: seq<Status>,
                                                     j: nat, k: nat)
    requires Records(record) && KeepsScheduled(record) && IsHistory(record, passes, statuses)
    requires forall i | 0 <= i < |passes| && Reaches(record, passes[i], statuses[i]) ::
               IsScheduled(statuses[i].conditions) ==> IsScheduled(statuses[i + 1].conditions)
    requires j < k < |passes| && BreaksOnScheduled(record, passes[j], statuses[j])
    ensures IsScheduled(statuses[k].conditions) && !BreaksOnScheduled(record, passes[k], statuses[k])
  {
    if k == j + 1 {
      var c := Condition(ScheduledCondition, True, OtherReason("Scheduled"));
      var recorded := record(statuses[j].conditions, ScheduledCondition, OtherReason("Scheduled"));
      assert GetCondition(recorded, ScheduledCondition) == Some(c);
    } else {
      ScheduledBreaksAtMostOnce(record, passes, statuses, j, k - 1);
    }
  }
}
