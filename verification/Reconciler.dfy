/** The reconciler as the original writes it: objects updated in place, loops,
    early returns on errors.  Each method is tied to the functions of
    `PodPass` and `RolePhases`. */
module Reconciler {
  import opened Decimal
  import opened Api
  import opened Pods
  import opened RolePhases
  import opened PodPass
  import E = Expectations
  import N = NodeManager

  datatype RoleStatus = RoleStatus(phase: RolePhase, reason: FailedReason, counters: Counters)

  const FRESH_STATUS := RoleStatus(Pending, NoReason, ZERO)

  type RoleStatuses = map<Role, RoleStatus>

  function StatusOf(statuses: RoleStatuses, role: Role): RoleStatus {
    if role in statuses then statuses[role] else FRESH_STATUS
  }

  /** The status after `UpdateRolePhase`. */
  function WithPhase(spec: RoleSpec, down: set<string>, pods: seq<Pod>, status: RoleStatus): RoleStatus {
    var phase := GetRolePhase(spec, status.counters, status.phase);
    if phase == status.phase then status
    else
      status.(phase := phase,
              reason := if phase == Failed then ExtractFailedReason(down, pods, spec.replicas) else status.reason)
  }

  /** The status after a pass that did not fail. */
  function StatusAfter(spec: RoleSpec, down: set<string>, validated: seq<Pod>, quiet: bool,
                       before: RoleStatus): RoleStatus {
    var counted := before.(counters := Count(spec.policy, down, validated));
    if quiet then WithPhase(spec, down, validated, counted) else counted
  }

  /** What that status is: the phase the pass leads to, which is the old one if
      it made a call that took effect, the counters of the counted pods, and
      the old reason except on a move into Failed, which gives a true one. */
  lemma StatusAfterMeans(spec: RoleSpec, down: set<string>, acc: Acc, before: RoleStatus)
    requires !acc.failed
    ensures var after := StatusAfter(spec, down, acc.validated, Quiet(acc), before);
            && after.phase == PhaseAfter(spec, acc, down, before.phase)
            && after.counters == Count(spec.policy, down, acc.validated)
            && (after.phase == Failed && before.phase != Failed && spec.replicas > 0 ==>
                  Truthful(after.reason, down, acc.validated, spec.replicas))
            && (after.phase != Failed || before.phase == Failed ==> after.reason == before.reason)
  {
    var after := StatusAfter(spec, down, acc.validated, Quiet(acc), before);
    if after.phase == Failed && before.phase != Failed && spec.replicas > 0 {
      FailureHasTruthfulReason(spec, down, acc.validated, before.phase);
    }
  }

  class AresJob {
    const name: string
    const specs: map<Role, RoleSpec>
    var roleStatuses: RoleStatuses

    constructor (name: string, specs: map<Role, RoleSpec>, roleStatuses: RoleStatuses)
      ensures this.name == name && this.specs == specs && this.roleStatuses == roleStatuses
    {
      this.name, this.specs, this.roleStatuses := name, specs, roleStatuses;
    }
  }

  /** The API server as the reconciler sees it: it answers each call as the
      script says and remembers the calls. */
  class PodControl {
    const script: Script
    var calls: seq<Call>

    constructor (script: Script)
      ensures this.script == script && calls == []
    {
      this.script, calls := script, [];
    }

    method DeletePod(p: Pod) returns (ok: bool)
      modifies this
      ensures ok == script(|old(calls)|).deleteOk && calls == old(calls) + [DeleteCall(p, ok)]
    {
      ok := script(|calls|).deleteOk;
      calls := calls + [DeleteCall(p, ok)];
    }

    method Answer(index: nat) returns (reply: CreateReply)
      modifies this
      ensures reply == script(|old(calls)|).create && calls == old(calls) + [CreateCall(index, reply)]
    {
      reply := script(|calls|).create;
      calls := calls + [CreateCall(index, reply)];
    }
  }

  class Reconciler {
    const pods: PodControl
    const expectations: E.ControllerExpectations
    const nodes: N.Manager
    const retryable: int -> bool

    constructor (pods: PodControl, expectations: E.ControllerExpectations, nodes: N.Manager, retryable: int -> bool)
      ensures this.pods == pods && this.expectations == expectations && this.nodes == nodes
      ensures this.retryable == retryable
    {
      this.pods, this.expectations, this.nodes, this.retryable := pods, expectations, nodes, retryable;
    }

    /** The inputs of a pass over the role as things stand. */
    function PassInputs(job: AresJob, role: Role): Inputs
      reads job
      requires role in job.specs
    {
      Inputs(job.specs[role], StatusOf(job.roleStatuses, role).phase, retryable, pods.script)
    }

    /** The expectation raised before the call is taken back only on a
        non-timeout error. */
    method CreateNewPod(job: AresJob, role: Role, index: nat) returns (failed: bool)
      modifies pods, expectations
      ensures var reply := pods.script(|old(pods.calls)|).create;
              && pods.calls == old(pods.calls) + [CreateCall(index, reply)]
              && failed == !ReturnsNil(reply)
      ensures var key := E.ExpectationKey(job.name, role, E.Pods);
              var c := E.Lookup(old(expectations.store), key);
              && E.Lookup(expectations.store, key) == E.Counts(c.add + if failed then 0 else 1, c.del)
              && forall k :: k != key ==> E.Lookup(expectations.store, k) == E.Lookup(old(expectations.store), k)
    {
      var key := E.ExpectationKey(job.name, role, E.Pods);
      var reply := pods.Answer(index);
      if reply == Unprepared {
        return true;
      }
      expectations.RaiseExpectations(key, 1, 0);
      if reply == TimedOut {
        return false;
      } else if reply == Refused {
        expectations.CreationObserved(key);
        return true;
      }
      failed := false;
    }

    method DeletePod(job: AresJob, role: Role, p: Pod) returns (failed: bool)
      modifies pods, expectations
      ensures var ok := pods.script(|old(pods.calls)|).deleteOk;
              && pods.calls == old(pods.calls) + [DeleteCall(p, ok)]
              && failed == !ok
      ensures var key := E.ExpectationKey(job.name, role, E.Pods);
              var c := E.Lookup(old(expectations.store), key);
              && E.Lookup(expectations.store, key) == E.Counts(c.add, c.del + if failed then 0 else 1)
              && forall k :: k != key ==> E.Lookup(expectations.store, k) == E.Lookup(old(expectations.store), k)
    {
      var ok := pods.DeletePod(p);
      if !ok {
        return true;
      }
      expectations.RaiseExpectations(E.ExpectationKey(job.name, role, E.Pods), 0, 1);
      failed := false;
    }

    /** One pod added to the counters of its role. */
    method UpdateReplicaStatus(job: AresJob, role: Role, p: Pod)
      requires role in job.specs && role in job.roleStatuses
      modifies job
      ensures var policy, down := job.specs[role].policy, N.DownNodes(nodes.unhealthyNodes);
              var was := old(job.roleStatuses)[role];
              job.roleStatuses
              == old(job.roleStatuses)[role := was.(counters := Bump(was.counters, SlotOf(policy, down, p)))]
    {
      var status := job.roleStatuses[role];
      var c := status.counters;
      if p.deleting {
        c := c.(terminating := c.terminating + 1);
      } else {
        var nodeDown := false;
        if p.node != "" && job.specs[role].policy.nodeDownAsFailed {
          nodeDown := nodes.IsNodeDown(p.node);
        }
        if nodeDown {
          c := c.(failed := c.failed + 1);
        } else {
          match p.phase
          case PhaseUnset => c := c.(pending := c.pending + 1);
          case PodPending => c := c.(pending := c.pending + 1);
          case PodRunning => c := c.(active := c.active + 1);
          case PodSucceeded => c := c.(succeeded := c.succeeded + 1);
          case PodFailed => c := c.(failed := c.failed + 1);
          case PodUnknown => c := c.(unknown := c.unknown + 1);
        }
      }
      job.roleStatuses := job.roleStatuses[role := status.(counters := c)];
    }

    method UpdateRoleReplicas(job: AresJob, role: Role, pods: seq<Pod>)
      requires role in job.specs
      modifies job
      ensures var counters := Count(job.specs[role].policy, N.DownNodes(nodes.unhealthyNodes), pods);
              job.roleStatuses
              == old(job.roleStatuses)[role := StatusOf(old(job.roleStatuses), role).(counters := counters)]
    {
      ghost var policy, down := job.specs[role].policy, N.DownNodes(nodes.unhealthyNodes);
      if role !in job.roleStatuses {
        job.roleStatuses := job.roleStatuses[role := FRESH_STATUS];
      }
      job.roleStatuses := job.roleStatuses[role := job.roleStatuses[role].(counters := ZERO)];
      for i := 0 to |pods|
        invariant AreCounted(job.roleStatuses, old(job.roleStatuses), role, policy, down, pods[..i])
      {
        assert pods[..i] + [pods[i]] == pods[..i + 1];
        OneMoreCounted(job.roleStatuses, old(job.roleStatuses), role, policy, down, pods[..i], pods[i]);
        UpdateReplicaStatus(job, role, pods[i]);
      }
      assert pods[..|pods|] == pods;
    }

    method FindOnDownNode(alive: seq<Pod>) returns (found: Option<Pod>)
      ensures found == First(alive, OnDownNode(N.DownNodes(nodes.unhealthyNodes)))
    {
      ghost var onDownNode := OnDownNode(N.DownNodes(nodes.unhealthyNodes));
      for i := 0 to |alive|
        invariant First(alive, onDownNode) == First(alive[i..], onDownNode)
      {
        if alive[i].node == "" {
          continue;
        }
        var nodeDown := nodes.IsNodeDown(alive[i].node);
        if nodeDown {
          return Some(alive[i]);
        }
      }
      found := None;
    }

    method ExtractFailedReason(pods: seq<Pod>, expected: nat) returns (reason: FailedReason)
      ensures reason == RolePhases.ExtractFailedReason(N.DownNodes(nodes.unhealthyNodes), pods, expected)
    {
      var alive := FilterPods(pods, ALIVE);
      var failedPod := FindFailed(alive);
      if failedPod.Some? {
        return PodFailedReason(failedPod.value);
      }
      var onDownNode := FindOnDownNode(alive);
      if onDownNode.Some? {
        return NodeDownReason(onDownNode.value);
      }
      var terminating, indexSet := CollectLabels(pods);
      if terminating != multiset{} {
        return TerminatingReason(terminating);
      }
      var missing := CollectMissing(indexSet, expected);
      if missing != [] {
        return MissingReason(missing);
      }
      reason := NoReason;
    }

    method UpdateRolePhase(job: AresJob, role: Role, pods: seq<Pod>)
      requires role in job.specs && role in job.roleStatuses
      modifies job
      ensures var down := N.DownNodes(nodes.unhealthyNodes);
              job.roleStatuses == old(job.roleStatuses)[role :=
                WithPhase(job.specs[role], down, pods, old(job.roleStatuses)[role])]
    {
      var spec, status := job.specs[role], job.roleStatuses[role];
      var rolePhase := GetRolePhase(spec, status.counters, status.phase);
      if rolePhase != status.phase {
        status := status.(phase := rolePhase);
        if rolePhase == Failed {
          var reason := ExtractFailedReason(pods, spec.replicas);
          status := status.(reason := reason);
        }
        job.roleStatuses := job.roleStatuses[role := status];
      }
    }

    /** The end of `ReconcilePods`: recount, and recompute the phase only if
        nothing was created or deleted. */
    method UpdateRole(job: AresJob, role: Role, validated: seq<Pod>, creations: nat, deletions: nat)
      requires role in job.specs
      modifies job
      ensures var down := N.DownNodes(nodes.unhealthyNodes);
              job.roleStatuses == old(job.roleStatuses)[role :=
                StatusAfter(job.specs[role], down, validated, creations == 0 && deletions == 0,
                            StatusOf(old(job.roleStatuses), role))]
    {
      UpdateRoleReplicas(job, role, validated);
      if creations == 0 && deletions == 0 {
        UpdateRolePhase(job, role, validated);
      }
    }

    /** The role's counters are those of `before` raised by the two numbers,
        and the other keys are as in `before`. */
    ghost predicate RaisedBy(job: AresJob, role: Role, before: E.Ledger, creations: int, deletions: int)
      reads expectations
    {
      var key := E.ExpectationKey(job.name, role, E.Pods);
      var was := E.Lookup(before, key);
      && E.Lookup(expectations.store, key) == E.Counts(was.add + creations, was.del + deletions)
      && forall k :: k != key ==> E.Lookup(expectations.store, k) == E.Lookup(before, k)
    }

    /** One round of the bucket loop. */
    method ReconcileBucket(job: AresJob, role: Role, index: nat, podSlice: seq<Pod>,
                           validated: seq<Pod>, creations: nat, deletions: nat)
      returns (failed: bool, validated': seq<Pod>, creations': nat, deletions': nat)
      requires role in job.specs
      modifies pods, expectations
      ensures Acc(pods.calls, validated', creations', deletions', failed)
           == Process(PassInputs(job, role), Acc(old(pods.calls), validated, creations, deletions, false),
                      index, podSlice)
      ensures RaisedBy(job, role, old(expectations.store), creations' - creations, deletions' - deletions)
    {
      var spec := job.specs[role];
      failed, validated', creations', deletions' := false, validated, creations, deletions;
      if |podSlice| > 1 {
        return;
      } else if |podSlice| == 0 {
        var rolePhase := StatusOf(job.roleStatuses, role).phase;
        if spec.restart == Never && IsRoleStarted(rolePhase) {
          return;
        }
        failed := CreateNewPod(job, role, index);
        if failed {
          return;
        }
        creations' := creations' + 1;
      } else {
        var p := podSlice[0];
        if index >= spec.replicas {
          failed := DeletePod(job, role, p);
          if failed {
            return;
          }
          deletions' := deletions' + 1;
        }
        if p.phase == PodFailed {
          if IsRetryable(spec.restart, retryable, p) {
            failed := DeletePod(job, role, p);
            if failed {
              return;
            }
            deletions' := deletions' + 1;
          } else {
            validated' := validated' + [p];
          }
        } else {
          validated' := validated' + [p];
        }
      }
    }

    /** The bucket loop, up to its end or its first error. */
    method ReconcileBuckets(job: AresJob, role: Role, podSlices: array<seq<Pod>>, uncontrolled: seq<Pod>)
      returns (failed: bool, validated: seq<Pod>, creations: nat, deletions: nat)
      requires role in job.specs
      modifies pods, expectations
      ensures Acc(pods.calls, validated, creations, deletions, failed)
           == After(PassInputs(job, role), podSlices[..], podSlices.Length, Start(old(pods.calls), uncontrolled))
      ensures RaisedBy(job, role, old(expectations.store), creations, deletions)
    {
      failed, validated, creations, deletions := false, uncontrolled, 0, 0;
      for index := 0 to podSlices.Length
        invariant Acc(pods.calls, validated, creations, deletions, false)
               == After(PassInputs(job, role), podSlices[..], index, Start(old(pods.calls), uncontrolled))
        invariant RaisedBy(job, role, old(expectations.store), creations, deletions)
      {
        ErrorEndsLoop(PassInputs(job, role), podSlices[..], index + 1, podSlices.Length,
                      Start(old(pods.calls), uncontrolled));
        failed, validated, creations, deletions :=
          ReconcileBucket(job, role, index, podSlices[index], validated, creations, deletions);
        if failed {
          return;
        }
      }
    }

    /** The pods to sort into buckets, and those counted without. */
    method SplitPods(spec: RoleSpec, role: Role, listed: seq<Pod>)
      returns (reconciling: seq<Pod>, uncontrolled: seq<Pod>)
      requires IndicesNotNegative(listed)
      ensures PodSlices(reconciling, spec.replicas) == RoleSlices(spec, role, listed) && IndicesNotNegative(reconciling)
      ensures uncontrolled == RoleUncontrolled(spec, role, listed)
    {
      var mine := FilterPods(listed, OfRole(role));
      reconciling := FilterPods(mine, ALIVE);
      uncontrolled := FilterPods(mine, TERMINATING);
      if spec.restart == Never {
        reconciling := mine;
        uncontrolled := [];
      }
    }

    /** `ReconcilePods` up to the end of its bucket loop. */
    method ReconcileRole(job: AresJob, role: Role, listed: seq<Pod>)
      returns (failed: bool, validated: seq<Pod>, creations: nat, deletions: nat)
      requires role in job.specs
      requires IndicesNotNegative(listed)
      modifies pods, expectations
      ensures Acc(pods.calls, validated, creations, deletions, failed)
           == Pass(PassInputs(job, role), role, listed, old(pods.calls))
      ensures RaisedBy(job, role, old(expectations.store), creations, deletions)
      ensures creations == NetCreations(pods.calls) - NetCreations(old(pods.calls))
      ensures deletions == NetDeletions(pods.calls) - NetDeletions(old(pods.calls))
    {
      var spec := job.specs[role];
      var reconcilingPods;
      reconcilingPods, validated := SplitPods(spec, role, listed);
      var podSlices := GetPodSlices(reconcilingPods, spec.replicas);
      ghost var slices := podSlices[..];
      PassNets(PassInputs(job, role), role, listed, pods.calls);
      failed, validated, creations, deletions := ReconcileBuckets(job, role, podSlices, validated);
      assert podSlices[..] == slices && podSlices.Length == |slices|;
    }

    /** `ReconcilePods`.  Errors leave the role status as it was; on every exit
        the counters of the role's key have moved by exactly the calls that
        took effect, and no other key has moved; the phase is recomputed only
        when no call took effect. */
    method ReconcilePods(job: AresJob, role: Role, listed: seq<Pod>) returns (failed: bool)
      requires role in job.specs
      requires IndicesNotNegative(listed)
      modifies job, pods, expectations
      ensures pods.calls == Pass(old(PassInputs(job, role)), role, listed, old(pods.calls)).calls
      ensures failed == Pass(old(PassInputs(job, role)), role, listed, old(pods.calls)).failed
      ensures RaisedBy(job, role, old(expectations.store), NetCreations(pods.calls) - NetCreations(old(pods.calls)),
                       NetDeletions(pods.calls) - NetDeletions(old(pods.calls)))
      ensures failed ==> job.roleStatuses == old(job.roleStatuses)
      ensures !failed ==>
                var acc := Pass(old(PassInputs(job, role)), role, listed, old(pods.calls));
                job.roleStatuses == old(job.roleStatuses)[role :=
                  StatusAfter(job.specs[role], N.DownNodes(nodes.unhealthyNodes), acc.validated, Quiet(acc),
                              StatusOf(old(job.roleStatuses), role))]
      ensures !failed ==>
                var acc := Pass(old(PassInputs(job, role)), role, listed, old(pods.calls));
                var spec, down := job.specs[role], N.DownNodes(nodes.unhealthyNodes);
                var was, now := StatusOf(old(job.roleStatuses), role), job.roleStatuses[role];
                && now.phase == PhaseAfter(spec, acc, down, was.phase)
                && now.counters == Count(spec.policy, down, acc.validated)
                && (now.phase == Failed && was.phase != Failed && spec.replicas > 0 ==>
                      Truthful(now.reason, down, acc.validated, spec.replicas))
                && (now.phase != Failed || was.phase == Failed ==> now.reason == was.reason)
    {
      var validatedPods, expectedCreation, expectedDeletion;
      ghost var acc := Pass(PassInputs(job, role), role, listed, pods.calls);
      failed, validatedPods, expectedCreation, expectedDeletion := ReconcileRole(job, role, listed);
      if failed {
        return;
      }
      StatusAfterMeans(job.specs[role], N.DownNodes(nodes.unhealthyNodes), acc, StatusOf(job.roleStatuses, role));
      UpdateRole(job, role, validatedPods, expectedCreation, expectedDeletion);
    }

    /** One round of the role loop: the pass over the role at position `i`. */
    method ReconcileNext(job: AresJob, order: seq<Role>, listed: seq<Pod>, i: nat,
                         ghost was: RoleStatuses, ghost inps: seq<Inputs>, ghost marks: seq<seq<Call>>)
      returns (failed: bool)
      requires Distinct(order) && IndicesNotNegative(listed)
      requires i < |order| && |marks| == i + 1 && marks[i] == pods.calls
      requires order[i] in job.specs && |inps| == |order|
      requires inps[i] == Inputs(job.specs[order[i]], StatusOf(was, order[i]).phase, retryable, pods.script)
      requires RolesDone(false, expectations.store, job.name, job.roleStatuses, was,
                         N.DownNodes(nodes.unhealthyNodes), inps, order, listed, marks)
      modifies job, pods, expectations
      ensures RolesDone(failed, expectations.store, job.name, job.roleStatuses, was,
                        N.DownNodes(nodes.unhealthyNodes), inps, order, listed, marks + [pods.calls])
    {
      ghost var store, statuses, down := expectations.store, job.roleStatuses, N.DownNodes(nodes.unhealthyNodes);
      StatusesAhead(statuses, was, down, inps, order, listed, marks);
      ZeroAhead(store, job.name, inps, order, listed, marks);
      failed := ReconcilePods(job, order[i], listed);
      OneMoreRole(failed, store, expectations.store, job.name, statuses, job.roleStatuses, was, down,
                  inps, order, listed, marks, pods.calls);
    }

    /** A whole pass: the gate, the reset, and the roles one after another up to
        the first error.  An open expectation ends it before anything happens.
        Otherwise every role that was reached ran its own pass over the listing,
        from the status it had at the start, its counters are exactly the calls
        of that pass that took effect, and its status is the one that pass
        leaves; the others have counters at zero and their old status.  `marks`
        holds the calls made up to each role. */
    method ReconcileJobs(job: AresJob, order: seq<Role>, listed: seq<Pod>)
      returns (skipped: bool, failed: bool, ghost marks: seq<seq<Call>>)
      requires Distinct(order) && forall r <- order :: r in job.specs
      requires IndicesNotNegative(listed)
      modifies job, pods, expectations
      ensures skipped <==> !E.AllSatisfied(old(expectations.store), E.KeysOf(job.name, job.specs.Keys))
      ensures skipped ==>
                && !failed && pods.calls == old(pods.calls)
                && expectations.store == old(expectations.store) && job.roleStatuses == old(job.roleStatuses)
      ensures !skipped ==>
                && 0 < |marks| <= |order| + 1 && marks[0] == old(pods.calls) && marks[|marks| - 1] == pods.calls
                && var inps := InputsOf(job.specs, old(job.roleStatuses), retryable, pods.script, order);
                   && (!failed ==> |marks| == |order| + 1)
                   && RolesDone(failed, expectations.store, job.name, job.roleStatuses, old(job.roleStatuses),
                                N.DownNodes(nodes.unhealthyNodes), inps, order, listed, marks)
    {
      failed, marks := false, [];
      var satisfied := expectations.SatisfiedExpectations(job.name, job.specs.Keys);
      if !satisfied {
        return true, false, [];
      }
      skipped := false;
      ghost var inps := InputsOf(job.specs, job.roleStatuses, retryable, pods.script, order);
      expectations.ResetExpectations(job.name, job.specs.Keys);
      marks := [pods.calls];
      NoneDone(old(expectations.store), job.name, job.specs.Keys, inps, order, listed, pods.calls);
      for i := 0 to |order|
        invariant |marks| == i + 1 && marks[0] == old(pods.calls) && marks[i] == pods.calls
        invariant RolesDone(false, expectations.store, job.name, job.roleStatuses, old(job.roleStatuses),
                            N.DownNodes(nodes.unhealthyNodes), inps, order, listed, marks)
      {
        assert order[i] in order;
        failed := ReconcileNext(job, order, listed, i, old(job.roleStatuses), inps, marks);
        marks := marks + [pods.calls];
        if failed {
          return;
        }
      }
    }
  }

  /** The role's counters are those of the pods, and nothing else is new. */
  predicate AreCounted(now: RoleStatuses, was: RoleStatuses, role: Role, policy: RolePhasePolicy, down: set<string>,
                       pods: seq<Pod>)
  {
    now == was[role := StatusOf(was, role).(counters := Count(policy, down, pods))]
  }

  lemma OneMoreCounted(now: RoleStatuses, was: RoleStatuses, role: Role, policy: RolePhasePolicy, down: set<string>,
                       pods: seq<Pod>, p: Pod)
    requires AreCounted(now, was, role, policy, down, pods)
    ensures AreCounted(now[role := now[role].(counters := Bump(now[role].counters, SlotOf(policy, down, p)))],
                       was, role, policy, down, pods + [p])
  {
    CountSnoc(policy, down, pods, p);
  }

  /** What the passes over the roles depend on. */
  function InputsOf(specs: map<Role, RoleSpec>, statuses: RoleStatuses, retryable: int -> bool, script: Script,
                    order: seq<Role>): (inps: seq<Inputs>)
    requires forall r <- order :: r in specs
    ensures |inps| == |order|
    ensures forall i | 0 <= i < |order| ::
              inps[i] == Inputs(specs[order[i]], StatusOf(statuses, order[i]).phase, retryable, script)
  {
    seq(|order|, i requires 0 <= i < |order| =>
      assert order[i] in order;
      Inputs(specs[order[i]], StatusOf(statuses, order[i]).phase, retryable, script))
  }

  /** The role at position `i` of the order has had its pass, and its counters
      are the calls of that pass that took effect; or it was not reached. */
  predicate RoleDone(store: E.Ledger, job: string, inp: Inputs, order: seq<Role>, listed: seq<Pod>,
                     marks: seq<seq<Call>>, i: nat)
    requires i < |order|
  {
    var c := E.Lookup(store, E.ExpectationKey(job, order[i], E.Pods));
    if i + 1 < |marks| then
      && marks[i + 1] == Pass(inp, order[i], listed, marks[i]).calls
      && c == E.Counts(NetCreations(marks[i + 1]) - NetCreations(marks[i]),
                       NetDeletions(marks[i + 1]) - NetDeletions(marks[i]))
    else c == E.Counts(0, 0)
  }

  /** The loop over the roles has got as far as `marks`. */
  ghost predicate RolesDone(failed: bool, store: E.Ledger, job: string, now: RoleStatuses, was: RoleStatuses,
                            down: set<string>, inps: seq<Inputs>, order: seq<Role>, listed: seq<Pod>,
                            marks: seq<seq<Call>>)
  {
    && StopsAtError(failed, inps, order, listed, marks)
    && AllDone(store, job, inps, order, listed, marks)
    && StatusesDone(now, was, down, inps, order, listed, marks)
  }

  lemma ZeroAhead(store: E.Ledger, job: string, inps: seq<Inputs>, order: seq<Role>, listed: seq<Pod>,
                  marks: seq<seq<Call>>)
    requires 0 < |marks| <= |order| && AllDone(store, job, inps, order, listed, marks)
    ensures E.Lookup(store, E.ExpectationKey(job, order[|marks| - 1], E.Pods)) == E.Counts(0, 0)
  {
    assert RoleDone(store, job, inps[|marks| - 1], order, listed, marks, |marks| - 1);
  }

  lemma OneMoreRole(failed: bool, store: E.Ledger, store': E.Ledger, job: string,
                    before: RoleStatuses, now: RoleStatuses, was: RoleStatuses, down: set<string>,
                    inps: seq<Inputs>, order: seq<Role>, listed: seq<Pod>, marks: seq<seq<Call>>, calls: seq<Call>)
    requires Distinct(order) && |marks| <= |order|
    requires RolesDone(false, store, job, before, was, down, inps, order, listed, marks)
    requires var last := |marks| - 1;
             && failed == Pass(inps[last], order[last], listed, marks[last]).failed
             && calls == Pass(inps[last], order[last], listed, marks[last]).calls
             && StatusDone(now, before, down, inps[last], order[last], listed, marks[last])
             && (forall r | r != order[last] :: StatusOf(now, r) == StatusOf(before, r))
             && E.Lookup(store', E.ExpectationKey(job, order[last], E.Pods))
                == E.Counts(NetCreations(calls) - NetCreations(marks[last]),
                            NetDeletions(calls) - NetDeletions(marks[last]))
             && forall k :: k != E.ExpectationKey(job, order[last], E.Pods) ==>
                  E.Lookup(store', k) == E.Lookup(store, k)
    ensures RolesDone(failed, store', job, now, was, down, inps, order, listed, marks + [calls])
  {
    OneMoreDone(store, store', job, inps, order, listed, marks, calls);
    OneMoreStatus(now, before, was, down, inps, order, listed, marks, calls);
    OneMoreStop(failed, inps, order, listed, marks, calls);
  }

  lemma OneMoreStop(failed: bool, inps: seq<Inputs>, order: seq<Role>, listed: seq<Pod>, marks: seq<seq<Call>>,
                    calls: seq<Call>)
    requires |marks| <= |order| && StopsAtError(false, inps, order, listed, marks)
    requires failed == PassFails(inps[|marks| - 1], order[|marks| - 1], listed, marks[|marks| - 1])
    ensures StopsAtError(failed, inps, order, listed, marks + [calls])
  {
    forall i | 0 <= i < |marks|
      ensures PassFails(inps[i], order[i], listed, (marks + [calls])[i]) <==> failed && i == |marks| - 1
    {
      StopAt(failed, inps[i], order[i], listed, marks, calls, i);
    }
  }

  lemma StopAt(failed: bool, inp: Inputs, role: Role, listed: seq<Pod>, marks: seq<seq<Call>>, calls: seq<Call>, i: nat)
    requires i < |marks| && (PassFails(inp, role, listed, marks[i]) <==> failed && i == |marks| - 1)
    ensures PassFails(inp, role, listed, (marks + [calls])[i]) <==> failed && i == |marks| - 1
  {
    assert (marks + [calls])[i] == marks[i];
  }

  /** No pass failed, unless the last one did. */
  predicate StopsAtError(failed: bool, inps: seq<Inputs>, order: seq<Role>, listed: seq<Pod>, marks: seq<seq<Call>>) {
    && 0 < |marks| <= |order| + 1 && |order| == |inps| && (failed ==> |marks| > 1)
    && forall i | 0 <= i < |marks| - 1 ::
         PassFails(inps[i], order[i], listed, marks[i]) <==> failed && i == |marks| - 2
  }

  predicate PassFails(inp: Inputs, role: Role, listed: seq<Pod>, calls: seq<Call>) {
    Pass(inp, role, listed, calls).failed
  }

  /** The status a pass leaves: the old one if it failed. */
  predicate StatusDone(now: RoleStatuses, was: RoleStatuses, down: set<string>, inp: Inputs, role: Role,
                       listed: seq<Pod>, calls: seq<Call>)
  {
    var acc := Pass(inp, role, listed, calls);
    StatusOf(now, role) == if acc.failed then StatusOf(was, role)
                           else StatusAfter(inp.spec, down, acc.validated, Quiet(acc), StatusOf(was, role))
  }

  /** The roles reached have the status their pass leaves, all others their old one. */
  ghost predicate StatusesDone(now: RoleStatuses, was: RoleStatuses, down: set<string>, inps: seq<Inputs>,
                               order: seq<Role>, listed: seq<Pod>, marks: seq<seq<Call>>)
  {
    && 0 < |marks| <= |order| + 1 && |inps| == |order|
    && ReachedDone(now, was, down, inps, order, listed, marks, |marks| - 1)
    && OthersKept(now, was, order[..|marks| - 1])
  }

  ghost predicate ReachedDone(now: RoleStatuses, was: RoleStatuses, down: set<string>, inps: seq<Inputs>,
                              order: seq<Role>, listed: seq<Pod>, marks: seq<seq<Call>>, n: int)
    requires n <= |inps| == |order| && n <= |marks|
  {
    forall i | 0 <= i < n :: StatusDone(now, was, down, inps[i], order[i], listed, marks[i])
  }

  ghost predicate OthersKept(now: RoleStatuses, was: RoleStatuses, reached: seq<Role>) {
    forall r | r !in reached :: StatusOf(now, r) == StatusOf(was, r)
  }

  lemma OneFewerKept(now: RoleStatuses, before: RoleStatuses, was: RoleStatuses, reached: seq<Role>, role: Role)
    requires OthersKept(before, was, reached) && forall r | r != role :: StatusOf(now, r) == StatusOf(before, r)
    ensures OthersKept(now, was, reached + [role])
  {
  }

  lemma StatusesAhead(now: RoleStatuses, was: RoleStatuses, down: set<string>, inps: seq<Inputs>,
                      order: seq<Role>, listed: seq<Pod>, marks: seq<seq<Call>>)
    requires Distinct(order) && |marks| <= |order| && StatusesDone(now, was, down, inps, order, listed, marks)
    ensures StatusOf(now, order[|marks| - 1]) == StatusOf(was, order[|marks| - 1])
  {
    assert order[|marks| - 1] !in order[..|marks| - 1];
    assert OthersKept(now, was, order[..|marks| - 1]);
  }

  lemma OneMoreStatus(now: RoleStatuses, before: RoleStatuses, was: RoleStatuses, down: set<string>, inps: seq<Inputs>,
                      order: seq<Role>, listed: seq<Pod>, marks: seq<seq<Call>>, calls: seq<Call>)
    requires Distinct(order) && |marks| <= |order| && StatusesDone(before, was, down, inps, order, listed, marks)
    requires var last := |marks| - 1;
             && StatusDone(now, before, down, inps[last], order[last], listed, marks[last])
             && forall r | r != order[last] :: StatusOf(now, r) == StatusOf(before, r)
    ensures StatusesDone(now, was, down, inps, order, listed, marks + [calls])
  {
    var last := |marks| - 1;
    StatusesAhead(before, was, down, inps, order, listed, marks);
    OneFewerKept(now, before, was, order[..last], order[last]);
    assert order[..|marks|] == order[..last] + [order[last]];
    StatusReached(now, before, was, down, inps[last], order[last], listed, marks, calls);
    FrontStays(now, before, was, down, inps, order, listed, marks, calls);
    OneMoreReached(now, was, down, inps, order, listed, marks + [calls], last);
  }

  lemma OneMoreReached(now: RoleStatuses, was: RoleStatuses, down: set<string>, inps: seq<Inputs>,
                       order: seq<Role>, listed: seq<Pod>, marks: seq<seq<Call>>, n: nat)
    requires n < |inps| == |order| && n < |marks|
    requires ReachedDone(now, was, down, inps, order, listed, marks, n)
    requires StatusDone(now, was, down, inps[n], order[n], listed, marks[n])
    ensures ReachedDone(now, was, down, inps, order, listed, marks, n + 1)
  {
  }

  lemma FrontStays(now: RoleStatuses, before: RoleStatuses, was: RoleStatuses, down: set<string>, inps: seq<Inputs>,
                   order: seq<Role>, listed: seq<Pod>, marks: seq<seq<Call>>, calls: seq<Call>)
    requires Distinct(order) && 0 < |marks| <= |order| == |inps|
    requires ReachedDone(before, was, down, inps, order, listed, marks, |marks| - 1)
    requires forall r | r != order[|marks| - 1] :: StatusOf(now, r) == StatusOf(before, r)
    ensures ReachedDone(now, was, down, inps, order, listed, marks + [calls], |marks| - 1)
  {
    forall i | 0 <= i < |marks| - 1
      ensures StatusDone(now, was, down, inps[i], order[i], listed, (marks + [calls])[i])
    {
      StatusStays(now, before, was, down, inps[i], order[i], listed, marks, calls, i);
    }
  }

  lemma StatusStays(now: RoleStatuses, before: RoleStatuses, was: RoleStatuses, down: set<string>, inp: Inputs,
                    role: Role, listed: seq<Pod>, marks: seq<seq<Call>>, calls: seq<Call>, i: nat)
    requires i < |marks| && StatusDone(before, was, down, inp, role, listed, marks[i])
    requires StatusOf(now, role) == StatusOf(before, role)
    ensures StatusDone(now, was, down, inp, role, listed, (marks + [calls])[i])
  {
    assert (marks + [calls])[i] == marks[i];
  }

  lemma StatusReached(now: RoleStatuses, before: RoleStatuses, was: RoleStatuses, down: set<string>, inp: Inputs,
                      role: Role, listed: seq<Pod>, marks: seq<seq<Call>>, calls: seq<Call>)
    requires 0 < |marks| && StatusDone(now, before, down, inp, role, listed, marks[|marks| - 1])
    requires StatusOf(before, role) == StatusOf(was, role)
    ensures StatusDone(now, was, down, inp, role, listed, (marks + [calls])[|marks| - 1])
  {
    assert (marks + [calls])[|marks| - 1] == marks[|marks| - 1];
  }

  predicate AllDone(store: E.Ledger, job: string, inps: seq<Inputs>, order: seq<Role>, listed: seq<Pod>,
                    marks: seq<seq<Call>>)
  {
    |inps| == |order| && forall i | 0 <= i < |order| :: RoleDone(store, job, inps[i], order, listed, marks, i)
  }

  lemma NoneDone(store: E.Ledger, job: string, roles: set<Role>, inps: seq<Inputs>, order: seq<Role>, listed: seq<Pod>,
                 calls: seq<Call>)
    requires |inps| == |order| && forall r <- order :: r in roles
    ensures AllDone(E.AllReset(store, E.KeysOf(job, roles)), job, inps, order, listed, [calls])
  {
    forall i | 0 <= i < |order|
      ensures RoleDone(E.AllReset(store, E.KeysOf(job, roles)), job, inps[i], order, listed, [calls], i)
    {
      assert order[i] in order;
      assert E.ExpectationKey(job, order[i], E.Pods) in E.KeysOf(job, roles);
    }
  }

  lemma OneMoreDone(before: E.Ledger, after: E.Ledger, job: string, inps: seq<Inputs>, order: seq<Role>,
                    listed: seq<Pod>, marks: seq<seq<Call>>, calls: seq<Call>)
    requires 0 < |marks| <= |order| && Distinct(order) && AllDone(before, job, inps, order, listed, marks)
    requires calls == Pass(inps[|marks| - 1], order[|marks| - 1], listed, marks[|marks| - 1]).calls
    requires E.Lookup(after, E.ExpectationKey(job, order[|marks| - 1], E.Pods))
          == E.Counts(NetCreations(calls) - NetCreations(marks[|marks| - 1]),
                      NetDeletions(calls) - NetDeletions(marks[|marks| - 1]))
    requires forall k :: k != E.ExpectationKey(job, order[|marks| - 1], E.Pods) ==>
               E.Lookup(after, k) == E.Lookup(before, k)
    ensures AllDone(after, job, inps, order, listed, marks + [calls])
  {
    var last := |marks| - 1;
    OwnBecomesDone(after, job, inps[last], order, listed, marks, calls);
    forall i | 0 <= i < |order| && i != last
      ensures RoleDone(after, job, inps[i], order, listed, marks + [calls], i)
    {
      OtherKeyStays(before, after, job, order[last], order[i]);
      OtherStaysDone(before, after, job, inps[i], order, listed, marks, calls, i);
    }
  }

  lemma OwnBecomesDone(after: E.Ledger, job: string, inp: Inputs, order: seq<Role>, listed: seq<Pod>,
                       marks: seq<seq<Call>>, calls: seq<Call>)
    requires 0 < |marks| <= |order|
    requires calls == Pass(inp, order[|marks| - 1], listed, marks[|marks| - 1]).calls
    requires E.Lookup(after, E.ExpectationKey(job, order[|marks| - 1], E.Pods))
          == E.Counts(NetCreations(calls) - NetCreations(marks[|marks| - 1]),
                      NetDeletions(calls) - NetDeletions(marks[|marks| - 1]))
    ensures RoleDone(after, job, inp, order, listed, marks + [calls], |marks| - 1)
  {
  }

  lemma OtherKeyStays(before: E.Ledger, after: E.Ledger, job: string, role: Role, other: Role)
    requires other != role
    requires forall k :: k != E.ExpectationKey(job, role, E.Pods) ==> E.Lookup(after, k) == E.Lookup(before, k)
    ensures E.Lookup(after, E.ExpectationKey(job, other, E.Pods))
         == E.Lookup(before, E.ExpectationKey(job, other, E.Pods))
  {
  }

  lemma OtherStaysDone(before: E.Ledger, after: E.Ledger, job: string, inp: Inputs, order: seq<Role>, listed: seq<Pod>,
                       marks: seq<seq<Call>>, calls: seq<Call>, i: nat)
    requires i < |order| && RoleDone(before, job, inp, order, listed, marks, i) && i != |marks| - 1
    requires E.Lookup(after, E.ExpectationKey(job, order[i], E.Pods))
          == E.Lookup(before, E.ExpectationKey(job, order[i], E.Pods))
    ensures RoleDone(after, job, inp, order, listed, marks + [calls], i)
  {
  }

  method FindFailed(alive: seq<Pod>) returns (found: Option<Pod>)
    ensures found == First(alive, HAS_FAILED)
  {
    for i := 0 to |alive|
      invariant First(alive, HAS_FAILED) == First(alive[i..], HAS_FAILED)
    {
      if alive[i].phase == PodFailed {
        return Some(alive[i]);
      }
    }
    found := None;
  }

  lemma LabelsSnoc(pods: seq<Pod>, p: Pod)
    ensures IndexLabels(pods + [p]) == IndexLabels(pods) + {GetReplicaIndex(p.labels)}
    ensures TerminatingLabels(pods + [p])
         == TerminatingLabels(pods) + if p.deleting then multiset{GetReplicaIndex(p.labels)} else multiset{}
  {
    assert (pods + [p])[..|pods|] == pods;
  }

  method CollectLabels(pods: seq<Pod>) returns (terminating: multiset<string>, indexSet: set<string>)
    ensures terminating == TerminatingLabels(pods) && indexSet == IndexLabels(pods)
  {
    terminating, indexSet := multiset{}, {};
    for i := 0 to |pods|
      invariant terminating == TerminatingLabels(pods[..i])
      invariant indexSet == IndexLabels(pods[..i])
    {
      assert pods[..i + 1] == pods[..i] + [pods[i]];
      LabelsSnoc(pods[..i], pods[i]);
      indexSet := indexSet + {GetReplicaIndex(pods[i].labels)};
      if pods[i].deleting {
        terminating := terminating + multiset{GetReplicaIndex(pods[i].labels)};
      }
    }
    assert pods[..|pods|] == pods;
  }

  method CollectMissing(indexSet: set<string>, expected: nat) returns (missing: seq<nat>)
    ensures missing == MissingIndices(indexSet, expected)
  {
    missing := [];
    for i := 0 to expected
      invariant missing == MissingIndices(indexSet, i)
    {
      if Itoa(i) in indexSet {
        continue;
      }
      missing := missing + [i];
    }
  }

  /** Once a pass has failed, the remaining buckets change nothing. */
  lemma {:induction false} ErrorEndsLoop(inp: Inputs, slices: seq<seq<Pod>>, j: nat, k: nat, start: Acc)
    requires j <= k <= |slices|
    ensures After(inp, slices, j, start).failed ==> After(inp, slices, k, start) == After(inp, slices, j, start)
  {
    if j < k {
      ErrorEndsLoop(inp, slices, j, k - 1, start);
    }
  }
}
