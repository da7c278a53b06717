/** One pass over the pods of a role, as a function of what it observed and of
    the answers it got.

    `Reconciler.ReconcilePods` runs this loop; here are its meaning and the
    facts that need the whole loop at once. */
module PodPass {
  import opened Decimal
  import opened Api
  import opened Pods
  import opened RolePhases

  /** How `CreateNewPod` ends.  `Unprepared` fails before the expectation is
      raised; `Refused` is a non-timeout API error, after which no pod exists;
      both are errors to the caller.  After `TimedOut` the pod may exist. */
  datatype CreateReply = Unprepared | Accepted | TimedOut | Refused

  predicate ReturnsNil(reply: CreateReply) {
    reply == Accepted || reply == TimedOut
  }

  datatype Reply = Reply(create: CreateReply, deleteOk: bool)

  datatype Call = CreateCall(index: nat, reply: CreateReply) | DeleteCall(pod: Pod, ok: bool)

  /** The answer to the n-th call ever made; any function will do. */
  type Script = nat -> Reply

  /** What a pass over a role depends on besides the pods: the role spec, the
      role phase it started from, which exit codes are retryable, and the
      answers of the API server. */
  datatype Inputs = Inputs(spec: RoleSpec, phase: RolePhase, retryable: int -> bool, script: Script)

  datatype Acc = Acc(calls: seq<Call>, validated: seq<Pod>, creations: nat, deletions: nat, failed: bool)

  /** The exit code of the first terminated container, or the original's magic
      number. */
  function PodExitCode(exitCodes: seq<Option<int>>): int {
    if exitCodes == [] then 0xbeef
    else if exitCodes[0].Some? then exitCodes[0].value
    else PodExitCode(exitCodes[1..])
  }

  predicate IsRetryable(restart: RestartPolicy, retryable: int -> bool, p: Pod) {
    || restart == Always
    || restart == OnFailure
    || (restart == ExitCode && retryable(PodExitCode(p.exitCodes)))
  }

  /** The pods the loop sorts into buckets, and the ones counted without it. */
  function Reconciling(restart: RestartPolicy, pods: seq<Pod>): seq<Pod> {
    if restart == Never then pods else Filter(pods, ALIVE)
  }

  function Uncontrolled(restart: RestartPolicy, pods: seq<Pod>): seq<Pod> {
    if restart == Never then [] else Filter(pods, TERMINATING)
  }

  function Start(calls: seq<Call>, validated: seq<Pod>): Acc {
    Acc(calls, validated, 0, 0, false)
  }

  function Create(script: Script, acc: Acc, index: nat): Acc {
    var reply := script(|acc.calls|).create;
    var after := acc.(calls := acc.calls + [CreateCall(index, reply)]);
    if ReturnsNil(reply) then after.(creations := acc.creations + 1) else after.(failed := true)
  }

  function Delete(script: Script, acc: Acc, p: Pod): Acc {
    var ok := script(|acc.calls|).deleteOk;
    var after := acc.(calls := acc.calls + [DeleteCall(p, ok)]);
    if ok then after.(deletions := acc.deletions + 1) else after.(failed := true)
  }

  predicate MustRestart(inp: Inputs, p: Pod) {
    p.phase == PodFailed && IsRetryable(inp.spec.restart, inp.retryable, p)
  }

  /** The body of the bucket loop. */
  function Process(inp: Inputs, acc: Acc, k: nat, bucket: seq<Pod>): Acc {
    if |bucket| > 1 then acc
    else if |bucket| == 0 then
      if inp.spec.restart == Never && IsRoleStarted(inp.phase) then acc else Create(inp.script, acc, k)
    else
      var p := bucket[0];
      var kept := if k >= inp.spec.replicas then Delete(inp.script, acc, p) else acc;
      if kept.failed then kept
      else if MustRestart(inp, p) then Delete(inp.script, kept, p)
      else kept.(validated := kept.validated + [p])
  }

  /** The loop after its first `k` buckets; an error ends it. */
  function After(inp: Inputs, slices: seq<seq<Pod>>, k: nat, start: Acc): Acc
    requires k <= |slices|
  {
    if k == 0 then start
    else
      var acc := After(inp, slices, k - 1, start);
      if acc.failed then acc else Process(inp, acc, k - 1, slices[k - 1])
  }

  function RoleSlices(spec: RoleSpec, role: Role, listed: seq<Pod>): (slices: seq<seq<Pod>>)
    ensures |slices| >= spec.replicas
  {
    PodSlices(Reconciling(spec.restart, Filter(listed, OfRole(role))), spec.replicas)
  }

  function RoleUncontrolled(spec: RoleSpec, role: Role, listed: seq<Pod>): seq<Pod> {
    Uncontrolled(spec.restart, Filter(listed, OfRole(role)))
  }

  /** The whole loop of `ReconcilePods`. */
  function Pass(inp: Inputs, role: Role, listed: seq<Pod>, calls: seq<Call>): Acc {
    var slices := RoleSlices(inp.spec, role, listed);
    After(inp, slices, |slices|, Start(calls, RoleUncontrolled(inp.spec, role, listed)))
  }

  // ----- Accounting -----

  function NetCreations(calls: seq<Call>): nat {
    if calls == [] then 0
    else
      var last := calls[|calls| - 1];
      NetCreations(calls[..|calls| - 1]) + if last.CreateCall? && ReturnsNil(last.reply) then 1 else 0
  }

  function NetDeletions(calls: seq<Call>): nat {
    if calls == [] then 0
    else
      var last := calls[|calls| - 1];
      NetDeletions(calls[..|calls| - 1]) + if last.DeleteCall? && last.ok then 1 else 0
  }

  lemma NetAfterCall(calls: seq<Call>, call: Call)
    ensures NetCreations(calls + [call])
         == NetCreations(calls) + if call.CreateCall? && ReturnsNil(call.reply) then 1 else 0
    ensures NetDeletions(calls + [call]) == NetDeletions(calls) + if call.DeleteCall? && call.ok then 1 else 0
  {
    assert (calls + [call])[..|calls|] == calls;
  }

  /** From `a` to `b`, counts and answered calls grew alike. */
  predicate Accounted(a: Acc, b: Acc) {
    && a.calls <= b.calls
    && b.creations - a.creations == NetCreations(b.calls) - NetCreations(a.calls) >= 0
    && b.deletions - a.deletions == NetDeletions(b.calls) - NetDeletions(a.calls) >= 0
  }

  lemma CreateAccounts(script: Script, acc: Acc, k: nat)
    ensures Accounted(acc, Create(script, acc, k))
  {
    NetAfterCall(acc.calls, CreateCall(k, script(|acc.calls|).create));
  }

  lemma DeleteAccounts(script: Script, acc: Acc, p: Pod)
    ensures Accounted(acc, Delete(script, acc, p))
  {
    NetAfterCall(acc.calls, DeleteCall(p, script(|acc.calls|).deleteOk));
  }

  lemma AccountedChain(a: Acc, b: Acc, c: Acc)
    requires Accounted(a, b) && Accounted(b, c)
    ensures Accounted(a, c)
  {
  }

  lemma ProcessAccounts(inp: Inputs, acc: Acc, k: nat, bucket: seq<Pod>)
    ensures Accounted(acc, Process(inp, acc, k, bucket))
  {
    if |bucket| == 1 {
      var p := bucket[0];
      var kept := if k >= inp.spec.replicas then Delete(inp.script, acc, p) else acc;
      DeleteAccounts(inp.script, acc, p);
      DeleteAccounts(inp.script, kept, p);
      AccountedChain(acc, kept, if kept.failed then kept else Delete(inp.script, kept, p));
    } else {
      CreateAccounts(inp.script, acc, k);
    }
  }

  /** On every path through the loop, errors included, the creations counted
      are the `CreateNewPod` calls that returned nil and the deletions counted
      are the `DeletePod` calls that succeeded. */
  lemma {:induction false} PassAccounts(inp: Inputs, slices: seq<seq<Pod>>, k: nat, start: Acc)
    requires k <= |slices|
    ensures Accounted(start, After(inp, slices, k, start))
  {
    if k > 0 {
      PassAccounts(inp, slices, k - 1, start);
      ProcessAccounts(inp, After(inp, slices, k - 1, start), k - 1, slices[k - 1]);
    }
  }

  lemma PassNets(inp: Inputs, role: Role, listed: seq<Pod>, calls: seq<Call>)
    ensures var acc := Pass(inp, role, listed, calls);
            && acc.creations == NetCreations(acc.calls) - NetCreations(calls)
            && acc.deletions == NetDeletions(acc.calls) - NetDeletions(calls)
  {
    var slices := RoleSlices(inp.spec, role, listed);
    PassAccounts(inp, slices, |slices|, Start(calls, RoleUncontrolled(inp.spec, role, listed)));
  }

  // ----- Passes that issue nothing -----

  /** The condition under which a pass goes on to recompute the role phase. */
  predicate Quiet(acc: Acc) {
    !acc.failed && acc.creations == 0 && acc.deletions == 0
  }

  /** The pods alone in their bucket, among the first `k` buckets. */
  function Singles(slices: seq<seq<Pod>>, k: nat): seq<Pod>
    requires k <= |slices|
  {
    if k == 0 then []
    else Singles(slices, k - 1) + if |slices[k - 1]| == 1 then slices[k - 1] else []
  }

  /** What a bucket must look like for the loop to pass over it quietly. */
  predicate QuietBucket(inp: Inputs, k: nat, bucket: seq<Pod>) {
    || |bucket| > 1
    || (|bucket| == 0 && inp.spec.restart == Never && IsRoleStarted(inp.phase))
    || (|bucket| == 1 && k < inp.spec.replicas && !MustRestart(inp, bucket[0]))
  }

  /** A pass is quiet exactly when every bucket is, whatever the API would have
      answered; it has then made no call, and the pods it counts are the
      uncontrolled ones and the ones alone in their bucket. */
  lemma {:induction false} QuietPass(inp: Inputs, slices: seq<seq<Pod>>, k: nat, start: Acc)
    requires k <= |slices| && Quiet(start)
    ensures var acc := After(inp, slices, k, start);
            && (Quiet(acc) <==> forall j: nat | j < k :: QuietBucket(inp, j, slices[j]))
            && (Quiet(acc) ==> acc.calls == start.calls && acc.validated == start.validated + Singles(slices, k))
  {
    if k > 0 {
      QuietPass(inp, slices, k - 1, start);
      var acc := After(inp, slices, k - 1, start);
      ProcessAccounts(inp, acc, k - 1, slices[k - 1]);
    }
  }

  /** The bucket holds one pod, and that pod adds to the given counter. */
  predicate HoldsOneIn(policy: RolePhasePolicy, down: set<string>, bucket: seq<Pod>, slot: Slot) {
    |bucket| == 1 && SlotOf(policy, down, bucket[0]) == slot
  }

  /** The number of such buckets among the first `k`. */
  function Holding(policy: RolePhasePolicy, down: set<string>, slices: seq<seq<Pod>>, k: nat, slot: Slot): nat
    requires k <= |slices|
  {
    if k == 0 then 0
    else Holding(policy, down, slices, k - 1, slot) + if HoldsOneIn(policy, down, slices[k - 1], slot) then 1 else 0
  }

  lemma {:induction false} NumberIsHolding(policy: RolePhasePolicy, down: set<string>,
                                           slices: seq<seq<Pod>>, k: nat, slot: Slot)
    requires k <= |slices|
    ensures Number(policy, down, Singles(slices, k), slot) == Holding(policy, down, slices, k, slot)
    ensures |Singles(slices, k)| <= k
  {
    if k > 0 {
      NumberIsHolding(policy, down, slices, k - 1, slot);
      var front := Singles(slices, k - 1);
      if |slices[k - 1]| == 1 {
        NumberSnoc(policy, down, front, slices[k - 1][0], slot);
        assert front + slices[k - 1] == front + [slices[k - 1][0]];
      } else {
        assert front + [] == front;
      }
    }
  }

  /** Pigeonhole over the buckets: at most `k` of `k` buckets hold one pod in a
      given state, and `k` of them do exactly when all do. */
  lemma {:induction false} HoldingPigeonhole(policy: RolePhasePolicy, down: set<string>,
                                             slices: seq<seq<Pod>>, k: nat, slot: Slot)
    requires k <= |slices|
    ensures Holding(policy, down, slices, k, slot) <= k
    ensures Holding(policy, down, slices, k, slot) == k
            <==> forall j: nat | j < k :: HoldsOneIn(policy, down, slices[j], slot)
  {
    if k > 0 {
      HoldingPigeonhole(policy, down, slices, k - 1, slot);
    }
  }

  /** Buckets past the replicas hold no counted pod when the pass is quiet. */
  lemma {:induction false} SinglesStopAtReplicas(slices: seq<seq<Pod>>, replicas: nat, k: nat)
    requires replicas <= k <= |slices|
    requires forall j: nat | replicas <= j < k :: |slices[j]| != 1
    ensures Singles(slices, k) == Singles(slices, replicas)
  {
    if k > replicas {
      SinglesStopAtReplicas(slices, replicas, k - 1);
    }
  }

  lemma {:induction false} NumberAppend(policy: RolePhasePolicy, down: set<string>, a: seq<Pod>, b: seq<Pod>,
                                        slot: Slot)
    ensures Number(policy, down, a + b, slot) == Number(policy, down, a, slot) + Number(policy, down, b, slot)
  {
    if b == [] {
      assert a + b == a;
    } else {
      NumberAppend(policy, down, a, b[..|b| - 1], slot);
      assert (a + b)[..|a + b| - 1] == a + b[..|b| - 1];
    }
  }

  lemma NumberOfTerminating(policy: RolePhasePolicy, down: set<string>, pods: seq<Pod>, slot: Slot)
    requires forall p <- pods :: p.deleting
    requires slot != AsTerminating
    ensures Number(policy, down, pods, slot) == 0
  {
    NumberPositive(policy, down, pods, slot);
  }

  lemma {:induction false} AllTerminating(policy: RolePhasePolicy, down: set<string>, pods: seq<Pod>)
    requires forall p <- pods :: p.deleting
    ensures Number(policy, down, pods, AsTerminating) == |pods|
  {
    if pods != [] {
      AllTerminating(policy, down, pods[..|pods| - 1]);
    }
  }

  /** The pods a quiet pass counts. */
  lemma QuietPassCounts(inp: Inputs, role: Role, listed: seq<Pod>, calls: seq<Call>)
    requires Quiet(Pass(inp, role, listed, calls))
    ensures Pass(inp, role, listed, calls).validated
         == RoleUncontrolled(inp.spec, role, listed) + Singles(RoleSlices(inp.spec, role, listed), inp.spec.replicas)
    ensures Pass(inp, role, listed, calls).calls == calls
  {
    var slices := RoleSlices(inp.spec, role, listed);
    QuietPass(inp, slices, |slices|, Start(calls, RoleUncontrolled(inp.spec, role, listed)));
    SinglesStopAtReplicas(slices, inp.spec.replicas, |slices|);
  }

  /** When the phase is recomputed, the counted pods fit the replicas, and a
      counter other than `terminating` reaches the replicas exactly when every
      index below them holds exactly one counted pod, and that pod is in the
      counter's state. */
  lemma CountersMeanIndices(inp: Inputs, role: Role, listed: seq<Pod>, calls: seq<Call>, down: set<string>, slot: Slot)
    requires Quiet(Pass(inp, role, listed, calls))
    requires slot != AsTerminating
    ensures var validated := Pass(inp, role, listed, calls).validated;
            var slices := RoleSlices(inp.spec, role, listed);
            && Actual(Count(inp.spec.policy, down, validated)) <= inp.spec.replicas
            && (Number(inp.spec.policy, down, validated, slot) >= inp.spec.replicas
                <==> forall i: nat | i < inp.spec.replicas :: HoldsOneIn(inp.spec.policy, down, slices[i], slot))
  {
    QuietPassCounts(inp, role, listed, calls);
    var policy, slices := inp.spec.policy, RoleSlices(inp.spec, role, listed);
    var uncontrolled, singles := RoleUncontrolled(inp.spec, role, listed), Singles(slices, inp.spec.replicas);
    NumberIsHolding(policy, down, slices, inp.spec.replicas, slot);
    HoldingPigeonhole(policy, down, slices, inp.spec.replicas, slot);
    NumberAppend(policy, down, uncontrolled, singles, slot);
    NumberOfTerminating(policy, down, uncontrolled, slot);
    CountersAddUp(policy, down, uncontrolled + singles);
    NumberAppend(policy, down, uncontrolled, singles, AsTerminating);
    AllTerminating(policy, down, uncontrolled);
  }

  /** The phase `UpdateRolePhase` would compute after the pass. */
  function PhaseAfter(spec: RoleSpec, acc: Acc, down: set<string>, last: RolePhase): RolePhase {
    if Quiet(acc) then GetRolePhase(spec, Count(spec.policy, down, acc.validated), last) else last
  }

  /** Exactly one pod, running, not terminating, and not on a down node that
      the policy takes for a failure. */
  predicate HoldsRunning(policy: RolePhasePolicy, down: set<string>, bucket: seq<Pod>) {
    && |bucket| == 1 && bucket[0].phase == PodRunning && !bucket[0].deleting
    && !OnNodeDown(policy, down, bucket[0])
  }

  predicate HoldsSucceeded(bucket: seq<Pod>) {
    |bucket| == 1 && bucket[0].phase == PodSucceeded && !bucket[0].deleting
  }

  /** A role moves into Running only when every index below its replicas holds
      exactly one pod, running, not terminating, and not on a down node that
      the policy takes for a failure. */
  lemma RunningMeansAllRun(inp: Inputs, role: Role, listed: seq<Pod>, calls: seq<Call>, down: set<string>)
    requires inp.phase != Running
    requires PhaseAfter(inp.spec, Pass(inp, role, listed, calls), down, inp.phase) == Running
    ensures forall i: nat | i < inp.spec.replicas ::
              HoldsRunning(inp.spec.policy, down, RoleSlices(inp.spec, role, listed)[i])
  {
    var slices := RoleSlices(inp.spec, role, listed);
    CountersMeanIndices(inp, role, listed, calls, down, AsActive);
    forall i: nat | i < inp.spec.replicas
      ensures HoldsOneIn(inp.spec.policy, down, slices[i], AsActive) && HoldsRunning(inp.spec.policy, down, slices[i])
    {
      SlotSaysState(inp.spec.policy, down, slices[i]);
    }
  }

  lemma SlotSaysState(policy: RolePhasePolicy, down: set<string>, bucket: seq<Pod>)
    ensures HoldsOneIn(policy, down, bucket, AsActive) ==> HoldsRunning(policy, down, bucket)
    ensures HoldsOneIn(policy, down, bucket, AsSucceeded) ==> HoldsSucceeded(bucket)
  {
  }

  /** A role whose policy asks all pods to succeed moves into Succeeded only
      when every index below its replicas holds exactly one succeeded pod. */
  lemma SucceededMeansAllSucceeded(inp: Inputs, role: Role, listed: seq<Pod>, calls: seq<Call>, down: set<string>)
    requires inp.phase != Succeeded && inp.spec.policy.succeeded == Some(AllPods)
    requires PhaseAfter(inp.spec, Pass(inp, role, listed, calls), down, inp.phase) == Succeeded
    ensures forall i: nat | i < inp.spec.replicas :: HoldsSucceeded(RoleSlices(inp.spec, role, listed)[i])
  {
    var slices := RoleSlices(inp.spec, role, listed);
    CountersMeanIndices(inp, role, listed, calls, down, AsSucceeded);
    forall i: nat | i < inp.spec.replicas
      ensures HoldsOneIn(inp.spec.policy, down, slices[i], AsSucceeded) && HoldsSucceeded(slices[i])
    {
      SlotSaysState(inp.spec.policy, down, slices[i]);
    }
  }

  // ----- Restarting roles -----

  lemma {:induction false} RestartedPodsAreNotCounted(inp: Inputs, slices: seq<seq<Pod>>, k: nat, start: Acc)
    requires k <= |slices|
    requires inp.spec.restart == Always || inp.spec.restart == OnFailure
    requires forall p <- start.validated :: p.deleting || p.phase != PodFailed
    ensures forall p <- After(inp, slices, k, start).validated :: p.deleting || p.phase != PodFailed
  {
    if k > 0 {
      RestartedPodsAreNotCounted(inp, slices, k - 1, start);
    }
  }

  lemma NoneFailed(policy: RolePhasePolicy, down: set<string>, pods: seq<Pod>)
    requires !policy.nodeDownAsFailed
    requires forall p <- pods :: p.deleting || p.phase != PodFailed
    ensures Number(policy, down, pods, AsFailed) == 0
  {
    NumberPositive(policy, down, pods, AsFailed);
  }

  /** No pod of a restarting role is ever counted as failed. */
  lemma RestartingRoleCountsNoFailure(inp: Inputs, role: Role, listed: seq<Pod>, calls: seq<Call>, down: set<string>)
    requires inp.spec.restart == Always || inp.spec.restart == OnFailure
    requires !inp.spec.policy.nodeDownAsFailed
    ensures Number(inp.spec.policy, down, Pass(inp, role, listed, calls).validated, AsFailed) == 0
  {
    var slices := RoleSlices(inp.spec, role, listed);
    RestartedPodsAreNotCounted(inp, slices, |slices|, Start(calls, RoleUncontrolled(inp.spec, role, listed)));
    NoneFailed(inp.spec.policy, down, Pass(inp, role, listed, calls).validated);
  }

  lemma NoFailureCounted(spec: RoleSpec, c: Counters, last: RolePhase)
    requires c.failed == 0 && spec.restart != Never && spec.replicas > 0 && last != Failed
    ensures GetRolePhase(spec, c, last) != Failed
  {
  }

  /** A role that restarts its pods and does not take node failures for its
      own never enters Failed, whatever its failure policy says. */
  lemma RestartingRoleNeverFails(inp: Inputs, role: Role, listed: seq<Pod>, calls: seq<Call>, down: set<string>)
    requires inp.spec.restart == Always || inp.spec.restart == OnFailure
    requires !inp.spec.policy.nodeDownAsFailed && inp.spec.replicas > 0
    requires inp.phase != Failed
    ensures PhaseAfter(inp.spec, Pass(inp, role, listed, calls), down, inp.phase) != Failed
  {
    var acc := Pass(inp, role, listed, calls);
    RestartingRoleCountsNoFailure(inp, role, listed, calls, down);
    NoFailureCounted(inp.spec, Count(inp.spec.policy, down, acc.validated), inp.phase);
  }

  // ----- The lost-pod reason in terms of buckets -----

  predicate Canonical(labels: Labels) {
    PodIndex(labels).Some? && PodIndex(labels).value >= 0 ==> GetReplicaIndex(labels) == Itoa(PodIndex(labels).value)
  }

  lemma {:induction false} SinglesMembers(slices: seq<seq<Pod>>, k: nat)
    requires k <= |slices|
    ensures forall p :: p in Singles(slices, k) <==> exists j: nat | j < k :: slices[j] == [p]
  {
    if k > 0 {
      SinglesMembers(slices, k - 1);
      assert |slices[k - 1]| == 1 ==> slices[k - 1] == [slices[k - 1][0]];
    }
  }

  lemma NumeralPlaces(pods: seq<Pod>, replicas: Replicas, i: nat, j: nat, p: Pod)
    requires i < replicas && j < replicas
    requires PodSlices(pods, replicas)[j] == [p] && GetReplicaIndex(p.labels) == Itoa(i)
    ensures i == j
  {
    AtoiOfItoa(i);
    assert p in PodSlices(pods, replicas)[j];
  }

  /** Among pods with printed labels, the numeral of an index is on a pod alone
      in its bucket exactly when that bucket holds one pod. */
  lemma NumeralOnSingle(pods: seq<Pod>, replicas: Replicas, i: nat)
    requires i < replicas
    requires forall p <- pods :: Canonical(p.labels)
    ensures (exists p <- Singles(PodSlices(pods, replicas), replicas) :: GetReplicaIndex(p.labels) == Itoa(i))
            <==> |PodSlices(pods, replicas)[i]| == 1
  {
    var slices := PodSlices(pods, replicas);
    SinglesMembers(slices, replicas);
    if |slices[i]| == 1 {
      assert slices[i] == [slices[i][0]] && slices[i][0] in slices[i];
    }
    forall p | p in Singles(slices, replicas) && GetReplicaIndex(p.labels) == Itoa(i)
      ensures |slices[i]| == 1
    {
      var j: nat :| j < replicas && slices[j] == [p];
      NumeralPlaces(pods, replicas, i, j, p);
    }
  }

  /** With labels the controller printed, the indices a lost-pod reason names
      are exactly those below the replicas whose bucket does not hold one pod:
      it is empty, or it is crowded and so was not counted. */
  lemma MissingMeansNoSinglePod(inp: Inputs, role: Role, listed: seq<Pod>, calls: seq<Call>, down: set<string>, i: nat)
    requires Quiet(Pass(inp, role, listed, calls))
    requires forall p <- listed :: Canonical(p.labels)
    requires ExtractFailedReason(down, Pass(inp, role, listed, calls).validated, inp.spec.replicas).MissingReason?
    ensures i in ExtractFailedReason(down, Pass(inp, role, listed, calls).validated, inp.spec.replicas).missing
            <==> i < inp.spec.replicas && |RoleSlices(inp.spec, role, listed)[i]| != 1
  {
    var validated := Pass(inp, role, listed, calls).validated;
    QuietPassCounts(inp, role, listed, calls);
    RecordedReasonIsTruthful(down, validated, inp.spec.replicas);
    var uncontrolled := RoleUncontrolled(inp.spec, role, listed);
    assert forall p <- Filter(listed, OfRole(role)) :: p.deleting ==> inp.spec.restart == Never || p in validated;
    assert validated == Singles(RoleSlices(inp.spec, role, listed), inp.spec.replicas);
    if i < inp.spec.replicas {
      NumeralOnSingle(Reconciling(inp.spec.restart, Filter(listed, OfRole(role))), inp.spec.replicas, i);
    }
  }
}
