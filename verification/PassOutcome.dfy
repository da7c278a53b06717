/** What a pass decides about each pod and each index, and what the role phase
    comes to, in terms of the listed pods. */
module PassOutcome {
  import opened Decimal
  import opened Api
  import opened Pods
  import opened RolePhases
  import opened PodPass

  // ----- Exit codes -----

  /** The code of the first container that has terminated, or 0xbeef if none has. */
  ghost predicate ExitsWith(p: Pod, code: int) {
    || (code == 0xbeef && forall j | 0 <= j < |p.exitCodes| :: p.exitCodes[j].None?)
    || exists k :: IsFirstExit(p.exitCodes, k) && p.exitCodes[k].value == code
  }

  predicate IsFirstExit(exitCodes: seq<Option<int>>, k: int) {
    0 <= k < |exitCodes| && exitCodes[k].Some? && forall j | 0 <= j < k :: exitCodes[j].None?
  }

  lemma {:induction false} PodExitCodeIsFirst(exitCodes: seq<Option<int>>, k: int)
    requires IsFirstExit(exitCodes, k)
    ensures PodExitCode(exitCodes) == exitCodes[k].value
  {
    if k > 0 {
      PodExitCodeIsFirst(exitCodes[1..], k - 1);
    }
  }

  lemma {:induction false} NoExitIsMagic(exitCodes: seq<Option<int>>)
    requires forall j | 0 <= j < |exitCodes| :: exitCodes[j].None?
    ensures PodExitCode(exitCodes) == 0xbeef
  {
    if exitCodes != [] {
      NoExitIsMagic(exitCodes[1..]);
    }
  }

  lemma {:induction false} SomeExitIsFirst(exitCodes: seq<Option<int>>, i: nat) returns (k: nat)
    requires i < |exitCodes| && exitCodes[i].Some?
    ensures IsFirstExit(exitCodes, k)
  {
    k := i;
    if j :| 0 <= j < i && exitCodes[j].Some? {
      k := SomeExitIsFirst(exitCodes, j);
    }
  }

  lemma ExitsWithExactlyOne(p: Pod)
    ensures forall code :: ExitsWith(p, code) <==> code == PodExitCode(p.exitCodes)
  {
    if i: nat :| i < |p.exitCodes| && p.exitCodes[i].Some? {
      var k := SomeExitIsFirst(p.exitCodes, i);
      forall j | IsFirstExit(p.exitCodes, j) ensures PodExitCode(p.exitCodes) == p.exitCodes[j].value {
        PodExitCodeIsFirst(p.exitCodes, j);
      }
    } else {
      NoExitIsMagic(p.exitCodes);
    }
  }

  /** A failed pod is restarted under Always and OnFailure, and under ExitCode
      if its code is retryable. */
  ghost predicate Restarts(inp: Inputs, p: Pod) {
    && p.phase == PodFailed
    && (|| inp.spec.restart == Always || inp.spec.restart == OnFailure
        || (inp.spec.restart == ExitCode && exists code :: ExitsWith(p, code) && inp.retryable(code)))
  }

  lemma RestartsExactly(inp: Inputs, p: Pod)
    ensures MustRestart(inp, p) <==> Restarts(inp, p)
  {
    ExitsWithExactlyOne(p);
    assert ExitsWith(p, PodExitCode(p.exitCodes));
  }

  // ----- One bucket -----

  predicate Creates(calls: seq<Call>, i: nat) {
    exists c <- calls :: c.CreateCall? && c.index == i
  }

  predicate Deletes(calls: seq<Call>, p: Pod) {
    exists c <- calls :: c.DeleteCall? && c.pod == p
  }

  /** An empty bucket is to be filled, unless the role never restarts its pods
      and has once run or finished. */
  predicate ToFill(inp: Inputs, bucket: seq<Pod>) {
    && bucket == []
    && !(inp.spec.restart == Never && (inp.phase == Running || inp.phase == RolePhase.Failed
                                       || inp.phase == RolePhase.Succeeded))
  }

  /** A pod alone in its bucket is to be deleted. */
  ghost predicate ToDelete(inp: Inputs, k: nat, bucket: seq<Pod>, p: Pod) {
    bucket == [p] && (k >= inp.spec.replicas || Restarts(inp, p))
  }

  ghost predicate ToCount(inp: Inputs, bucket: seq<Pod>, p: Pod) {
    bucket == [p] && !Restarts(inp, p)
  }

  lemma OneMoreCall(calls: seq<Call>, c: Call)
    ensures forall i :: Creates(calls + [c], i) <==> Creates(calls, i) || (c.CreateCall? && c.index == i)
    ensures forall p :: Deletes(calls + [c], p) <==> Deletes(calls, p) || (c.DeleteCall? && c.pod == p)
  {
    assert c in calls + [c];
    forall d | d in calls ensures d in calls + [c] {
    }
  }

  lemma DeleteCalls(script: Script, acc: Acc, p: Pod)
    ensures forall i :: Creates(Delete(script, acc, p).calls, i) <==> Creates(acc.calls, i)
    ensures forall q :: Deletes(Delete(script, acc, p).calls, q) <==> Deletes(acc.calls, q) || q == p
  {
    OneMoreCall(acc.calls, DeleteCall(p, script(|acc.calls|).deleteOk));
  }

  lemma CreateCalls(script: Script, acc: Acc, k: nat)
    ensures forall i :: Creates(Create(script, acc, k).calls, i) <==> Creates(acc.calls, i) || i == k
    ensures forall q :: Deletes(Create(script, acc, k).calls, q) <==> Deletes(acc.calls, q)
  {
    OneMoreCall(acc.calls, CreateCall(k, script(|acc.calls|).create));
  }

  lemma BucketCreates(inp: Inputs, acc: Acc, k: nat, bucket: seq<Pod>, i: nat)
    requires !acc.failed && !Process(inp, acc, k, bucket).failed
    ensures Creates(Process(inp, acc, k, bucket).calls, i) <==> Creates(acc.calls, i) || (i == k && ToFill(inp, bucket))
  {
    if bucket == [] {
      CreateCalls(inp.script, acc, k);
    } else if |bucket| == 1 {
      var kept := if k >= inp.spec.replicas then Delete(inp.script, acc, bucket[0]) else acc;
      DeleteCalls(inp.script, acc, bucket[0]);
      DeleteCalls(inp.script, kept, bucket[0]);
    }
  }

  lemma BucketDeletes(inp: Inputs, acc: Acc, k: nat, bucket: seq<Pod>, p: Pod)
    requires !acc.failed && !Process(inp, acc, k, bucket).failed
    ensures Deletes(Process(inp, acc, k, bucket).calls, p) <==> Deletes(acc.calls, p) || ToDelete(inp, k, bucket, p)
  {
    if bucket == [] {
      CreateCalls(inp.script, acc, k);
    } else if |bucket| == 1 {
      var kept := if k >= inp.spec.replicas then Delete(inp.script, acc, bucket[0]) else acc;
      DeleteCalls(inp.script, acc, bucket[0]);
      DeleteCalls(inp.script, kept, bucket[0]);
      RestartsExactly(inp, bucket[0]);
      assert bucket == [p] <==> bucket[0] == p;
    }
  }

  lemma BucketCounts(inp: Inputs, acc: Acc, k: nat, bucket: seq<Pod>, p: Pod)
    requires !acc.failed && !Process(inp, acc, k, bucket).failed
    ensures p in Process(inp, acc, k, bucket).validated <==> p in acc.validated || ToCount(inp, bucket, p)
  {
    if |bucket| == 1 {
      RestartsExactly(inp, bucket[0]);
      assert bucket == [p] <==> bucket[0] == p;
    }
  }

  // ----- The whole loop -----

  lemma {:induction false} LoopCreates(inp: Inputs, slices: seq<seq<Pod>>, k: nat, start: Acc, i: nat)
    requires k <= |slices| && !After(inp, slices, k, start).failed
    ensures Creates(After(inp, slices, k, start).calls, i)
            <==> Creates(start.calls, i) || (i < k && ToFill(inp, slices[i]))
  {
    if k > 0 {
      LoopCreates(inp, slices, k - 1, start, i);
      BucketCreates(inp, After(inp, slices, k - 1, start), k - 1, slices[k - 1], i);
    }
  }

  lemma {:induction false} LoopDeletes(inp: Inputs, slices: seq<seq<Pod>>, k: nat, start: Acc, p: Pod)
    requires k <= |slices| && !After(inp, slices, k, start).failed
    ensures Deletes(After(inp, slices, k, start).calls, p)
            <==> Deletes(start.calls, p) || exists i: nat :: i < k && ToDelete(inp, i, slices[i], p)
  {
    if k > 0 {
      LoopDeletes(inp, slices, k - 1, start, p);
      BucketDeletes(inp, After(inp, slices, k - 1, start), k - 1, slices[k - 1], p);
    }
  }

  lemma {:induction false} LoopCounts(inp: Inputs, slices: seq<seq<Pod>>, k: nat, start: Acc, p: Pod)
    requires k <= |slices| && !After(inp, slices, k, start).failed
    ensures p in After(inp, slices, k, start).validated
            <==> p in start.validated || exists i: nat :: i < k && ToCount(inp, slices[i], p)
  {
    if k > 0 {
      LoopCounts(inp, slices, k - 1, start, p);
      BucketCounts(inp, After(inp, slices, k - 1, start), k - 1, slices[k - 1], p);
    }
  }

  // ----- The pods of a pass -----

  /** Either of the two role labels puts a pod in a role. */
  predicate InRole(p: Pod, role: Role) {
    || (ReplicaTypeLabel in p.labels && p.labels[ReplicaTypeLabel] == role)
    || (DeprecatedTypeLabel in p.labels && p.labels[DeprecatedTypeLabel] == role)
  }

  /** The pods a pass sorts into buckets: all of the role if it never restarts
      them, else the living ones. */
  predicate IsSorted(restart: RestartPolicy, role: Role, listed: seq<Pod>, p: Pod) {
    p in listed && InRole(p, role) && (restart == Never || !p.deleting)
  }

  /** What is in which bucket; there is a bucket for each index below the
      replicas and for each index a sorted pod has. */
  lemma BucketsHold(spec: RoleSpec, role: Role, listed: seq<Pod>, p: Pod)
    ensures var slices := RoleSlices(spec, role, listed);
            && |slices| >= spec.replicas
            && (forall i: nat | i < |slices| ::
                  p in slices[i] <==> IsSorted(spec.restart, role, listed, p) && PodIndex(p.labels) == Some(i))
            && (IsSorted(spec.restart, role, listed, p) && PodIndex(p.labels).Some? ==>
                  PodIndex(p.labels).value < |slices|)
  {
  }

  /** The pod is the only one at its index. */
  ghost predicate AloneAt(spec: RoleSpec, role: Role, listed: seq<Pod>, p: Pod, i: nat) {
    i < |RoleSlices(spec, role, listed)| && RoleSlices(spec, role, listed)[i] == [p]
  }

  /** A pass without an error fills an index exactly if no sorted pod is there
      and the role may still get pods. */
  lemma PassCreates(inp: Inputs, role: Role, listed: seq<Pod>, i: nat)
    requires !Pass(inp, role, listed, []).failed
    ensures Creates(Pass(inp, role, listed, []).calls, i)
            <==> i < |RoleSlices(inp.spec, role, listed)| && ToFill(inp, RoleSlices(inp.spec, role, listed)[i])
  {
    var slices := RoleSlices(inp.spec, role, listed);
    LoopCreates(inp, slices, |slices|, Start([], RoleUncontrolled(inp.spec, role, listed)), i);
  }

  /** It deletes a pod exactly if it is alone at its index, and is past the
      replicas or to be restarted. */
  lemma PassDeletes(inp: Inputs, role: Role, listed: seq<Pod>, p: Pod)
    requires !Pass(inp, role, listed, []).failed
    ensures Deletes(Pass(inp, role, listed, []).calls, p)
            <==> exists k: nat :: AloneAt(inp.spec, role, listed, p, k)
                                  && (k >= inp.spec.replicas || Restarts(inp, p))
  {
    var slices := RoleSlices(inp.spec, role, listed);
    LoopDeletes(inp, slices, |slices|, Start([], RoleUncontrolled(inp.spec, role, listed)), p);
    DeletedIsAlone(inp, role, listed, p);
  }

  /** And it counts a pod exactly if it is alone at its index and not to be
      restarted, or is terminating in a role that restarts its pods. */
  lemma PassCounts(inp: Inputs, role: Role, listed: seq<Pod>, p: Pod)
    requires !Pass(inp, role, listed, []).failed
    ensures p in Pass(inp, role, listed, []).validated
            <==> || (inp.spec.restart != Never && p in listed && InRole(p, role) && p.deleting)
                 || (!Restarts(inp, p) && exists k: nat :: AloneAt(inp.spec, role, listed, p, k))
  {
    var slices := RoleSlices(inp.spec, role, listed);
    LoopCounts(inp, slices, |slices|, Start([], RoleUncontrolled(inp.spec, role, listed)), p);
    CountedIsAlone(inp, role, listed, p);
  }

  lemma DeletedIsAlone(inp: Inputs, role: Role, listed: seq<Pod>, p: Pod)
    ensures var slices := RoleSlices(inp.spec, role, listed);
            (exists i: nat :: i < |slices| && ToDelete(inp, i, slices[i], p))
            <==> exists k: nat :: AloneAt(inp.spec, role, listed, p, k)
                                  && (k >= inp.spec.replicas || Restarts(inp, p))
  {
    var slices := RoleSlices(inp.spec, role, listed);
    forall i: nat | i < |slices| && ToDelete(inp, i, slices[i], p) ensures AloneAt(inp.spec, role, listed, p, i) {
    }
    forall k: nat | AloneAt(inp.spec, role, listed, p, k) && (k >= inp.spec.replicas || Restarts(inp, p))
      ensures ToDelete(inp, k, slices[k], p)
    {
    }
  }

  lemma CountedIsAlone(inp: Inputs, role: Role, listed: seq<Pod>, p: Pod)
    ensures var slices := RoleSlices(inp.spec, role, listed);
            (exists i: nat :: i < |slices| && ToCount(inp, slices[i], p))
            <==> !Restarts(inp, p) && exists k: nat :: AloneAt(inp.spec, role, listed, p, k)
  {
    var slices := RoleSlices(inp.spec, role, listed);
    forall i: nat | i < |slices| && ToCount(inp, slices[i], p) ensures AloneAt(inp.spec, role, listed, p, i) {
    }
    forall k: nat | AloneAt(inp.spec, role, listed, p, k) && !Restarts(inp, p)
      ensures ToCount(inp, slices[k], p)
    {
    }
  }

  // ----- Consequences -----

  /** Under ExitCode a failed pod alone at a wanted index is deleted exactly if
      its code is retryable, and counted exactly if it is not. */
  lemma ExitCodeDecides(inp: Inputs, role: Role, listed: seq<Pod>, i: nat, p: Pod, code: int)
    requires !Pass(inp, role, listed, []).failed && inp.spec.restart == ExitCode
    requires AloneAt(inp.spec, role, listed, p, i) && i < inp.spec.replicas
    requires p.phase == PodFailed && ExitsWith(p, code)
    ensures Deletes(Pass(inp, role, listed, []).calls, p) <==> inp.retryable(code)
    ensures p in Pass(inp, role, listed, []).validated <==> !inp.retryable(code)
  {
    PassDeletes(inp, role, listed, p);
    PassCounts(inp, role, listed, p);
    RestartsOnCode(inp, p, code);
    AloneIsSorted(inp.spec, role, listed, p, i);
    forall k: nat | AloneAt(inp.spec, role, listed, p, k) ensures k == i {
      AloneIsSorted(inp.spec, role, listed, p, k);
    }
  }

  lemma RestartsOnCode(inp: Inputs, p: Pod, code: int)
    requires inp.spec.restart == ExitCode && p.phase == PodFailed && ExitsWith(p, code)
    ensures Restarts(inp, p) <==> inp.retryable(code)
  {
    ExitsWithExactlyOne(p);
  }

  lemma AloneIsSorted(spec: RoleSpec, role: Role, listed: seq<Pod>, p: Pod, k: nat)
    requires AloneAt(spec, role, listed, p, k)
    ensures IsSorted(spec.restart, role, listed, p) && PodIndex(p.labels) == Some(k)
  {
    BucketsHold(spec, role, listed, p);
    assert p in RoleSlices(spec, role, listed)[k];
  }

  predicate CountsFailed(policy: RolePhasePolicy, down: set<string>, p: Pod) {
    !p.deleting && (p.phase == PodFailed || OnNodeDown(policy, down, p))
  }

  lemma FailedSlotMeans(policy: RolePhasePolicy, down: set<string>, p: Pod)
    ensures SlotOf(policy, down, p) == AsFailed <==> CountsFailed(policy, down, p)
  {
  }

  /** A role that restarts by exit code enters Failed only with a counted pod
      that failed with a code that is not retryable, or that is on a node that
      is down if the policy asks. */
  lemma ExitCodeFailure(inp: Inputs, role: Role, listed: seq<Pod>, down: set<string>) returns (p: Pod)
    requires inp.spec.restart == ExitCode && inp.spec.replicas > 0 && inp.phase != RolePhase.Failed
    requires PhaseAfter(inp.spec, Pass(inp, role, listed, []), down, inp.phase) == RolePhase.Failed
    ensures p in Pass(inp, role, listed, []).validated && !p.deleting
    ensures || OnNodeDown(inp.spec.policy, down, p)
            || (p.phase == PodFailed && forall code | ExitsWith(p, code) :: !inp.retryable(code))
  {
    var validated := Pass(inp, role, listed, []).validated;
    FailedByCount(inp.spec, Count(inp.spec.policy, down, validated), inp.phase);
    NumberPositive(inp.spec.policy, down, validated, AsFailed);
    p :| p in validated && SlotOf(inp.spec.policy, down, p) == AsFailed;
    FailedSlotMeans(inp.spec.policy, down, p);
    PassCounts(inp, role, listed, p);
  }

  lemma FailedByCount(spec: RoleSpec, c: Counters, last: RolePhase)
    requires spec.restart != Never && spec.replicas > 0 && last != RolePhase.Failed
    requires GetRolePhase(spec, c, last) == RolePhase.Failed
    ensures c.failed > 0
  {
  }

  /** A counted living pod on a node that is down fails the role, if its policy
      takes node failures for its own and fails on any pod. */
  lemma DownNodeFailsRole(inp: Inputs, role: Role, listed: seq<Pod>, calls: seq<Call>, down: set<string>, p: Pod)
    requires Quiet(Pass(inp, role, listed, calls)) && p in Pass(inp, role, listed, calls).validated
    requires inp.spec.policy.nodeDownAsFailed && inp.spec.policy.failed == Some(AnyPod)
    requires !p.deleting && p.node != "" && p.node in down
    ensures PhaseAfter(inp.spec, Pass(inp, role, listed, calls), down, inp.phase) == RolePhase.Failed
  {
    FailedSlotMeans(inp.spec.policy, down, p);
    NumberPositive(inp.spec.policy, down, Pass(inp, role, listed, calls).validated, AsFailed);
  }

  // ----- The phase, from the pods at the indices -----

  function FailedPod(policy: RolePhasePolicy, down: set<string>): Pod -> bool {
    (p: Pod) => CountsFailed(policy, down, p)
  }

  function SucceededPod(policy: RolePhasePolicy, down: set<string>): Pod -> bool {
    (p: Pod) => !p.deleting && p.phase == PodSucceeded && !OnNodeDown(policy, down, p)
  }

  function RunningPod(policy: RolePhasePolicy, down: set<string>): Pod -> bool {
    (p: Pod) => !p.deleting && p.phase == PodRunning && !OnNodeDown(policy, down, p)
  }

  /** One pod, and one like this. */
  predicate HoldsOne(bucket: seq<Pod>, like: Pod -> bool) {
    |bucket| == 1 && like(bucket[0])
  }

  ghost predicate AtSomeIndex(slices: seq<seq<Pod>>, n: nat, like: Pod -> bool)
    requires n <= |slices|
  {
    exists i: nat :: i < n && HoldsOne(slices[i], like)
  }

  ghost predicate AtEveryIndex(slices: seq<seq<Pod>>, n: nat, like: Pod -> bool)
    requires n <= |slices|
  {
    forall i: nat | i < n :: HoldsOne(slices[i], like)
  }

  /** The policy's condition is met by the pods at the wanted indices. */
  ghost predicate MetBy(condition: Option<PhaseCondition>, slices: seq<seq<Pod>>, n: nat, like: Pod -> bool)
    requires n <= |slices|
  {
    || (condition == Some(AnyPod) && AtSomeIndex(slices, n, like))
    || (condition == Some(AllPods) && AtEveryIndex(slices, n, like))
  }

  lemma {:induction false} HoldingSome(policy: RolePhasePolicy, down: set<string>, slices: seq<seq<Pod>>, k: nat,
                                       slot: Slot)
    requires k <= |slices|
    ensures Holding(policy, down, slices, k, slot) > 0
            <==> exists i: nat :: i < k && HoldsOneIn(policy, down, slices[i], slot)
  {
    if k > 0 {
      HoldingSome(policy, down, slices, k - 1, slot);
    }
  }

  /** A counter after a quiet pass, and the indices. */
  lemma CounterByIndex(inp: Inputs, role: Role, listed: seq<Pod>, calls: seq<Call>, down: set<string>, slot: Slot,
                       like: Pod -> bool)
    requires Quiet(Pass(inp, role, listed, calls)) && slot != AsTerminating
    requires forall p :: like(p) <==> SlotOf(inp.spec.policy, down, p) == slot
    ensures var n := Number(inp.spec.policy, down, Pass(inp, role, listed, calls).validated, slot);
            var slices := RoleSlices(inp.spec, role, listed);
            && (n > 0 <==> AtSomeIndex(slices, inp.spec.replicas, like))
            && (n >= inp.spec.replicas <==> AtEveryIndex(slices, inp.spec.replicas, like))
  {
    var policy, slices, k := inp.spec.policy, RoleSlices(inp.spec, role, listed), inp.spec.replicas;
    CounterIsHolding(inp, role, listed, calls, down, slot);
    HoldingSome(policy, down, slices, k, slot);
    HoldingPigeonhole(policy, down, slices, k, slot);
    SameHolders(policy, down, slices, k, slot, like);
  }

  lemma SameHolders(policy: RolePhasePolicy, down: set<string>, slices: seq<seq<Pod>>, k: nat, slot: Slot,
                    like: Pod -> bool)
    requires k <= |slices| && forall p :: like(p) <==> SlotOf(policy, down, p) == slot
    ensures AtSomeIndex(slices, k, like) <==> exists i: nat :: i < k && HoldsOneIn(policy, down, slices[i], slot)
    ensures AtEveryIndex(slices, k, like) <==> forall i: nat | i < k :: HoldsOneIn(policy, down, slices[i], slot)
  {
    forall i: nat | i < k ensures HoldsOne(slices[i], like) <==> HoldsOneIn(policy, down, slices[i], slot) {
    }
  }

  /** A policy's condition on a counter, and the indices. */
  lemma ConditionByIndex(inp: Inputs, role: Role, listed: seq<Pod>, calls: seq<Call>, down: set<string>, slot: Slot,
                         like: Pod -> bool, condition: Option<PhaseCondition>)
    requires Quiet(Pass(inp, role, listed, calls)) && slot != AsTerminating
    requires forall p :: like(p) <==> SlotOf(inp.spec.policy, down, p) == slot
    ensures MetBy(condition, RoleSlices(inp.spec, role, listed), inp.spec.replicas, like)
            <==> Meets(condition, Number(inp.spec.policy, down, Pass(inp, role, listed, calls).validated, slot),
                       inp.spec.replicas)
  {
    CounterByIndex(inp, role, listed, calls, down, slot, like);
  }

  lemma SlotsSay(policy: RolePhasePolicy, down: set<string>)
    ensures forall p :: FailedPod(policy, down)(p) <==> SlotOf(policy, down, p) == AsFailed
    ensures forall p :: SucceededPod(policy, down)(p) <==> SlotOf(policy, down, p) == AsSucceeded
    ensures forall p :: RunningPod(policy, down)(p) <==> SlotOf(policy, down, p) == AsActive
  {
  }

  lemma CounterIsHolding(inp: Inputs, role: Role, listed: seq<Pod>, calls: seq<Call>, down: set<string>, slot: Slot)
    requires Quiet(Pass(inp, role, listed, calls)) && slot != AsTerminating
    ensures Number(inp.spec.policy, down, Pass(inp, role, listed, calls).validated, slot)
         == Holding(inp.spec.policy, down, RoleSlices(inp.spec, role, listed), inp.spec.replicas, slot)
  {
    QuietPassCounts(inp, role, listed, calls);
    var policy, slices := inp.spec.policy, RoleSlices(inp.spec, role, listed);
    var uncontrolled, singles := RoleUncontrolled(inp.spec, role, listed), Singles(slices, inp.spec.replicas);
    NumberIsHolding(policy, down, slices, inp.spec.replicas, slot);
    NumberAppend(policy, down, uncontrolled, singles, slot);
    NumberOfTerminating(policy, down, uncontrolled, slot);
  }

  /** The number of indices below `k` with one pod, and that alive. */
  function LivingIndices(slices: seq<seq<Pod>>, k: nat): nat
    requires k <= |slices|
  {
    if k == 0 then 0 else LivingIndices(slices, k - 1) + if HoldsOne(slices[k - 1], ALIVE) then 1 else 0
  }

  lemma {:induction false} LivingPigeonhole(slices: seq<seq<Pod>>, k: nat)
    requires k <= |slices|
    ensures LivingIndices(slices, k) <= k
    ensures LivingIndices(slices, k) == k <==> AtEveryIndex(slices, k, ALIVE)
  {
    if k > 0 {
      LivingPigeonhole(slices, k - 1);
    }
  }

  function HoldingLiving(policy: RolePhasePolicy, down: set<string>, slices: seq<seq<Pod>>, k: nat): nat
    requires k <= |slices|
  {
    Holding(policy, down, slices, k, AsPending) + Holding(policy, down, slices, k, AsActive)
    + Holding(policy, down, slices, k, AsSucceeded) + Holding(policy, down, slices, k, AsFailed)
    + Holding(policy, down, slices, k, AsUnknown)
  }

  lemma {:induction false} LivingAreHeld(policy: RolePhasePolicy, down: set<string>, slices: seq<seq<Pod>>, k: nat)
    requires k <= |slices|
    ensures HoldingLiving(policy, down, slices, k) == LivingIndices(slices, k)
  {
    if k > 0 {
      LivingAreHeld(policy, down, slices, k - 1);
      OneMoreHeld(policy, down, slices, k);
    }
  }

  lemma OneMoreHeld(policy: RolePhasePolicy, down: set<string>, slices: seq<seq<Pod>>, k: nat)
    requires 0 < k <= |slices|
    ensures HoldingLiving(policy, down, slices, k)
         == HoldingLiving(policy, down, slices, k - 1) + if HoldsOne(slices[k - 1], ALIVE) then 1 else 0
  {
  }

  /** Counted pods are missing exactly if some wanted index has no single
      living pod. */
  lemma ActualByIndex(inp: Inputs, role: Role, listed: seq<Pod>, calls: seq<Call>, down: set<string>)
    requires Quiet(Pass(inp, role, listed, calls))
    ensures Actual(Count(inp.spec.policy, down, Pass(inp, role, listed, calls).validated)) < inp.spec.replicas
            <==> !AtEveryIndex(RoleSlices(inp.spec, role, listed), inp.spec.replicas, ALIVE)
  {
    var slices := RoleSlices(inp.spec, role, listed);
    CounterIsHolding(inp, role, listed, calls, down, AsPending);
    CounterIsHolding(inp, role, listed, calls, down, AsActive);
    CounterIsHolding(inp, role, listed, calls, down, AsSucceeded);
    CounterIsHolding(inp, role, listed, calls, down, AsFailed);
    CounterIsHolding(inp, role, listed, calls, down, AsUnknown);
    LivingAreHeld(inp.spec.policy, down, slices, inp.spec.replicas);
    LivingPigeonhole(slices, inp.spec.replicas);
  }

  /** The phase a pass leads to.  After a call that took effect, or an error, it
      is the old one.  Otherwise the pods at the wanted indices decide: first
      the failure policy, then the success policy, then whether all run; a
      role that never restarts its pods and has run fails when a wanted index
      no longer has a single living pod; and else only Pending changes. */
  lemma PhaseFromPods(inp: Inputs, role: Role, listed: seq<Pod>, calls: seq<Call>, down: set<string>)
    requires inp.spec.replicas > 0
    ensures var acc, slices, n := Pass(inp, role, listed, calls), RoleSlices(inp.spec, role, listed), inp.spec.replicas;
            var policy, last := inp.spec.policy, inp.phase;
            PhaseAfter(inp.spec, acc, down, last)
            == if acc.failed || acc.creations > 0 || acc.deletions > 0 then last
               else if MetBy(policy.failed, slices, n, FailedPod(policy, down)) then RolePhase.Failed
               else if MetBy(policy.succeeded, slices, n, SucceededPod(policy, down)) then RolePhase.Succeeded
               else if AtEveryIndex(slices, n, RunningPod(policy, down)) then Running
               else if last == Pending then Starting
               else if inp.spec.restart == Never && last == Running && !AtEveryIndex(slices, n, ALIVE)
                 then RolePhase.Failed
               else last
  {
    if Quiet(Pass(inp, role, listed, calls)) {
      var policy, slices, n := inp.spec.policy, RoleSlices(inp.spec, role, listed), inp.spec.replicas;
      SlotsSay(policy, down);
      ConditionByIndex(inp, role, listed, calls, down, AsFailed, FailedPod(policy, down), policy.failed);
      ConditionByIndex(inp, role, listed, calls, down, AsSucceeded, SucceededPod(policy, down), policy.succeeded);
      CounterByIndex(inp, role, listed, calls, down, AsActive, RunningPod(policy, down));
      ActualByIndex(inp, role, listed, calls, down);
      PhaseByConditions(inp.spec, Count(policy, down, Pass(inp, role, listed, calls).validated), inp.phase,
                        MetBy(policy.failed, slices, n, FailedPod(policy, down)),
                        MetBy(policy.succeeded, slices, n, SucceededPod(policy, down)),
                        AtEveryIndex(slices, n, RunningPod(policy, down)), AtEveryIndex(slices, n, ALIVE));
    }
  }

  lemma PhaseByConditions(spec: RoleSpec, c: Counters, last: RolePhase, fails: bool, succeeds: bool, runs: bool,
                          alive: bool)
    requires fails <==> Meets(spec.policy.failed, c.failed, spec.replicas)
    requires succeeds <==> Meets(spec.policy.succeeded, c.succeeded, spec.replicas)
    requires (runs <==> c.active >= spec.replicas) && (alive <==> Actual(c) >= spec.replicas)
    ensures GetRolePhase(spec, c, last)
         == if fails then RolePhase.Failed
            else if succeeds then RolePhase.Succeeded
            else if runs then Running
            else if last == Pending then Starting
            else if spec.restart == Never && last == Running && !alive then RolePhase.Failed
            else last
  {
  }

  function LeavingRole(role: Role): Pod -> bool {
    (p: Pod) => InRole(p, role) && p.deleting
  }

  /** The terminating pods of a role that restarts its pods are counted as
      such, and no others. */
  lemma TerminatingAreCounted(inp: Inputs, role: Role, listed: seq<Pod>, calls: seq<Call>, down: set<string>)
    requires inp.spec.restart != Never && Quiet(Pass(inp, role, listed, calls))
    ensures Count(inp.spec.policy, down, Pass(inp, role, listed, calls).validated).terminating
         == |Filter(listed, LeavingRole(role))|
  {
    QuietPassCounts(inp, role, listed, calls);
    var policy, slices := inp.spec.policy, RoleSlices(inp.spec, role, listed);
    var uncontrolled, singles := RoleUncontrolled(inp.spec, role, listed), Singles(slices, inp.spec.replicas);
    NumberAppend(policy, down, uncontrolled, singles, AsTerminating);
    AllTerminating(policy, down, uncontrolled);
    SinglesLive(inp, role, listed);
    NoneTerminating(policy, down, singles);
    FilterBoth(listed, OfRole(role), TERMINATING, LeavingRole(role));
  }

  lemma SinglesLive(inp: Inputs, role: Role, listed: seq<Pod>)
    requires inp.spec.restart != Never
    ensures forall p <- Singles(RoleSlices(inp.spec, role, listed), inp.spec.replicas) :: !p.deleting
  {
    var slices := RoleSlices(inp.spec, role, listed);
    SinglesMembers(slices, inp.spec.replicas);
    forall p | p in Singles(slices, inp.spec.replicas) ensures !p.deleting {
      var j: nat :| j < inp.spec.replicas && slices[j] == [p];
      assert AloneAt(inp.spec, role, listed, p, j);
      AloneIsSorted(inp.spec, role, listed, p, j);
    }
  }

  lemma {:induction false} FilterBoth(pods: seq<Pod>, a: Pod -> bool, b: Pod -> bool, both: Pod -> bool)
    requires forall p :: both(p) <==> a(p) && b(p)
    ensures Filter(Filter(pods, a), b) == Filter(pods, both)
  {
    if pods != [] {
      var front, last := pods[..|pods| - 1], pods[|pods| - 1];
      FilterBoth(front, a, b, both);
      if a(last) {
        assert (Filter(front, a) + [last])[..|Filter(front, a)|] == Filter(front, a);
      }
    }
  }
}
