/** Roles that never restart their pods: what one pass settles.

    The role's policy is the default one: failed on any failed pod, succeeded
    when all pods have, node failures not counted. */
module NeverRole {
  import opened Decimal
  import opened Api
  import opened Pods
  import opened RolePhases
  import opened PodPass

  predicate IsNeverSpec(spec: RoleSpec) {
    && spec.restart == Never && spec.replicas > 0
    && spec.policy == RolePhasePolicy(Some(AnyPod), Some(AllPods), false)
  }

  predicate AtPlace(labels: Labels, role: Role, i: nat) {
    GetReplicaType(labels) == role && PodIndex(labels) == Some(i)
  }

  /** The pod will never again count as anything but the given phase. */
  predicate Stuck(p: Pod, phase: PodPhase) {
    p.deleting || p.phase == phase
  }

  predicate PlaceStuck(pods: set<Pod>, role: Role, i: nat, phase: PodPhase) {
    forall p <- pods :: AtPlace(p.labels, role, i) ==> Stuck(p, phase)
  }

  /** Some index of the role can never run or succeed again. */
  ghost predicate SomeStuck(pods: set<Pod>, role: Role, replicas: nat) {
    exists i: nat | i < replicas :: PlaceStuck(pods, role, i, PodFailed)
  }

  /** No index of the role can do anything but stay succeeded. */
  ghost predicate AllStuck(pods: set<Pod>, role: Role, replicas: nat) {
    forall i: nat | i < replicas :: PlaceStuck(pods, role, i, PodSucceeded)
  }

  /** What the pods look like once the role has finished: after a failure some
      index can never run or succeed, after a success none can do otherwise. */
  ghost predicate Settled(pods: set<Pod>, role: Role, replicas: nat, phase: RolePhase) {
    && (phase == RolePhase.Failed ==> SomeStuck(pods, role, replicas))
    && (phase == RolePhase.Succeeded ==> AllStuck(pods, role, replicas))
  }

  function AsSet(pods: seq<Pod>): set<Pod> {
    set p | p in pods
  }

  /** The listed pods are unambiguous for the role: none is in it by the
      deprecated label alone while its own label names another role, and no
      two are at one index. */
  ghost predicate Unambiguous(listed: seq<Pod>, role: Role) {
    && (forall p <- listed :: MatchesRole(p.labels, role) <==> GetReplicaType(p.labels) == role)
    && AllApart(listed, Apart(role))
  }

  ghost predicate AllApart(pods: seq<Pod>, apart: (Pod, Pod) -> bool) {
    forall i, j | 0 <= i < j < |pods| :: apart(pods[i], pods[j])
  }

  /** Not two pods at one place of the role. */
  function Apart(role: Role): (Pod, Pod) -> bool {
    (p: Pod, q: Pod) =>
      GetReplicaType(p.labels) == role && GetReplicaType(q.labels) == role && PodIndex(p.labels).Some?
      ==> PodIndex(p.labels) != PodIndex(q.labels)
  }

  /** The bucket of an index holds exactly the pods at that place. */
  lemma BucketIsPlace(spec: RoleSpec, role: Role, listed: seq<Pod>, i: nat)
    requires spec.restart == Never && i < |RoleSlices(spec, role, listed)|
    requires forall p <- listed :: MatchesRole(p.labels, role) <==> GetReplicaType(p.labels) == role
    ensures forall p :: p in RoleSlices(spec, role, listed)[i] <==> p in listed && AtPlace(p.labels, role, i)
  {
  }

  predicate BucketStuck(bucket: seq<Pod>, phase: PodPhase) {
    bucket == [] || (|bucket| == 1 && Stuck(bucket[0], phase))
  }

  lemma MembersAreStuck(bucket: seq<Pod>, phase: PodPhase)
    requires BucketStuck(bucket, phase)
    ensures forall p <- bucket :: Stuck(p, phase)
  {
  }

  lemma StuckBucketIsStuckPlace(spec: RoleSpec, role: Role, listed: seq<Pod>, i: nat, phase: PodPhase)
    requires spec.restart == Never && i < |RoleSlices(spec, role, listed)|
    requires forall p <- listed :: MatchesRole(p.labels, role) <==> GetReplicaType(p.labels) == role
    requires BucketStuck(RoleSlices(spec, role, listed)[i], phase)
    ensures PlaceStuck(AsSet(listed), role, i, phase)
  {
    BucketIsPlace(spec, role, listed, i);
    MembersAreStuck(RoleSlices(spec, role, listed)[i], phase);
  }

  /** An index that is stuck is not full of pods in another state. */
  lemma StuckBucketIsNotIn(spec: RoleSpec, role: Role, listed: seq<Pod>, i: nat, phase: PodPhase, down: set<string>,
                           slot: Slot)
    requires spec.restart == Never && i < |RoleSlices(spec, role, listed)| && !spec.policy.nodeDownAsFailed
    requires forall p <- listed :: MatchesRole(p.labels, role) <==> GetReplicaType(p.labels) == role
    requires PlaceStuck(AsSet(listed), role, i, phase)
    requires HoldsOneIn(spec.policy, down, RoleSlices(spec, role, listed)[i], slot)
    ensures slot == AsTerminating || (phase == PodFailed && slot == AsFailed)
            || (phase == PodSucceeded && slot == AsSucceeded)
         || (phase != PodFailed && phase != PodSucceeded)
  {
    BucketIsPlace(spec, role, listed, i);
    var p := RoleSlices(spec, role, listed)[i][0];
    assert p in RoleSlices(spec, role, listed)[i];
    assert p in AsSet(listed);
  }

  /** A counted pod of a role that never restarts is alone in an in-range bucket. */
  lemma CountedPodHasBucket(inp: Inputs, role: Role, listed: seq<Pod>, p: Pod)
    requires inp.spec.restart == Never && Quiet(Pass(inp, role, listed, []))
    requires p in Pass(inp, role, listed, []).validated
    ensures exists i: nat :: i < inp.spec.replicas && RoleSlices(inp.spec, role, listed)[i] == [p]
  {
    QuietPassCounts(inp, role, listed, []);
    SinglesMembers(RoleSlices(inp.spec, role, listed), inp.spec.replicas);
  }

  /** One stuck index keeps the counter of another state below the replicas. */
  lemma StuckIndexIsNotFull(inp: Inputs, role: Role, listed: seq<Pod>, i: nat, phase: PodPhase, down: set<string>,
                            slot: Slot)
    requires IsNeverSpec(inp.spec) && Quiet(Pass(inp, role, listed, [])) && i < inp.spec.replicas
    requires Unambiguous(listed, role) && PlaceStuck(AsSet(listed), role, i, phase)
    requires (slot == AsActive && (phase == PodFailed || phase == PodSucceeded))
             || (slot == AsSucceeded && phase == PodFailed)
    ensures Number(inp.spec.policy, down, Pass(inp, role, listed, []).validated, slot) < inp.spec.replicas
  {
    CountersMeanIndices(inp, role, listed, [], down, slot);
    if HoldsOneIn(inp.spec.policy, down, RoleSlices(inp.spec, role, listed)[i], slot) {
      StuckBucketIsNotIn(inp.spec, role, listed, i, phase, down, slot);
    }
  }

  /** What can lead out of a finished phase. */
  lemma StaysUnlessFull(spec: RoleSpec, c: Counters, last: RolePhase)
    requires IsNeverSpec(spec) && c.active < spec.replicas
    requires (last == RolePhase.Failed && c.succeeded < spec.replicas)
             || (last == RolePhase.Succeeded && c.failed == 0)
    ensures GetRolePhase(spec, c, last) == last
  {
  }

  /** From Failed a pass leads nowhere else. */
  lemma FailedStays(inp: Inputs, role: Role, listed: seq<Pod>, down: set<string>)
    requires IsNeverSpec(inp.spec) && inp.phase == RolePhase.Failed
    requires Unambiguous(listed, role) && Settled(AsSet(listed), role, inp.spec.replicas, RolePhase.Failed)
    ensures PhaseAfter(inp.spec, Pass(inp, role, listed, []), down, inp.phase) == RolePhase.Failed
  {
    if Quiet(Pass(inp, role, listed, [])) {
      var i: nat :| i < inp.spec.replicas && PlaceStuck(AsSet(listed), role, i, PodFailed);
      StuckIndexIsNotFull(inp, role, listed, i, PodFailed, down, AsActive);
      StuckIndexIsNotFull(inp, role, listed, i, PodFailed, down, AsSucceeded);
      StaysUnlessFull(inp.spec, Count(inp.spec.policy, down, Pass(inp, role, listed, []).validated), inp.phase);
    }
  }

  lemma CountedPodIsNoFailure(inp: Inputs, role: Role, listed: seq<Pod>, down: set<string>, p: Pod)
    requires IsNeverSpec(inp.spec) && Quiet(Pass(inp, role, listed, []))
    requires Unambiguous(listed, role) && AllStuck(AsSet(listed), role, inp.spec.replicas)
    requires p in Pass(inp, role, listed, []).validated
    ensures SlotOf(inp.spec.policy, down, p) != AsFailed
  {
    CountedPodHasBucket(inp, role, listed, p);
    var i: nat :| i < inp.spec.replicas && RoleSlices(inp.spec, role, listed)[i] == [p];
    if SlotOf(inp.spec.policy, down, p) == AsFailed {
      StuckBucketIsNotIn(inp.spec, role, listed, i, PodSucceeded, down, AsFailed);
    }
  }

  lemma NoFailureAmongSucceeded(inp: Inputs, role: Role, listed: seq<Pod>, down: set<string>)
    requires IsNeverSpec(inp.spec) && Quiet(Pass(inp, role, listed, []))
    requires Unambiguous(listed, role) && Settled(AsSet(listed), role, inp.spec.replicas, RolePhase.Succeeded)
    ensures Number(inp.spec.policy, down, Pass(inp, role, listed, []).validated, AsFailed) == 0
  {
    var validated := Pass(inp, role, listed, []).validated;
    NumberPositive(inp.spec.policy, down, validated, AsFailed);
    forall p | p in validated ensures SlotOf(inp.spec.policy, down, p) != AsFailed {
      CountedPodIsNoFailure(inp, role, listed, down, p);
    }
  }

  /** From Succeeded a pass leads nowhere else. */
  lemma SucceededStays(inp: Inputs, role: Role, listed: seq<Pod>, down: set<string>)
    requires IsNeverSpec(inp.spec) && inp.phase == RolePhase.Succeeded
    requires Unambiguous(listed, role) && Settled(AsSet(listed), role, inp.spec.replicas, RolePhase.Succeeded)
    ensures PhaseAfter(inp.spec, Pass(inp, role, listed, []), down, inp.phase) == RolePhase.Succeeded
  {
    if Quiet(Pass(inp, role, listed, [])) {
      NoFailureAmongSucceeded(inp, role, listed, down);
      StuckIndexIsNotFull(inp, role, listed, 0, PodSucceeded, down, AsActive);
      StaysUnlessFull(inp.spec, Count(inp.spec.policy, down, Pass(inp, role, listed, []).validated), inp.phase);
    }
  }

  lemma {:induction false} SinglesLength(slices: seq<seq<Pod>>, k: nat)
    requires k <= |slices|
    requires forall j: nat | j < k :: LivingSingle(slices[j])
    ensures |Singles(slices, k)| == k
  {
    if k > 0 {
      SinglesLength(slices, k - 1);
    }
  }

  lemma AllLivingSinglesCount(policy: RolePhasePolicy, down: set<string>, slices: seq<seq<Pod>>, k: nat)
    requires k <= |slices|
    requires forall j: nat | j < k :: LivingSingle(slices[j])
    ensures |Singles(slices, k)| == k && Number(policy, down, Singles(slices, k), AsTerminating) == 0
  {
    SinglesLength(slices, k);
    SinglesMembers(slices, k);
    forall p | p in Singles(slices, k) ensures !p.deleting {
      var j: nat :| j < k && slices[j] == [p];
      assert LivingSingle(slices[j]);
    }
    NoneTerminating(policy, down, Singles(slices, k));
  }

  predicate LivingSingle(bucket: seq<Pod>) {
    |bucket| == 1 && !bucket[0].deleting
  }

  /** If fewer pods count than there are replicas, some index holds no single
      living pod. */
  lemma SomeIndexIsLost(inp: Inputs, role: Role, listed: seq<Pod>, down: set<string>) returns (i: nat)
    requires IsNeverSpec(inp.spec) && Quiet(Pass(inp, role, listed, []))
    requires Actual(Count(inp.spec.policy, down, Pass(inp, role, listed, []).validated)) < inp.spec.replicas
    ensures i < inp.spec.replicas
    ensures !LivingSingle(RoleSlices(inp.spec, role, listed)[i])
  {
    var slices := RoleSlices(inp.spec, role, listed);
    QuietPassCounts(inp, role, listed, []);
    CountersAddUp(inp.spec.policy, down, Pass(inp, role, listed, []).validated);
    assert RoleUncontrolled(inp.spec, role, listed) + Singles(slices, inp.spec.replicas)
           == Singles(slices, inp.spec.replicas);
    if forall j: nat | j < inp.spec.replicas :: LivingSingle(slices[j]) {
      AllLivingSinglesCount(inp.spec.policy, down, slices, inp.spec.replicas);
      assert false;
    }
    i :| i < inp.spec.replicas && !LivingSingle(slices[i]);
  }

  lemma {:induction false} FilterKeepsApart(pods: seq<Pod>, keep: Pod -> bool, apart: (Pod, Pod) -> bool)
    requires AllApart(pods, apart)
    ensures AllApart(Filter(pods, keep), apart)
  {
    if pods != [] {
      var front, last := pods[..|pods| - 1], pods[|pods| - 1];
      var keptFront, kept := Filter(front, keep), Filter(pods, keep);
      FilterKeepsApart(front, keep, apart);
      forall i, j | 0 <= i < j < |kept| ensures apart(kept[i], kept[j]) {
        assert kept[i] == keptFront[i] && keptFront[i] in keptFront;
        if j == |keptFront| {
          var k :| 0 <= k < |front| && front[k] == kept[i];
          assert pods[k] == kept[i] && kept[j] == last;
        } else {
          assert kept[j] == keptFront[j];
        }
      }
    }
  }

  lemma BucketsAreSingle(spec: RoleSpec, role: Role, listed: seq<Pod>, i: nat)
    requires spec.restart == Never && Unambiguous(listed, role) && i < |RoleSlices(spec, role, listed)|
    ensures |RoleSlices(spec, role, listed)[i]| <= 1
  {
    FilterKeepsApart(listed, OfRole(role), Apart(role));
    MineAreDistinct(Filter(listed, OfRole(role)), role);
    DistinctIndicesGiveSingletons(Filter(listed, OfRole(role)), i);
  }

  lemma MineAreDistinct(mine: seq<Pod>, role: Role)
    requires AllApart(mine, Apart(role)) && forall p <- mine :: GetReplicaType(p.labels) == role
    ensures forall i, j | 0 <= i < j < |mine| ::
              PodIndex(mine[i].labels).Some? ==> PodIndex(mine[i].labels) != PodIndex(mine[j].labels)
  {
    forall i, j | 0 <= i < j < |mine|
      ensures PodIndex(mine[i].labels).Some? ==> PodIndex(mine[i].labels) != PodIndex(mine[j].labels)
    {
      assert Apart(role)(mine[i], mine[j]);
    }
  }

  lemma FailedPodHasIndex(inp: Inputs, role: Role, listed: seq<Pod>, down: set<string>) returns (i: nat)
    requires IsNeverSpec(inp.spec) && Quiet(Pass(inp, role, listed, []))
    requires Number(inp.spec.policy, down, Pass(inp, role, listed, []).validated, AsFailed) > 0
    ensures i < inp.spec.replicas
    ensures BucketStuck(RoleSlices(inp.spec, role, listed)[i], PodFailed)
  {
    var validated, slices := Pass(inp, role, listed, []).validated, RoleSlices(inp.spec, role, listed);
    NumberPositive(inp.spec.policy, down, validated, AsFailed);
    var p :| p in validated && SlotOf(inp.spec.policy, down, p) == AsFailed;
    CountedPodHasBucket(inp, role, listed, p);
    i :| i < inp.spec.replicas && slices[i] == [p];
    FailedBucketIsStuck(inp.spec.policy, down, slices[i]);
  }

  lemma FailedBucketIsStuck(policy: RolePhasePolicy, down: set<string>, bucket: seq<Pod>)
    requires !policy.nodeDownAsFailed && HoldsOneIn(policy, down, bucket, AsFailed)
    ensures BucketStuck(bucket, PodFailed)
  {
  }

  lemma LostPodHasIndex(inp: Inputs, role: Role, listed: seq<Pod>, down: set<string>) returns (i: nat)
    requires IsNeverSpec(inp.spec) && Quiet(Pass(inp, role, listed, [])) && Unambiguous(listed, role)
    requires Actual(Count(inp.spec.policy, down, Pass(inp, role, listed, []).validated)) < inp.spec.replicas
    ensures i < inp.spec.replicas
    ensures BucketStuck(RoleSlices(inp.spec, role, listed)[i], PodFailed)
  {
    i := SomeIndexIsLost(inp, role, listed, down);
    BucketsAreSingle(inp.spec, role, listed, i);
  }

  /** What can make such a role fail. */
  lemma FailureCauses(spec: RoleSpec, c: Counters, last: RolePhase)
    requires IsNeverSpec(spec) && last != RolePhase.Failed && GetRolePhase(spec, c, last) == RolePhase.Failed
    ensures c.failed > 0 || Actual(c) < spec.replicas
  {
  }

  /** Behind a move into Failed is an index whose bucket is empty or holds a
      pod that failed or is terminating. */
  lemma FailureHasIndex(inp: Inputs, role: Role, listed: seq<Pod>, down: set<string>) returns (i: nat)
    requires IsNeverSpec(inp.spec) && inp.phase != RolePhase.Failed && Unambiguous(listed, role)
    requires PhaseAfter(inp.spec, Pass(inp, role, listed, []), down, inp.phase) == RolePhase.Failed
    ensures i < inp.spec.replicas
    ensures BucketStuck(RoleSlices(inp.spec, role, listed)[i], PodFailed)
  {
    var c := Count(inp.spec.policy, down, Pass(inp, role, listed, []).validated);
    FailureCauses(inp.spec, c, inp.phase);
    if c.failed > 0 {
      i := FailedPodHasIndex(inp, role, listed, down);
    } else {
      i := LostPodHasIndex(inp, role, listed, down);
    }
  }

  /** A move into Failed leaves some index stuck: a pod there has failed, or is
      terminating, or is gone. */
  lemma FailureSettles(inp: Inputs, role: Role, listed: seq<Pod>, down: set<string>)
    requires IsNeverSpec(inp.spec) && inp.phase != RolePhase.Failed && Unambiguous(listed, role)
    requires PhaseAfter(inp.spec, Pass(inp, role, listed, []), down, inp.phase) == RolePhase.Failed
    ensures SomeStuck(AsSet(listed), role, inp.spec.replicas)
  {
    var i := FailureHasIndex(inp, role, listed, down);
    StuckBucketIsStuckPlace(inp.spec, role, listed, i, PodFailed);
  }

  lemma SuccessHasIndex(inp: Inputs, role: Role, listed: seq<Pod>, down: set<string>, i: nat)
    requires IsNeverSpec(inp.spec) && inp.phase != RolePhase.Succeeded && i < inp.spec.replicas
    requires PhaseAfter(inp.spec, Pass(inp, role, listed, []), down, inp.phase) == RolePhase.Succeeded
    ensures BucketStuck(RoleSlices(inp.spec, role, listed)[i], PodSucceeded)
  {
    SucceededMeansAllSucceeded(inp, role, listed, [], down);
  }

  lemma SuccessSettles(inp: Inputs, role: Role, listed: seq<Pod>, down: set<string>)
    requires IsNeverSpec(inp.spec) && inp.phase != RolePhase.Succeeded && Unambiguous(listed, role)
    requires PhaseAfter(inp.spec, Pass(inp, role, listed, []), down, inp.phase) == RolePhase.Succeeded
    ensures AllStuck(AsSet(listed), role, inp.spec.replicas)
  {
    forall i: nat | i < inp.spec.replicas ensures PlaceStuck(AsSet(listed), role, i, PodSucceeded) {
      SuccessHasIndex(inp, role, listed, down, i);
      StuckBucketIsStuckPlace(inp.spec, role, listed, i, PodSucceeded);
    }
  }

  /** One pass keeps finished roles finished and settles the ones it finishes. */
  lemma PassSettles(inp: Inputs, role: Role, listed: seq<Pod>, down: set<string>)
    requires IsNeverSpec(inp.spec) && Unambiguous(listed, role)
    requires Settled(AsSet(listed), role, inp.spec.replicas, inp.phase)
    ensures var phase := PhaseAfter(inp.spec, Pass(inp, role, listed, []), down, inp.phase);
            && Settled(AsSet(listed), role, inp.spec.replicas, phase)
            && (IsRoleFinished(inp.phase) ==> phase == inp.phase)
            && (phase != inp.phase ==> Quiet(Pass(inp, role, listed, [])))
            && Rank(phase) >= Rank(inp.phase)
  {
    var phase := PhaseAfter(inp.spec, Pass(inp, role, listed, []), down, inp.phase);
    if inp.phase == RolePhase.Failed {
      FailedStays(inp, role, listed, down);
    } else if inp.phase == RolePhase.Succeeded {
      SucceededStays(inp, role, listed, down);
    } else if phase == RolePhase.Failed {
      FailureSettles(inp, role, listed, down);
    } else if phase == RolePhase.Succeeded {
      SuccessSettles(inp, role, listed, down);
    }
  }
}
