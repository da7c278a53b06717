/** Selecting a role's pods and sorting them into buckets by index. */
module Pods {
  import opened Decimal
  import opened Api

  function Filter(pods: seq<Pod>, keep: Pod -> bool): (r: seq<Pod>)
    ensures forall p :: p in r <==> p in pods && keep(p)
    ensures r == [] <==> forall p <- pods :: !keep(p)
    ensures |r| <= |pods|
  {
    if pods == [] then []
    else
      var front := Filter(pods[..|pods| - 1], keep);
      var last := pods[|pods| - 1];
      assert pods == pods[..|pods| - 1] + [last];
      if keep(last) then front + [last] else front
  }

  const ALIVE: Pod -> bool := (p: Pod) => !p.deleting
  const TERMINATING: Pod -> bool := (p: Pod) => p.deleting

  predicate MatchesRole(labels: Labels, role: Role) {
    || (DeprecatedTypeLabel in labels && labels[DeprecatedTypeLabel] == role)
    || (ReplicaTypeLabel in labels && labels[ReplicaTypeLabel] == role)
  }

  function OfRole(role: Role): Pod -> bool {
    (p: Pod) => MatchesRole(p.labels, role)
  }

  function AtIndex(k: int): Pod -> bool {
    (p: Pod) => PodIndex(p.labels) == Some(k)
  }

  /** Bucket `k`: the pods that carry index `k`, in list order. */
  function Bucket(pods: seq<Pod>, k: int): seq<Pod> {
    Filter(pods, AtIndex(k))
  }

  function Max(a: int, b: int): int {
    if a > b then a else b
  }

  /** The largest index in the list, or 0. */
  function MaxIndex(pods: seq<Pod>): (m: nat)
    ensures forall p <- pods :: PodIndex(p.labels).Some? ==> PodIndex(p.labels).value <= m
    ensures m == 0 || exists p <- pods :: PodIndex(p.labels) == Some(m)
  {
    if pods == [] then 0
    else
      var front := MaxIndex(pods[..|pods| - 1]);
      var last := PodIndex(pods[|pods| - 1].labels);
      assert pods == pods[..|pods| - 1] + [pods[|pods| - 1]];
      if last.Some? then Max(front, last.value) else front
  }

  function SliceSize(pods: seq<Pod>, replicas: nat): nat {
    Max(MaxIndex(pods) + 1, replicas)
  }

  predicate IndicesNotNegative(pods: seq<Pod>) {
    forall p <- pods :: IndexNotNegative(p.labels)
  }

  /** The bucket list of `GetPodSlices`. */
  function PodSlices(pods: seq<Pod>, replicas: nat): (slices: seq<seq<Pod>>)
    ensures |slices| >= replicas
  {
    seq(SliceSize(pods, replicas), k => Bucket(pods, k))
  }

  method FilterPods(pods: seq<Pod>, requirement: Pod -> bool) returns (filtered: seq<Pod>)
    ensures filtered == Filter(pods, requirement)
  {
    filtered := [];
    for i := 0 to |pods|
      invariant filtered == Filter(pods[..i], requirement)
    {
      assert pods[..i + 1][..i] == pods[..i];
      if requirement(pods[i]) {
        filtered := filtered + [pods[i]];
      }
    }
    assert pods[..|pods|] == pods;
  }

  method CalculatePodSliceSize(pods: seq<Pod>, replicas: nat) returns (size: nat)
    ensures size == SliceSize(pods, replicas)
  {
    size := 0;
    for i := 0 to |pods|
      invariant size == MaxIndex(pods[..i])
    {
      assert pods[..i + 1][..i] == pods[..i];
      var index := PodIndex(pods[i].labels);
      if index.None? {
        continue;
      }
      size := Max(size, index.value);
    }
    assert pods[..|pods|] == pods;
    size := Max(size + 1, replicas);
  }

  lemma BucketOneMore(pods: seq<Pod>, i: nat, k: int)
    requires i < |pods|
    ensures Bucket(pods[..i + 1], k)
         == if PodIndex(pods[i].labels) == Some(k) then Bucket(pods[..i], k) + [pods[i]] else Bucket(pods[..i], k)
  {
    assert pods[..i + 1][..i] == pods[..i];
  }

  lemma IndexFitsSlices(pods: seq<Pod>, replicas: nat, i: nat)
    requires IndicesNotNegative(pods) && i < |pods| && PodIndex(pods[i].labels).Some?
    ensures 0 <= PodIndex(pods[i].labels).value < SliceSize(pods, replicas)
  {
    assert pods[i] in pods;
    assert IndexNotNegative(pods[i].labels);
  }

  /** `GetPodSlices`.  A negative index would be a run-time panic in the
      original, so callers keep indices non-negative. */
  method GetPodSlices(pods: seq<Pod>, replicas: nat) returns (podSlices: array<seq<Pod>>)
    requires IndicesNotNegative(pods)
    ensures fresh(podSlices) && podSlices[..] == PodSlices(pods, replicas)
  {
    var size := CalculatePodSliceSize(pods, replicas);
    podSlices := new seq<Pod>[size](_ => []);
    for i := 0 to |pods|
      invariant forall k :: 0 <= k < size ==> podSlices[k] == Bucket(pods[..i], k)
    {
      forall k {
        BucketOneMore(pods, i, k);
      }
      var index := PodIndex(pods[i].labels);
      if index.None? {
        continue;
      }
      IndexFitsSlices(pods, replicas, i);
      podSlices[index.value] := podSlices[index.value] + [pods[i]];
    }
    assert pods[..|pods|] == pods;
  }

  /** Lists without two pods at one index give buckets of at most one pod. */
  lemma {:induction false} DistinctIndicesGiveSingletons(pods: seq<Pod>, k: int)
    requires forall i, j | 0 <= i < j < |pods| ::
               PodIndex(pods[i].labels).Some? ==> PodIndex(pods[i].labels) != PodIndex(pods[j].labels)
    ensures |Bucket(pods, k)| <= 1
  {
    if pods != [] {
      var front, last := pods[..|pods| - 1], pods[|pods| - 1];
      DistinctIndicesGiveSingletons(front, k);
      if PodIndex(last.labels) == Some(k) {
        assert forall i | 0 <= i < |front| :: front[i] == pods[i];
      }
    }
  }
}
