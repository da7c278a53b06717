/** Which indices the reason for a lost pod names. */
module LostPods {
  import opened Decimal
  import opened Api
  import opened Pods
  import opened RolePhases
  import opened PodPass
  import opened Cluster
  import opened NeverRole
  import opened NeverRun
  import opened RoleCaches
  import opened CacheListing

  /** The reason `UpdateRolePhase` extracts after the pass. */
  function ReasonAfter(inp: Inputs, role: Role, listed: seq<Pod>, down: set<string>): FailedReason {
    ExtractFailedReason(down, Pass(inp, role, listed, []).validated, inp.spec.replicas)
  }

  /** Where no two listed pods share an index of the role, the named indices
      are exactly the empty ones. */
  lemma MissingMeansEmpty(inp: Inputs, role: Role, listed: seq<Pod>, down: set<string>, i: nat)
    requires inp.spec.restart == Never && Quiet(Pass(inp, role, listed, [])) && Unambiguous(listed, role)
    requires forall p <- listed :: Canonical(p.labels)
    requires ReasonAfter(inp, role, listed, down).MissingReason?
    ensures i in ReasonAfter(inp, role, listed, down).missing
            <==> i < inp.spec.replicas && forall p <- listed :: !AtPlace(p.labels, role, i)
  {
    MissingMeansNoSinglePod(inp, role, listed, [], down, i);
    if i < inp.spec.replicas {
      BucketsAreSingle(inp.spec, role, listed, i);
      BucketIsPlace(inp.spec, role, listed, i);
      EmptyPlace(RoleSlices(inp.spec, role, listed)[i], listed, role, i);
    }
  }

  lemma EmptyPlace(bucket: seq<Pod>, listed: seq<Pod>, role: Role, i: nat)
    requires forall p :: p in bucket <==> p in listed && AtPlace(p.labels, role, i)
    ensures bucket == [] <==> forall p <- listed :: !AtPlace(p.labels, role, i)
  {
    if bucket != [] {
      assert bucket[0] in bucket;
    }
  }

  /** A pass works on pods with printed indices. */
  predicate SnapshotPrinted(s: State) {
    s.ctl.InPass? ==> forall p <- s.ctl.snapshot :: HasIndex(p)
  }

  lemma ListedPrinted(st: Store, listed: seq<Pod>)
    requires Consistent(st) && BornPrinted(st) && Lists(listed, st.view)
    ensures forall p <- listed :: HasIndex(p)
  {
    forall p | p in listed ensures HasIndex(p) {
      SamePlaceAgrees(st.born[p.uid].labels, p.labels);
    }
  }

  lemma StepKeepsSnapshotPrinted(s: State, e: Event, s': State)
    requires Consistent(s.pods) && BornPrinted(s.pods) && SnapshotPrinted(s) && Step(s, e, s')
    ensures SnapshotPrinted(s')
  {
    if e.BeginPass? {
      ListedPrinted(s.pods, e.snapshot);
    }
  }

  lemma {:induction false} RunKeepsSnapshotPrinted(states: seq<State>, events: seq<Event>, f: Fixed, k: nat)
    requires NeverRestarts(states, events, f) && BornPrinted(states[0].pods) && k < |states|
    ensures SnapshotPrinted(states[k])
  {
    if k > 0 {
      RunKeepsSnapshotPrinted(states, events, f, k - 1);
      RunHoldsNeverInv(states, events, f, k - 1);
      RunKeepsPrinted(states, events, k - 1);
      StepKeepsSnapshotPrinted(states[k - 1], events[k - 1], states[k]);
    }
  }

  /** The role's loop is over and the phase about to be recomputed. */
  predicate Recomputes(s: State, role: Role) {
    && s.ctl.InPass? && s.ctl.loop.Some? && s.ctl.loop.value.role == role
    && s.ctl.loop.value.k == |s.ctl.loop.value.slices| && Quiet(s.ctl.loop.value.acc)
  }

  lemma LoopIsPass(states: seq<State>, events: seq<Event>, f: Fixed, k: nat)
    requires NeverRestarts(states, events, f) && k < |states| && Recomputes(states[k], f.role)
    ensures var l := states[k].ctl.loop.value;
            && l.inp.spec == f.spec && l.acc == Pass(l.inp, f.role, states[k].ctl.snapshot, [])
            && Unambiguous(states[k].ctl.snapshot, f.role)
  {
    RunHoldsNeverInv(states, events, f, k);
    assert IsPending(states[k].ctl, f.role);
  }

  /** In every run of a role that never restarts its pods, whenever its phase is
      recomputed and the reason is lost pods, the named indices are exactly
      those below the replicas at which no pod is listed at all. */
  lemma NamedIndicesHaveNoPod(states: seq<State>, events: seq<Event>, f: Fixed, k: nat, down: set<string>, i: nat)
    requires NeverRestarts(states, events, f) && BornPrinted(states[0].pods)
    requires k < |states| && Recomputes(states[k], f.role)
    requires ReasonAfter(states[k].ctl.loop.value.inp, f.role, states[k].ctl.snapshot, down).MissingReason?
    ensures i in ReasonAfter(states[k].ctl.loop.value.inp, f.role, states[k].ctl.snapshot, down).missing
            <==> i < f.spec.replicas && forall p <- states[k].ctl.snapshot :: !AtPlace(p.labels, f.role, i)
  {
    LoopIsPass(states, events, f, k);
    RunKeepsSnapshotPrinted(states, events, f, k);
    MissingMeansEmpty(states[k].ctl.loop.value.inp, f.role, states[k].ctl.snapshot, down, i);
  }

  // ----- A named index with two pods -----

  lemma FilterKeepsBoth(p: Pod, q: Pod, keep: Pod -> bool)
    requires keep(p) && keep(q)
    ensures Filter([p, q], keep) == [p, q]
  {
    assert [p, q][..1] == [p] && [p][..0] == [];
    assert Filter([p], keep) == Filter([], keep) + [p] == [p];
  }

  lemma LargestOfBoth(p: Pod, q: Pod)
    requires PodIndex(p.labels) == Some(0) && PodIndex(q.labels) == Some(0)
    ensures MaxIndex([p, q]) == 0
  {
  }

  lemma BothInBucket(spec: RoleSpec, role: Role, p: Pod, q: Pod)
    requires spec.restart == Never && spec.replicas == 1
    requires MatchesRole(p.labels, role) && MatchesRole(q.labels, role)
    requires PodIndex(p.labels) == Some(0) && PodIndex(q.labels) == Some(0)
    ensures RoleSlices(spec, role, [p, q]) == [[p, q]] && RoleUncontrolled(spec, role, [p, q]) == []
  {
    FilterKeepsBoth(p, q, OfRole(role));
    FilterKeepsBoth(p, q, AtIndex(0));
    LargestOfBoth(p, q);
  }

  lemma CrowdedPassCountsNone(inp: Inputs, slices: seq<seq<Pod>>)
    requires inp.spec.restart == Never && |slices| == 1 && |slices[0]| == 2
    ensures After(inp, slices, 1, Start([], [])) == Start([], [])
  {
  }

  /** Without a counted pod a running role fails, and all indices are missing. */
  lemma NoPodIsLost(spec: RoleSpec, down: set<string>)
    requires IsNeverSpec(spec) && spec.replicas == 1
    ensures GetRolePhase(spec, Count(spec.policy, down, []), Running) == RolePhase.Failed
    ensures ExtractFailedReason(down, [], 1) == MissingReason([0])
  {
    assert Filter([], ALIVE) == [];
    assert MissingIndices(IndexLabels([]), 0) == [];
  }

  /** The restart policy of a role of one replica is changed to Never while an
      old pod is terminating and its successor runs.  Both are at index 0, so
      neither is counted, the running role fails, and the reason names index 0
      as missing. */
  lemma CrowdedIndexIsNamed(inp: Inputs, role: Role, p: Pod, q: Pod, down: set<string>)
    requires IsNeverSpec(inp.spec) && inp.spec.replicas == 1 && inp.phase == Running
    requires MatchesRole(p.labels, role) && MatchesRole(q.labels, role)
    requires PodIndex(p.labels) == Some(0) && PodIndex(q.labels) == Some(0)
    requires p.deleting && !q.deleting && q.phase == PodRunning
    ensures PhaseAfter(inp.spec, Pass(inp, role, [p, q], []), down, inp.phase) == RolePhase.Failed
    ensures ReasonAfter(inp, role, [p, q], down) == MissingReason([0])
  {
    BothInBucket(inp.spec, role, p, q);
    CrowdedPassCountsNone(inp, [[p, q]]);
    NoPodIsLost(inp.spec, down);
  }
}
