/** A restarting role settles on exactly the indices below its replicas.

    A pass fills the gaps past the replicas that lie below the largest index,
    so the indices may get worse before they get better; what falls is the
    largest index. */
module Convergence {
  import opened Decimal
  import opened Api
  import opened Pods
  import opened RolePhases
  import opened PodPass

  /** The indices of the pods, as often as they occur. */
  function Places(pods: seq<Pod>): multiset<int> {
    if pods == [] then multiset{}
    else
      var index := PodIndex(pods[|pods| - 1].labels);
      Places(pods[..|pods| - 1]) + if index.Some? then multiset{index.value} else multiset{}
  }

  /** The indices at which the calls made a pod, and those at which they
      deleted one. */
  function Made(calls: seq<Call>): multiset<int> {
    if calls == [] then multiset{}
    else
      var last := calls[|calls| - 1];
      Made(calls[..|calls| - 1])
      + if last.CreateCall? && last.reply == Accepted then multiset{last.index} else multiset{}
  }

  function Unmade(calls: seq<Call>): multiset<int> {
    if calls == [] then multiset{}
    else
      var last := calls[|calls| - 1];
      Unmade(calls[..|calls| - 1])
      + if last.DeleteCall? && last.ok && PodIndex(last.pod.labels).Some?
        then multiset{PodIndex(last.pod.labels).value} else multiset{}
  }

  lemma CallsSnoc(calls: seq<Call>, call: Call)
    ensures Made(calls + [call])
         == Made(calls) + if call.CreateCall? && call.reply == Accepted then multiset{call.index} else multiset{}
    ensures Unmade(calls + [call])
         == Unmade(calls) + if call.DeleteCall? && call.ok && PodIndex(call.pod.labels).Some?
                            then multiset{PodIndex(call.pod.labels).value} else multiset{}
  {
    assert (calls + [call])[..|calls|] == calls;
  }

  /** The pods of the role that a pass sorts into buckets. */
  function Mine(restart: RestartPolicy, role: Role, listed: seq<Pod>): seq<Pod> {
    Reconciling(restart, Filter(listed, OfRole(role)))
  }

  /** No negative index, no pod to restart, and no two pods at one index. */
  ghost predicate Healthy(inp: Inputs, pods: seq<Pod>) {
    && (forall p <- pods :: IndexNotNegative(p.labels) && !MustRestart(inp, p))
    && forall k :: Places(pods)[k] <= 1
  }

  /** The API server does what it is asked. */
  ghost predicate Obliging(script: Script) {
    forall n :: script(n) == Reply(Accepted, true)
  }

  lemma {:induction false} BucketSize(pods: seq<Pod>, k: int)
    ensures |Bucket(pods, k)| == Places(pods)[k]
  {
    if pods != [] {
      BucketSize(pods[..|pods| - 1], k);
    }
  }

  lemma {:induction false} PlacesFit(pods: seq<Pod>, k: int)
    requires forall p <- pods :: IndexNotNegative(p.labels)
    requires Places(pods)[k] > 0
    ensures 0 <= k <= MaxIndex(pods)
  {
    BucketSize(pods, k);
    var p := Bucket(pods, k)[0];
    assert p in Bucket(pods, k);
  }

  lemma MaxIsPlace(pods: seq<Pod>)
    requires MaxIndex(pods) > 0
    ensures Places(pods)[MaxIndex(pods)] > 0
  {
    var m := MaxIndex(pods);
    BucketSize(pods, m);
    var p :| p in pods && PodIndex(p.labels) == Some(m);
    assert p in Bucket(pods, m);
  }

  // ----- One pass -----

  /** What a bucket should make the pass do. */
  predicate MakesAt(slices: seq<seq<Pod>>, j: int) {
    0 <= j < |slices| && slices[j] == []
  }

  predicate UnmakesAt(slices: seq<seq<Pod>>, replicas: nat, j: int) {
    replicas <= j < |slices| && |slices[j]| == 1
  }

  /** Buckets of at most one pod, each at its index and not to be restarted. */
  predicate Tidy(inp: Inputs, slices: seq<seq<Pod>>) {
    forall j: nat | j < |slices| ::
      |slices[j]| <= 1 && forall p <- slices[j] :: PodIndex(p.labels) == Some(j) && !MustRestart(inp, p)
  }

  lemma TidyCreate(inp: Inputs, acc: Acc, k: nat)
    requires inp.spec.restart != Never && Obliging(inp.script) && !acc.failed
    ensures var acc' := Process(inp, acc, k, []);
            && !acc'.failed
            && Made(acc'.calls) == Made(acc.calls) + multiset{k} && Unmade(acc'.calls) == Unmade(acc.calls)
  {
    assert inp.script(|acc.calls|) == Reply(Accepted, true);
    CallsSnoc(acc.calls, CreateCall(k, Accepted));
  }

  lemma TidyDelete(inp: Inputs, acc: Acc, k: nat, bucket: seq<Pod>)
    requires Obliging(inp.script) && !acc.failed
    requires |bucket| == 1 && PodIndex(bucket[0].labels) == Some(k) && !MustRestart(inp, bucket[0])
    ensures var acc' := Process(inp, acc, k, bucket);
            && !acc'.failed
            && Made(acc'.calls) == Made(acc.calls)
            && Unmade(acc'.calls) == Unmade(acc.calls) + if k >= inp.spec.replicas then multiset{k} else multiset{}
  {
    assert inp.script(|acc.calls|) == Reply(Accepted, true);
    CallsSnoc(acc.calls, DeleteCall(bucket[0], true));
  }

  lemma TidyStep(inp: Inputs, slices: seq<seq<Pod>>, acc: Acc, k: nat, j: int)
    requires inp.spec.restart != Never && Tidy(inp, slices) && Obliging(inp.script) && k < |slices| && !acc.failed
    ensures var acc' := Process(inp, acc, k, slices[k]);
            && !acc'.failed
            && Made(acc'.calls)[j] == Made(acc.calls)[j] + (if j == k && MakesAt(slices, j) then 1 else 0)
            && Unmade(acc'.calls)[j]
               == Unmade(acc.calls)[j] + (if j == k && UnmakesAt(slices, inp.spec.replicas, j) then 1 else 0)
  {
    if slices[k] == [] {
      TidyCreate(inp, acc, k);
    } else {
      assert slices[k][0] in slices[k];
      TidyDelete(inp, acc, k, slices[k]);
    }
  }

  /** What the first `k` buckets come to at index `j`. */
  predicate CallsAt(slices: seq<seq<Pod>>, replicas: nat, k: nat, j: int, acc: Acc) {
    && !acc.failed
    && Made(acc.calls)[j] == (if j < k && MakesAt(slices, j) then 1 else 0)
    && Unmade(acc.calls)[j] == (if j < k && UnmakesAt(slices, replicas, j) then 1 else 0)
  }

  lemma CallsAtStep(inp: Inputs, slices: seq<seq<Pod>>, acc: Acc, k: nat, j: int)
    requires inp.spec.restart != Never && Tidy(inp, slices) && Obliging(inp.script) && k < |slices|
    requires CallsAt(slices, inp.spec.replicas, k, j, acc)
    ensures CallsAt(slices, inp.spec.replicas, k + 1, j, Process(inp, acc, k, slices[k]))
  {
    TidyStep(inp, slices, acc, k, j);
  }

  /** The pass creates at the empty buckets and deletes at the full ones past
      the replicas, once each, and does nothing else. */
  lemma {:induction false} TidyPassCalls(inp: Inputs, slices: seq<seq<Pod>>, k: nat, start: Acc, j: int)
    requires inp.spec.restart != Never && Tidy(inp, slices) && Obliging(inp.script) && k <= |slices|
    requires start.calls == [] && !start.failed
    ensures CallsAt(slices, inp.spec.replicas, k, j, After(inp, slices, k, start))
  {
    if k == 0 {
      assert start.calls == [];
    } else {
      TidyPassCalls(inp, slices, k - 1, start, j);
      CallsAtStep(inp, slices, After(inp, slices, k - 1, start), k - 1, j);
    }
  }

  lemma HealthyIsTidy(inp: Inputs, pods: seq<Pod>)
    requires Healthy(inp, pods)
    ensures Tidy(inp, PodSlices(pods, inp.spec.replicas))
  {
    forall j: nat | j < SliceSize(pods, inp.spec.replicas) ensures |Bucket(pods, j)| <= 1 {
      BucketSize(pods, j);
    }
  }

  /** The indices a pass leaves behind on pods as it saw them: every index below
      the replicas, and past them the gaps instead of the pods. */
  ghost predicate PlacesAfter(pods: seq<Pod>, replicas: nat, places: multiset<int>) {
    forall k ::
      places[k] == if 0 <= k < replicas then 1
                   else if replicas <= k <= MaxIndex(pods) && Places(pods)[k] == 0 then 1
                   else 0
  }

  /** One round on a fresh view: a pass over the role, all of whose calls take
      effect before the next listing, in which nothing else about the indices
      has changed and no pod is failing. */
  ghost predicate Round(inp: Inputs, role: Role, listed: seq<Pod>, listed': seq<Pod>) {
    var calls := Pass(inp, role, listed, []).calls;
    && Obliging(inp.script)
    && (forall p <- Mine(inp.spec.restart, role, listed') :: IndexNotNegative(p.labels))
    && Places(Mine(inp.spec.restart, role, listed'))
       == Places(Mine(inp.spec.restart, role, listed)) - Unmade(calls) + Made(calls)
  }

  /** What one round does to the indices; no error ends its pass. */
  lemma RoundPlaces(inp: Inputs, role: Role, listed: seq<Pod>, listed': seq<Pod>)
    requires inp.spec.restart != Never && inp.spec.replicas > 0
    requires Healthy(inp, Mine(inp.spec.restart, role, listed)) && Round(inp, role, listed, listed')
    ensures !Pass(inp, role, listed, []).failed
    ensures PlacesAfter(Mine(inp.spec.restart, role, listed), inp.spec.replicas,
                        Places(Mine(inp.spec.restart, role, listed')))
  {
    var pods, pods' := Mine(inp.spec.restart, role, listed), Mine(inp.spec.restart, role, listed');
    var slices := RoleSlices(inp.spec, role, listed);
    HealthyIsTidy(inp, pods);
    forall k
      ensures !Pass(inp, role, listed, []).failed
      ensures Places(pods')[k] == if 0 <= k < inp.spec.replicas then 1
                                  else if inp.spec.replicas <= k <= MaxIndex(pods) && Places(pods)[k] == 0 then 1 else 0
    {
      TidyPassCalls(inp, slices, |slices|, Start([], RoleUncontrolled(inp.spec, role, listed)), k);
      PlaceAfterRound(inp, pods, k);
    }
  }

  lemma PlaceAfterRound(inp: Inputs, pods: seq<Pod>, k: int)
    requires Healthy(inp, pods)
    ensures var slices := PodSlices(pods, inp.spec.replicas);
            && (MakesAt(slices, k) <==> 0 <= k < |slices| && Places(pods)[k] == 0)
            && (UnmakesAt(slices, inp.spec.replicas, k) <==> inp.spec.replicas <= k < |slices| && Places(pods)[k] == 1)
            && (Places(pods)[k] > 0 ==> 0 <= k <= MaxIndex(pods))
  {
    BucketSize(pods, k);
    if Places(pods)[k] > 0 {
      PlacesFit(pods, k);
    }
  }

  // ----- Many passes -----

  /** A round of a role of the given spec, in which no pod is failing. */
  ghost predicate RoundOf(spec: RoleSpec, role: Role, inp: Inputs, listed: seq<Pod>, listed': seq<Pod>) {
    && inp.spec == spec && Round(inp, role, listed, listed')
    && forall p <- Mine(spec.restart, role, listed) :: !MustRestart(inp, p)
  }

  /** A list of pods that the rounds may start from. */
  ghost predicate OnePerPlace(pods: seq<Pod>) {
    (forall p <- pods :: IndexNotNegative(p.labels)) && forall k :: Places(pods)[k] <= 1
  }

  /** A sequence of rounds over the role; its spec is fixed, the rest of what a
      pass depends on is not. */
  ghost predicate Rounds(spec: RoleSpec, role: Role, inps: seq<Inputs>, lists: seq<seq<Pod>>) {
    && |lists| == |inps| + 1
    && spec.restart != Never && spec.replicas > 0
    && OnePerPlace(Mine(spec.restart, role, lists[0]))
    && forall i | 0 <= i < |inps| :: RoundOf(spec, role, inps[i], lists[i], lists[i + 1])
  }

  /** The largest index of the role. */
  function Largest(spec: RoleSpec, role: Role, listed: seq<Pod>): nat {
    MaxIndex(Mine(spec.restart, role, listed))
  }

  /** The termination measure: while some index is past the replicas, the
      largest one falls; and it stays below the replicas once it is. */
  lemma MaxFalls(pods: seq<Pod>, replicas: nat, pods': seq<Pod>)
    requires replicas > 0 && PlacesAfter(pods, replicas, Places(pods')) && OnePerPlace(pods)
    ensures MaxIndex(pods) >= replicas ==> MaxIndex(pods') < MaxIndex(pods)
    ensures MaxIndex(pods) < replicas ==> MaxIndex(pods') < replicas
  {
    var m, m' := MaxIndex(pods), MaxIndex(pods');
    if m' >= replicas {
      MaxIsPlace(pods');
      assert Places(pods')[m'] > 0 && Places(pods)[m'] == 0 && m' <= m;
      if m' == m {
        MaxIsPlace(pods);
      }
    }
  }

  lemma OneRound(spec: RoleSpec, role: Role, inp: Inputs, listed: seq<Pod>, listed': seq<Pod>)
    requires RoundOf(spec, role, inp, listed, listed') && spec.restart != Never && spec.replicas > 0
    requires OnePerPlace(Mine(spec.restart, role, listed))
    ensures OnePerPlace(Mine(spec.restart, role, listed'))
    ensures PlacesAfter(Mine(spec.restart, role, listed), spec.replicas, Places(Mine(spec.restart, role, listed')))
    ensures Largest(spec, role, listed) >= spec.replicas ==> Largest(spec, role, listed') < Largest(spec, role, listed)
    ensures Largest(spec, role, listed) < spec.replicas ==> Largest(spec, role, listed') < spec.replicas
  {
    RoundPlaces(inp, role, listed, listed');
    MaxFalls(Mine(spec.restart, role, listed), spec.replicas, Mine(spec.restart, role, listed'));
  }

  /** The largest index falls with every round until it is a wanted one. */
  lemma {:induction false} LargestAfter(spec: RoleSpec, role: Role, inps: seq<Inputs>, lists: seq<seq<Pod>>, t: nat)
    requires Rounds(spec, role, inps, lists) && t <= |inps|
    ensures OnePerPlace(Mine(spec.restart, role, lists[t]))
    ensures Largest(spec, role, lists[t]) <= Max(spec.replicas - 1, Largest(spec, role, lists[0]) - t)
  {
    if t > 0 {
      LargestAfter(spec, role, inps, lists, t - 1);
      assert RoundOf(spec, role, inps[t - 1], lists[t - 1], lists[t]);
      OneRound(spec, role, inps[t - 1], lists[t - 1], lists[t]);
    }
  }

  /** Exactly one pod at each index below the replicas, and none elsewhere. */
  ghost predicate Converged(spec: RoleSpec, pods: seq<Pod>) {
    forall k :: Places(pods)[k] == if 0 <= k < spec.replicas then 1 else 0
  }

  lemma LargestInRangeConverges(spec: RoleSpec, pods: seq<Pod>, pods': seq<Pod>)
    requires PlacesAfter(pods, spec.replicas, Places(pods')) && OnePerPlace(pods') && MaxIndex(pods') < spec.replicas
    ensures Converged(spec, pods')
  {
    forall k ensures Places(pods')[k] == if 0 <= k < spec.replicas then 1 else 0 {
      if Places(pods')[k] > 0 {
        PlacesFit(pods', k);
      }
    }
  }

  /** As many passes as the largest index exceeds the last wanted one, and at
      least one, leave exactly the wanted indices, and so does every later
      pass. */
  lemma Converges(spec: RoleSpec, role: Role, inps: seq<Inputs>, lists: seq<seq<Pod>>, t: nat)
    requires Rounds(spec, role, inps, lists) && 0 < t <= |inps|
    requires t > Largest(spec, role, lists[0]) - spec.replicas
    ensures Converged(spec, Mine(spec.restart, role, lists[t]))
  {
    LargestAfter(spec, role, inps, lists, t);
    LargestAfter(spec, role, inps, lists, t - 1);
    assert RoundOf(spec, role, inps[t - 1], lists[t - 1], lists[t]);
    OneRound(spec, role, inps[t - 1], lists[t - 1], lists[t]);
    LargestInRangeConverges(spec, Mine(spec.restart, role, lists[t - 1]), Mine(spec.restart, role, lists[t]));
  }

  /** Once converged a pass makes no call, whatever the API would answer, and
      recomputes the phase. */
  lemma ConvergedPassIsQuiet(inp: Inputs, role: Role, listed: seq<Pod>)
    requires inp.spec.restart != Never && inp.spec.replicas > 0
    requires Healthy(inp, Mine(inp.spec.restart, role, listed))
             && Converged(inp.spec, Mine(inp.spec.restart, role, listed))
    ensures Quiet(Pass(inp, role, listed, [])) && Pass(inp, role, listed, []).calls == []
  {
    var pods, slices := Mine(inp.spec.restart, role, listed), RoleSlices(inp.spec, role, listed);
    HealthyIsTidy(inp, pods);
    if MaxIndex(pods) > 0 {
      MaxIsPlace(pods);
    }
    forall j: nat | j < |slices| ensures QuietBucket(inp, j, slices[j]) {
      BucketSize(pods, j);
      assert slices[j][0] in slices[j];
    }
    QuietPass(inp, slices, |slices|, Start([], RoleUncontrolled(inp.spec, role, listed)));
  }

  lemma RunningBuckets(inp: Inputs, pods: seq<Pod>, down: set<string>, i: nat)
    requires inp.spec.restart != Never && !inp.spec.policy.nodeDownAsFailed && i < inp.spec.replicas
    requires Converged(inp.spec, pods) && forall p <- pods :: p.phase == PodRunning && !p.deleting
    ensures HoldsOneIn(inp.spec.policy, down, PodSlices(pods, inp.spec.replicas)[i], AsActive)
  {
    BucketSize(pods, i);
    assert Bucket(pods, i)[0] in Bucket(pods, i);
  }

  /** A role all of whose pods run is Running. */
  lemma FullOfRunning(spec: RoleSpec, c: Counters, last: RolePhase)
    requires spec.replicas > 0 && Actual(c) <= spec.replicas <= c.active
    ensures GetRolePhase(spec, c, last) == Running
  {
  }

  lemma RunningRoleIsFull(inp: Inputs, role: Role, listed: seq<Pod>, down: set<string>)
    requires inp.spec.restart != Never && !inp.spec.policy.nodeDownAsFailed
    requires Converged(inp.spec, Mine(inp.spec.restart, role, listed))
    requires forall p <- Mine(inp.spec.restart, role, listed) :: p.phase == PodRunning && !p.deleting
    ensures forall i: nat | i < inp.spec.replicas ::
              HoldsOneIn(inp.spec.policy, down, RoleSlices(inp.spec, role, listed)[i], AsActive)
  {
    forall i: nat | i < inp.spec.replicas
      ensures HoldsOneIn(inp.spec.policy, down, RoleSlices(inp.spec, role, listed)[i], AsActive)
    {
      RunningBuckets(inp, Mine(inp.spec.restart, role, listed), down, i);
    }
  }

  /** And if the pods at those indices all run, the role runs. */
  lemma ConvergedRoleRuns(inp: Inputs, role: Role, listed: seq<Pod>, down: set<string>)
    requires inp.spec.restart != Never && inp.spec.replicas > 0 && !inp.spec.policy.nodeDownAsFailed
    requires Healthy(inp, Mine(inp.spec.restart, role, listed))
             && Converged(inp.spec, Mine(inp.spec.restart, role, listed))
    requires forall p <- Mine(inp.spec.restart, role, listed) :: p.phase == PodRunning
    ensures PhaseAfter(inp.spec, Pass(inp, role, listed, []), down, inp.phase) == Running
  {
    ConvergedPassIsQuiet(inp, role, listed);
    RunningRoleIsFull(inp, role, listed, down);
    CountersMeanIndices(inp, role, listed, [], down, AsActive);
    FullOfRunning(inp.spec, Count(inp.spec.policy, down, Pass(inp, role, listed, []).validated), inp.phase);
  }
}
