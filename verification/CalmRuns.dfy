/** The convergence of a restarting role, in runs of the cluster.

    A calm round is a pass begun on a fresh cache in which the API server does
    what it is asked and pods only change phase, followed by whatever events it
    takes for the cache to be fresh again. */
module CalmRuns {
  import opened Decimal
  import opened Api
  import opened Pods
  import opened PodPass
  import opened Cluster
  import opened ClusterSafety
  import opened NeverRole
  import opened NeverRun
  import opened Convergence

  /** The informer has told all there is. */
  predicate Fresh(st: Store) {
    st.view == st.cluster && st.unseen == {}
  }

  /** The living pods of the API server at a place. */
  function LivingAt(st: Store, role: Role, j: int): set<Uid> {
    set u | u in st.cluster && u in st.born && !st.cluster[u].deleting && RoleOf(st, u) == role
      && IndexOf(st, u) == Some(j)
  }

  ghost predicate SamePlaces(st: Store, st': Store, role: Role) {
    forall j :: LivingAt(st', role, j) == LivingAt(st, role, j)
  }

  /** No pod is in two roles by its two role labels. */
  ghost predicate Plain(labels: Labels) {
    forall role :: OwnLabels(labels, role)
  }

  ghost predicate AllPlain(st: Store) {
    forall u <- st.born :: Plain(st.born[u].labels)
  }

  // ----- Living pods and listings -----

  function UidsOf(pods: seq<Pod>): set<Uid> {
    set p | p in pods :: p.uid
  }

  const DIFFERENT_UIDS: (Pod, Pod) -> bool := (p: Pod, q: Pod) => p.uid != q.uid

  lemma {:induction false} UidsCount(pods: seq<Pod>)
    requires AllApart(pods, DIFFERENT_UIDS)
    ensures |UidsOf(pods)| == |pods|
  {
    if pods != [] {
      var front, last := pods[..|pods| - 1], pods[|pods| - 1];
      UidsCount(front);
      assert forall i | 0 <= i < |front| :: front[i] == pods[i] && DIFFERENT_UIDS(pods[i], last);
      UidsSnoc(front, last);
      assert pods == front + [last];
    }
  }

  lemma UidsSnoc(front: seq<Pod>, last: Pod)
    requires forall i | 0 <= i < |front| :: front[i].uid != last.uid
    ensures |UidsOf(front + [last])| == |UidsOf(front)| + 1
  {
    forall u ensures u in UidsOf(front + [last]) <==> u in UidsOf(front) || u == last.uid {
      if u in UidsOf(front) {
        var p :| p in front && p.uid == u;
        assert p in front + [last];
      }
      assert last in front + [last];
    }
    assert UidsOf(front + [last]) == UidsOf(front) + {last.uid};
  }

  lemma BucketMember(restart: RestartPolicy, role: Role, listed: seq<Pod>, j: int, p: Pod)
    requires restart != Never
    ensures p in Bucket(Mine(restart, role, listed), j)
            <==> p in listed && IsMine(p, role) && PodIndex(p.labels) == Some(j)
  {
  }

  lemma MineAtPlace(st: Store, restart: RestartPolicy, role: Role, listed: seq<Pod>, j: int)
    requires Consistent(st) && AllPlain(st) && Fresh(st) && Lists(listed, st.view) && restart != Never
    ensures UidsOf(Bucket(Mine(restart, role, listed), j)) == LivingAt(st, role, j)
  {
    var bucket := Bucket(Mine(restart, role, listed), j);
    forall p | p in bucket ensures p.uid in LivingAt(st, role, j) {
      BucketMember(restart, role, listed, j, p);
      PlaceIsBorn(st, p, role);
    }
    forall u | u in LivingAt(st, role, j) ensures u in UidsOf(bucket) {
      var p := st.view[u];
      PlaceIsBorn(st, p, role);
      BucketMember(restart, role, listed, j, p);
    }
  }

  lemma PlaceIsBorn(st: Store, p: Pod, role: Role)
    requires Consistent(st) && AllPlain(st) && p.uid in st.view && st.view[p.uid] == p
    ensures p.uid in st.born && GetReplicaType(p.labels) == RoleOf(st, p.uid)
            && PodIndex(p.labels) == IndexOf(st, p.uid)
    ensures MatchesRole(p.labels, role) <==> RoleOf(st, p.uid) == role
  {
    SamePlaceAgrees(st.born[p.uid].labels, p.labels);
    assert OwnLabels(st.born[p.uid].labels, role);
  }

  /** On a fresh cache a listing shows as many pods at a place as live there. */
  lemma LivingIsListed(st: Store, restart: RestartPolicy, role: Role, listed: seq<Pod>, j: int)
    requires Consistent(st) && AllPlain(st) && Fresh(st) && Lists(listed, st.view) && restart != Never
    ensures Places(Mine(restart, role, listed))[j] == |LivingAt(st, role, j)|
  {
    var mine := Mine(restart, role, listed);
    MineAtPlace(st, restart, role, listed, j);
    FilterKeepsApart(listed, OfRole(role), DIFFERENT_UIDS);
    FilterKeepsApart(Filter(listed, OfRole(role)), ALIVE, DIFFERENT_UIDS);
    FilterKeepsApart(mine, AtIndex(j), DIFFERENT_UIDS);
    UidsCount(Bucket(mine, j));
    BucketSize(mine, j);
  }

  // ----- A calm round -----

  /** What a round is about. */
  datatype Subject = Subject(role: Role, inp: Inputs, base: Store, snapshot: seq<Pod>)

  /** Events that do not trouble the role: a pod only changes phase, vanishes
      only once it is terminating, and its own loop runs on the given inputs. */
  ghost predicate IsCalm(s: State, e: Event, sub: Subject) {
    match e
    case PodChanges(p) => p.uid in s.pods.cluster ==> p.deleting == s.pods.cluster[p.uid].deleting
    case PodVanishes(u) => u in s.pods.cluster ==> s.pods.cluster[u].deleting
    case BeginRole(retryable, script) =>
      s.ctl.InPass? && s.ctl.todo != [] && s.ctl.todo[0] == sub.role && s.ctl.todo[0] in s.ctl.specs ==>
        FirstLoop(s.ctl, retryable, script).inp == sub.inp
    case BeginPass(_, _, _) => false
    case AbortPass => false
    case _ => true
  }

  /** The snapshot shows pods where they were born. */
  ghost predicate Placed(st: Store, snapshot: seq<Pod>) {
    forall p <- snapshot :: p.uid in st.born && PlaceOf(p.labels) == PlaceOf(st.born[p.uid].labels)
  }

  predicate IsMine(p: Pod, role: Role) {
    MatchesRole(p.labels, role) && !p.deleting
  }

  /** The living pods are those there were, with the calls carried out. */
  ghost predicate Balanced(st: Store, sub: Subject, calls: seq<Call>) {
    forall j :: BalancedAt(st, sub, calls, j)
  }

  ghost predicate BalancedAt(st: Store, sub: Subject, calls: seq<Call>, j: int) {
    |LivingAt(st, sub.role, j)| + Unmade(calls)[j] == |LivingAt(sub.base, sub.role, j)| + Made(calls)[j]
  }

  /** The listed pods of the buckets from `k` on still live. */
  ghost predicate Untouched(st: Store, sub: Subject, k: int) {
    forall p <- sub.snapshot :: IsMine(p, sub.role) ==> UntouchedPod(st, sub, k, p)
  }

  predicate UntouchedPod(st: Store, sub: Subject, k: int, p: Pod) {
    PodIndex(p.labels).Some? && PodIndex(p.labels).value >= k ==>
        p.uid in LivingAt(st, sub.role, PodIndex(p.labels).value)
  }

  function Slices(sub: Subject): seq<seq<Pod>> {
    RoleSlices(sub.inp.spec, sub.role, sub.snapshot)
  }

  function PassCalls(sub: Subject): seq<Call> {
    Pass(sub.inp, sub.role, sub.snapshot, []).calls
  }

  /** The role's loop is the one `PodPass` defines, and its calls so far are
      what has changed. */
  ghost predicate TracksLoop(st: Store, sub: Subject, l: RoleLoop) {
    && l.inp == sub.inp && l.slices == Slices(sub) && l.k <= |l.slices|
    && l.acc == After(l.inp, l.slices, l.k, Start([], RoleUncontrolled(l.inp.spec, sub.role, sub.snapshot)))
    && Balanced(st, sub, l.acc.calls) && Untouched(st, sub, l.k)
  }

  /** How far the pass has come with the role. */
  ghost predicate Tracks(st: Store, ctl: Control, sub: Subject) {
    if InLoop(ctl, sub.role) then TracksLoop(st, sub, ctl.loop.value)
    else if IsPending(ctl, sub.role) then Balanced(st, sub, []) && Untouched(st, sub, 0)
    else Balanced(st, sub, PassCalls(sub))
  }

  /** The other roles' loops work on the same listing. */
  ghost predicate OnSnapshot(ctl: Control, sub: Subject) {
    ctl.InPass? ==>
      && ctl.snapshot == sub.snapshot && Distinct(ctl.todo)
      && (ctl.loop.Some? ==>
            && ctl.loop.value.role !in ctl.todo
            && ctl.loop.value.slices == RoleSlices(ctl.loop.value.inp.spec, ctl.loop.value.role, sub.snapshot))
  }

  /** No creation of the role has an open answer. */
  predicate NoneInFlight(st: Store, role: Role) {
    forall u <- st.inflight :: u in st.born && RoleOf(st, u) != role
  }

  ghost predicate CalmInv(s: State, sub: Subject) {
    && AllPlain(s.pods) && Placed(s.pods, sub.snapshot)
    && NoneInFlight(s.pods, sub.role)
    && OnSnapshot(s.ctl, sub) && Tracks(s.pods, s.ctl, sub)
  }

  lemma SamePlacesBalanced(st: Store, st': Store, sub: Subject, calls: seq<Call>)
    requires SamePlaces(st, st', sub.role) && Balanced(st, sub, calls)
    ensures Balanced(st', sub, calls)
  {
    forall j ensures BalancedAt(st', sub, calls, j) {
      assert BalancedAt(st, sub, calls, j);
    }
  }

  lemma SamePlacesUntouched(st: Store, st': Store, sub: Subject, k: int)
    requires SamePlaces(st, st', sub.role) && Untouched(st, sub, k)
    ensures Untouched(st', sub, k)
  {
    forall p | p in sub.snapshot && IsMine(p, sub.role) ensures UntouchedPod(st', sub, k, p) {
      assert UntouchedPod(st, sub, k, p);
    }
  }

  lemma SamePlacesTracks(st: Store, st': Store, ctl: Control, sub: Subject)
    requires Tracks(st, ctl, sub) && SamePlaces(st, st', sub.role)
    ensures Tracks(st', ctl, sub)
  {
    if InLoop(ctl, sub.role) {
      SamePlacesBalanced(st, st', sub, ctl.loop.value.acc.calls);
      SamePlacesUntouched(st, st', sub, ctl.loop.value.k);
    } else if IsPending(ctl, sub.role) {
      SamePlacesBalanced(st, st', sub, []);
      SamePlacesUntouched(st, st', sub, 0);
    } else {
      SamePlacesBalanced(st, st', sub, PassCalls(sub));
    }
  }

  lemma EnvironmentSamePlaces(s: State, e: Event, st': Store, sub: Subject)
    requires Consistent(s.pods) && IsEnvironment(e) && Environment(s.pods, e, st') && IsCalm(s, e, sub)
    requires NoneInFlight(s.pods, sub.role)
    ensures SamePlaces(s.pods, st', sub.role)
  {
    match e
    case PodChanges(p) => ChangeSamePlaces(s.pods, p, sub.role);
    case Lands(u) => LandingSamePlaces(s.pods, u, st', sub.role);
    case PodVanishes(u) => VanishingSamePlaces(s.pods, u, sub.role);
    case SeesAdd(_) => SightSamePlaces(s.pods, st', sub.role);
    case SeesUpdate(_) => SightSamePlaces(s.pods, st', sub.role);
    case SeesDelete(_) => SightSamePlaces(s.pods, st', sub.role);
  }

  lemma VanishingSamePlaces(st: Store, u: Uid, role: Role)
    requires u in st.cluster && st.cluster[u].deleting
    ensures SamePlaces(st, st.(cluster := st.cluster - {u}), role)
  {
  }

  lemma SightSamePlaces(st: Store, st': Store, role: Role)
    requires st'.cluster == st.cluster && st'.born == st.born
    ensures SamePlaces(st, st', role)
  {
  }

  lemma ChangeSamePlaces(st: Store, p: Pod, role: Role)
    requires Consistent(st) && p.uid in st.cluster && p.deleting == st.cluster[p.uid].deleting
    ensures SamePlaces(st, st.(cluster := st.cluster[p.uid := p]), role)
  {
  }

  lemma LandingSamePlaces(st: Store, u: Uid, st': Store, role: Role)
    requires Consistent(st) && Environment(st, Lands(u), st') && NoneInFlight(st, role)
    ensures SamePlaces(st, st', role)
  {
  }

  lemma EnvironmentKeepsCalm(s: State, e: Event, s': State, sub: Subject)
    requires Consistent(s.pods) && CalmInv(s, sub) && IsEnvironment(e) && Step(s, e, s') && IsCalm(s, e, sub)
    ensures CalmInv(s', sub)
  {
    EnvironmentSamePlaces(s, e, s'.pods, sub);
    SamePlacesTracks(s.pods, s'.pods, s.ctl, sub);
  }

  // ----- Buckets -----

  lemma LivingAfterCreation(st: Store, reply: CreateReply, made: Pod, role: Role, k: nat, mine: Role, j: int)
    requires Consistent(st) && IsNewPod(st, made, role, k)
    ensures LivingAt(Created(st, reply, made), mine, j)
         == LivingAt(st, mine, j) + if reply == Accepted && mine == role && j == k then {made.uid} else {}
    ensures made.uid !in LivingAt(st, mine, j)
  {
  }

  lemma LivingAfterDeletion(st: Store, u: Uid, mine: Role, j: int)
    requires Consistent(st)
    ensures LivingAt(Deleted(st, u), mine, j) == LivingAt(st, mine, j) - {u}
  {
  }

  /** What a step from one bucket to the next is. */
  lemma BucketStep(s: State, made: Pod, s': State)
    requires Step(s, NextBucket(made), s')
    ensures s.ctl.InPass? && s.ctl.loop.Some? && s.ctl.loop.value.k < |s.ctl.loop.value.slices|
    ensures var l := s.ctl.loop.value;
            var acc := Process(l.inp, l.acc, l.k, l.slices[l.k]);
            && !l.acc.failed && (WillCreate(l) ==> IsNewPod(s.pods, made, l.role, l.k))
            && s'.pods == BucketEffect(s.pods, l, acc, made)
            && s'.ctl == s.ctl.(loop := Some(l.(k := l.k + 1, acc := acc)))
  {
  }

  /** A bucket of another role. */
  lemma OtherBucketSamePlaces(st: Store, l: RoleLoop, acc: Acc, made: Pod, sub: Subject)
    requires Consistent(st) && AllPlain(st) && Placed(st, sub.snapshot) && l.role != sub.role && l.k < |l.slices|
    requires l.slices == RoleSlices(l.inp.spec, l.role, sub.snapshot)
    requires WillCreate(l) ==> IsNewPod(st, made, l.role, l.k)
    ensures SamePlaces(st, BucketEffect(st, l, acc, made), sub.role)
  {
    if WillCreate(l) {
      forall j {
        LivingAfterCreation(st, l.inp.script(|l.acc.calls|).create, made, l.role, l.k, sub.role, j);
      }
    } else if |l.slices[l.k]| == 1 {
      OtherPodSamePlaces(st, l, sub);
    }
  }

  lemma OtherPodSamePlaces(st: Store, l: RoleLoop, sub: Subject)
    requires Consistent(st) && AllPlain(st) && Placed(st, sub.snapshot) && l.role != sub.role
    requires l.slices == RoleSlices(l.inp.spec, l.role, sub.snapshot) && l.k < |l.slices| && |l.slices[l.k]| == 1
    ensures SamePlaces(st, Deleted(st, l.slices[l.k][0].uid), sub.role)
  {
    var p := l.slices[l.k][0];
    assert p in l.slices[l.k];
    SlicePodIsRoles(st, l.inp.spec, l.role, sub.snapshot, l.k, p);
    DeletionElsewhere(st, p.uid, sub.role);
  }

  lemma DeletionElsewhere(st: Store, u: Uid, role: Role)
    requires Consistent(st) && u in st.born && RoleOf(st, u) != role
    ensures SamePlaces(st, Deleted(st, u), role)
  {
    forall j ensures LivingAt(Deleted(st, u), role, j) == LivingAt(st, role, j) {
      LivingAfterDeletion(st, u, role, j);
    }
  }

  lemma SlicePodIsRoles(st: Store, spec: RoleSpec, role: Role, snapshot: seq<Pod>, k: nat, p: Pod)
    requires AllPlain(st) && Placed(st, snapshot)
    requires k < |RoleSlices(spec, role, snapshot)| && p in RoleSlices(spec, role, snapshot)[k]
    ensures p in snapshot && MatchesRole(p.labels, role) && PodIndex(p.labels) == Some(k)
    ensures p.uid in st.born && RoleOf(st, p.uid) == role && IndexOf(st, p.uid) == Some(k)
  {
    SamePlaceAgrees(p.labels, st.born[p.uid].labels);
    assert OwnLabels(st.born[p.uid].labels, role);
  }

  /** A bucket of the role itself that creates. */
  lemma CreationTracks(st: Store, sub: Subject, acc: Acc, made: Pod, k: nat)
    requires Consistent(st) && IsNewPod(st, made, sub.role, k) && !acc.failed
    requires sub.inp.spec.restart != Never && Obliging(sub.inp.script)
    requires Balanced(st, sub, acc.calls) && Untouched(st, sub, k)
    ensures Balanced(Created(st, Accepted, made), sub, Process(sub.inp, acc, k, []).calls)
    ensures Untouched(Created(st, Accepted, made), sub, k + 1)
  {
    var st' := Created(st, Accepted, made);
    TidyCreate(sub.inp, acc, k);
    forall j ensures BalancedAt(st', sub, Process(sub.inp, acc, k, []).calls, j) {
      assert BalancedAt(st, sub, acc.calls, j);
      LivingAfterCreation(st, Accepted, made, sub.role, k, sub.role, j);
    }
    forall p | p in sub.snapshot && IsMine(p, sub.role) ensures UntouchedPod(st', sub, k + 1, p) {
      assert UntouchedPod(st, sub, k, p);
      if PodIndex(p.labels).Some? {
        LivingAfterCreation(st, Accepted, made, sub.role, k, sub.role, PodIndex(p.labels).value);
      }
    }
  }

  /** A bucket of the role itself that deletes. */
  lemma DeletionTracks(st: Store, sub: Subject, acc: Acc, k: nat, bucket: seq<Pod>)
    requires Consistent(st) && !acc.failed && Obliging(sub.inp.script)
    requires |bucket| == 1 && PodIndex(bucket[0].labels) == Some(k) && !MustRestart(sub.inp, bucket[0])
    requires k >= sub.inp.spec.replicas && bucket[0].uid in LivingAt(st, sub.role, k)
    requires Balanced(st, sub, acc.calls) && Untouched(st, sub, k)
    ensures Balanced(Deleted(st, bucket[0].uid), sub, Process(sub.inp, acc, k, bucket).calls)
    ensures Untouched(Deleted(st, bucket[0].uid), sub, k + 1)
  {
    var calls := Process(sub.inp, acc, k, bucket).calls;
    TidyDelete(sub.inp, acc, k, bucket);
    forall j ensures BalancedAt(Deleted(st, bucket[0].uid), sub, calls, j) {
      DeletionBalances(st, sub, acc.calls, calls, k, bucket[0].uid, j);
    }
    forall p | p in sub.snapshot && IsMine(p, sub.role)
      ensures UntouchedPod(Deleted(st, bucket[0].uid), sub, k + 1, p)
    {
      assert UntouchedPod(st, sub, k, p);
      DeletionLeaves(st, sub, k, bucket[0].uid, p);
    }
  }

  lemma DeletionBalances(st: Store, sub: Subject, calls: seq<Call>, calls': seq<Call>, k: nat, u: Uid, j: int)
    requires Consistent(st) && BalancedAt(st, sub, calls, j) && u in LivingAt(st, sub.role, k)
    requires Made(calls') == Made(calls) && Unmade(calls') == Unmade(calls) + multiset{k}
    ensures BalancedAt(Deleted(st, u), sub, calls', j)
  {
    LivingAfterDeletion(st, u, sub.role, j);
    assert j != k ==> u !in LivingAt(st, sub.role, j);
  }

  lemma DeletionLeaves(st: Store, sub: Subject, k: nat, u: Uid, p: Pod)
    requires Consistent(st) && UntouchedPod(st, sub, k, p) && u in LivingAt(st, sub.role, k)
    ensures UntouchedPod(Deleted(st, u), sub, k + 1, p)
  {
    if PodIndex(p.labels).Some? {
      LivingAfterDeletion(st, u, sub.role, PodIndex(p.labels).value);
    }
  }

  lemma UntouchedLater(st: Store, sub: Subject, k: int)
    requires Untouched(st, sub, k)
    ensures Untouched(st, sub, k + 1)
  {
    forall p | p in sub.snapshot && IsMine(p, sub.role) ensures UntouchedPod(st, sub, k + 1, p) {
      assert UntouchedPod(st, sub, k, p);
    }
  }

  lemma OwnPodLives(st: Store, sub: Subject, k: nat)
    requires AllPlain(st) && Placed(st, sub.snapshot) && Untouched(st, sub, k) && sub.inp.spec.restart != Never
    requires k < |Slices(sub)| && |Slices(sub)[k]| == 1
    ensures Slices(sub)[k][0].uid in LivingAt(st, sub.role, k)
  {
    var p := Slices(sub)[k][0];
    assert p in Slices(sub)[k];
    SlicePodIsRoles(st, sub.inp.spec, sub.role, sub.snapshot, k, p);
    assert UntouchedPod(st, sub, k, p);
  }

  /** A bucket of the role itself, on distinct healthy pods. */
  lemma OwnBucketBalances(st: Store, sub: Subject, l: RoleLoop, made: Pod)
    requires Consistent(st) && AllPlain(st) && Placed(st, sub.snapshot)
    requires l.role == sub.role && l.inp == sub.inp && l.slices == Slices(sub) && l.k < |l.slices| && !l.acc.failed
    requires Balanced(st, sub, l.acc.calls) && Untouched(st, sub, l.k)
    requires WillCreate(l) ==> IsNewPod(st, made, l.role, l.k)
    requires sub.inp.spec.restart != Never && Obliging(sub.inp.script) && Tidy(sub.inp, Slices(sub))
    ensures var acc := Process(l.inp, l.acc, l.k, l.slices[l.k]);
            var st' := BucketEffect(st, l, acc, made);
            Balanced(st', sub, acc.calls) && Untouched(st', sub, l.k + 1)
  {
    EffectOnTidy(st, l, made);
    var bucket := l.slices[l.k];
    if bucket == [] {
      CreationTracks(st, sub, l.acc, made, l.k);
    } else {
      assert bucket[0] in bucket;
      if l.k >= sub.inp.spec.replicas {
        OwnPodLives(st, sub, l.k);
        DeletionTracks(st, sub, l.acc, l.k, bucket);
      } else {
        UntouchedLater(st, sub, l.k);
      }
    }
  }

  /** What a tidy bucket does to the pods, and that a kept pod takes no call. */
  lemma EffectOnTidy(st: Store, l: RoleLoop, made: Pod)
    requires l.inp.spec.restart != Never && Obliging(l.inp.script) && Tidy(l.inp, l.slices)
    requires l.k < |l.slices| && !l.acc.failed
    ensures var bucket := l.slices[l.k];
            var acc := Process(l.inp, l.acc, l.k, bucket);
            && BucketEffect(st, l, acc, made)
               == (if bucket == [] then Created(st, Accepted, made)
                   else if l.k >= l.inp.spec.replicas then Deleted(st, bucket[0].uid)
                   else st)
            && (bucket != [] && l.k < l.inp.spec.replicas ==> acc.calls == l.acc.calls)
  {
    assert l.inp.script(|l.acc.calls|) == Reply(Accepted, true);
    assert |l.slices[l.k]| <= 1;
    if l.slices[l.k] != [] {
      assert l.slices[l.k][0] in l.slices[l.k];
    }
  }

  lemma BucketKeepsBorn(s: State, made: Pod, s': State, sub: Subject)
    requires Consistent(s.pods) && AllPlain(s.pods) && Placed(s.pods, sub.snapshot) && Plain(made.labels)
    requires Step(s, NextBucket(made), s')
    ensures AllPlain(s'.pods) && Placed(s'.pods, sub.snapshot)
    ensures forall u <- s.pods.born :: u in s'.pods.born && s'.pods.born[u] == s.pods.born[u]
  {
    if WillCreate(s.ctl.loop.value) {
      CreateEffect(s, made, s');
    } else {
      KeptBucketMovesOn(s, made, s');
    }
  }

  lemma OwnBucketTracks(st: Store, sub: Subject, l: RoleLoop, made: Pod)
    requires Consistent(st) && AllPlain(st) && Placed(st, sub.snapshot) && TracksLoop(st, sub, l)
    requires l.role == sub.role && l.k < |l.slices| && !l.acc.failed
    requires WillCreate(l) ==> IsNewPod(st, made, l.role, l.k)
    requires sub.inp.spec.restart != Never && Obliging(sub.inp.script) && Tidy(sub.inp, Slices(sub))
    ensures var acc := Process(l.inp, l.acc, l.k, l.slices[l.k]);
            TracksLoop(BucketEffect(st, l, acc, made), sub, l.(k := l.k + 1, acc := acc))
  {
    OwnBucketBalances(st, sub, l, made);
    LoopMovesOn(l, Start([], RoleUncontrolled(sub.inp.spec, sub.role, sub.snapshot)));
  }

  /** Only a creation of another role, or none, can be left open. */
  lemma EffectKeepsFlight(st: Store, l: RoleLoop, acc: Acc, made: Pod, role: Role)
    requires Consistent(st) && NoneInFlight(st, role) && l.k < |l.slices|
    requires WillCreate(l) ==> IsNewPod(st, made, l.role, l.k)
    requires l.role == role && WillCreate(l) ==> l.inp.script(|l.acc.calls|).create == Accepted
    ensures NoneInFlight(BucketEffect(st, l, acc, made), role)
  {
  }

  /** A loop of another role may move on. */
  lemma OtherLoopTracks(st: Store, ctl: Control, l: RoleLoop, sub: Subject)
    requires Tracks(st, ctl, sub) && ctl.InPass? && !InLoop(ctl, sub.role) && l.role != sub.role
    ensures Tracks(st, ctl.(loop := Some(l)), sub)
  {
  }

  lemma BucketTracks(s: State, made: Pod, s': State, sub: Subject)
    requires Consistent(s.pods) && CalmInv(s, sub) && Step(s, NextBucket(made), s')
    requires sub.inp.spec.restart != Never && Obliging(sub.inp.script) && Tidy(sub.inp, Slices(sub))
    ensures Tracks(s'.pods, s'.ctl, sub)
  {
    BucketStep(s, made, s');
    var l := s.ctl.loop.value;
    if l.role == sub.role {
      OwnBucketTracks(s.pods, sub, l, made);
    } else {
      OtherBucketSamePlaces(s.pods, l, Process(l.inp, l.acc, l.k, l.slices[l.k]), made, sub);
      SamePlacesTracks(s.pods, s'.pods, s.ctl, sub);
      OtherLoopTracks(s'.pods, s.ctl, s'.ctl.loop.value, sub);
    }
  }

  lemma BucketKeepsFlight(s: State, made: Pod, s': State, sub: Subject)
    requires Consistent(s.pods) && CalmInv(s, sub) && Step(s, NextBucket(made), s') && Obliging(sub.inp.script)
    ensures NoneInFlight(s'.pods, sub.role)
  {
    BucketStep(s, made, s');
    var l := s.ctl.loop.value;
    assert l.role == sub.role ==> l.inp.script(|l.acc.calls|) == Reply(Accepted, true);
    EffectKeepsFlight(s.pods, l, Process(l.inp, l.acc, l.k, l.slices[l.k]), made, sub.role);
  }

  lemma BucketKeepsCalm(s: State, made: Pod, s': State, sub: Subject)
    requires Consistent(s.pods) && CalmInv(s, sub) && Step(s, NextBucket(made), s') && Plain(made.labels)
    requires sub.inp.spec.restart != Never && Obliging(sub.inp.script) && Tidy(sub.inp, Slices(sub))
    ensures CalmInv(s', sub)
  {
    BucketStep(s, made, s');
    BucketKeepsBorn(s, made, s', sub);
    BucketTracks(s, made, s', sub);
    BucketKeepsFlight(s, made, s', sub);
  }

  // ----- The rest of a pass -----

  lemma BeginRoleKeepsCalm(s: State, e: Event, s': State, sub: Subject)
    requires CalmInv(s, sub) && PassShape(Rule({}, {}), s.ctl) && e.BeginRole? && Step(s, e, s') && IsCalm(s, e, sub)
    ensures CalmInv(s', sub)
  {
    BeginRoleTracks(s, e, s', sub);
  }

  lemma BeginRoleTracks(s: State, e: Event, s': State, sub: Subject)
    requires CalmInv(s, sub) && PassShape(Rule({}, {}), s.ctl) && e.BeginRole? && Step(s, e, s') && IsCalm(s, e, sub)
    ensures Tracks(s'.pods, s'.ctl, sub)
  {
    var l := s'.ctl.loop.value;
    if l.role == sub.role {
      assert IsPending(s.ctl, sub.role);
      LoopBegins(s.pods, s'.ctl, l, sub);
    } else {
      PendingStays(s.ctl, l, sub.role);
      SameStanding(s.pods, s.ctl, s'.ctl, sub);
    }
  }

  lemma LoopBegins(st: Store, ctl: Control, l: RoleLoop, sub: Subject)
    requires Balanced(st, sub, []) && Untouched(st, sub, 0) && ctl.InPass? && ctl.loop == Some(l)
    requires l.role == sub.role && l.inp == sub.inp && l.slices == Slices(sub) && l.k == 0
    requires l.acc == Start([], RoleUncontrolled(l.inp.spec, sub.role, sub.snapshot))
    ensures Tracks(st, ctl, sub)
  {
  }

  lemma PendingStays(ctl: Control, l: RoleLoop, role: Role)
    requires ctl.InPass? && ctl.todo != [] && ctl.loop.None? && l.role == ctl.todo[0] != role
    ensures var ctl' := ctl.(todo := ctl.todo[1..], loop := Some(l));
            !InLoop(ctl', role) && (IsPending(ctl', role) <==> IsPending(ctl, role))
  {
    assert ctl.todo == [ctl.todo[0]] + ctl.todo[1..];
  }

  lemma SameStanding(st: Store, ctl: Control, ctl': Control, sub: Subject)
    requires Tracks(st, ctl, sub) && !InLoop(ctl, sub.role) && !InLoop(ctl', sub.role)
    requires IsPending(ctl', sub.role) <==> IsPending(ctl, sub.role)
    ensures Tracks(st, ctl', sub)
  {
  }

  lemma EndRoleKeepsCalm(s: State, e: Event, s': State, sub: Subject)
    requires CalmInv(s, sub) && (e.EndRole? || e.EndPass?) && Step(s, e, s')
    ensures CalmInv(s', sub)
  {
  }

  lemma StepKeepsCalm(s: State, e: Event, s': State, sub: Subject)
    requires Inv(s, Rule({}, {})) && CalmInv(s, sub) && Step(s, e, s') && IsCalm(s, e, sub)
    requires sub.inp.spec.restart != Never && Obliging(sub.inp.script) && Tidy(sub.inp, Slices(sub))
    requires e.NextBucket? ==> Plain(e.made.labels)
    ensures CalmInv(s', sub)
  {
    if IsEnvironment(e) {
      EnvironmentKeepsCalm(s, e, s', sub);
    } else if e.BeginRole? {
      BeginRoleKeepsCalm(s, e, s', sub);
    } else if e.NextBucket? {
      BucketKeepsCalm(s, e.made, s', sub);
    } else {
      EndRoleKeepsCalm(s, e, s', sub);
    }
  }

  lemma BeginPassIsCalm(s: State, e: Event, s': State, sub: Subject)
    requires Consistent(s.pods) && AllPlain(s.pods) && Fresh(s.pods)
    requires e.BeginPass? && Step(s, e, s') && sub.role in e.todo
    requires sub.base == s.pods && sub.snapshot == e.snapshot
    ensures CalmInv(s', sub)
  {
    forall p | p in e.snapshot ensures UntouchedPod(s.pods, sub, 0, p) || !IsMine(p, sub.role) {
      PlaceIsBorn(s.pods, p, sub.role);
    }
    forall p | p in e.snapshot ensures p.uid in s.pods.born && PlaceOf(p.labels) == PlaceOf(s.pods.born[p.uid].labels) {
      assert s.pods.view[p.uid] == p;
    }
  }

  // ----- Runs -----

  /** What a run must keep to: no pod is in two roles, and none starts with a
      negative index. */
  ghost predicate PlainRun(states: seq<State>, events: seq<Event>) {
    && IsRun(states, events) && Init(states[0], Rule({}, {}))
    && AllPlain(states[0].pods) && BornNotNegative(states[0].pods)
    && forall e <- events :: e.NextBucket? ==> Plain(e.made.labels)
  }

  lemma {:induction false} RunKeepsPlain(states: seq<State>, events: seq<Event>, k: nat)
    requires PlainRun(states, events) && k < |states|
    ensures AllPlain(states[k].pods)
  {
    if k > 0 {
      RunKeepsPlain(states, events, k - 1);
      assert events[k - 1] in events;
      StepKeepsPlain(states[k - 1], events[k - 1], states[k]);
    }
  }

  lemma StepKeepsPlain(s: State, e: Event, s': State)
    requires AllPlain(s.pods) && Step(s, e, s') && (e.NextBucket? ==> Plain(e.made.labels))
    ensures AllPlain(s'.pods)
  {
    if e.NextBucket? {
      if WillCreate(s.ctl.loop.value) {
        CreateEffect(s, e.made, s');
      } else {
        KeptBucketMovesOn(s, e.made, s');
      }
    }
  }

  /** From `a` to `b` a pass takes the role, on the subject's listing and inputs;
      no pod of the role is failing, the API server does what it is asked for
      the role, nothing else happens to its pods than changes of phase, and the
      cache is fresh before and after. */
  ghost predicate CalmRound(states: seq<State>, events: seq<Event>, a: nat, b: nat, sub: Subject) {
    && a < b < |states| && b <= |events|
    && events[a].BeginPass? && events[a].snapshot == sub.snapshot && sub.role in events[a].todo
    && states[a].pods == sub.base && Fresh(states[a].pods) && Fresh(states[b].pods) && states[b].ctl.Idle?
    && sub.inp.spec.restart != Never && sub.inp.spec.replicas > 0 && Obliging(sub.inp.script)
    && (forall p <- MineOf(sub) :: !MustRestart(sub.inp, p))
    && forall i | a < i < b :: IsCalm(states[i], events[i], sub)
  }

  /** The pods the round is about. */
  function MineOf(sub: Subject): seq<Pod> {
    Mine(sub.inp.spec.restart, sub.role, sub.snapshot)
  }

  /** On a fresh cache the listed pods of a role are distinct. */
  lemma ListedAreDistinct(states: seq<State>, events: seq<Event>, a: nat, restart: RestartPolicy, role: Role,
                          listed: seq<Pod>)
    requires PlainRun(states, events) && a < |states| && Fresh(states[a].pods) && Lists(listed, states[a].pods.view)
    requires restart != Never
    ensures OnePerPlace(Mine(restart, role, listed))
  {
    ListedIndicesAreNotNegative(states, events, a, listed);
    forall k ensures Places(Mine(restart, role, listed))[k] <= 1 {
      LivingIsListedInRun(states, events, a, restart, role, listed, k);
    }
  }

  lemma LivingAtMostOne(st: Store, role: Role, k: int)
    requires Unique(st, Rule({}, {}))
    ensures |LivingAt(st, role, k)| <= 1
  {
    var living := LivingAt(st, role, k);
    if living != {} {
      var u :| u in living;
      forall v | v in living ensures v == u {
        assert Occupies(st, Rule({}, {}), u) && Occupies(st, Rule({}, {}), v);
      }
      assert living == {u};
    }
  }

  lemma RoundBegins(states: seq<State>, events: seq<Event>, a: nat, b: nat, sub: Subject)
    requires PlainRun(states, events) && CalmRound(states, events, a, b, sub)
    ensures Lists(sub.snapshot, states[a].pods.view)
    ensures CalmInv(states[a + 1], sub)
  {
    RunHoldsInv(states, events, Rule({}, {}), a);
    RunKeepsPlain(states, events, a);
    BeginPassIsCalm(states[a], events[a], states[a + 1], sub);
  }

  lemma RoundStep(states: seq<State>, events: seq<Event>, a: nat, b: nat, sub: Subject, i: nat)
    requires PlainRun(states, events) && CalmRound(states, events, a, b, sub) && a < i < b
    requires Tidy(sub.inp, Slices(sub)) && CalmInv(states[i], sub)
    ensures CalmInv(states[i + 1], sub)
  {
    RunHoldsInv(states, events, Rule({}, {}), i);
    assert events[i] in events;
    StepKeepsCalm(states[i], events[i], states[i + 1], sub);
  }

  ghost predicate CalmAt(states: seq<State>, sub: Subject, i: nat) {
    i < |states| && CalmInv(states[i], sub)
  }

  lemma {:induction false} CalmChain(states: seq<State>, sub: Subject, from: nat, to: nat)
    requires from <= to && CalmAt(states, sub, from)
    requires forall i: nat | from <= i < to && CalmAt(states, sub, i) :: CalmAt(states, sub, i + 1)
    ensures CalmAt(states, sub, to)
  {
    if from < to {
      CalmChain(states, sub, from, to - 1);
      var last := to - 1;
      assert CalmAt(states, sub, last + 1);
    }
  }

  lemma RoundSteps(states: seq<State>, events: seq<Event>, a: nat, b: nat, sub: Subject)
    requires PlainRun(states, events) && CalmRound(states, events, a, b, sub) && Tidy(sub.inp, Slices(sub))
    ensures forall i: nat | a < i < b && CalmAt(states, sub, i) :: CalmAt(states, sub, i + 1)
  {
    forall i: nat | a < i < b && CalmAt(states, sub, i) ensures CalmAt(states, sub, i + 1) {
      RoundStep(states, events, a, b, sub, i);
    }
  }

  lemma RoundTracks(states: seq<State>, events: seq<Event>, a: nat, b: nat, sub: Subject)
    requires PlainRun(states, events) && CalmRound(states, events, a, b, sub) && Tidy(sub.inp, Slices(sub))
    ensures CalmAt(states, sub, b)
  {
    RoundBegins(states, events, a, b, sub);
    RoundSteps(states, events, a, b, sub);
    CalmChain(states, sub, a + 1, b);
  }

  /** At the end of the round the calls of the role's pass have been carried
      out. */
  lemma RoundBalances(states: seq<State>, events: seq<Event>, a: nat, b: nat, sub: Subject)
    requires PlainRun(states, events) && CalmRound(states, events, a, b, sub) && Healthy(sub.inp, MineOf(sub))
    ensures Balanced(states[b].pods, sub, PassCalls(sub))
  {
    HealthyIsTidy(sub.inp, MineOf(sub));
    RoundTracks(states, events, a, b, sub);
  }

  lemma LivingIsListedInRun(states: seq<State>, events: seq<Event>, a: nat, restart: RestartPolicy, role: Role,
                            listed: seq<Pod>, j: int)
    requires PlainRun(states, events) && a < |states| && Fresh(states[a].pods) && Lists(listed, states[a].pods.view)
    requires restart != Never
    ensures Places(Mine(restart, role, listed))[j] == |LivingAt(states[a].pods, role, j)| <= 1
  {
    RunHoldsInv(states, events, Rule({}, {}), a);
    RunKeepsPlain(states, events, a);
    LivingIsListed(states[a].pods, restart, role, listed, j);
    LivingAtMostOne(states[a].pods, role, j);
  }

  /** The calls of a tidy pass take away only what there is. */
  lemma PassTakesWhatThereIs(sub: Subject, j: int)
    requires sub.inp.spec.restart != Never && Obliging(sub.inp.script) && Healthy(sub.inp, MineOf(sub))
    ensures Unmade(PassCalls(sub))[j] <= Places(MineOf(sub))[j]
  {
    var slices := Slices(sub);
    HealthyIsTidy(sub.inp, MineOf(sub));
    TidyPassCalls(sub.inp, slices, |slices|, Start([], RoleUncontrolled(sub.inp.spec, sub.role, sub.snapshot)), j);
    PlaceAfterRound(sub.inp, MineOf(sub), j);
  }

  lemma RoundPlacesInRun(states: seq<State>, events: seq<Event>, a: nat, b: nat, sub: Subject, listed': seq<Pod>)
    requires PlainRun(states, events) && CalmRound(states, events, a, b, sub) && Healthy(sub.inp, MineOf(sub))
    requires Lists(sub.snapshot, states[a].pods.view) && Lists(listed', states[b].pods.view)
    ensures Places(Mine(sub.inp.spec.restart, sub.role, listed'))
         == Places(MineOf(sub)) - Unmade(PassCalls(sub)) + Made(PassCalls(sub))
  {
    RoundBalances(states, events, a, b, sub);
    var restart, calls := sub.inp.spec.restart, PassCalls(sub);
    forall j
      ensures Places(Mine(restart, sub.role, listed'))[j]
           == (Places(MineOf(sub)) - Unmade(calls) + Made(calls))[j]
    {
      assert BalancedAt(states[b].pods, sub, calls, j);
      PassTakesWhatThereIs(sub, j);
      LivingIsListedInRun(states, events, a, restart, sub.role, sub.snapshot, j);
      LivingIsListedInRun(states, events, b, restart, sub.role, listed', j);
    }
  }

  /** A calm round of the run is a round in the sense of `Convergence`. */
  lemma CalmRoundIsRound(states: seq<State>, events: seq<Event>, a: nat, b: nat, sub: Subject, listed': seq<Pod>)
    requires PlainRun(states, events) && CalmRound(states, events, a, b, sub)
    requires Lists(listed', states[b].pods.view)
    ensures RoundOf(sub.inp.spec, sub.role, sub.inp, sub.snapshot, listed') && OnePerPlace(MineOf(sub))
  {
    RoundBegins(states, events, a, b, sub);
    ListedAreDistinct(states, events, a, sub.inp.spec.restart, sub.role, sub.snapshot);
    ListedIndicesAreNotNegative(states, events, b, listed');
    RoundPlacesInRun(states, events, a, b, sub, listed');
  }

  /** One calm round after another, with the listing at each of their ends. */
  ghost predicate CalmRounds(states: seq<State>, events: seq<Event>, spec: RoleSpec, role: Role,
                             marks: seq<nat>, inps: seq<Inputs>, lists: seq<seq<Pod>>)
  {
    && |inps| > 0 && |marks| == |lists| == |inps| + 1
    && (forall t | 0 <= t < |marks| :: marks[t] < |states| && Lists(lists[t], states[marks[t]].pods.view))
    && forall t | 0 <= t < |inps| ::
         && inps[t].spec == spec
         && CalmRound(states, events, marks[t], marks[t + 1], Subject(role, inps[t], states[marks[t]].pods, lists[t]))
  }

  lemma CalmRoundsAreRounds(states: seq<State>, events: seq<Event>, spec: RoleSpec, role: Role,
                            marks: seq<nat>, inps: seq<Inputs>, lists: seq<seq<Pod>>)
    requires PlainRun(states, events) && CalmRounds(states, events, spec, role, marks, inps, lists)
    ensures Rounds(spec, role, inps, lists)
  {
    assert CalmRound(states, events, marks[0], marks[1], Subject(role, inps[0], states[marks[0]].pods, lists[0]));
    forall t | 0 <= t < |inps|
      ensures RoundOf(spec, role, inps[t], lists[t], lists[t + 1]) && OnePerPlace(Mine(spec.restart, role, lists[t]))
    {
      CalmRoundIsRound(states, events, marks[t], marks[t + 1],
                       Subject(role, inps[t], states[marks[t]].pods, lists[t]), lists[t + 1]);
    }
  }

  /** In every run, after as many calm rounds as the role's largest index
      exceeds the last wanted one, and at least one, exactly one pod of the role
      lives at each index below its replicas, and none elsewhere. */
  lemma CalmRunsConverge(states: seq<State>, events: seq<Event>, spec: RoleSpec, role: Role,
                         marks: seq<nat>, inps: seq<Inputs>, lists: seq<seq<Pod>>, t: nat, j: int)
    requires PlainRun(states, events) && CalmRounds(states, events, spec, role, marks, inps, lists)
    requires 0 < t <= |inps| && t > Largest(spec, role, lists[0]) - spec.replicas
    ensures |LivingAt(states[marks[t]].pods, role, j)| == if 0 <= j < spec.replicas then 1 else 0
  {
    CalmRoundsAreRounds(states, events, spec, role, marks, inps, lists);
    Converges(spec, role, inps, lists, t);
    FreshAtMark(states, events, spec, role, marks, inps, lists, t);
    LivingIsListedInRun(states, events, marks[t], spec.restart, role, lists[t], j);
  }

  lemma FreshAtMark(states: seq<State>, events: seq<Event>, spec: RoleSpec, role: Role,
                    marks: seq<nat>, inps: seq<Inputs>, lists: seq<seq<Pod>>, t: nat)
    requires CalmRounds(states, events, spec, role, marks, inps, lists) && 0 < t <= |inps|
    ensures Fresh(states[marks[t]].pods) && spec.restart != Never && Lists(lists[t], states[marks[t]].pods.view)
  {
    assert inps[t - 1].spec == spec;
    assert CalmRound(states, events, marks[t - 1], marks[t],
                     Subject(role, inps[t - 1], states[marks[t - 1]].pods, lists[t - 1]));
  }
}
