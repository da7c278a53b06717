/** Roles that never restart their pods, over whole runs: phases only advance,
    a started role gets no new pod, and a finished role stays as it finished. */
module NeverRun {
  import opened Api
  import opened Pods
  import opened RolePhases
  import opened PodPass
  import opened Cluster
  import opened ClusterSafety
  import opened NeverRole

  /** The role of a run: its name and the spec every pass has for it. */
  datatype Fixed = Fixed(role: Role, spec: RoleSpec)

  predicate OwnLabels(labels: Labels, role: Role) {
    MatchesRole(labels, role) <==> GetReplicaType(labels) == role
  }

  /** What a run must keep to: one spec for the role, and no pod that is in the
      role by its deprecated label alone. */
  ghost predicate Keeps(e: Event, f: Fixed) {
    && (e.BeginPass? && f.role in e.specs ==> e.specs[f.role] == f.spec)
    && (e.NextBucket? ==> OwnLabels(e.made.labels, f.role))
  }

  ghost predicate AllOwnLabels(st: Store, role: Role) {
    forall u <- st.born :: OwnLabels(st.born[u].labels, role)
  }

  /** Every new pod of the role is an old one, then or later. */
  ghost predicate Follows(before: set<Pod>, after: set<Pod>, role: Role) {
    forall q <- after | GetReplicaType(q.labels) == role :: exists p <- before :: Earlier(p, q)
  }

  lemma FollowsKeepsStuck(before: set<Pod>, after: set<Pod>, role: Role, i: nat, phase: PodPhase)
    requires Follows(before, after, role) && PlaceStuck(before, role, i, phase) && IsTerminal(phase)
    ensures PlaceStuck(after, role, i, phase)
  {
    forall q | q in after && AtPlace(q.labels, role, i) ensures Stuck(q, phase) {
      var p :| p in before && Earlier(p, q);
      SamePlaceAgrees(p.labels, q.labels);
    }
  }

  lemma FollowsKeepsSettled(before: set<Pod>, after: set<Pod>, role: Role, replicas: nat, phase: RolePhase)
    requires Follows(before, after, role) && Settled(before, role, replicas, phase)
    ensures Settled(after, role, replicas, phase)
  {
    forall i: nat, stuck | IsTerminal(stuck) && PlaceStuck(before, role, i, stuck)
      ensures PlaceStuck(after, role, i, stuck)
    {
      FollowsKeepsStuck(before, after, role, i, stuck);
    }
  }

  lemma FollowsChain(a: set<Pod>, b: set<Pod>, c: set<Pod>, role: Role)
    requires Follows(a, b, role) && Follows(b, c, role)
    ensures Follows(a, c, role)
  {
    forall r | r in c && GetReplicaType(r.labels) == role ensures exists p <- a :: Earlier(p, r) {
      var q :| q in b && Earlier(q, r);
      SamePlaceAgrees(q.labels, r.labels);
      var p :| p in a && Earlier(p, q);
      EarlierChain(p, q, r);
    }
  }

  function Cached(st: Store): set<Pod> {
    st.view.Values
  }

  /** What the stored phase says about the cache. */
  ghost predicate Bound(st: Store, f: Fixed, phase: RolePhase) {
    IsRoleStarted(phase) ==> UnseenOf(st, f.role) == {} && Settled(Cached(st), f.role, f.spec.replicas, phase)
  }

  predicate InLoop(ctl: Control, role: Role) {
    ctl.InPass? && ctl.loop.Some? && ctl.loop.value.role == role
  }

  /** The pass in progress has not yet finished with the role. */
  predicate IsPending(ctl: Control, role: Role) {
    ctl.InPass? && (role in ctl.todo || InLoop(ctl, role))
  }

  /** The pass has not created a pod of the role. */
  predicate NoneMade(ctl: Control, role: Role) {
    InLoop(ctl, role) ==> ctl.loop.value.acc.creations == 0
  }

  /** The loop is at bucket k of the very loop `PodPass` defines. */
  ghost predicate OnPass(l: RoleLoop, f: Fixed, snapshot: seq<Pod>, phase: RolePhase) {
    && l.inp.spec == f.spec && l.inp.phase == phase
    && l.slices == RoleSlices(f.spec, f.role, snapshot) && l.k <= |l.slices|
    && l.acc == After(l.inp, l.slices, l.k, Start([], RoleUncontrolled(f.spec, f.role, snapshot)))
  }

  ghost predicate IsLoopOfPass(ctl: Control, f: Fixed)
    requires ctl.InPass?
  {
    InLoop(ctl, f.role) ==> OnPass(ctl.loop.value, f, ctl.snapshot, PhaseOf(ctl.local, f.role))
  }

  ghost predicate PassInv(st: Store, stored: RolePhase, ctl: Control, f: Fixed) {
    ctl.InPass? ==>
      && (f.role in ctl.specs ==> ctl.specs[f.role] == f.spec)
      && Rank(PhaseOf(ctl.local, f.role)) >= Rank(stored)
      && IsLoopOfPass(ctl, f)
      && (IsPending(ctl, f.role) ==>
            && PhaseOf(ctl.local, f.role) == stored
            && Unambiguous(ctl.snapshot, f.role)
            && Settled(AsSet(ctl.snapshot), f.role, f.spec.replicas, stored))
      && (IsPending(ctl, f.role) && NoneMade(ctl, f.role) ==>
            && UnseenOf(st, f.role) == {}
            && Follows(AsSet(ctl.snapshot), Cached(st), f.role))
      && (!IsPending(ctl, f.role) ==>
            && Bound(st, f, PhaseOf(ctl.local, f.role))
            && (IsRoleFinished(stored) ==> PhaseOf(ctl.local, f.role) == stored))
  }

  ghost predicate NeverInv(s: State, f: Fixed) {
    && Inv(s, Rule({f.role}, {}))
    && AllOwnLabels(s.pods, f.role)
    && Bound(s.pods, f, PhaseOf(s.phases, f.role))
    && PassInv(s.pods, PhaseOf(s.phases, f.role), s.ctl, f)
  }

  /** The cache only moves on, for a role with nothing unreported. */
  ghost predicate CacheFollows(st: Store, st': Store, role: Role) {
    UnseenOf(st, role) == {} ==> UnseenOf(st', role) == {} && Follows(Cached(st), Cached(st'), role)
  }

  lemma CacheFollowsKeepsBound(st: Store, st': Store, f: Fixed, phase: RolePhase)
    requires CacheFollows(st, st', f.role) && Bound(st, f, phase)
    ensures Bound(st', f, phase)
  {
    if IsRoleStarted(phase) {
      FollowsKeepsSettled(Cached(st), Cached(st'), f.role, f.spec.replicas, phase);
    }
  }

  lemma CacheFollowsKeepsPass(st: Store, st': Store, stored: RolePhase, ctl: Control, f: Fixed)
    requires CacheFollows(st, st', f.role) && PassInv(st, stored, ctl, f)
    ensures PassInv(st', stored, ctl, f)
  {
    if ctl.InPass? {
      if IsPending(ctl, f.role) {
        if NoneMade(ctl, f.role) {
          FollowsChain(AsSet(ctl.snapshot), Cached(st), Cached(st'), f.role);
        }
      } else {
        CacheFollowsKeepsBound(st, st', f, PhaseOf(ctl.local, f.role));
      }
    }
  }

  lemma SelfFollows(pods: set<Pod>, role: Role)
    ensures Follows(pods, pods, role)
  {
    forall q | q in pods ensures exists p <- pods :: Earlier(p, q) {
      assert Earlier(q, q);
    }
  }

  lemma SeesUpdateFollows(st: Store, p: Pod, role: Role)
    requires p.uid in st.view && Earlier(st.view[p.uid], p)
    ensures Follows(Cached(st), Cached(st.(view := st.view[p.uid := p])), role)
  {
    var after := Cached(st.(view := st.view[p.uid := p]));
    forall q | q in after ensures exists p0 <- Cached(st) :: Earlier(p0, q) {
      if q == p {
        assert st.view[p.uid] in Cached(st);
      } else {
        assert q in Cached(st) && Earlier(q, q);
      }
    }
  }

  lemma SmallerFollows(pods: set<Pod>, fewer: set<Pod>, role: Role)
    requires fewer <= pods
    ensures Follows(pods, fewer, role)
  {
    SelfFollows(pods, role);
  }

  lemma SeesAddFollows(st: Store, p: Pod, st': Store, role: Role)
    requires Consistent(st) && Environment(st, SeesAdd(p), st') && UnseenOf(st, role) == {}
    ensures UnseenOf(st', role) == {} && Follows(Cached(st), Cached(st'), role)
  {
    UnseenAfterReport(st, p, st', role);
    SamePlaceAgrees(st.born[p.uid].labels, p.labels);
    assert p.uid !in UnseenOf(st, role);
    forall q | q in Cached(st') && GetReplicaType(q.labels) == role ensures exists p0 <- Cached(st) :: Earlier(p0, q) {
      assert q != p && q in Cached(st) && Earlier(q, q);
    }
  }

  lemma EnvironmentFollows(st: Store, e: Event, st': Store, role: Role)
    requires Consistent(st) && IsEnvironment(e) && Environment(st, e, st')
    ensures CacheFollows(st, st', role)
  {
    if e.SeesAdd? {
      if UnseenOf(st, role) == {} {
        SeesAddFollows(st, e.pod, st', role);
      }
    } else {
      assert UnseenOf(st', role) == UnseenOf(st, role);
      if e.SeesUpdate? {
        SeesUpdateFollows(st, e.pod, role);
      } else {
        assert Cached(st') <= Cached(st);
        SmallerFollows(Cached(st), Cached(st'), role);
      }
    }
  }

  lemma EnvironmentKeeps(s: State, f: Fixed, e: Event, s': State)
    requires NeverInv(s, f) && IsEnvironment(e) && Step(s, e, s')
    ensures NeverInv(s', f)
  {
    EnvironmentKeepsInv(s, Rule({f.role}, {}), e, s');
    EnvironmentFollows(s.pods, e, s'.pods, f.role);
    CacheFollowsKeepsBound(s.pods, s'.pods, f, PhaseOf(s.phases, f.role));
    CacheFollowsKeepsPass(s.pods, s'.pods, PhaseOf(s.phases, f.role), s.ctl, f);
  }

  // ----- Beginning a pass -----

  lemma ListedAreCached(st: Store, snapshot: seq<Pod>)
    requires Lists(snapshot, st.view)
    ensures AsSet(snapshot) == Cached(st)
  {
    forall p | p in snapshot ensures p in Cached(st) {
      assert st.view[p.uid] == p;
    }
  }

  lemma CachedAreApart(st: Store, role: Role, p: Pod, q: Pod)
    requires Consistent(st) && Unique(st, Rule({role}, {}))
    requires p.uid in st.view && st.view[p.uid] == p && q.uid in st.view && st.view[q.uid] == q && p.uid != q.uid
    ensures Apart(role)(p, q)
  {
    SamePlaceAgrees(st.born[p.uid].labels, p.labels);
    SamePlaceAgrees(st.born[q.uid].labels, q.labels);
    if GetReplicaType(p.labels) == role && GetReplicaType(q.labels) == role {
      assert Occupies(st, Rule({role}, {}), p.uid) && Occupies(st, Rule({role}, {}), q.uid);
    }
  }

  /** A listing of the cache shows at most one pod at each place of the role. */
  lemma ListingIsUnambiguous(st: Store, f: Fixed, snapshot: seq<Pod>)
    requires Consistent(st) && Unique(st, Rule({f.role}, {})) && AllOwnLabels(st, f.role) && Lists(snapshot, st.view)
    ensures Unambiguous(snapshot, f.role)
  {
    forall p | p in snapshot ensures OwnLabels(p.labels, f.role) {
      SamePlaceAgrees(st.born[p.uid].labels, p.labels);
    }
    forall i, j | 0 <= i < j < |snapshot| ensures Apart(f.role)(snapshot[i], snapshot[j]) {
      assert snapshot[i] in snapshot && snapshot[j] in snapshot;
      CachedAreApart(st, f.role, snapshot[i], snapshot[j]);
    }
  }

  lemma BeginPassKeeps(s: State, f: Fixed, e: Event, s': State)
    requires NeverInv(s, f) && f.spec.restart == Never
    requires e.BeginPass? && Step(s, e, s') && Keeps(e, f)
    ensures NeverInv(s', f)
  {
    BeginPassKeepsInv(s, Rule({f.role}, {}), e, s');
    ListingIsUnambiguous(s.pods, f, e.snapshot);
    ListedAreCached(s.pods, e.snapshot);
    SelfFollows(Cached(s.pods), f.role);
    if f.role in e.todo {
      GateListsEveryHolder(s.pods, s.asked, Rule({f.role}, {}), f.role, e.snapshot);
    }
  }

  lemma BeginRoleKeepsPass(s: State, f: Fixed, e: Event, s': State)
    requires PassShape(Rule({f.role}, {}), s.ctl) && PassInv(s.pods, PhaseOf(s.phases, f.role), s.ctl, f)
    requires e.BeginRole? && Step(s, e, s')
    ensures PassInv(s'.pods, PhaseOf(s'.phases, f.role), s'.ctl, f)
  {
    var todo := s.ctl.todo;
    assert todo == [todo[0]] + todo[1..];
    assert IsPending(s'.ctl, f.role) <==> IsPending(s.ctl, f.role);
  }

  lemma BeginRoleKeeps(s: State, f: Fixed, e: Event, s': State)
    requires NeverInv(s, f) && e.BeginRole? && Step(s, e, s')
    ensures NeverInv(s', f)
  {
    BeginRoleKeepsInv(s, Rule({f.role}, {}), e, s');
    BeginRoleKeepsPass(s, f, e, s');
  }

  // ----- A bucket -----

  lemma CreatedFollows(st: Store, reply: CreateReply, made: Pod, role: Role, k: nat, mine: Role)
    requires Consistent(st) && IsNewPod(st, made, role, k) && role != mine
    ensures CacheFollows(st, Created(st, reply, made), mine)
  {
    UnseenAfterCreation(st, reply, made, role, k, mine);
    SelfFollows(Cached(st), mine);
  }

  lemma DeletedFollows(st: Store, u: Uid, role: Role)
    ensures CacheFollows(st, Deleted(st, u), role)
  {
    SelfFollows(Cached(st), role);
    assert UnseenOf(Deleted(st, u), role) == UnseenOf(st, role);
  }

  lemma OtherBucketFollows(s: State, f: Fixed, made: Pod, s': State)
    requires NeverInv(s, f) && Step(s, NextBucket(made), s') && s.ctl.loop.value.role != f.role
    ensures CacheFollows(s.pods, s'.pods, f.role)
  {
    var l := s.ctl.loop.value;
    if WillCreate(l) {
      CreatedFollows(s.pods, l.inp.script(|l.acc.calls|).create, made, l.role, l.k, f.role);
    } else {
      KeptBucketFollows(s, made, s', f.role);
    }
  }

  lemma KeptBucketFollows(s: State, made: Pod, s': State, role: Role)
    requires Step(s, NextBucket(made), s') && !WillCreate(s.ctl.loop.value)
    ensures CacheFollows(s.pods, s'.pods, role)
  {
    KeptBucketMovesOn(s, made, s');
    if s'.pods == s.pods {
      SelfFollows(Cached(s.pods), role);
    } else {
      var u :| s'.pods == Deleted(s.pods, u);
      DeletedFollows(s.pods, u, role);
    }
  }

  /** Another role's bucket leaves this role's part of the pass alone. */
  lemma OtherBucketKeeps(s: State, f: Fixed, made: Pod, s': State)
    requires NeverInv(s, f) && Step(s, NextBucket(made), s') && s.ctl.loop.value.role != f.role
    requires OwnLabels(made.labels, f.role) && Inv(s', Rule({f.role}, {}))
    ensures NeverInv(s', f)
  {
    OtherBucketFollows(s, f, made, s');
    BucketKeepsOwnLabels(s, f, made, s');
    CacheFollowsKeepsBound(s.pods, s'.pods, f, PhaseOf(s.phases, f.role));
    CacheFollowsKeepsPass(s.pods, s'.pods, PhaseOf(s.phases, f.role), s.ctl, f);
  }

  lemma BucketKeepsOwnLabels(s: State, f: Fixed, made: Pod, s': State)
    requires AllOwnLabels(s.pods, f.role) && Step(s, NextBucket(made), s') && OwnLabels(made.labels, f.role)
    ensures AllOwnLabels(s'.pods, f.role)
  {
  }

  lemma BucketStaysOnPass(l: RoleLoop, f: Fixed, snapshot: seq<Pod>, phase: RolePhase)
    requires OnPass(l, f, snapshot, phase) && l.k < |l.slices| && !l.acc.failed
    ensures var acc := Process(l.inp, l.acc, l.k, l.slices[l.k]);
            OnPass(l.(k := l.k + 1, acc := acc), f, snapshot, phase) && acc.creations >= l.acc.creations
  {
    LoopMovesOn(l, Start([], RoleUncontrolled(f.spec, f.role, snapshot)));
  }

  /** One bucket further, on pods that have already moved. */
  lemma LoopStepKeepsPass(s: State, st: Store, stored: RolePhase, f: Fixed, made: Pod, s': State)
    requires PassInv(st, stored, s.ctl, f)
    requires Step(s, NextBucket(made), s') && s.ctl.loop.value.role == f.role
    ensures PassInv(st, stored, s'.ctl, f)
  {
    BucketStaysOnPass(s.ctl.loop.value, f, s.ctl.snapshot, PhaseOf(s.ctl.local, f.role));
  }

  /** A bucket of the role itself that creates no pod. */
  lemma OwnKeptBucketKeeps(s: State, f: Fixed, made: Pod, s': State)
    requires NeverInv(s, f) && Step(s, NextBucket(made), s') && s.ctl.loop.value.role == f.role
    requires !WillCreate(s.ctl.loop.value)
    requires AllOwnLabels(s'.pods, f.role) && Inv(s', Rule({f.role}, {}))
    ensures NeverInv(s', f)
  {
    KeptBucketFollows(s, made, s', f.role);
    CacheFollowsKeepsBound(s.pods, s'.pods, f, PhaseOf(s.phases, f.role));
    CacheFollowsKeepsPass(s.pods, s'.pods, PhaseOf(s.phases, f.role), s.ctl, f);
    LoopStepKeepsPass(s, s'.pods, PhaseOf(s.phases, f.role), f, made, s');
  }

  /** A bucket of the role itself: nothing is created once the role has started,
      and until something is, the cache still follows the snapshot. */
  lemma OwnBucketKeeps(s: State, f: Fixed, made: Pod, s': State)
    requires NeverInv(s, f) && f.spec.restart == Never
    requires Step(s, NextBucket(made), s') && s.ctl.loop.value.role == f.role
    requires OwnLabels(made.labels, f.role) && Inv(s', Rule({f.role}, {}))
    ensures NeverInv(s', f)
  {
    var l := s.ctl.loop.value;
    BucketKeepsOwnLabels(s, f, made, s');
    if WillCreate(l) {
      LoopMovesOn(l, Start([], RoleUncontrolled(f.spec, f.role, s.ctl.snapshot)));
      if !ReturnsNil(l.inp.script(|l.acc.calls|).create) {
        assert s'.pods == s.pods;
      }
    } else {
      OwnKeptBucketKeeps(s, f, made, s');
    }
  }

  // ----- Ending a role, and a pass -----

  lemma EndOwnRoleKeepsPass(s: State, f: Fixed, e: Event, s': State)
    requires PassShape(Rule({f.role}, {}), s.ctl) && IsNeverSpec(f.spec)
    requires Bound(s.pods, f, PhaseOf(s.phases, f.role)) && PassInv(s.pods, PhaseOf(s.phases, f.role), s.ctl, f)
    requires e.EndRole? && Step(s, e, s') && s.ctl.loop.value.role == f.role
    ensures PassInv(s'.pods, PhaseOf(s'.phases, f.role), s'.ctl, f)
  {
    EndedRoleSettles(s, f, e, s');
    var stored, phase := PhaseOf(s.phases, f.role), PhaseOf(s'.ctl.local, f.role);
    if phase != stored {
      FollowsKeepsSettled(AsSet(s.ctl.snapshot), Cached(s.pods), f.role, f.spec.replicas, phase);
    }
  }

  /** The end of the role's loop is the end of the pass `PassSettles` is about. */
  lemma EndedRoleSettles(s: State, f: Fixed, e: Event, s': State)
    requires PassShape(Rule({f.role}, {}), s.ctl) && IsNeverSpec(f.spec)
    requires PassInv(s.pods, PhaseOf(s.phases, f.role), s.ctl, f)
    requires e.EndRole? && Step(s, e, s') && s.ctl.loop.value.role == f.role
    ensures var stored, phase := PhaseOf(s.phases, f.role), PhaseOf(s'.ctl.local, f.role);
            && (IsRoleFinished(stored) ==> phase == stored)
            && Rank(phase) >= Rank(stored)
            && (phase != stored ==> NoneMade(s.ctl, f.role))
            && Settled(AsSet(s.ctl.snapshot), f.role, f.spec.replicas, phase)
  {
    var l := s.ctl.loop.value;
    assert l.acc == Pass(l.inp, f.role, s.ctl.snapshot, []);
    PassSettles(l.inp, f.role, s.ctl.snapshot, e.down);
  }

  lemma EndRoleKeeps(s: State, f: Fixed, e: Event, s': State)
    requires NeverInv(s, f) && IsNeverSpec(f.spec)
    requires e.EndRole? && Step(s, e, s') && Inv(s', Rule({f.role}, {}))
    ensures NeverInv(s', f)
  {
    if s.ctl.loop.value.role == f.role {
      EndOwnRoleKeepsPass(s, f, e, s');
    } else {
      EndOtherRoleKeepsPass(s, f, e, s');
    }
  }

  lemma EndOtherRoleKeepsPass(s: State, f: Fixed, e: Event, s': State)
    requires PassInv(s.pods, PhaseOf(s.phases, f.role), s.ctl, f)
    requires e.EndRole? && Step(s, e, s') && s.ctl.loop.value.role != f.role
    ensures PassInv(s'.pods, PhaseOf(s'.phases, f.role), s'.ctl, f)
  {
  }

  lemma StepKeeps(s: State, f: Fixed, e: Event, s': State)
    requires NeverInv(s, f) && IsNeverSpec(f.spec)
    requires Step(s, e, s') && Keeps(e, f)
    ensures NeverInv(s', f)
  {
    if IsEnvironment(e) {
      EnvironmentKeeps(s, f, e, s');
    } else {
      StepKeepsInv(s, Rule({f.role}, {}), e, s');
      match e
      case BeginPass(_, _, _) => BeginPassKeeps(s, f, e, s');
      case BeginRole(_, _) => BeginRoleKeeps(s, f, e, s');
      case NextBucket(made) =>
        if s.ctl.loop.value.role == f.role {
          OwnBucketKeeps(s, f, made, s');
        } else {
          OtherBucketKeeps(s, f, made, s');
        }
      case EndRole(_) => EndRoleKeeps(s, f, e, s');
      case _ =>
    }
  }

  // ----- Runs -----

  /** A run in which the role always has the spec, and starts unstarted. */
  ghost predicate NeverRestarts(states: seq<State>, events: seq<Event>, f: Fixed) {
    && IsRun(states, events) && Init(states[0], Rule({f.role}, {}))
    && IsNeverSpec(f.spec) && !IsRoleStarted(PhaseOf(states[0].phases, f.role))
    && AllOwnLabels(states[0].pods, f.role)
    && forall e <- events :: Keeps(e, f)
  }

  lemma {:induction false} RunHoldsNeverInv(states: seq<State>, events: seq<Event>, f: Fixed, k: nat)
    requires NeverRestarts(states, events, f) && k < |states|
    ensures NeverInv(states[k], f)
  {
    if k > 0 {
      RunHoldsNeverInv(states, events, f, k - 1);
      assert events[k - 1] in events;
      StepKeeps(states[k - 1], f, events[k - 1], states[k]);
    }
  }

  /** The pods of the role that exist anywhere: at the API server, in the cache
      or on their way. */
  function PodsOf(st: Store, role: Role): set<Uid> {
    set u | u in st.born && RoleOf(st, u) == role && Known(st, u)
  }

  /** The indices those pods occupy. */
  function OccupiedIndices(st: Store, role: Role): set<int> {
    set u | u in PodsOf(st, role) && IndexOf(st, u).Some? :: IndexOf(st, u).value
  }

  /** No pod of the role was made in between, and none came back. */
  ghost predicate OnlyLoses(st: Store, st': Store, role: Role) {
    && (forall u <- st.born :: u in st'.born && st'.born[u] == st.born[u])
    && (forall u <- st'.born :: RoleOf(st', u) == role ==> u in st.born)
    && PodsOf(st', role) <= PodsOf(st, role)
  }

  lemma OnlyLosesChain(a: Store, b: Store, c: Store, role: Role)
    requires OnlyLoses(a, b, role) && OnlyLoses(b, c, role)
    ensures OnlyLoses(a, c, role)
  {
  }

  lemma NothingNewOnlyLoses(st: Store, st': Store, role: Role)
    requires st'.born == st.born && forall u | Known(st', u) :: Known(st, u)
    ensures OnlyLoses(st, st', role)
  {
  }

  lemma EnvironmentOnlyLoses(st: Store, e: Event, st': Store, role: Role)
    requires Consistent(st) && IsEnvironment(e) && Environment(st, e, st')
    ensures OnlyLoses(st, st', role)
  {
    NothingNewOnlyLoses(st, st', role);
  }

  lemma CreatedOnlyLoses(st: Store, reply: CreateReply, made: Pod, role: Role, k: nat, mine: Role)
    requires Consistent(st) && IsNewPod(st, made, role, k) && role != mine
    ensures OnlyLoses(st, Created(st, reply, made), mine)
  {
  }

  /** While the stored phase is a started one, a bucket makes no pod of the role. */
  lemma BucketOnlyLoses(s: State, f: Fixed, made: Pod, s': State)
    requires NeverInv(s, f) && f.spec.restart == Never && IsRoleStarted(PhaseOf(s.phases, f.role))
    requires Step(s, NextBucket(made), s')
    ensures OnlyLoses(s.pods, s'.pods, f.role)
  {
    var l := s.ctl.loop.value;
    if WillCreate(l) {
      CreatedOnlyLoses(s.pods, l.inp.script(|l.acc.calls|).create, made, l.role, l.k, f.role);
    } else {
      KeptBucketMovesOn(s, made, s');
      NothingNewOnlyLoses(s.pods, s'.pods, f.role);
    }
  }

  /** What one step does to the stored phase and to the pods of a started role. */
  ghost predicate Advances(s: State, s': State, role: Role) {
    var was, now := PhaseOf(s.phases, role), PhaseOf(s'.phases, role);
    && Rank(was) <= Rank(now)
    && (IsRoleFinished(was) ==> now == was)
    && (IsRoleStarted(was) ==> OnlyLoses(s.pods, s'.pods, role))
  }

  lemma StepAdvances(s: State, f: Fixed, e: Event, s': State)
    requires NeverInv(s, f) && f.spec.restart == Never && Step(s, e, s')
    ensures Advances(s, s', f.role)
  {
    if IsRoleStarted(PhaseOf(s.phases, f.role)) {
      if IsEnvironment(e) {
        EnvironmentOnlyLoses(s.pods, e, s'.pods, f.role);
      } else if e.NextBucket? {
        BucketOnlyLoses(s, f, e.made, s');
      }
    }
  }

  lemma RunStepAdvances(states: seq<State>, events: seq<Event>, f: Fixed, k: nat)
    requires NeverRestarts(states, events, f) && k < |events|
    ensures Advances(states[k], states[k + 1], f.role)
  {
    RunHoldsNeverInv(states, events, f, k);
    StepAdvances(states[k], f, events[k], states[k + 1]);
  }

  lemma AdvancesChain(a: State, b: State, c: State, role: Role)
    requires Advances(a, b, role) && Advances(b, c, role)
    ensures Advances(a, c, role)
  {
    if IsRoleStarted(PhaseOf(a.phases, role)) {
      OnlyLosesChain(a.pods, b.pods, c.pods, role);
    }
  }

  ghost predicate StepsAdvance(states: seq<State>, role: Role) {
    forall i: nat | i + 1 < |states| :: Advances(states[i], states[i + 1], role)
  }

  lemma {:induction false} StepsAdvanceChain(states: seq<State>, role: Role, j: nat, k: nat)
    requires StepsAdvance(states, role) && j <= k < |states|
    ensures Advances(states[j], states[k], role)
  {
    if j < k {
      StepsAdvanceChain(states, role, j, k - 1);
      var last := k - 1;
      assert Advances(states[last], states[last + 1], role);
      AdvancesChain(states[j], states[last], states[k], role);
    }
  }

  lemma RunAdvances(states: seq<State>, events: seq<Event>, f: Fixed, j: nat, k: nat)
    requires NeverRestarts(states, events, f) && j <= k < |states|
    ensures Advances(states[j], states[k], f.role)
  {
    forall i: nat | i + 1 < |states| ensures Advances(states[i], states[i + 1], f.role) {
      RunStepAdvances(states, events, f, i);
    }
    StepsAdvanceChain(states, f.role, j, k);
  }

  /** Over every run the phase of such a role only moves from Pending to
      Starting to {Running, Succeeded, Failed}. */
  lemma PhaseNeverFallsBack(states: seq<State>, events: seq<Event>, f: Fixed, j: nat, k: nat)
    requires NeverRestarts(states, events, f) && j <= k < |states|
    ensures Rank(PhaseOf(states[j].phases, f.role)) <= Rank(PhaseOf(states[k].phases, f.role))
  {
    RunAdvances(states, events, f, j, k);
  }

  /** Failed, and likewise Succeeded, is for ever. */
  lemma FinishedIsForever(states: seq<State>, events: seq<Event>, f: Fixed, j: nat, k: nat)
    requires NeverRestarts(states, events, f) && j <= k < |states|
    requires IsRoleFinished(PhaseOf(states[j].phases, f.role))
    ensures PhaseOf(states[k].phases, f.role) == PhaseOf(states[j].phases, f.role)
  {
    RunAdvances(states, events, f, j, k);
  }

  /** Once the role has started no pod is ever made for it again, so the
      indices it occupies only shrink. */
  lemma StartedRoleGetsNoNewPod(states: seq<State>, events: seq<Event>, f: Fixed, j: nat, k: nat)
    requires NeverRestarts(states, events, f) && j <= k < |states|
    requires IsRoleStarted(PhaseOf(states[j].phases, f.role))
    ensures OnlyLoses(states[j].pods, states[k].pods, f.role)
    ensures OccupiedIndices(states[k].pods, f.role) <= OccupiedIndices(states[j].pods, f.role)
  {
    RunAdvances(states, events, f, j, k);
  }
}
