/** No run ever puts two living pods at one index of one role. */
module ClusterSafety {
  import opened Decimal
  import opened Api
  import opened Pods
  import opened PodPass
  import opened Cluster

  /** The creations of a role that the informer has not reported. */
  function UnseenOf(st: Store, role: Role): set<Uid> {
    set u | u in st.unseen && u in st.born && RoleOf(st, u) == role
  }

  /** The add counter of the role covers its unreported creations. */
  predicate Covers(st: Store, asked: Asked, role: Role) {
    |UnseenOf(st, role)| <= Counter(asked, role).add
  }

  /** Stray observations may have driven a counter below zero, but not while
      creations are unreported, and not during a pass. */
  ghost predicate Covered(st: Store, asked: Asked, ctl: Control) {
    && (forall role :: UnseenOf(st, role) == {} || Covers(st, asked, role))
    && (ctl.InPass? ==> forall r <- ctl.specs :: Covers(st, asked, r))
  }

  /** The listed pods include the pod, still at its place and, unless the role
      is one that never restarts, alive. */
  ghost predicate Listed(st: Store, rule: Rule, snapshot: seq<Pod>, u: Uid)
    requires u in st.born
  {
    exists p <- snapshot ::
      p.uid == u && PlaceOf(st.born[u].labels) == PlaceOf(p.labels) && (RoleOf(st, u) in rule.never || !p.deleting)
  }

  /** Every holder of a place in the role is in the snapshot. */
  ghost predicate RoleListed(st: Store, rule: Rule, snapshot: seq<Pod>, role: Role) {
    forall u | Occupies(st, rule, u) && RoleOf(st, u) == role :: Listed(st, rule, snapshot, u)
  }

  /** The buckets still to come that look empty are free. */
  ghost predicate EmptyMeansFree(st: Store, rule: Rule, l: RoleLoop) {
    forall u | Occupies(st, rule, u) && RoleOf(st, u) == l.role && IndexOf(st, u).Some? ::
      var i := IndexOf(st, u).value;
      l.k <= i < |l.slices| ==> l.slices[i] != []
  }

  /** The shape of a pass in progress. */
  predicate PassShape(rule: Rule, ctl: Control) {
    ctl.InPass? ==>
      && "" !in ctl.specs
      && (forall r <- ctl.specs :: r in rule.never ==> ctl.specs[r].restart == Never)
      && Distinct(ctl.todo)
      && (forall r <- ctl.todo :: r in ctl.specs)
      && (ctl.loop.Some? ==>
            && ctl.loop.value.role in ctl.specs && ctl.loop.value.role !in ctl.todo
            && ctl.loop.value.k <= |ctl.loop.value.slices|)
  }

  ghost predicate PassOk(st: Store, rule: Rule, ctl: Control) {
    ctl.InPass? ==>
      && (forall r <- ctl.todo :: RoleListed(st, rule, ctl.snapshot, r))
      && (ctl.loop.Some? ==> EmptyMeansFree(st, rule, ctl.loop.value))
  }

  ghost predicate Inv(s: State, rule: Rule) {
    && Consistent(s.pods) && Unique(s.pods, rule)
    && Covered(s.pods, s.asked, s.ctl)
    && PassShape(rule, s.ctl) && PassOk(s.pods, rule, s.ctl)
  }

  /** No pod is new and no place is newly held. */
  ghost predicate NoNewHolder(st: Store, rule: Rule, st': Store) {
    && st'.born == st.born
    && forall u | Occupies(st', rule, u) :: Occupies(st, rule, u)
  }

  lemma NoNewHolderKeepsUnique(st: Store, rule: Rule, st': Store)
    requires NoNewHolder(st, rule, st') && Unique(st, rule)
    ensures Unique(st', rule)
  {
  }

  lemma NoNewHolderKeepsListed(st: Store, rule: Rule, st': Store, snapshot: seq<Pod>, role: Role)
    requires NoNewHolder(st, rule, st') && RoleListed(st, rule, snapshot, role)
    ensures RoleListed(st', rule, snapshot, role)
  {
    forall u | Occupies(st', rule, u) && RoleOf(st', u) == role ensures Listed(st', rule, snapshot, u) {
      assert Listed(st, rule, snapshot, u);
    }
  }

  lemma NoNewHolderKeepsPass(st: Store, rule: Rule, st': Store, ctl: Control)
    requires NoNewHolder(st, rule, st') && PassOk(st, rule, ctl)
    ensures PassOk(st', rule, ctl)
  {
    if ctl.InPass? {
      forall r | r in ctl.todo ensures RoleListed(st', rule, ctl.snapshot, r) {
        NoNewHolderKeepsListed(st, rule, st', ctl.snapshot, r);
      }
    }
  }

  lemma SameUnseenStaysCovered(st: Store, asked: Asked, st': Store, asked': Asked, ctl: Control)
    requires Covered(st, asked, ctl) && st'.born == st.born && st'.unseen == st.unseen
    requires forall role :: Counter(asked', role).add == Counter(asked, role).add
    ensures Covered(st', asked', ctl)
  {
    assert forall role :: UnseenOf(st', role) == UnseenOf(st, role);
  }

  // ----- The environment -----

  /** Reporting a creation takes it off the unreported ones and one off the
      counter. */
  lemma UnseenAfterReport(st: Store, p: Pod, st': Store, role: Role)
    requires Consistent(st) && Environment(st, SeesAdd(p), st')
    ensures UnseenOf(st', role) == UnseenOf(st, role) - if role == RoleOf(st, p.uid) then {p.uid} else {}
  {
  }

  lemma CoverAfterReport(st: Store, asked: Asked, p: Pod, st': Store, role: Role)
    requires Consistent(st) && Environment(st, SeesAdd(p), st')
    ensures UnseenOf(st, role) == {} ==> UnseenOf(st', role) == {}
    ensures Covers(st, asked, role) ==> Covers(st', Observe(asked, p.labels, 1, 0), role)
  {
    SamePlaceAgrees(st.born[p.uid].labels, p.labels);
    UnseenAfterReport(st, p, st', role);
    assert p.uid in UnseenOf(st, RoleOf(st, p.uid));
  }

  lemma SeesAddStaysCovered(s: State, p: Pod, st': Store)
    requires Consistent(s.pods) && Covered(s.pods, s.asked, s.ctl) && Environment(s.pods, SeesAdd(p), st')
    ensures Covered(st', Observed(s, SeesAdd(p)), s.ctl)
  {
    forall role {
      CoverAfterReport(s.pods, s.asked, p, st', role);
    }
  }

  lemma EarlierChain(a: Pod, b: Pod, c: Pod)
    requires Earlier(a, b) && Earlier(b, c)
    ensures Earlier(a, c)
  {
  }

  /** A later state of a pod in the cluster, and one in the cache. */
  lemma PodChangesKeepsConsistent(st: Store, p: Pod)
    requires Consistent(st) && p.uid in st.cluster && Earlier(st.cluster[p.uid], p)
    ensures Consistent(st.(cluster := st.cluster[p.uid := p]))
  {
    EarlierChain(st.born[p.uid], st.cluster[p.uid], p);
    if p.uid in st.view {
      EarlierChain(st.view[p.uid], st.cluster[p.uid], p);
    }
  }

  lemma SeesUpdateKeepsConsistent(st: Store, p: Pod)
    requires Consistent(st) && p.uid in st.view && Earlier(st.view[p.uid], p)
    requires p.uid in st.cluster ==> Earlier(p, st.cluster[p.uid])
    ensures Consistent(st.(view := st.view[p.uid := p]))
  {
    EarlierChain(st.born[p.uid], st.view[p.uid], p);
  }

  lemma SeesAddKeepsConsistent(st: Store, p: Pod, st': Store)
    requires Consistent(st) && Environment(st, SeesAdd(p), st')
    ensures Consistent(st')
  {
  }

  lemma LandsKeepsConsistent(st: Store, u: Uid, st': Store)
    requires Consistent(st) && Environment(st, Lands(u), st')
    ensures Consistent(st')
  {
  }

  lemma EnvironmentKeepsConsistent(st: Store, e: Event, st': Store)
    requires Consistent(st) && IsEnvironment(e) && Environment(st, e, st')
    ensures Consistent(st')
  {
    match e
    case PodChanges(p) => PodChangesKeepsConsistent(st, p);
    case SeesUpdate(p) => SeesUpdateKeepsConsistent(st, p);
    case SeesAdd(p) => SeesAddKeepsConsistent(st, p, st');
    case Lands(u) => LandsKeepsConsistent(st, u, st');
    case _ =>
  }

  lemma EnvironmentAddsNoHolder(st: Store, rule: Rule, e: Event, st': Store)
    requires Consistent(st) && IsEnvironment(e) && Environment(st, e, st')
    ensures NoNewHolder(st, rule, st')
  {
    forall u | Occupies(st', rule, u) ensures Occupies(st, rule, u) {
      HolderWasHolder(st, rule, e, st', u);
    }
  }

  lemma HolderWasHolder(st: Store, rule: Rule, e: Event, st': Store, u: Uid)
    requires Consistent(st) && IsEnvironment(e) && Environment(st, e, st') && Occupies(st', rule, u)
    ensures Occupies(st, rule, u)
  {
  }

  lemma EnvironmentKeepsInv(s: State, rule: Rule, e: Event, s': State)
    requires Inv(s, rule) && IsEnvironment(e) && Step(s, e, s')
    ensures Inv(s', rule)
  {
    EnvironmentKeepsConsistent(s.pods, e, s'.pods);
    EnvironmentAddsNoHolder(s.pods, rule, e, s'.pods);
    NoNewHolderKeepsUnique(s.pods, rule, s'.pods);
    NoNewHolderKeepsPass(s.pods, rule, s'.pods, s.ctl);
    if e.SeesAdd? {
      SeesAddStaysCovered(s, e.pod, s'.pods);
    } else {
      SameUnseenStaysCovered(s.pods, s.asked, s'.pods, s'.asked, s.ctl);
    }
  }

  // ----- The controller -----

  /** A pass that gets through the gate lists every holder of a place: the
      satisfied counters leave no creation unreported. */
  lemma GateListsEveryHolder(st: Store, asked: Asked, rule: Rule, role: Role, snapshot: seq<Pod>)
    requires Consistent(st) && (UnseenOf(st, role) == {} || Covers(st, asked, role))
    requires Counter(asked, role).Satisfied() && Lists(snapshot, st.view)
    ensures UnseenOf(st, role) == {} && RoleListed(st, rule, snapshot, role)
  {
    forall u | Occupies(st, rule, u) && RoleOf(st, u) == role ensures Listed(st, rule, snapshot, u) {
      assert u !in UnseenOf(st, role);
      assert u in st.view;
      assert st.view[u] in snapshot;
    }
  }

  lemma BeginPassKeepsInv(s: State, rule: Rule, e: Event, s': State)
    requires Inv(s, rule) && e.BeginPass? && Step(s, e, s') && Respects(e, rule.never)
    ensures Inv(s', rule)
  {
    forall r | r in e.specs ensures RoleListed(s'.pods, rule, e.snapshot, r) && Covers(s'.pods, s'.asked, r) {
      GateListsEveryHolder(s.pods, s.asked, rule, r, e.snapshot);
    }
  }

  lemma ListedPodIsInBucket(snapshot: seq<Pod>, spec: RoleSpec, role: Role, p: Pod, i: nat)
    requires p in snapshot && MatchesRole(p.labels, role) && (spec.restart == Never || !p.deleting)
    requires PodIndex(p.labels) == Some(i) && i < |RoleSlices(spec, role, snapshot)|
    ensures p in RoleSlices(spec, role, snapshot)[i]
  {
    assert p in Filter(snapshot, OfRole(role));
  }

  /** A listed pod that holds a place makes its bucket non-empty. */
  lemma ListedFillsBucket(st: Store, rule: Rule, snapshot: seq<Pod>, spec: RoleSpec, role: Role, u: Uid)
    requires u in st.born && RoleOf(st, u) == role && role != "" && Listed(st, rule, snapshot, u)
    requires role in rule.never ==> spec.restart == Never
    requires IndexOf(st, u).Some? && 0 <= IndexOf(st, u).value < |RoleSlices(spec, role, snapshot)|
    ensures RoleSlices(spec, role, snapshot)[IndexOf(st, u).value] != []
  {
    var p :| p in snapshot && p.uid == u && PlaceOf(st.born[u].labels) == PlaceOf(p.labels)
      && (role in rule.never || !p.deleting);
    SamePlaceAgrees(st.born[u].labels, p.labels);
    ListedPodIsInBucket(snapshot, spec, role, p, IndexOf(st, u).value);
  }

  lemma SnapshotFillsBuckets(st: Store, rule: Rule, ctl: Control, retryable: int -> bool, script: Script)
    requires PassShape(rule, ctl) && PassOk(st, rule, ctl)
    requires ctl.InPass? && ctl.todo != []
    ensures EmptyMeansFree(st, rule, FirstLoop(ctl, retryable, script))
  {
    var l := FirstLoop(ctl, retryable, script);
    assert RoleListed(st, rule, ctl.snapshot, l.role);
    forall u | Occupies(st, rule, u) && RoleOf(st, u) == l.role && IndexOf(st, u).Some?
      ensures var i := IndexOf(st, u).value; 0 <= i < |l.slices| ==> l.slices[i] != []
    {
      assert Listed(st, rule, ctl.snapshot, u);
      if 0 <= IndexOf(st, u).value < |l.slices| {
        ListedFillsBucket(st, rule, ctl.snapshot, l.inp.spec, l.role, u);
      }
    }
  }

  lemma BeginRoleKeepsInv(s: State, rule: Rule, e: Event, s': State)
    requires Inv(s, rule) && e.BeginRole? && Step(s, e, s')
    ensures Inv(s', rule)
  {
    SnapshotFillsBuckets(s.pods, rule, s.ctl, e.retryable, e.script);
    assert forall r <- s'.ctl.todo :: r in s.ctl.todo;
    assert s.ctl.todo[0] !in s'.ctl.todo;
  }

  lemma AcceptedKeepsConsistent(st: Store, made: Pod)
    requires Consistent(st) && made.uid !in st.born
    ensures Consistent(Created(st, Accepted, made))
  {
    assert Earlier(made, made);
  }

  lemma TimedOutKeepsConsistent(st: Store, made: Pod)
    requires Consistent(st) && made.uid !in st.born
    ensures Consistent(Created(st, TimedOut, made))
  {
  }

  lemma CreatedKeepsConsistent(st: Store, reply: CreateReply, made: Pod)
    requires Consistent(st) && made.uid !in st.born
    ensures Consistent(Created(st, reply, made))
  {
    if reply == Accepted {
      AcceptedKeepsConsistent(st, made);
    } else if reply == TimedOut {
      TimedOutKeepsConsistent(st, made);
    }
  }

  lemma UnseenAfterCreation(st: Store, reply: CreateReply, made: Pod, role: Role, k: nat, r: Role)
    requires Consistent(st) && IsNewPod(st, made, role, k)
    ensures UnseenOf(Created(st, reply, made), r)
         == UnseenOf(st, r) + if ReturnsNil(reply) && r == role then {made.uid} else {}
    ensures made.uid !in UnseenOf(st, r)
  {
  }

  lemma CoverAfterCreation(st: Store, asked: Asked, role: Role, reply: CreateReply, made: Pod, k: nat, r: Role)
    requires Consistent(st) && IsNewPod(st, made, role, k)
    ensures var st' := Created(st, reply, made);
            && (Covers(st, asked, r) ==> Covers(st', Raise(asked, role, if ReturnsNil(reply) then 1 else 0, 0), r))
            && (r != role ==> UnseenOf(st', r) == UnseenOf(st, r))
  {
    UnseenAfterCreation(st, reply, made, role, k, r);
  }

  lemma CreatedStaysCovered(st: Store, asked: Asked, ctl: Control, role: Role, reply: CreateReply, made: Pod, k: nat)
    requires Consistent(st) && Covered(st, asked, ctl) && IsNewPod(st, made, role, k)
    requires ctl.InPass? && role in ctl.specs
    ensures Covered(Created(st, reply, made), Raise(asked, role, if ReturnsNil(reply) then 1 else 0, 0), ctl)
  {
    var st', asked' := Created(st, reply, made), Raise(asked, role, if ReturnsNil(reply) then 1 else 0, 0);
    forall r ensures (Covers(st, asked, r) ==> Covers(st', asked', r))
                  && (r != role ==> UnseenOf(st', r) == UnseenOf(st, r))
    {
      CoverAfterCreation(st, asked, role, reply, made, k, r);
    }
    assert Covers(st, asked, role);
  }

  /** The only new holder a creation can make is the pod it makes. */
  lemma CreatedHolders(st: Store, rule: Rule, role: Role, reply: CreateReply, made: Pod, k: nat, u: Uid)
    requires Consistent(st) && IsNewPod(st, made, role, k)
    requires Occupies(Created(st, reply, made), rule, u)
    ensures var st' := Created(st, reply, made);
            if u == made.uid then RoleOf(st', u) == role && IndexOf(st', u) == Some(k)
            else u in st.born && st'.born[u] == st.born[u] && Occupies(st, rule, u)
  {
  }

  lemma CreatedKeepsUnique(st: Store, rule: Rule, role: Role, reply: CreateReply, made: Pod, k: nat)
    requires Consistent(st) && Unique(st, rule) && IsNewPod(st, made, role, k)
    requires forall u | Occupies(st, rule, u) && RoleOf(st, u) == role :: IndexOf(st, u) != Some(k)
    ensures Unique(Created(st, reply, made), rule)
  {
    var st' := Created(st, reply, made);
    forall u, v | Occupies(st', rule, u) && Occupies(st', rule, v) && u != v && RoleOf(st', u) == RoleOf(st', v)
      ensures IndexOf(st', u).None? || IndexOf(st', u) != IndexOf(st', v)
    {
      CreatedHolders(st, rule, role, reply, made, k, u);
      CreatedHolders(st, rule, role, reply, made, k, v);
    }
  }

  lemma CreatedKeepsListed(st: Store, rule: Rule, role: Role, reply: CreateReply, made: Pod, k: nat,
                           snapshot: seq<Pod>, r: Role)
    requires Consistent(st) && IsNewPod(st, made, role, k)
    requires r != role && RoleListed(st, rule, snapshot, r)
    ensures RoleListed(Created(st, reply, made), rule, snapshot, r)
  {
    var st' := Created(st, reply, made);
    forall u | Occupies(st', rule, u) && RoleOf(st', u) == r ensures Listed(st', rule, snapshot, u) {
      CreatedHolders(st, rule, role, reply, made, k, u);
      assert Listed(st, rule, snapshot, u);
    }
  }

  lemma CreatedKeepsTodo(st: Store, rule: Rule, role: Role, reply: CreateReply, made: Pod, k: nat,
                         snapshot: seq<Pod>, todo: seq<Role>)
    requires Consistent(st) && IsNewPod(st, made, role, k) && role !in todo
    requires forall r <- todo :: RoleListed(st, rule, snapshot, r)
    ensures forall r <- todo :: RoleListed(Created(st, reply, made), rule, snapshot, r)
  {
    forall r | r in todo ensures RoleListed(Created(st, reply, made), rule, snapshot, r) {
      CreatedKeepsListed(st, rule, role, reply, made, k, snapshot, r);
    }
  }

  lemma CreatedKeepsFree(st: Store, rule: Rule, l: RoleLoop, reply: CreateReply, made: Pod, l': RoleLoop)
    requires Consistent(st) && l.k < |l.slices| && IsNewPod(st, made, l.role, l.k)
    requires EmptyMeansFree(st, rule, l)
    requires l'.role == l.role && l'.slices == l.slices && l'.k == l.k + 1
    ensures EmptyMeansFree(Created(st, reply, made), rule, l')
  {
    var st' := Created(st, reply, made);
    forall u | Occupies(st', rule, u) && RoleOf(st', u) == l'.role && IndexOf(st', u).Some?
      ensures var i := IndexOf(st', u).value; l'.k <= i < |l'.slices| ==> l'.slices[i] != []
    {
      CreatedHolders(st, rule, l.role, reply, made, l.k, u);
    }
  }

  lemma ProcessCreates(inp: Inputs, acc: Acc, k: nat)
    requires !(inp.spec.restart == Never && IsRoleStarted(inp.phase))
    ensures var acc' := Process(inp, acc, k, []);
            && acc'.creations - acc.creations == (if ReturnsNil(inp.script(|acc.calls|).create) then 1 else 0)
            && acc'.deletions == acc.deletions
  {
  }

  lemma ProcessKeeps(inp: Inputs, acc: Acc, k: nat, bucket: seq<Pod>)
    requires bucket != [] || (inp.spec.restart == Never && IsRoleStarted(inp.phase))
    ensures Process(inp, acc, k, bucket).creations == acc.creations
  {
  }

  /** The state after an empty bucket has been filled. */
  lemma CreateEffect(s: State, made: Pod, s': State)
    requires Step(s, NextBucket(made), s') && WillCreate(s.ctl.loop.value)
    ensures var l := s.ctl.loop.value;
            var reply := l.inp.script(|l.acc.calls|).create;
            && s'.pods == Created(s.pods, reply, made)
            && s'.asked == Raise(s.asked, l.role, if ReturnsNil(reply) then 1 else 0, 0)
            && s'.ctl == s.ctl.(loop := Some(l.(k := l.k + 1, acc := s'.ctl.loop.value.acc)))
  {
    var l := s.ctl.loop.value;
    ProcessCreates(l.inp, l.acc, l.k);
  }

  lemma CreateKeepsPass(s: State, rule: Rule, made: Pod, s': State)
    requires Consistent(s.pods) && PassShape(rule, s.ctl) && PassOk(s.pods, rule, s.ctl)
    requires Step(s, NextBucket(made), s') && WillCreate(s.ctl.loop.value)
    ensures PassShape(rule, s'.ctl) && PassOk(s'.pods, rule, s'.ctl)
  {
    var l, l' := s.ctl.loop.value, s'.ctl.loop.value;
    var reply := l.inp.script(|l.acc.calls|).create;
    CreateEffect(s, made, s');
    CreatedKeepsFree(s.pods, rule, l, reply, made, l');
    CreatedKeepsTodo(s.pods, rule, l.role, reply, made, l.k, s.ctl.snapshot, s.ctl.todo);
  }

  lemma CreateKeepsInv(s: State, rule: Rule, made: Pod, s': State)
    requires Inv(s, rule) && Step(s, NextBucket(made), s')
    requires WillCreate(s.ctl.loop.value)
    ensures Inv(s', rule)
  {
    var l := s.ctl.loop.value;
    var reply := l.inp.script(|l.acc.calls|).create;
    CreateEffect(s, made, s');
    CreatedKeepsConsistent(s.pods, reply, made);
    CreatedStaysCovered(s.pods, s.asked, s.ctl, l.role, reply, made, l.k);
    CreatedKeepsUnique(s.pods, rule, l.role, reply, made, l.k);
    CreateKeepsPass(s, rule, made, s');
  }

  lemma DeletedKeeps(st: Store, rule: Rule, u: Uid)
    requires Consistent(st)
    ensures Consistent(Deleted(st, u)) && NoNewHolder(st, rule, Deleted(st, u))
  {
    if u in st.cluster {
      PodChangesKeepsConsistent(st, st.cluster[u].(deleting := true));
    }
  }

  /** The loop moves on by a bucket without creating: at most one pod is
      deleted, and no add counter moves. */
  ghost predicate MovesOn(s: State, s': State) {
    && s.ctl.InPass? && s.ctl.loop.Some? && s'.ctl.InPass? && s'.ctl.loop.Some?
    && s.ctl.loop.value.k < |s.ctl.loop.value.slices|
    && s'.ctl == s.ctl.(loop := Some(s.ctl.loop.value.(k := s.ctl.loop.value.k + 1, acc := s'.ctl.loop.value.acc)))
    && (s'.pods == s.pods || exists u :: s'.pods == Deleted(s.pods, u))
    && forall role :: Counter(s'.asked, role).add == Counter(s.asked, role).add
  }

  lemma KeptBucketMovesOn(s: State, made: Pod, s': State)
    requires Step(s, NextBucket(made), s') && !WillCreate(s.ctl.loop.value)
    ensures MovesOn(s, s')
  {
    var l := s.ctl.loop.value;
    ProcessKeeps(l.inp, l.acc, l.k, l.slices[l.k]);
  }

  lemma MovingOnKeepsInv(s: State, rule: Rule, s': State)
    requires Inv(s, rule) && MovesOn(s, s')
    ensures Inv(s', rule)
  {
    if s'.pods != s.pods {
      var u :| s'.pods == Deleted(s.pods, u);
      DeletedKeeps(s.pods, rule, u);
    }
    NoNewHolderKeepsUnique(s.pods, rule, s'.pods);
    NoNewHolderKeepsPass(s.pods, rule, s'.pods, s.ctl);
    SameUnseenStaysCovered(s.pods, s.asked, s'.pods, s'.asked, s.ctl);
  }

  lemma StepKeepsInv(s: State, rule: Rule, e: Event, s': State)
    requires Inv(s, rule) && Step(s, e, s') && Respects(e, rule.never)
    ensures Inv(s', rule)
  {
    if IsEnvironment(e) {
      EnvironmentKeepsInv(s, rule, e, s');
    } else {
      match e
      case BeginPass(_, _, _) => BeginPassKeepsInv(s, rule, e, s');
      case BeginRole(_, _) => BeginRoleKeepsInv(s, rule, e, s');
      case NextBucket(made) =>
        if WillCreate(s.ctl.loop.value) {
          CreateKeepsInv(s, rule, made, s');
        } else {
          KeptBucketMovesOn(s, made, s');
          MovingOnKeepsInv(s, rule, s');
        }
      case _ =>
    }
  }

  // ----- Runs -----

  lemma InitIsInv(s: State, rule: Rule)
    requires Init(s, rule)
    ensures Inv(s, rule)
  {
  }

  ghost predicate InvAt(states: seq<State>, rule: Rule, k: nat) {
    k < |states| && Inv(states[k], rule)
  }

  lemma {:induction false} InvChain(states: seq<State>, rule: Rule, k: nat)
    requires InvAt(states, rule, 0) && k < |states|
    requires forall i: nat | i + 1 < |states| && InvAt(states, rule, i) :: InvAt(states, rule, i + 1)
    ensures InvAt(states, rule, k)
  {
    if k > 0 {
      InvChain(states, rule, k - 1);
      var last := k - 1;
      assert InvAt(states, rule, last + 1);
    }
  }

  lemma RunStepKeepsInv(states: seq<State>, events: seq<Event>, rule: Rule, i: nat)
    requires IsRun(states, events) && forall e <- events :: Respects(e, rule.never)
    requires i < |events| && Inv(states[i], rule)
    ensures Inv(states[i + 1], rule)
  {
    assert events[i] in events;
    StepKeepsInv(states[i], rule, events[i], states[i + 1]);
  }

  lemma RunHoldsInv(states: seq<State>, events: seq<Event>, rule: Rule, k: nat)
    requires IsRun(states, events) && Init(states[0], rule)
    requires forall e <- events :: Respects(e, rule.never)
    requires k < |states|
    ensures Inv(states[k], rule)
  {
    InitIsInv(states[0], rule);
    forall i: nat | i + 1 < |states| && InvAt(states, rule, i) ensures InvAt(states, rule, i + 1) {
      RunStepKeepsInv(states, events, rule, i);
    }
    InvChain(states, rule, k);
  }

  /** In every run, however far the cache lags behind, two living pods of one
      role never share an index; and in a role whose restart policy is always
      Never, no two pods do, living or not. */
  lemma AtMostOnePodPerIndex(states: seq<State>, events: seq<Event>, never: set<Role>, k: nat, u: Uid, v: Uid)
    requires IsRun(states, events) && Init(states[0], Rule(never, {}))
    requires forall e <- events :: Respects(e, never)
    requires k < |states|
    requires var cluster := states[k].pods.cluster;
             && u in cluster && v in cluster && u != v
             && GetReplicaType(cluster[u].labels) == GetReplicaType(cluster[v].labels)
             && PodIndex(cluster[u].labels).Some? && PodIndex(cluster[u].labels) == PodIndex(cluster[v].labels)
    ensures var cluster := states[k].pods.cluster;
            && (cluster[u].deleting || cluster[v].deleting)
            && GetReplicaType(cluster[u].labels) !in never
  {
    RunHoldsInv(states, events, Rule(never, {}), k);
    var st := states[k].pods;
    SamePlaceAgrees(st.born[u].labels, st.cluster[u].labels);
    SamePlaceAgrees(st.born[v].labels, st.cluster[v].labels);
    assert IndexOf(st, u) == IndexOf(st, v) && RoleOf(st, u) == RoleOf(st, v);
  }

  /** The controller is about to fill an empty bucket. */
  predicate CreatesNow(s: State) {
    s.ctl.InPass? && s.ctl.loop.Some? && WillCreate(s.ctl.loop.value)
  }

  /** When a pass creates a pod, no living pod, and no creation that may still
      take effect, is at that index; under Never, no pod at all is, not even in
      the cache. */
  lemma CreationMeetsNoHolder(states: seq<State>, events: seq<Event>, never: set<Role>, k: nat, u: Uid)
    requires IsRun(states, events) && Init(states[0], Rule(never, {}))
    requires forall e <- events :: Respects(e, never)
    requires k < |states| && CreatesNow(states[k]) && u in states[k].pods.born
    requires RoleOf(states[k].pods, u) == states[k].ctl.loop.value.role
    requires IndexOf(states[k].pods, u) == Some(states[k].ctl.loop.value.k)
    ensures !Occupies(states[k].pods, Rule(never, {}), u)
  {
    RunHoldsInv(states, events, Rule(never, {}), k);
  }

  /** In every state of every run, a role with unreported creations has an add
      counter that covers them, so its gate is shut. */
  lemma CounterCoversUnreportedCreations(states: seq<State>, events: seq<Event>, never: set<Role>, k: nat, role: Role)
    requires IsRun(states, events) && Init(states[0], Rule(never, {}))
    requires forall e <- events :: Respects(e, never)
    requires k < |states| && UnseenOf(states[k].pods, role) != {}
    ensures Counter(states[k].asked, role).add >= |UnseenOf(states[k].pods, role)|
    ensures !Counter(states[k].asked, role).Satisfied()
  {
    RunHoldsInv(states, events, Rule(never, {}), k);
  }

  /** The pod `CreateNewPod` describes is a pod the model lets a pass create. */
  lemma CreatedPodIsNew(st: Store, made: Pod, template: Labels, generated: Labels, annotations: Labels, role: Role,
                        index: nat)
    requires made.uid !in st.born && !made.deleting && made.phase == PhaseUnset && index <= MAX_INT
    requires made.labels == NewPodLabels(template, generated, annotations, role, index)
    ensures IsNewPod(st, made, role, index)
  {
    NewPodReadsBack(template, generated, annotations, role, index);
  }

  // ----- Indices are never negative -----

  predicate BornNotNegative(st: Store) {
    forall u <- st.born :: IndexNotNegative(st.born[u].labels)
  }

  lemma StepKeepsNotNegative(s: State, e: Event, s': State)
    requires BornNotNegative(s.pods) && Step(s, e, s')
    ensures BornNotNegative(s'.pods)
  {
    if e.NextBucket? && !WillCreate(s.ctl.loop.value) {
      KeptBucketMovesOn(s, e.made, s');
    }
  }

  lemma {:induction false} RunKeepsNotNegative(states: seq<State>, events: seq<Event>, k: nat)
    requires IsRun(states, events) && BornNotNegative(states[0].pods) && k < |states|
    ensures BornNotNegative(states[k].pods)
  {
    if k > 0 {
      RunKeepsNotNegative(states, events, k - 1);
      StepKeepsNotNegative(states[k - 1], events[k - 1], states[k]);
    }
  }

  /** If no pod starts out with a negative index, none ever has one, and
      whatever a pass lists meets the condition of `GetPodSlices`. */
  lemma ListedIndicesAreNotNegative(states: seq<State>, events: seq<Event>, k: nat, listed: seq<Pod>)
    requires IsRun(states, events) && Init(states[0], Rule({}, {})) && BornNotNegative(states[0].pods)
    requires k < |states| && Lists(listed, states[k].pods.view)
    ensures IndicesNotNegative(listed)
  {
    RunHoldsInv(states, events, Rule({}, {}), k);
    RunKeepsNotNegative(states, events, k);
    var st := states[k].pods;
    forall p | p in listed ensures IndexNotNegative(p.labels) {
      SamePlaceAgrees(st.born[p.uid].labels, p.labels);
    }
  }
}
