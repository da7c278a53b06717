/** The job's controller inside its environment, as a state machine.

    The API server's pods, the informer's lagging view of them, the expectation
    counters and the controller's progress through a pass are separate state.
    Every event of the environment may fall between any two buckets of a pass.
    The controller's own steps use the functions of `PodPass`, which the
    imperative `ReconcilePods` is proved to run. */
module Cluster {
  import opened Decimal
  import opened Api
  import opened Pods
  import opened PodPass
  import E = Expectations

  type Uid = nat

  /** A role's bucket loop, between two buckets.  The inputs hold the answers
      the API server is going to give, which nothing else in the model knows. */
  datatype RoleLoop = RoleLoop(role: Role, inp: Inputs, slices: seq<seq<Pod>>, k: nat, acc: Acc)

  /** A pass works on the pods it listed and on its own copy of the status, and
      takes the roles one by one. */
  datatype Control =
    | Idle
    | InPass(specs: map<Role, RoleSpec>, snapshot: seq<Pod>, local: map<Role, RolePhase>,
             todo: seq<Role>, loop: Option<RoleLoop>)

  /** The pods, as the API server and as the informer have them. */
  datatype Store = Store(
    /** Every pod there ever was, as it first was. */
    born: map<Uid, Pod>,
    /** The pods the API server holds. */
    cluster: map<Uid, Pod>,
    /** The informer's cache. */
    view: map<Uid, Pod>,
    /** Creations the informer has not reported yet. */
    unseen: set<Uid>,
    /** Creations that timed out and may still take effect. */
    inflight: set<Uid>)

  /** What the controller has asked for and not yet seen, by role. */
  type Asked = map<Role, E.Counts>

  datatype State = State(
    pods: Store,
    asked: Asked,
    /** The role phases in the job's stored status. */
    phases: map<Role, RolePhase>,
    ctl: Control)

  datatype Event =
    | PodChanges(pod: Pod)
    | PodVanishes(uid: Uid)
    | Lands(uid: Uid)
    | SeesAdd(pod: Pod)
    | SeesUpdate(pod: Pod)
    | SeesDelete(uid: Uid)
    | BeginPass(specs: map<Role, RoleSpec>, todo: seq<Role>, snapshot: seq<Pod>)
    | BeginRole(retryable: int -> bool, script: Script)
    | NextBucket(made: Pod)
    | EndRole(down: set<string>)
    | EndPass
    | AbortPass

  function Counter(asked: Asked, role: Role): E.Counts {
    if role in asked then asked[role] else E.Counts(0, 0)
  }

  function Raise(asked: Asked, role: Role, add: int, del: int): Asked {
    asked[role := E.Counts(Counter(asked, role).add + add, Counter(asked, role).del + del)]
  }

  /** Observed pods lower the counters of the role their label names. */
  function Observe(asked: Asked, labels: Labels, add: int, del: int): Asked {
    if GetReplicaType(labels) == "" then asked else Raise(asked, GetReplicaType(labels), -add, -del)
  }

  function PhaseOf(phases: map<Role, RolePhase>, role: Role): RolePhase {
    if role in phases then phases[role] else Pending
  }

  /** The labels that place a pod; other labels may be patched. */
  datatype Place = Place(role: Option<string>, oldRole: Option<string>, index: Option<string>, oldIndex: Option<string>)

  function Label(labels: Labels, key: Key): Option<string> {
    if key in labels then Some(labels[key]) else None
  }

  function PlaceOf(labels: Labels): Place {
    Place(Label(labels, ReplicaTypeLabel), Label(labels, DeprecatedTypeLabel),
          Label(labels, ReplicaIndexLabel), Label(labels, DeprecatedIndexLabel))
  }

  predicate IsTerminal(phase: PodPhase) {
    phase == PodSucceeded || phase == PodFailed
  }

  /** `b` may be a later state of the pod in state `a`: it stays where it is, a
      deletion timestamp is permanent, and so is a terminal phase. */
  predicate Earlier(a: Pod, b: Pod) {
    && a.uid == b.uid && PlaceOf(a.labels) == PlaceOf(b.labels)
    && (a.deleting ==> b.deleting)
    && (IsTerminal(a.phase) ==> b.phase == a.phase)
  }

  /** The list holds exactly the pods of the cache. */
  ghost predicate Lists(listed: seq<Pod>, view: map<Uid, Pod>) {
    && (forall u <- view :: view[u] in listed)
    && (forall p <- listed :: p.uid in view && view[p.uid] == p)
    && forall i, j | 0 <= i < j < |listed| :: listed[i].uid != listed[j].uid
  }

  /** A pod as the API server first holds it for role and bucket. */
  predicate IsNewPod(st: Store, made: Pod, role: Role, index: nat) {
    && made.uid !in st.born
    && GetReplicaType(made.labels) == role
    && GetReplicaIndex(made.labels) == Itoa(index) && PodIndex(made.labels) == Some(index)
    && !made.deleting && made.phase == PhaseUnset
  }

  /** A creation the API server accepted, or one whose answer was lost. */
  function Created(st: Store, reply: CreateReply, made: Pod): Store {
    match reply
    case Accepted =>
      st.(born := st.born[made.uid := made], unseen := st.unseen + {made.uid}, cluster := st.cluster[made.uid := made])
    case TimedOut =>
      st.(born := st.born[made.uid := made], unseen := st.unseen + {made.uid}, inflight := st.inflight + {made.uid})
    case Unprepared => st
    case Refused => st
  }

  /** A deletion the API server accepted. */
  function Deleted(st: Store, u: Uid): Store {
    if u in st.cluster then st.(cluster := st.cluster[u := st.cluster[u].(deleting := true)]) else st
  }

  predicate WillCreate(l: RoleLoop) {
    l.k < |l.slices| && l.slices[l.k] == [] && !(l.inp.spec.restart == Never && IsRoleStarted(l.inp.phase))
  }

  /** What the calls of one bucket do to the pods. */
  function BucketEffect(st: Store, l: RoleLoop, acc: Acc, made: Pod): Store
    requires l.k < |l.slices|
  {
    if WillCreate(l) then Created(st, l.inp.script(|l.acc.calls|).create, made)
    else if |l.slices[l.k]| == 1 && acc.deletions > l.acc.deletions then Deleted(st, l.slices[l.k][0].uid)
    else st
  }

  predicate IsEnvironment(e: Event) {
    e.PodChanges? || e.PodVanishes? || e.Lands? || e.SeesAdd? || e.SeesUpdate? || e.SeesDelete?
  }

  /** What the environment may do to the pods and to the informer's cache. */
  ghost predicate Environment(st: Store, e: Event, st': Store)
    requires IsEnvironment(e)
  {
    match e
    case PodChanges(p) =>
      && p.uid in st.cluster && Earlier(st.cluster[p.uid], p)
      && st' == st.(cluster := st.cluster[p.uid := p])
    case PodVanishes(u) =>
      && u in st.cluster
      && st' == st.(cluster := st.cluster - {u})
    case Lands(u) =>
      && u in st.inflight && u in st.born
      && st' == st.(inflight := st.inflight - {u}, cluster := st.cluster[u := st.born[u]])
    case SeesAdd(p) =>
      && p.uid in st.unseen && p.uid !in st.inflight && p.uid in st.born && Earlier(st.born[p.uid], p)
      && (p.uid in st.cluster ==> Earlier(p, st.cluster[p.uid]))
      && st' == st.(view := st.view[p.uid := p], unseen := st.unseen - {p.uid})
    case SeesUpdate(p) =>
      && p.uid in st.view && Earlier(st.view[p.uid], p)
      && (p.uid in st.cluster ==> Earlier(p, st.cluster[p.uid]))
      && st' == st.(view := st.view[p.uid := p])
    case SeesDelete(u) =>
      && u in st.view && u !in st.cluster
      && st' == st.(view := st.view - {u})
  }

  /** The event handlers lower the counters as the cache changes. */
  function Observed(s: State, e: Event): Asked {
    if e.SeesAdd? then Observe(s.asked, e.pod.labels, 1, 0)
    else if e.SeesDelete? && e.uid in s.pods.view then Observe(s.asked, s.pods.view[e.uid].labels, 0, 1)
    else s.asked
  }

  /** A pass begins only when the counters of all its roles are satisfied; it
      resets them and lists the cache. */
  ghost predicate Begin(s: State, specs: map<Role, RoleSpec>, todo: seq<Role>, snapshot: seq<Pod>, s': State) {
    && s.ctl.Idle?
    && "" !in specs
    && (forall r <- specs :: Counter(s.asked, r).Satisfied())
    && Distinct(todo) && (forall r <- todo :: r in specs)
    && Lists(snapshot, s.pods.view)
    && s' == s.(asked := s.asked + map r | r in specs :: E.Counts(0, 0),
                ctl := InPass(specs, snapshot, s.phases, todo, None))
  }

  function FirstLoop(ctl: Control, retryable: int -> bool, script: Script): RoleLoop
    requires ctl.InPass? && ctl.todo != [] && ctl.todo[0] in ctl.specs
  {
    var role := ctl.todo[0];
    var spec := ctl.specs[role];
    RoleLoop(role, Inputs(spec, PhaseOf(ctl.local, role), retryable, script), RoleSlices(spec, role, ctl.snapshot), 0,
             Start([], RoleUncontrolled(spec, role, ctl.snapshot)))
  }

  /** One bucket, with the calls it makes and the counters they raise. */
  ghost predicate Bucketwise(s: State, made: Pod, s': State)
    requires s.ctl.InPass? && s.ctl.loop.Some?
  {
    var l := s.ctl.loop.value;
    && l.k < |l.slices| && !l.acc.failed
    && (WillCreate(l) ==> IsNewPod(s.pods, made, l.role, l.k))
    && var acc := Process(l.inp, l.acc, l.k, l.slices[l.k]);
       s' == s.(pods := BucketEffect(s.pods, l, acc, made),
                asked := Raise(s.asked, l.role, acc.creations - l.acc.creations, acc.deletions - l.acc.deletions),
                ctl := s.ctl.(loop := Some(l.(k := l.k + 1, acc := acc))))
  }

  ghost predicate Step(s: State, e: Event, s': State) {
    match e
    case BeginPass(specs, todo, snapshot) => Begin(s, specs, todo, snapshot, s')
    case BeginRole(retryable, script) =>
      && s.ctl.InPass? && s.ctl.loop.None? && s.ctl.todo != [] && s.ctl.todo[0] in s.ctl.specs
      && s' == s.(ctl := s.ctl.(todo := s.ctl.todo[1..], loop := Some(FirstLoop(s.ctl, retryable, script))))
    case NextBucket(made) =>
      s.ctl.InPass? && s.ctl.loop.Some? && Bucketwise(s, made, s')
    case EndRole(down) =>
      && s.ctl.InPass? && s.ctl.loop.Some?
      && var l := s.ctl.loop.value;
         && l.k == |l.slices| && !l.acc.failed
         && s' == s.(ctl := s.ctl.(loop := None,
                                   local := s.ctl.local[l.role := PhaseAfter(l.inp.spec, l.acc, down, l.inp.phase)]))
    case EndPass =>
      && s.ctl.InPass? && s.ctl.loop.None? && s.ctl.todo == []
      && s' == s.(phases := s.ctl.local, ctl := Idle)
    case AbortPass =>
      && s.ctl.InPass?
      && s' == s.(ctl := Idle)
    case _ =>
      Environment(s.pods, e, s'.pods) && s' == s.(pods := s'.pods, asked := Observed(s, e))
  }

  /** One more bucket keeps the loop on the very loop `PodPass` defines. */
  lemma LoopMovesOn(l: RoleLoop, start: Acc)
    requires l.k < |l.slices| && !l.acc.failed && l.acc == After(l.inp, l.slices, l.k, start)
    ensures Process(l.inp, l.acc, l.k, l.slices[l.k]) == After(l.inp, l.slices, l.k + 1, start)
    ensures Process(l.inp, l.acc, l.k, l.slices[l.k]).creations >= l.acc.creations
    ensures WillCreate(l) && ReturnsNil(l.inp.script(|l.acc.calls|).create)
            ==> Process(l.inp, l.acc, l.k, l.slices[l.k]).creations > 0
  {
  }

  // ----- Places -----

  function RoleOf(st: Store, u: Uid): Role
    requires u in st.born
  {
    GetReplicaType(st.born[u].labels)
  }

  function IndexOf(st: Store, u: Uid): Option<int>
    requires u in st.born
  {
    PodIndex(st.born[u].labels)
  }

  predicate Known(st: Store, u: Uid) {
    u in st.cluster || u in st.view || u in st.unseen
  }

  /** The pod holds its place: it is alive, or may still come to life. */
  predicate Live(st: Store, u: Uid) {
    (u in st.cluster && !st.cluster[u].deleting) || u in st.inflight
  }

  /** The pod is alive somewhere: at the API server, in the cache, or made and
      not yet reported. */
  predicate LiveAnywhere(st: Store, u: Uid) {
    Live(st, u) || u in st.unseen || (u in st.view && !st.view[u].deleting)
  }

  /** Which pods hold a place: in the roles of `never` every pod there is, even
      a terminating one; in those of `cached` the ones alive anywhere; in the
      others the ones alive at the API server. */
  datatype Rule = Rule(never: set<Role>, cached: set<Role>)

  predicate Occupies(st: Store, rule: Rule, u: Uid) {
    && u in st.born
    && if RoleOf(st, u) in rule.never then Known(st, u)
       else if RoleOf(st, u) in rule.cached then LiveAnywhere(st, u)
       else Live(st, u)
  }

  lemma SamePlaceAgrees(a: Labels, b: Labels)
    requires PlaceOf(a) == PlaceOf(b)
    ensures GetReplicaType(a) == GetReplicaType(b)
    ensures GetReplicaIndex(a) == GetReplicaIndex(b) && PodIndex(a) == PodIndex(b)
    ensures forall role :: MatchesRole(a, role) <==> MatchesRole(b, role)
  {
    assert forall key | key in {ReplicaTypeLabel, DeprecatedTypeLabel, ReplicaIndexLabel, DeprecatedIndexLabel} ::
        Label(a, key) == Label(b, key);
  }

  // ----- Initial states and runs -----

  /** The records fit together: each is a state of the pod that was born, the
      cache is not ahead of the API server, and what the cache has not is
      unreported. */
  ghost predicate Consistent(st: Store) {
    && (forall u <- st.born :: st.born[u].uid == u)
    && (forall u <- st.cluster :: u in st.born && Earlier(st.born[u], st.cluster[u]))
    && (forall u <- st.view :: u in st.born && Earlier(st.born[u], st.view[u]))
    && (forall u <- st.unseen :: u in st.born && u !in st.view)
    && (forall u <- st.inflight :: u in st.unseen && u !in st.cluster)
    && (forall u <- st.cluster :: u in st.view || u in st.unseen)
    && (forall u <- st.cluster :: u in st.view ==> Earlier(st.view[u], st.cluster[u]))
  }

  /** No two holders of one place. */
  ghost predicate Unique(st: Store, rule: Rule) {
    forall u, v | Occupies(st, rule, u) && Occupies(st, rule, v) && u != v && RoleOf(st, u) == RoleOf(st, v) ::
      IndexOf(st, u).None? || IndexOf(st, u) != IndexOf(st, v)
  }

  /** A run starts with the controller idle and no creation undelivered; the
      counters may hold anything. */
  ghost predicate Init(s: State, rule: Rule) {
    && s.ctl.Idle? && s.pods.unseen == {} && s.pods.inflight == {}
    && Consistent(s.pods) && Unique(s.pods, rule)
  }

  /** In every pass the roles of `never` have restart policy Never. */
  predicate Respects(e: Event, never: set<Role>) {
    e.BeginPass? ==> forall r <- e.specs :: r in never ==> e.specs[r].restart == Never
  }

  ghost predicate IsRun(states: seq<State>, events: seq<Event>) {
    && |states| == |events| + 1
    && forall i | 0 <= i < |events| :: Step(states[i], events[i], states[i + 1])
  }
}
