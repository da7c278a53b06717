/** Ranks and domain names that the frameworks hand to their pods. */
module Ranks {
  import opened Decimal
  import opened Api
  import opened JobSpecs
  import opened Defaults

  const MAX_INT32 := 0x7fff_ffff

  /** Go's 32-bit arithmetic. */
  function Int32(x: int): (r: int)
    ensures -MAX_INT32 - 1 <= r <= MAX_INT32
    ensures r == x <==> -MAX_INT32 - 1 <= x <= MAX_INT32
  {
    var low := x % 0x1_0000_0000;
    if low > MAX_INT32 then low - 0x1_0000_0000 else low
  }

  /** `GetRoleReplicas`. */
  function GetRoleReplicas(s: JobSpec, role: Role): int {
    if role in s.roleSpecs && s.roleSpecs[role].replicaSpec.Some? && s.roleSpecs[role].replicaSpec.value.replicas.Some?
    then s.roleSpecs[role].replicaSpec.value.replicas.value
    else 0
  }

  /** `strconv.Atoi` with its error ignored: 0 for a malformed numeral, and the
      nearest 64-bit number for one out of range. */
  function AtoiValue(s: string): int {
    var signed := s != "" && (s[0] == '-' || s[0] == '+');
    var digits := if signed then s[1..] else s;
    if digits == "" || exists c <- digits :: !IsDigit(c) then 0
    else
      var v := if signed && s[0] == '-' then -(DigitsValue(digits) as int) else DigitsValue(digits);
      if v > MAX_INT then MAX_INT else if v < -MAX_INT - 1 then -MAX_INT - 1 else v
  }

  lemma AtoiValueOfItoa(n: nat)
    requires n <= MAX_INT
    ensures AtoiValue(Itoa(n)) == n
  {
    AtoiOfItoa(n);
    DigitsValueOfItoa(n);
    assert IsDigit(Itoa(n)[0]);
  }

  // ----- Validation -----

  datatype Verdict = Valid | Invalid | Panic

  /** What `ValidateCreate` asks of one role; `wellNamed` is the DNS-1123 test
      of the role's name. */
  predicate RoleValid(wellNamed: Role -> bool, role: Role, r: RawRole) {
    && wellNamed(role)
    && r.replicaSpec.Some? && r.replicaSpec.value.replicas.Some?
    && 0 < r.replicaSpec.value.replicas.value <= MAX_INT32
    && r.replicaSpec.value.template.containers != []
    && (r.dependence.Some? && r.dependence.value.mpiHostFile.None? ==> r.dependence.value.roleNames != [])
  }

  predicate CommonValid(wellNamed: Role -> bool, s: JobSpec) {
    s.roleSpecs != map[] && forall r <- s.roleSpecs :: RoleValid(wellNamed, r, s.roleSpecs[r])
  }

  /** Replica counts are 32-bit. */
  predicate IsInt32Job(s: JobSpec) {
    forall r <- s.roleSpecs :: GetRoleReplicas(s, r) <= MAX_INT32
  }

  predicate NilCount(r: RawRole) {
    r.replicaSpec.None? || r.replicaSpec.value.replicas.None?
  }

  /** The roles of the order but the last pass. */
  predicate FrontValid(wellNamed: Role -> bool, s: JobSpec, order: seq<Role>) {
    forall j | 0 <= j < |order| - 1 :: order[j] in s.roleSpecs && RoleValid(wellNamed, order[j], s.roleSpecs[order[j]])
  }

  /** How the checking loop may end, having met the roles in this order: with
      all of them passed, at a role that fails, or at a well-named role without
      a replica count, which is reported by dereferencing the count. */
  ghost predicate Outcome(wellNamed: Role -> bool, s: JobSpec, order: seq<Role>, verdict: Verdict) {
    && (forall r <- order :: r in s.roleSpecs)
    && (forall i, j | 0 <= i < j < |order| :: order[i] != order[j])
    && FrontValid(wellNamed, s, order)
    && match verdict
       case Valid => order != [] && (forall r <- s.roleSpecs :: r in order) && CommonValid(wellNamed, s)
       case Panic => order != [] && PanicsOn(wellNamed, s, order[|order| - 1])
       case Invalid => if order == [] then s.roleSpecs == map[] else FailsOn(wellNamed, s, order[|order| - 1])
  }

  predicate PanicsOn(wellNamed: Role -> bool, s: JobSpec, role: Role) {
    role in s.roleSpecs && wellNamed(role) && NilCount(s.roleSpecs[role])
  }

  predicate FailsOn(wellNamed: Role -> bool, s: JobSpec, role: Role) {
    role in s.roleSpecs && !RoleValid(wellNamed, role, s.roleSpecs[role]) && !PanicsOn(wellNamed, s, role)
  }

  /** The checking loop, over the roles in any order, which it returns as far as
      it got. */
  method ValidateCreate(wellNamed: Role -> bool, s: JobSpec) returns (verdict: Verdict, order: seq<Role>)
    requires IsInt32Job(s)
    ensures Outcome(wellNamed, s, order, verdict)
    ensures verdict == Valid <==> CommonValid(wellNamed, s)
    ensures verdict == Panic
            <==> order != [] && FrontValid(wellNamed, s, order) && PanicsOn(wellNamed, s, order[|order| - 1])
  {
    order := [];
    if |s.roleSpecs| == 0 {
      return Invalid, order;
    }
    var todo := s.roleSpecs.Keys;
    while todo != {}
      invariant todo <= s.roleSpecs.Keys
      invariant forall r :: r in order <==> r in s.roleSpecs && r !in todo
      invariant forall i, j | 0 <= i < j < |order| :: order[i] != order[j]
      invariant forall r <- order :: RoleValid(wellNamed, r, s.roleSpecs[r])
      decreases todo
    {
      var role :| role in todo;
      verdict := ValidateRole(wellNamed, s, role);
      ghost var front := order;
      order, todo := order + [role], todo - {role};
      assert forall j | 0 <= j < |front| :: order[j] == front[j] && front[j] in front;
      if verdict != Valid {
        return;
      }
    }
    assert forall j | 0 <= j < |order| :: order[j] in order;
    verdict := Valid;
  }

  /** Validation can panic exactly when some well-named role has no replica
      count, and it must if that is the only role. */
  lemma ValidationPanicsExactly(wellNamed: Role -> bool, s: JobSpec)
    ensures (exists order :: Outcome(wellNamed, s, order, Panic))
            <==> exists r <- s.roleSpecs :: PanicsOn(wellNamed, s, r)
    ensures forall r, order, verdict |
              s.roleSpecs.Keys == {r} && PanicsOn(wellNamed, s, r) && Outcome(wellNamed, s, order, verdict) ::
              verdict == Panic
  {
    if r :| r in s.roleSpecs && PanicsOn(wellNamed, s, r) {
      assert Outcome(wellNamed, s, [r], Panic);
    }
  }

  /** A job with one role, whose replica count is missing. */
  function NilCountJob(role: Role): JobSpec {
    var spec := ReplicaSpec(None, Template([Container("main", [])], false), Never);
    var r := RawRole(Some(spec), RolePhasePolicy(None, None, false), ControllerPod, None);
    JobSpec(None, None, None, [], map[role := r], None)
  }

  /** Validation of such a job always panics. */
  lemma NilCountPanics(wellNamed: Role -> bool, role: Role, order: seq<Role>, verdict: Verdict)
    requires wellNamed(role) && Outcome(wellNamed, NilCountJob(role), order, verdict)
    ensures verdict == Panic
  {
    ValidationPanicsExactly(wellNamed, NilCountJob(role));
    assert NilCountJob(role).roleSpecs.Keys == {role};
  }

  /** The common defaults fill in what is missing, so after them it never
      panics; before them, nothing else keeps it from doing so. */
  lemma DefaultedJobNeverPanics(wellNamed: Role -> bool, s: JobSpec, order: seq<Role>)
    ensures !Outcome(wellNamed, CommonDefault(s), order, Panic)
  {
  }

  /** One round of the loop. */
  method ValidateRole(wellNamed: Role -> bool, s: JobSpec, role: Role) returns (verdict: Verdict)
    requires IsInt32Job(s) && role in s.roleSpecs
    ensures verdict == Valid <==> RoleValid(wellNamed, role, s.roleSpecs[role])
    ensures verdict == Panic <==> wellNamed(role) && NilCount(s.roleSpecs[role])
  {
    var spec := s.roleSpecs[role];
    assert GetRoleReplicas(s, role) <= MAX_INT32;
    if !wellNamed(role) {
      return Invalid;
    }
    if spec.replicaSpec.None? {
      return Panic;
    }
    if spec.replicaSpec.value.replicas.None? {
      return Panic;
    }
    if spec.replicaSpec.value.replicas.value <= 0 {
      return Invalid;
    }
    if |spec.replicaSpec.value.template.containers| == 0 {
      return Invalid;
    }
    if spec.dependence.Some? && spec.dependence.value.mpiHostFile.None? && |spec.dependence.value.roleNames| == 0 {
      return Invalid;
    }
    verdict := Valid;
  }

  predicate Elastic(s: JobSpec) {
    s.bagua.Some? && s.bagua.value.enableElastic
  }

  /** `Validate` of Bagua; the number of ports an elastic job needs is computed
      in 32 bits. */
  predicate BaguaValid(s: JobSpec) {
    if Elastic(s) then
      && WORKER in s.roleSpecs && ETCD in s.roleSpecs && GetRoleReplicas(s, ETCD) == 1
      && |s.availablePorts| >= Int32(2 + GetRoleReplicas(s, WORKER))
    else
      MASTER in s.roleSpecs && GetRoleReplicas(s, MASTER) == 1 && |s.availablePorts| >= 2
  }

  predicate PytorchValid(s: JobSpec) {
    MASTER in s.roleSpecs && GetRoleReplicas(s, MASTER) == 1
  }

  const DASK_CONTAINER := "dask"

  function DaskPorts(r: RawRole): seq<ContainerPort> {
    if r.replicaSpec.None? then [] else PortsOf(r.replicaSpec.value.template.containers, DASK_CONTAINER)
  }

  function PortsOf(containers: seq<Container>, name: string): seq<ContainerPort> {
    if containers == [] then []
    else if containers[0].name == name then containers[0].ports
    else PortsOf(containers[1..], name)
  }

  predicate DaskValid(s: JobSpec) {
    && LAUNCHER in s.roleSpecs && SCHEDULER in s.roleSpecs
    && GetRoleReplicas(s, LAUNCHER) == 1 && GetRoleReplicas(s, SCHEDULER) == 1
    && (WORKER in s.roleSpecs ==> LEAD_WORKER in s.roleSpecs)
    && (LEAD_WORKER in s.roleSpecs ==>
          GetRoleReplicas(s, LEAD_WORKER) == 1 && |DaskPorts(s.roleSpecs[LEAD_WORKER])| == 1)
    && |DaskPorts(s.roleSpecs[SCHEDULER])| == 2 && |DaskPorts(s.roleSpecs[LAUNCHER])| != 0
  }

  /** `CheckRolesExist`. */
  method CheckRolesExist(s: JobSpec, roles: seq<Role>) returns (ok: bool)
    ensures ok <==> forall r <- roles :: r in s.roleSpecs
  {
    for i := 0 to |roles|
      invariant forall j | 0 <= j < i :: roles[j] in s.roleSpecs
    {
      if roles[i] !in s.roleSpecs {
        return false;
      }
    }
    ok := true;
  }

  method BaguaValidate(s: JobSpec) returns (ok: bool)
    ensures ok <==> BaguaValid(s)
  {
    var ports := s.availablePorts;
    if !Elastic(s) {
      ok := CheckRolesExist(s, [MASTER]);
      assert ok <==> MASTER in s.roleSpecs by { assert MASTER in [MASTER]; }
      if !ok {
        return;
      }
      if GetRoleReplicas(s, MASTER) != 1 {
        return false;
      }
      if |ports| < 2 {
        return false;
      }
    } else {
      ok := CheckRolesExist(s, [WORKER, ETCD]);
      assert ok <==> WORKER in s.roleSpecs && ETCD in s.roleSpecs by {
        assert WORKER in [WORKER, ETCD] && ETCD in [WORKER, ETCD];
      }
      if !ok {
        return;
      }
      if GetRoleReplicas(s, ETCD) != 1 {
        return false;
      }
      var minPortsNum := Int32(2 + GetRoleReplicas(s, WORKER));
      if |ports| < minPortsNum {
        return false;
      }
    }
    ok := true;
  }

  method DaskValidate(s: JobSpec) returns (ok: bool)
    ensures ok <==> DaskValid(s)
  {
    ok := CheckRolesExist(s, [LAUNCHER, SCHEDULER]);
    assert ok <==> LAUNCHER in s.roleSpecs && SCHEDULER in s.roleSpecs by {
      assert LAUNCHER in [LAUNCHER, SCHEDULER] && SCHEDULER in [LAUNCHER, SCHEDULER];
    }
    if !ok {
      return;
    }
    if GetRoleReplicas(s, LAUNCHER) != 1 {
      return false;
    }
    if GetRoleReplicas(s, SCHEDULER) != 1 {
      return false;
    }
    if WORKER in s.roleSpecs && LEAD_WORKER !in s.roleSpecs {
      return false;
    }
    if LEAD_WORKER in s.roleSpecs {
      if GetRoleReplicas(s, LEAD_WORKER) != 1 {
        return false;
      }
      if |DaskPorts(s.roleSpecs[LEAD_WORKER])| != 1 {
        return false;
      }
    }
    if |DaskPorts(s.roleSpecs[SCHEDULER])| != 2 {
      return false;
    }
    ok := |DaskPorts(s.roleSpecs[LAUNCHER])| != 0;
  }

  // ----- Rankings -----

  /** The pods that take part get the ranks below the world size, each exactly
      once. */
  ghost predicate IsRanking(takesPart: (Role, nat) -> bool, rank: (Role, nat) -> int, world: int) {
    && (forall role, i | takesPart(role, i) :: 0 <= rank(role, i) < world)
    && (forall role, i, role', i' | takesPart(role, i) && takesPart(role', i') && rank(role, i) == rank(role', i') ::
          role == role' && i == i')
    && forall k | 0 <= k < world :: IsTaken(takesPart, rank, k)
  }

  ghost predicate IsTaken(takesPart: (Role, nat) -> bool, rank: (Role, nat) -> int, k: int) {
    exists role, i :: takesPart(role, i) && rank(role, i) == k
  }

  /** RANK of a Bagua pod in static mode. */
  function BaguaRank(role: Role, index: string): int {
    if role == WORKER then AtoiValue(index) + 1 else 0
  }

  /** WORLD_SIZE of a Bagua job, computed in 32 bits. */
  function BaguaWorldSize(s: JobSpec): int {
    Int32(GetRoleReplicas(s, WORKER) + 1)
  }

  function MasterAndWorkers(s: JobSpec): (Role, nat) -> bool {
    (role: Role, i: nat) => (role == MASTER || role == WORKER) && i < GetRoleReplicas(s, role)
  }

  const BAGUA_RANKS: (Role, nat) -> int := (role: Role, i: nat) => BaguaRank(role, Itoa(i))

  lemma MasterThenWorkers(s: JobSpec, rank: (Role, nat) -> int)
    requires GetRoleReplicas(s, MASTER) == 1 && 0 <= GetRoleReplicas(s, WORKER) <= MAX_INT32
    requires forall i: nat | i < GetRoleReplicas(s, MASTER) :: rank(MASTER, i) == 0
    requires forall i: nat | i < GetRoleReplicas(s, WORKER) :: rank(WORKER, i) == i + 1
    ensures IsRanking(MasterAndWorkers(s), rank, GetRoleReplicas(s, WORKER) + 1)
  {
    RoleNamesDiffer();
    forall k | 0 <= k < GetRoleReplicas(s, WORKER) + 1 ensures IsTaken(MasterAndWorkers(s), rank, k) {
      if k == 0 {
        assert MasterAndWorkers(s)(MASTER, 0) && rank(MASTER, 0) == k;
      } else {
        assert MasterAndWorkers(s)(WORKER, k - 1) && rank(WORKER, k - 1) == k;
      }
    }
  }

  /** In a validated static Bagua job the ranks are a bijection from the master
      and the workers onto as many numbers; and WORLD_SIZE is their number
      exactly unless the workers are as many as 32 bits can count, when it
      wraps around. */
  lemma BaguaRanksAreBijective(s: JobSpec)
    requires BaguaValid(s) && !Elastic(s) && 0 <= GetRoleReplicas(s, WORKER) <= MAX_INT32
    ensures IsRanking(MasterAndWorkers(s), BAGUA_RANKS, GetRoleReplicas(s, WORKER) + 1)
    ensures BaguaWorldSize(s) == GetRoleReplicas(s, WORKER) + 1 <==> GetRoleReplicas(s, WORKER) < MAX_INT32
    ensures BAGUA_RANKS(MASTER, 0) == 0
    ensures forall i: nat | i < GetRoleReplicas(s, WORKER) :: BAGUA_RANKS(WORKER, i) == i + 1
  {
    RoleNamesDiffer();
    forall i: nat | i < GetRoleReplicas(s, WORKER) ensures BAGUA_RANKS(WORKER, i) == i + 1 {
      AtoiValueOfItoa(i);
    }
    MasterThenWorkers(s, BAGUA_RANKS);
  }

  /** RANK of a PyTorch pod; an index that is not a number is an error. */
  method PytorchRank(role: Role, index: string) returns (rank: Option<int>)
    requires role == MASTER || role == WORKER
    ensures rank.None? <==> Atoi(index).None?
    ensures rank.Some? ==> rank.value == PytorchRankOf(role, index)
  {
    var parsed := Atoi(index);
    if parsed.None? {
      return None;
    }
    var r := parsed.value;
    if role == WORKER {
      r := r + 1;
    }
    rank := Some(r);
  }

  function PytorchRankOf(role: Role, index: string): int {
    var parsed := Atoi(index);
    if parsed.None? then 0 else if role == WORKER then parsed.value + 1 else parsed.value
  }

  const PYTORCH_RANKS: (Role, nat) -> int := (role: Role, i: nat) => PytorchRankOf(role, Itoa(i))

  /** The same for a validated PyTorch job, whose world size does not wrap. */
  lemma PytorchRanksAreBijective(s: JobSpec)
    requires PytorchValid(s) && 0 <= GetRoleReplicas(s, WORKER) <= MAX_INT32
    ensures IsRanking(MasterAndWorkers(s), PYTORCH_RANKS, GetRoleReplicas(s, WORKER) + 1)
    ensures forall role, i | MasterAndWorkers(s)(role, i) :: Atoi(Itoa(i)).Some?
    ensures PYTORCH_RANKS(MASTER, 0) == 0
    ensures forall i: nat | i < GetRoleReplicas(s, WORKER) :: PYTORCH_RANKS(WORKER, i) == i + 1
  {
    RoleNamesDiffer();
    forall i: nat | i <= MAX_INT32 ensures Atoi(Itoa(i)) == Some(i) {
      AtoiOfItoa(i);
    }
    MasterThenWorkers(s, PYTORCH_RANKS);
  }

  // ----- Dask -----

  function CountIn(s: JobSpec, roles: set<Role>, role: Role): int {
    if role in roles then GetRoleReplicas(s, role) else 0
  }

  function DaskWorldOver(s: JobSpec, roles: set<Role>): int {
    CountIn(s, roles, LEAD_WORKER) + CountIn(s, roles, LAUNCHER) + CountIn(s, roles, WORKER)
  }

  function DaskWorldSize(s: JobSpec): int {
    DaskWorldOver(s, s.roleSpecs.Keys)
  }

  /** The sum over the roles, met in any order. */
  method GetWorldSize(s: JobSpec) returns (worldSize: int)
    ensures worldSize == DaskWorldSize(s)
  {
    RoleNamesDiffer();
    worldSize := 0;
    var todo := s.roleSpecs.Keys;
    while todo != {}
      invariant todo <= s.roleSpecs.Keys && worldSize == DaskWorldOver(s, s.roleSpecs.Keys - todo)
      decreases todo
    {
      var key :| key in todo;
      if key == LEAD_WORKER || key == LAUNCHER || key == WORKER {
        worldSize := worldSize + GetRoleReplicas(s, key);
      }
      todo := todo - {key};
    }
    assert s.roleSpecs.Keys - todo == s.roleSpecs.Keys;
  }

  function DaskRank(s: JobSpec, role: Role, index: string): int {
    if role == WORKER then AtoiValue(index) + 1
    else if role == LAUNCHER && LEAD_WORKER in s.roleSpecs then DaskWorldSize(s) - 1
    else 0
  }

  /** The address a Dask pod takes for its master. */
  function DaskMaster(s: JobSpec, lead: string, role: Role): string {
    if role == WORKER || (role == LAUNCHER && LEAD_WORKER in s.roleSpecs) then lead else "0.0.0.0"
  }

  /** The first port of the role's default container, if it has one. */
  function FirstPort(s: JobSpec, role: Role): Option<int> {
    if role !in s.roleSpecs || DaskPorts(s.roleSpecs[role]) == [] then None
    else Some(DaskPorts(s.roleSpecs[role])[0].port)
  }

  function DaskMasterPort(s: JobSpec): Option<int> {
    if FirstPort(s, LEAD_WORKER).Some? then FirstPort(s, LEAD_WORKER) else FirstPort(s, LAUNCHER)
  }

  /** What a Dask pod is told.  A scheduler is told no rank. */
  datatype DaskEnv =
    | SchedulerEnv(scheduler: string, schedulerPort: Option<int>)
    | RankedEnv(rank: int, worldSize: int, masterAddr: string, masterPort: Option<int>,
                scheduler: string, schedulerPort: Option<int>)

  /** The environment of a pod; the arguments are the domain names of the
      scheduler's and of the lead worker's service. */
  method GetEnvForDaskRole(s: JobSpec, scheduler: string, lead: string, role: Role, index: string)
    returns (env: DaskEnv)
    ensures env == if role == SCHEDULER then SchedulerEnv(scheduler, FirstPort(s, SCHEDULER))
                   else RankedEnv(DaskRank(s, role, index), DaskWorldSize(s), DaskMaster(s, lead, role),
                                  DaskMasterPort(s), scheduler, FirstPort(s, SCHEDULER))
  {
    RoleNamesDiffer();
    var schedulerPort := FirstPort(s, SCHEDULER);
    if role == SCHEDULER {
      return SchedulerEnv(scheduler, schedulerPort);
    }
    var masterPort := FirstPort(s, LEAD_WORKER);
    if masterPort.None? {
      masterPort := FirstPort(s, LAUNCHER);
    }
    var rank := 0;
    var worldSize := GetWorldSize(s);
    var masterAddr := "0.0.0.0";
    if role == WORKER {
      var idx := AtoiValue(index);
      rank := idx + 1;
      masterAddr := lead;
    }
    if role == LAUNCHER {
      if LEAD_WORKER in s.roleSpecs {
        masterAddr := lead;
        rank := worldSize - 1;
      }
    }
    env := RankedEnv(rank, worldSize, masterAddr, masterPort, scheduler, schedulerPort);
  }

  function DaskTakesPart(s: JobSpec): (Role, nat) -> bool {
    (role: Role, i: nat) => (role == LEAD_WORKER || role == WORKER || role == LAUNCHER) && i < GetRoleReplicas(s, role)
  }

  function DaskRanks(s: JobSpec): (Role, nat) -> int {
    (role: Role, i: nat) => DaskRank(s, role, Itoa(i))
  }

  /** In a validated Dask job the lead worker, the workers and the launcher, in
      that order, take the ranks below the world size, and whoever has rank 0
      takes itself for the master. */
  lemma DaskRanksAreBijective(s: JobSpec, lead: string)
    requires DaskValid(s) && 0 <= GetRoleReplicas(s, WORKER) <= MAX_INT32
    requires lead != "0.0.0.0"
    ensures IsRanking(DaskTakesPart(s), DaskRanks(s), DaskWorldSize(s))
    ensures forall role, i | DaskTakesPart(s)(role, i) ::
              DaskRanks(s)(role, i) == 0 <==> DaskMaster(s, lead, role) == "0.0.0.0"
    ensures LEAD_WORKER in s.roleSpecs ==> DaskRanks(s)(LEAD_WORKER, 0) == 0
    ensures forall i: nat | i < GetRoleReplicas(s, WORKER) :: DaskRanks(s)(WORKER, i) == i + 1
    ensures DaskRanks(s)(LAUNCHER, 0) == DaskWorldSize(s) - 1
  {
    RoleNamesDiffer();
    var w := GetRoleReplicas(s, WORKER);
    forall i: nat | i < w ensures DaskRanks(s)(WORKER, i) == i + 1 {
      AtoiValueOfItoa(i);
    }
    DaskRanksTaken(s);
  }

  lemma DaskRanksTaken(s: JobSpec)
    requires DaskValid(s) && 0 <= GetRoleReplicas(s, WORKER) <= MAX_INT32
    requires forall i: nat | i < GetRoleReplicas(s, WORKER) :: DaskRanks(s)(WORKER, i) == i + 1
    ensures forall k | 0 <= k < DaskWorldSize(s) :: IsTaken(DaskTakesPart(s), DaskRanks(s), k)
  {
    RoleNamesDiffer();
    forall k | 0 <= k < DaskWorldSize(s) ensures IsTaken(DaskTakesPart(s), DaskRanks(s), k) {
      if k == DaskWorldSize(s) - 1 {
        assert DaskTakesPart(s)(LAUNCHER, 0) && DaskRanks(s)(LAUNCHER, 0) == k;
      } else if k == 0 {
        assert DaskTakesPart(s)(LEAD_WORKER, 0) && DaskRanks(s)(LEAD_WORKER, 0) == k;
      } else {
        assert DaskTakesPart(s)(WORKER, k - 1) && DaskRanks(s)(WORKER, k - 1) == k;
      }
    }
  }

  lemma {:induction false} PortsOfFirst(containers: seq<Container>, name: string, i: nat)
    requires i < |containers| && containers[i].name == name && forall j | 0 <= j < i :: containers[j].name != name
    ensures PortsOf(containers, name) == containers[i].ports
  {
    if i > 0 {
      PortsOfFirst(containers[1..], name, i - 1);
    }
  }

  lemma {:induction false} PortsOfNone(containers: seq<Container>, name: string)
    requires forall c <- containers :: c.name != name
    ensures PortsOf(containers, name) == []
  {
    if containers != [] {
      assert containers[0] in containers;
      PortsOfNone(containers[1..], name);
    }
  }

  /** The port a role is reached at: the first one of the first container called
      dask, if there is such a container and it has a port. */
  lemma FirstPortIs(s: JobSpec, role: Role, containers: seq<Container>, i: nat)
    requires role in s.roleSpecs && s.roleSpecs[role].replicaSpec.Some?
    requires s.roleSpecs[role].replicaSpec.value.template.containers == containers
    requires i <= |containers| && forall j | 0 <= j < i :: containers[j].name != "dask"
    requires i < |containers| ==> containers[i].name == "dask"
    ensures FirstPort(s, role)
         == if i == |containers| || containers[i].ports == [] then None else Some(containers[i].ports[0].port)
  {
    if i < |containers| {
      PortsOfFirst(containers, "dask", i);
    } else {
      PortsOfNone(containers, "dask");
    }
  }

  /** In a validated Dask job the master port every ranked pod is told is the
      first port of the pod with rank 0. */
  lemma MasterPortIsRankZeros(s: JobSpec, role: Role, i: nat)
    requires DaskValid(s) && 0 <= GetRoleReplicas(s, WORKER) <= MAX_INT32
    requires DaskTakesPart(s)(role, i) && DaskRanks(s)(role, i) == 0
    ensures DaskMasterPort(s) == FirstPort(s, role) && DaskMasterPort(s).Some? && FirstPort(s, SCHEDULER).Some?
  {
    RoleNamesDiffer();
    AtoiValueOfItoa(i);
  }

  // ----- Domain names -----

  /** What names depend on: the job's name and namespace, and the library's
      naming of a pod, which is not part of this model. */
  datatype Naming = Naming(job: string, namespace: string, podName: (string, Role, string) -> string)

  /** `GetServiceDomainName`. */
  function ServiceDomainName(n: Naming, role: Role): string {
    ReplaceSlash(n.job + "-" + role) + "." + n.namespace + ".svc.cluster.local"
  }

  function ReplaceSlash(s: string): (r: string)
    ensures |r| == |s| && forall i | 0 <= i < |s| :: r[i] == if s[i] == '/' then '-' else s[i]
  {
    if s == "" then "" else [if s[0] == '/' then '-' else s[0]] + ReplaceSlash(s[1..])
  }

  function PodDomainName(n: Naming, role: Role, index: nat): string {
    n.podName(n.job, role, Itoa(index)) + "." + ServiceDomainName(n, role)
  }

  /** The parts of a domain name between its dots. */
  function DnsLabels(name: string): (labels: seq<string>)
    ensures |labels| > 0
  {
    if name == "" then [""]
    else
      var rest := DnsLabels(name[1..]);
      if name[0] == '.' then [""] + rest else [[name[0]] + rest[0]] + rest[1..]
  }

  lemma {:induction false} LabelsOfJoined(first: string, rest: string)
    requires '.' !in first
    ensures DnsLabels(first + "." + rest) == [first] + DnsLabels(rest)
  {
    var joined := first + "." + rest;
    if first == "" {
      assert joined[0] == '.' && joined[1..] == rest;
    } else {
      LabelsOfJoined(first[1..], rest);
      assert joined[0] == first[0] && joined[1..] == first[1..] + "." + rest;
      assert [first[0]] + first[1..] == first;
      assert ([first[1..]] + DnsLabels(rest))[1..] == DnsLabels(rest);
    }
  }

  lemma LabelsOfThree(a: string, b: string, c: string, rest: string)
    requires '.' !in a && '.' !in b && '.' !in c
    ensures DnsLabels(a + "." + (b + "." + (c + "." + rest))) == [a, b, c] + DnsLabels(rest)
  {
    LabelsOfJoined(a, b + "." + (c + "." + rest));
    LabelsOfJoined(b, c + "." + rest);
    LabelsOfJoined(c, rest);
  }

  lemma ReplaceSlashAddsNoDot(s: string)
    requires '.' !in s
    ensures '.' !in ReplaceSlash(s)
  {
  }

  /** A pod's domain name is its own name, then its role's service, then the
      namespace, in the cluster's domain. */
  lemma PodDomainNameLabels(n: Naming, role: Role, index: nat)
    requires '.' !in n.podName(n.job, role, Itoa(index)) && '.' !in n.job && '.' !in role && '.' !in n.namespace
    ensures DnsLabels(PodDomainName(n, role, index))
         == [n.podName(n.job, role, Itoa(index)), ReplaceSlash(n.job + "-" + role), n.namespace]
            + DnsLabels("svc.cluster.local")
  {
    var pod, service := n.podName(n.job, role, Itoa(index)), ReplaceSlash(n.job + "-" + role);
    ReplaceSlashAddsNoDot(n.job + "-" + role);
    LabelsOfThree(pod, service, n.namespace, "svc.cluster.local");
    NameParts(pod, service, n.namespace);
  }

  lemma NameParts(pod: string, service: string, namespace: string)
    ensures pod + "." + (service + "." + namespace + ".svc.cluster.local")
         == pod + "." + (service + "." + (namespace + "." + "svc.cluster.local"))
  {
    assert "." + "svc.cluster.local" == ".svc.cluster.local";
  }

  function NamesOf(n: Naming, role: Role, count: nat): (names: seq<string>)
    ensures |names| == count && forall i | 0 <= i < count :: names[i] == PodDomainName(n, role, i)
  {
    if count == 0 then [] else NamesOf(n, role, count - 1) + [PodDomainName(n, role, count - 1)]
  }

  function RoleCount(s: JobSpec, role: Role): nat {
    if GetRoleReplicas(s, role) < 0 then 0 else GetRoleReplicas(s, role)
  }

  function DomainNames(n: Naming, s: JobSpec, roles: seq<Role>): seq<string> {
    if roles == [] then []
    else DomainNames(n, s, roles[..|roles| - 1]) + NamesOf(n, roles[|roles| - 1], RoleCount(s, roles[|roles| - 1]))
  }

  method GetRolesDomainNames(n: Naming, s: JobSpec, roles: seq<Role>) returns (res: seq<string>)
    ensures res == DomainNames(n, s, roles)
  {
    res := [];
    for j := 0 to |roles|
      invariant res == DomainNames(n, s, roles[..j])
    {
      assert roles[..j + 1][..j] == roles[..j];
      ghost var before := res;
      var service := ServiceDomainName(n, roles[j]);
      var replicas := GetRoleReplicas(s, roles[j]);
      var i := 0;
      while i < replicas
        invariant 0 <= i <= RoleCount(s, roles[j])
        invariant res == before + NamesOf(n, roles[j], i)
        decreases replicas - i
      {
        res := res + [n.podName(n.job, roles[j], Itoa(i)) + "." + service];
        i := i + 1;
      }
    }
    assert roles[..|roles|] == roles;
  }

  /** In a validated static Bagua job the name at position RANK of the list of
      node names is the pod's own. */
  lemma OwnNameAtRank(n: Naming, s: JobSpec, role: Role, i: nat)
    requires BaguaValid(s) && !Elastic(s) && 0 <= GetRoleReplicas(s, WORKER) <= MAX_INT32
    requires MasterAndWorkers(s)(role, i)
    ensures var names, rank := DomainNames(n, s, [MASTER, WORKER]), BaguaRank(role, Itoa(i));
            && |names| == GetRoleReplicas(s, WORKER) + 1
            && 0 <= rank < |names| && names[rank] == PodDomainName(n, role, i)
  {
    RoleNamesDiffer();
    AtoiValueOfItoa(i);
    assert [MASTER, WORKER][..1] == [MASTER] && [MASTER][..0] == [];
    assert DomainNames(n, s, [MASTER]) == NamesOf(n, MASTER, 1);
  }
}
