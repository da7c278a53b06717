/** How Bagua divides the available ports among the pods of a job. */
module BaguaPorts {
  import opened Decimal
  import opened Api
  import opened JobSpecs
  import opened Ranks

  /** `getPrivatePorts`: the pod's slice of the ports that are not etcd's.
      `None` is a run-time panic: no replicas, or a negative index. */
  function GetPrivatePorts(portsExceptEtcd: seq<int>, replicas: int, index: string): Option<seq<int>> {
    if replicas <= 0 then None
    else
      var each := |portsExceptEtcd| / replicas;
      var idx := AtoiValue(index);
      if idx < replicas && each > 0 then
        if idx < 0 then None
        else
          SliceFits(|portsExceptEtcd|, replicas, idx);
          Some(portsExceptEtcd[each * idx..each * (idx + 1)])
      else Some([])
  }

  lemma SliceFits(n: nat, replicas: int, idx: nat)
    requires 0 <= idx < replicas
    ensures 0 <= n / replicas * idx <= n / replicas * (idx + 1) <= n
  {
    var each := n / replicas;
    assert each * idx + each == each * (idx + 1);
    MultiplyKeepsOrder(each, idx + 1, replicas);
    assert each * replicas <= n;
  }

  lemma MultiplyKeepsOrder(a: nat, b: int, c: int)
    requires b <= c
    ensures a * b <= a * c
  {
  }

  /** Position `p` is in the slice of worker `i`, each slice being that long. */
  predicate InSlice(each: nat, i: int, p: int) {
    each * i <= p < each * (i + 1)
  }

  lemma SlicesAreApart(each: nat, i: nat, j: nat, p: int)
    requires i < j && InSlice(each, i, p)
    ensures !InSlice(each, j, p)
  {
    MultiplyKeepsOrder(each, i + 1, j);
  }

  lemma {:induction false} PositionHasSlice(each: nat, replicas: nat, p: nat) returns (i: nat)
    requires p < each * replicas
    ensures i < replicas && InSlice(each, i, p)
  {
    if each * (replicas - 1) <= p {
      i := replicas - 1;
    } else {
      i := PositionHasSlice(each, replicas - 1, p);
    }
  }

  /** What worker `i` gets. */
  function Slice(ports: seq<int>, replicas: int, i: nat): Option<seq<int>> {
    GetPrivatePorts(ports, replicas, Itoa(i))
  }

  /** Worker `i` gets the ports at its positions, in their order. */
  lemma SliceHolds(ports: seq<int>, replicas: int, i: nat)
    requires 0 < replicas <= MAX_INT32 && i < replicas
    ensures var each := |ports| / replicas;
            && 0 <= each * i <= each * (i + 1) <= |ports|
            && Slice(ports, replicas, i) == Some(ports[each * i..each * (i + 1)])
            && each * (i + 1) == each * i + each
  {
    AtoiValueOfItoa(i);
    SliceFits(|ports|, replicas, i);
    var each := |ports| / replicas;
    assert each * i + each == each * (i + 1);
    if each == 0 {
      assert ports[each * i..each * (i + 1)] == [];
    }
  }

  lemma FewAreLeftOver(n: nat, replicas: int)
    requires replicas > 0
    ensures 0 <= n - n / replicas * replicas < replicas
  {
    assert n == n / replicas * replicas + n % replicas;
  }

  /** The slices of the workers partition all but fewer than `replicas` of the
      ports: the position of every other port is in the slice of exactly one
      worker, and that worker gets the port, at the place it has in the slice. */
  lemma PortsArePartitioned(ports: seq<int>, replicas: int, each: nat, p: nat) returns (i: nat)
    requires 0 < replicas <= MAX_INT32 && each == |ports| / replicas
    requires p < each * replicas
    ensures 0 <= |ports| - each * replicas < replicas
    ensures i < replicas && InSlice(each, i, p)
    ensures forall j: nat | j != i :: !InSlice(each, j, p)
    ensures Slice(ports, replicas, i).Some? && |Slice(ports, replicas, i).value| == each
    ensures Slice(ports, replicas, i).value[p - each * i] == ports[p]
  {
    i := PositionHasSlice(each, replicas, p);
    OneSliceOnly(each, i, p);
    SliceElement(ports, replicas, each, i, p);
    FewAreLeftOver(|ports|, replicas);
  }

  lemma SliceElement(ports: seq<int>, replicas: int, each: nat, i: nat, p: nat)
    requires 0 < replicas <= MAX_INT32 && each == |ports| / replicas
    requires i < replicas && InSlice(each, i, p)
    ensures Slice(ports, replicas, i).Some? && |Slice(ports, replicas, i).value| == each
    ensures p < |ports| && Slice(ports, replicas, i).value[p - each * i] == ports[p]
  {
    SliceHolds(ports, replicas, i);
    ElementOfSlice(ports, each * i, each * (i + 1), p);
  }

  lemma OneSliceOnly(each: nat, i: nat, p: int)
    requires InSlice(each, i, p)
    ensures forall j: nat | j != i :: !InSlice(each, j, p)
  {
    forall j: nat | j != i ensures !InSlice(each, j, p) {
      if i < j {
        SlicesAreApart(each, i, j, p);
      } else if InSlice(each, j, p) {
        SlicesAreApart(each, j, i, p);
      }
    }
  }

  lemma ElementOfSlice(ports: seq<int>, from: nat, to: nat, p: nat)
    requires from <= p < to <= |ports|
    ensures ports[from..to][p - from] == ports[p]
  {
  }

  lemma SliceOfRest(ports: seq<int>, from: nat, to: nat)
    requires |ports| >= 2 && from <= to <= |ports| - 2
    ensures ports[2..][from..to] == ports[2 + from..2 + to]
  {
  }

  // ----- Validated jobs -----

  function PortsExceptEtcd(s: JobSpec): seq<int>
    requires |s.availablePorts| >= 2
  {
    s.availablePorts[2..]
  }

  /** The test of validation on the number of ports. */
  predicate EnoughByValidation(replicas: int, ports: nat) {
    ports >= Int32(2 + replicas)
  }

  /** Validation asks for enough ports exactly when the number it asks for does
      not wrap around. */
  lemma ValidationAsksForEnough(replicas: int)
    requires 0 < replicas <= MAX_INT32
    ensures (forall n: nat | EnoughByValidation(replicas, n) :: n >= 2 + replicas) <==> replicas <= MAX_INT32 - 2
  {
    assert replicas > MAX_INT32 - 2 ==> EnoughByValidation(replicas, 0);
  }

  lemma AtLeastOneEach(n: nat, replicas: int)
    requires replicas > 0
    ensures n / replicas >= 1 <==> n >= replicas
  {
    if n < replicas {
      assert n == n / replicas * replicas + n % replicas;
    }
  }

  /** The slices can be cut, and the worker's is not empty. */
  predicate GetsPorts(s: JobSpec, i: nat) {
    && |s.availablePorts| >= 2
    && var mine := Slice(PortsExceptEtcd(s), GetRoleReplicas(s, WORKER), i);
       mine.Some? && mine.value != []
  }

  /** In a validated elastic job a worker gets a port exactly if there are as
      many ports as workers besides etcd's two, which validation has seen to
      unless the workers are so many that its number wrapped around. */
  lemma WorkerGetsPortsExactly(s: JobSpec, i: nat)
    requires BaguaValid(s) && Elastic(s)
    requires 0 < GetRoleReplicas(s, WORKER) <= MAX_INT32 && i < GetRoleReplicas(s, WORKER)
    ensures GetsPorts(s, i) <==> |s.availablePorts| >= 2 + GetRoleReplicas(s, WORKER)
    ensures GetRoleReplicas(s, WORKER) <= MAX_INT32 - 2 ==> GetsPorts(s, i)
  {
    if |s.availablePorts| >= 2 {
      SliceHolds(PortsExceptEtcd(s), GetRoleReplicas(s, WORKER), i);
      AtLeastOneEach(|s.availablePorts| - 2, GetRoleReplicas(s, WORKER));
    }
  }

  /** The ports a worker gets are a stretch of the available ones that leaves
      out etcd's two. */
  lemma WorkerPortsAreNotEtcds(s: JobSpec, i: nat) returns (at: nat)
    requires |s.availablePorts| >= 2
    requires 0 < GetRoleReplicas(s, WORKER) <= MAX_INT32 && i < GetRoleReplicas(s, WORKER)
    ensures var mine := Slice(PortsExceptEtcd(s), GetRoleReplicas(s, WORKER), i);
            && mine.Some?
            && 2 <= at && at + |mine.value| <= |s.availablePorts|
            && mine.value == s.availablePorts[at..at + |mine.value|]
  {
    var ports, replicas := PortsExceptEtcd(s), GetRoleReplicas(s, WORKER);
    SliceHolds(ports, replicas, i);
    var from, to := |ports| / replicas * i, |ports| / replicas * (i + 1);
    SliceOfRest(s.availablePorts, from, to);
    at := 2 + from;
  }

  // ----- Environment and container ports -----

  /** The ports a pod is told, in the order of its environment; `None` is a
      panic. */
  datatype PortEnv =
    | NoPorts
    | StaticPorts(ssh: int, master: int, available: seq<int>)
    | EtcdPorts(client: int, server: int)
    | WorkerPorts(client: int, server: int, own: Option<(int, seq<int>)>)

  function StaticEnv(s: JobSpec, role: Role): Option<PortEnv> {
    if role != WORKER && role != MASTER then Some(NoPorts)
    else if |s.availablePorts| < 2 then None
    else Some(StaticPorts(s.availablePorts[0], s.availablePorts[1], s.availablePorts[2..]))
  }

  function ElasticEnv(s: JobSpec, role: Role, index: string): Option<PortEnv> {
    if role != WORKER && role != ETCD then Some(NoPorts)
    else if |s.availablePorts| < 2 then None
    else if role == ETCD then Some(EtcdPorts(s.availablePorts[0], s.availablePorts[1]))
    else
      var own := GetPrivatePorts(PortsExceptEtcd(s), GetRoleReplicas(s, WORKER), index);
      if own.None? then None
      else
        Some(WorkerPorts(s.availablePorts[0], s.availablePorts[1],
                         if |own.value| > 0 then Some((own.value[0], own.value[1..])) else None))
  }

  function Env(s: JobSpec, role: Role, index: string): Option<PortEnv> {
    if Elastic(s) then ElasticEnv(s, role, index) else StaticEnv(s, role)
  }

  /** The ports of its own that the environment names. */
  function OwnPorts(env: PortEnv): seq<int> {
    match env
    case NoPorts => []
    case StaticPorts(ssh, master, available) => [ssh, master] + available
    case EtcdPorts(client, server) => [client, server]
    case WorkerPorts(_, _, own) => if own.Some? then [own.value.0] + own.value.1 else []
  }

  /** The ports `addContainerPort` opens. */
  function OpenedPorts(s: JobSpec, role: Role, index: string): Option<seq<int>> {
    if !Elastic(s) then Some(s.availablePorts)
    else if |s.availablePorts| < 2 then None
    else if role == ETCD then Some(s.availablePorts[..2])
    else GetPrivatePorts(PortsExceptEtcd(s), GetRoleReplicas(s, WORKER), index)
  }

  /** A pod's template, for which the environment goes to every container and
      the ports to the first. */
  class PodTemplate {
    var envs: seq<seq<PortEnv>>
    var ports: seq<int>

    constructor (containers: nat)
      ensures envs == seq(containers, _ => []) && ports == []
    {
      envs, ports := seq(containers, _ => []), [];
    }

    method AddEnv(s: JobSpec, role: Role, index: string) returns (panicked: bool)
      modifies this`envs
      ensures panicked == Env(s, role, index).None?
      ensures panicked ==> envs == old(envs)
      ensures !panicked ==>
                |envs| == |old(envs)| && forall i | 0 <= i < |envs| ::
                    envs[i] == old(envs)[i] + [Env(s, role, index).value]
    {
      var env := Env(s, role, index);
      if env.None? {
        return true;
      }
      for i := 0 to |envs|
        invariant |envs| == |old(envs)|
        invariant forall j | 0 <= j < i :: envs[j] == old(envs)[j] + [env.value]
        invariant forall j | i <= j < |envs| :: envs[j] == old(envs)[j]
      {
        envs := envs[i := envs[i] + [env.value]];
      }
      panicked := false;
    }

    method AddContainerPort(s: JobSpec, role: Role, index: string) returns (panicked: bool)
      modifies this`ports
      ensures panicked == OpenedPorts(s, role, index).None?
      ensures ports == if panicked then old(ports) else old(ports) + OpenedPorts(s, role, index).value
    {
      var addPorts := OpenedPorts(s, role, index);
      if addPorts.None? {
        return true;
      }
      var containerPorts: seq<int> := [];
      for i := 0 to |addPorts.value|
        invariant containerPorts == addPorts.value[..i]
      {
        containerPorts := containerPorts + [addPorts.value[i]];
      }
      assert addPorts.value[..|addPorts.value|] == addPorts.value;
      ports := ports + containerPorts;
      panicked := false;
    }
  }

  /** The ports a pod is told are its own are exactly those opened on its
      container, for masters and workers in static mode and for etcd and the
      workers in elastic mode; and they can be told whenever they are opened. */
  lemma ToldPortsAreOpened(s: JobSpec, role: Role, index: string)
    requires if Elastic(s) then role == WORKER || role == ETCD else role == WORKER || role == MASTER
    requires Env(s, role, index).Some?
    ensures OpenedPorts(s, role, index) == Some(OwnPorts(Env(s, role, index).value))
  {
    RoleNamesDiffer();
    if |s.availablePorts| >= 2 {
      var ports := s.availablePorts;
      assert ports[..2] == [ports[0], ports[1]] && ports == [ports[0], ports[1]] + ports[2..];
      var own := GetPrivatePorts(PortsExceptEtcd(s), GetRoleReplicas(s, WORKER), index);
      assert own.Some? && |own.value| > 0 ==> own.value == [own.value[0]] + own.value[1..];
    }
  }

  /** The etcd ports a worker of an elastic job is told are the ones etcd is
      told and opens. */
  lemma WorkersKnowEtcd(s: JobSpec, index: string, etcdIndex: string)
    requires Elastic(s) && Env(s, WORKER, index).Some?
    ensures var env := Env(s, WORKER, index).value;
            && env.WorkerPorts?
            && Env(s, ETCD, etcdIndex) == Some(EtcdPorts(env.client, env.server))
            && OpenedPorts(s, ETCD, etcdIndex) == Some([env.client, env.server])
  {
    RoleNamesDiffer();
    assert s.availablePorts[..2] == [s.availablePorts[0], s.availablePorts[1]];
  }

  /** In a validated job the environment panics exactly for the workers and
      etcd of an elastic job with fewer than two ports, and opening ports for
      any of its roles. */
  lemma PanicsExactly(s: JobSpec, role: Role, i: nat)
    requires BaguaValid(s) && i < GetRoleReplicas(s, role) <= MAX_INT32
    requires Elastic(s) ==> 0 < GetRoleReplicas(s, WORKER) <= MAX_INT32
    ensures Env(s, role, Itoa(i)).None?
            <==> Elastic(s) && (role == WORKER || role == ETCD) && |s.availablePorts| < 2
    ensures OpenedPorts(s, role, Itoa(i)).None? <==> Elastic(s) && |s.availablePorts| < 2
    ensures Elastic(s) && |s.availablePorts| < 2 ==> GetRoleReplicas(s, WORKER) > MAX_INT32 - 2
  {
    RoleNamesDiffer();
    AtoiValueOfItoa(i);
  }

  /** And such jobs there are: with more workers than that, a job without any
      port is valid, and every one of its workers panics. */
  lemma WrappedValidationPanics(s: JobSpec, i: nat)
    requires Elastic(s) && WORKER in s.roleSpecs && ETCD in s.roleSpecs && GetRoleReplicas(s, ETCD) == 1
    requires MAX_INT32 - 2 < GetRoleReplicas(s, WORKER) <= MAX_INT32 && i < GetRoleReplicas(s, WORKER)
    ensures var bare := s.(availablePorts := []);
            BaguaValid(bare) && Env(bare, WORKER, Itoa(i)).None? && OpenedPorts(bare, WORKER, Itoa(i)).None?
  {
    var bare := s.(availablePorts := []);
    assert GetRoleReplicas(bare, WORKER) == GetRoleReplicas(s, WORKER) && GetRoleReplicas(bare, ETCD) == 1;
    assert EnoughByValidation(GetRoleReplicas(s, WORKER), 0);
    PanicsExactly(bare, WORKER, i);
  }
}
