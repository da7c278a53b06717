/** The job spec as a user writes it, with its optional parts, and the role
    names the frameworks know. */
module JobSpecs {
  import opened Decimal
  import opened Api
  import opened JobPhases

  const LAUNCHER: Role := "launcher"
  const WORKER: Role := "worker"
  const PS: Role := "ps"
  const ETCD: Role := "etcd"
  const MASTER: Role := "master"
  const SCHEDULER: Role := "scheduler"
  const LEAD_WORKER: Role := "leadworker"
  const CHIEF: Role := "chief"
  const EVALUATOR: Role := "evaluator"

  lemma RoleNamesDiffer()
    ensures MASTER != WORKER && MASTER != ETCD && WORKER != ETCD && MASTER != PS && WORKER != PS
    ensures CHIEF != WORKER && CHIEF != MASTER && CHIEF != PS && CHIEF != EVALUATOR
    ensures EVALUATOR != MASTER && EVALUATOR != WORKER && EVALUATOR != PS
    ensures SCHEDULER != LAUNCHER && SCHEDULER != WORKER && SCHEDULER != LEAD_WORKER
    ensures LAUNCHER != WORKER && LAUNCHER != LEAD_WORKER && LEAD_WORKER != WORKER
  {
    assert |MASTER| == 6 && |WORKER| == 6 && MASTER[0] != WORKER[0];
    assert |ETCD| == 4 && |PS| == 2 && |CHIEF| == 5 && |EVALUATOR| == 9;
    assert |SCHEDULER| == 9 && |LAUNCHER| == 8 && |LEAD_WORKER| == 10;
  }

  datatype ContainerPort = ContainerPort(name: string, port: int)

  datatype Container = Container(name: string, ports: seq<ContainerPort>)

  datatype Template = Template(containers: seq<Container>, hostNetwork: bool)

  datatype ReplicaSpec = ReplicaSpec(replicas: Option<int>, template: Template, restart: RestartPolicy)

  datatype Dependence = Dependence(roleNames: seq<Role>, rolePhase: Option<RolePhase>, mpiHostFile: Option<string>)

  datatype ControllerType = NoController | ControllerPod | OtherController(name: string)

  /** The replica spec is embedded by pointer and may be nil. */
  datatype RawRole = RawRole(
    replicaSpec: Option<ReplicaSpec>,
    policy: RolePhasePolicy,
    controller: ControllerType,
    dependence: Option<Dependence>)

  datatype BaguaSpec = BaguaSpec(enableElastic: bool, minReplicas: Option<int>, maxReplicas: Option<int>)

  datatype TensorflowSpec = TensorflowSpec(enableDynamicWorker: bool)

  datatype JobSpec = JobSpec(
    cleanPodPolicy: Option<string>,
    bagua: Option<BaguaSpec>,
    tensorflow: Option<TensorflowSpec>,
    availablePorts: seq<int>,
    roleSpecs: map<Role, RawRole>,
    jobPhasePolicy: Option<JobPhasePolicy>)

  datatype Framework = Custom | Tensorflow | Pytorch | Bagua | Dask

  function OrElse<T>(o: Option<T>, d: T): Option<T> {
    if o.None? then Some(d) else o
  }
}
