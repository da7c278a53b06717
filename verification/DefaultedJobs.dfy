/** What jobs look like after the defaults, role by role and framework by
    framework, and what follows for their runs. */
module DefaultedJobs {
  import opened Decimal
  import opened Api
  import opened JobSpecs
  import opened Defaults
  import opened Ranks
  import opened NeverRole
  import opened NeverRun
  import Cluster

  // ----- Roles that say nothing -----

  /** The part of a defaulted role that a pass reads. */
  function SpecOf(r: RawRole): RoleSpec {
    if HasCount(r) then RoleSpec(r.replicaSpec.value.replicas.value, r.replicaSpec.value.restart, r.policy)
    else RoleSpec(0, RestartOf(r), r.policy)
  }

  predicate HasCount(r: RawRole) {
    && r.replicaSpec.Some? && r.replicaSpec.value.replicas.Some?
    && 0 < r.replicaSpec.value.replicas.value <= MAX_INT32
  }

  /** The user gave no policies and no restart policy, and a positive replica
      count or none. */
  predicate SaysNothing(r: RawRole) {
    && r.policy == RolePhasePolicy(None, None, false)
    && (r.replicaSpec.Some? ==>
          && r.replicaSpec.value.restart == Unspecified
          && (r.replicaSpec.value.replicas.Some? ==> 0 < r.replicaSpec.value.replicas.value <= MAX_INT32))
  }

  /** Such a role comes out as one the theorems of `NeverRun` are about. */
  lemma SilentRoleIsNever(was: RawRole, now: RawRole)
    requires SaysNothing(was) && IsDefaulted(was, now)
    ensures HasCount(now) && IsNeverSpec(SpecOf(now))
  {
  }

  /** And so under the frameworks that leave restart policies alone. */
  lemma SilentRoleOfFramework(f: Framework, s: JobSpec, order: seq<Role>, role: Role)
    requires !Panics(f, s) && role in s.roleSpecs && SaysNothing(s.roleSpecs[role])
    requires f == Custom || f == Pytorch || f == Bagua
    ensures role in Full(f, s, order).roleSpecs && IsNeverSpec(SpecOf(Full(f, s, order).roleSpecs[role]))
  {
    FullRoles(f, s, order);
  }

  /** In every run such a role, once finished, is so for ever. */
  lemma SilentRoleFinishesForEver(states: seq<Cluster.State>, events: seq<Cluster.Event>, was: RawRole, now: RawRole,
                                  role: Role, j: nat, k: nat)
    requires SaysNothing(was) && IsDefaulted(was, now)
    requires Cluster.IsRun(states, events) && Cluster.Init(states[0], Cluster.Rule({role}, {}))
    requires !IsRoleStarted(Cluster.PhaseOf(states[0].phases, role)) && AllOwnLabels(states[0].pods, role)
    requires forall e <- events :: Keeps(e, Fixed(role, SpecOf(now)))
    requires j <= k < |states| && IsRoleFinished(Cluster.PhaseOf(states[j].phases, role))
    ensures Cluster.PhaseOf(states[k].phases, role) == Cluster.PhaseOf(states[j].phases, role)
  {
    SilentRoleIsNever(was, now);
    FinishedIsForever(states, events, Fixed(role, SpecOf(now)), j, k);
  }

  // ----- What each framework fills in -----

  /** All but policy and dependence is as it was. */
  predicate RestKept(was: RawRole, now: RawRole) {
    now.replicaSpec == was.replicaSpec && now.controller == was.controller
  }

  predicate Filled(was: RawRole, now: RawRole) {
    PolicyFilled(was.policy, now.policy) && now.dependence == was.dependence && RestKept(was, now)
  }

  /** The role waits for the other to run, unless it said what it waits for. */
  predicate FilledToWait(was: RawRole, now: RawRole, other: Role) {
    && PolicyFilled(was.policy, now.policy) && RestKept(was, now)
    && (was.dependence.Some? ==> now.dependence == was.dependence)
    && (was.dependence.None? ==> now.dependence == Some(Dependence([other], Some(Running), None)))
  }

  /** A missing success policy is AllPods; a missing failure policy is AnyPod
      for roles that do not always restart their pods. */
  predicate PolicyFilledFor(was: RolePhasePolicy, now: RolePhasePolicy, restart: RestartPolicy) {
    && now.nodeDownAsFailed == was.nodeDownAsFailed
    && (was.succeeded.Some? ==> now.succeeded == was.succeeded)
    && (was.succeeded.None? ==> now.succeeded == Some(AllPods))
    && (was.failed.Some? ==> now.failed == was.failed)
    && (was.failed.None? && restart in {Never, ExitCode} ==> now.failed == Some(AnyPod))
    && (was.failed.None? && restart !in {Never, ExitCode} ==> now.failed == None)
  }

  lemma CustomFills(s: JobSpec, order: seq<Role>, role: Role)
    requires !Panics(Custom, s) && role in s.roleSpecs
    ensures var now := FrameworkDefault(Custom, s, order).roleSpecs;
            && now.Keys == s.roleSpecs.Keys && s.roleSpecs[role].replicaSpec.Some?
            && PolicyFilledFor(s.roleSpecs[role].policy, now[role].policy, s.roleSpecs[role].replicaSpec.value.restart)
            && now[role].dependence == s.roleSpecs[role].dependence && RestKept(s.roleSpecs[role], now[role])
  {
  }

  /** The master is filled in, a worker waits for it, other roles are left alone. */
  lemma PytorchFills(s: JobSpec, role: Role)
    requires role in s.roleSpecs
    ensures var was, now := s.roleSpecs[role], FrameworkDefault(Pytorch, s, []).roleSpecs[role];
            && (role == MASTER ==> Filled(was, now))
            && (role == WORKER && MASTER in s.roleSpecs ==> FilledToWait(was, now, MASTER))
            && (role == WORKER && MASTER !in s.roleSpecs ==> Filled(was, now))
            && (role != MASTER && role != WORKER ==> now == was)
  {
    RoleNamesDiffer();
  }

  /** In elastic mode workers wait for etcd, in static mode for the master; a
      static job with a phase policy of its own is left alone. */
  lemma BaguaFills(s: JobSpec, role: Role)
    requires !Panics(Bagua, s) && role in s.roleSpecs
    ensures var was, now := s.roleSpecs[role], FrameworkDefault(Bagua, s, []).roleSpecs[role];
            var elastic := s.bagua.Some? && s.bagua.value.enableElastic;
            && (elastic && role == ETCD ==> Filled(was, now))
            && (elastic && role == WORKER ==> FilledToWait(was, now, ETCD))
            && (!elastic && s.jobPhasePolicy.None? && role == MASTER ==> Filled(was, now))
            && (!elastic && s.jobPhasePolicy.None? && role == WORKER ==> FilledToWait(was, now, MASTER))
            && (!elastic && s.jobPhasePolicy.Some? ==> now == was)
            && (role != WORKER && role != (if elastic then ETCD else MASTER) ==> now == was)
  {
    RoleNamesDiffer();
  }

  /** The scheduler restarts on failure, on the host's network, and waits for
      nothing; the lead worker waits for it, the workers for the lead worker,
      and the launcher, whatever it said, for the last of them that exists. */
  lemma DaskFills(s: JobSpec, role: Role)
    requires !Panics(Dask, s) && role in s.roleSpecs
    ensures var was, now := s.roleSpecs[role], FrameworkDefault(Dask, s, []).roleSpecs[role];
            && (role == SCHEDULER ==>
                  && PolicyFilled(was.policy, now.policy) && now.dependence == None && now.controller == was.controller
                  && was.replicaSpec.Some? && now.replicaSpec.Some?
                  && now.replicaSpec.value.restart == OnFailure && now.replicaSpec.value.template.hostNetwork
                  && now.replicaSpec.value.replicas == was.replicaSpec.value.replicas
                  && now.replicaSpec.value.template.containers == was.replicaSpec.value.template.containers)
            && (role == LEAD_WORKER ==> FilledToWait(was, now, SCHEDULER))
            && (role == WORKER ==> FilledToWait(was, now, LEAD_WORKER))
            && (role == LAUNCHER ==>
                  FilledToWait(was.(dependence := None), now,
                               if WORKER in s.roleSpecs then WORKER
                               else if LEAD_WORKER in s.roleSpecs then LEAD_WORKER
                               else SCHEDULER))
            && (role !in {SCHEDULER, LEAD_WORKER, WORKER, LAUNCHER} ==> now == was)
  {
    RoleNamesDiffer();
  }

  /** A role of the kind TensorFlow knows, and what its defaults make of it. */
  ghost predicate FilledForTensorflow(roles: set<Role>, role: Role, was: RawRole, now: RawRole) {
    && was.replicaSpec.Some? && now.replicaSpec.Some?
    && now.replicaSpec.value.replicas == was.replicaSpec.value.replicas
    && (CHIEF in roles && role == WORKER && was.replicaSpec.value.restart != Always ==>
          now.replicaSpec.value.restart == OnFailure)
    && (CHIEF !in roles || role != WORKER || was.replicaSpec.value.restart == Always ==>
          now.replicaSpec.value.restart == was.replicaSpec.value.restart)
    && PolicyFilledFor(was.policy, now.policy, now.replicaSpec.value.restart)
    && PortAdded(was.replicaSpec.value.template.containers, now.replicaSpec.value.template.containers)
  }

  lemma TensorflowRoleFills(ctx: Context, role: Role, was: RawRole)
    requires role in SPECIFIC_ROLES && was.replicaSpec.Some?
    ensures FilledForTensorflow(ctx.roles, role, was, RoleDefault(Tensorflow, ctx, role, was))
  {
    PortIsAdded(was.replicaSpec.value.template.containers);
  }

  /** Beside a chief, workers that do not always restart do so on failure; and
      then the failure policy is filled in for roles that do not restart. */
  lemma TensorflowFills(s: JobSpec, role: Role)
    requires !Panics(Tensorflow, s) && role in s.roleSpecs
    ensures var was, now := s.roleSpecs[role], FrameworkDefault(Tensorflow, s, []).roleSpecs[role];
            && now.dependence == was.dependence && now.controller == was.controller
            && (role !in {CHIEF, EVALUATOR, MASTER, PS, WORKER} ==> now == was)
            && (role in {CHIEF, EVALUATOR, MASTER, PS, WORKER} ==>
                  FilledForTensorflow(s.roleSpecs.Keys, role, was, now))
  {
    assert forall name :: name in SPECIFIC_ROLES <==> name in {CHIEF, EVALUATOR, MASTER, PS, WORKER};
    if role in SPECIFIC_ROLES {
      TensorflowRoleFills(ContextOf(s), role, s.roleSpecs[role]);
    }
  }

  /** The first container called tensorflow, and only it, gets port 2222 under
      the name the framework looks for, unless it has a port of that name. */
  ghost predicate PortAdded(was: seq<Container>, now: seq<Container>) {
    && |now| == |was|
    && forall i | 0 <= i < |was| ::
         if was[i].name == "tensorflow" && (forall j | 0 <= j < i :: was[j].name != "tensorflow")
            && forall p <- was[i].ports :: p.name != "tfjob-port"
         then now[i] == Container("tensorflow", was[i].ports + [ContainerPort("tfjob-port", 2222)])
         else now[i] == was[i]
  }

  lemma PortIsAdded(containers: seq<Container>)
    ensures PortAdded(containers, WithPort(containers))
  {
    var i := FirstNamed(containers, TF_CONTAINER);
    assert i < |containers| ==> containers[i].name == "tensorflow";
  }

  // ----- Waiting -----

  /** The place of a role in the order in which a framework starts its roles. */
  function StartRank(role: Role): nat {
    if role == SCHEDULER || role == MASTER || role == ETCD then 0
    else if role == LEAD_WORKER then 1
    else if role == WORKER then 2
    else 3
  }

  /** What a framework makes roles wait for starts before them, so the default
      dependences are never circular. */
  lemma DefaultDependencesDescend(f: Framework, s: JobSpec, order: seq<Role>, role: Role, other: Role)
    requires !Panics(f, s) && role in s.roleSpecs
    requires var now := FrameworkDefault(f, s, order).roleSpecs[role].dependence;
             now != s.roleSpecs[role].dependence && now.Some? && other in now.value.roleNames
    ensures StartRank(other) < StartRank(role)
  {
    RoleNamesDiffer();
    match f
    case Custom => CustomFills(s, order, role);
    case Tensorflow => TensorflowFills(s, role);
    case Pytorch => PytorchFills(s, role);
    case Bagua => BaguaFills(s, role);
    case Dask => DaskFills(s, role);
  }

  // ----- Validated jobs -----

  /** After the defaults a role passes validation exactly if it has a proper
      name, gives a container, gives a positive 32-bit replica count or none,
      and says whom it waits for if it waits. */
  lemma DefaultedRoleIsValid(wellNamed: Role -> bool, role: Role, was: RawRole, now: RawRole)
    requires IsDefaulted(was, now)
    ensures RoleValid(wellNamed, role, now) <==>
              && wellNamed(role)
              && was.replicaSpec.Some? && was.replicaSpec.value.template.containers != []
              && (was.replicaSpec.value.replicas.Some? ==> 0 < was.replicaSpec.value.replicas.value <= MAX_INT32)
              && (was.dependence.Some? ==>
                    was.dependence.value.roleNames != [] || was.dependence.value.mpiHostFile.Some?)
  {
  }
}
