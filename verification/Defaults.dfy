/** Filling in what a job spec leaves out: the framework's part, then the
    common part.  Doing it again changes nothing. */
module Defaults {
  import opened Decimal
  import opened Api
  import opened JobPhases
  import opened JobSpecs

  // ----- What the defaults come to -----

  function FillBoth(p: RolePhasePolicy): RolePhasePolicy {
    p.(succeeded := OrElse(p.succeeded, AllPods), failed := OrElse(p.failed, AnyPod))
  }

  /** The failure policy only for roles that do not always restart. */
  function FillCommon(p: RolePhasePolicy, restart: RestartPolicy): RolePhasePolicy {
    p.(succeeded := OrElse(p.succeeded, AllPods),
       failed := if restart == Never || restart == ExitCode then OrElse(p.failed, AnyPod) else p.failed)
  }

  function OnceRunning(role: Role): Dependence {
    Dependence([role], Some(Running), None)
  }

  function Waiting(r: RawRole, other: Role): RawRole {
    r.(policy := FillBoth(r.policy), dependence := OrElse(r.dependence, OnceRunning(other)))
  }

  /** What a framework's defaults look at besides the role itself. */
  datatype Context = Context(roles: set<Role>, elastic: bool, freshPolicy: bool)

  function ContextOf(s: JobSpec): Context {
    Context(s.roleSpecs.Keys, s.bagua.Some? && s.bagua.value.enableElastic, s.jobPhasePolicy.None?)
  }

  const SPECIFIC_ROLES: seq<Role> := [CHIEF, EVALUATOR, MASTER, PS, WORKER]

  const TF_CONTAINER := "tensorflow"
  const TF_PORT := ContainerPort("tfjob-port", 2222)

  function FirstNamed(containers: seq<Container>, name: string): (i: nat)
    ensures i <= |containers|
    ensures i < |containers| ==> containers[i].name == name
    ensures forall j | 0 <= j < i :: containers[j].name != name
  {
    if containers == [] || containers[0].name == name then 0 else 1 + FirstNamed(containers[1..], name)
  }

  predicate HasPort(c: Container, name: string) {
    exists p <- c.ports :: p.name == name
  }

  function WithPort(containers: seq<Container>): seq<Container> {
    var i := FirstNamed(containers, TF_CONTAINER);
    if i == |containers| || HasPort(containers[i], TF_PORT.name) then containers
    else containers[i := containers[i].(ports := containers[i].ports + [TF_PORT])]
  }

  function RestartOf(r: RawRole): RestartPolicy {
    if r.replicaSpec.Some? then r.replicaSpec.value.restart else Unspecified
  }

  function WithRestart(r: RawRole, restart: RestartPolicy): RawRole {
    if r.replicaSpec.Some? then r.(replicaSpec := Some(r.replicaSpec.value.(restart := restart))) else r
  }

  function WithTfPort(r: RawRole): RawRole {
    if r.replicaSpec.None? then r
    else
      var t := r.replicaSpec.value.template;
      r.(replicaSpec := Some(r.replicaSpec.value.(template := t.(containers := WithPort(t.containers)))))
  }

  function WithHostNetwork(r: RawRole): RawRole {
    if r.replicaSpec.None? then r
    else r.(replicaSpec := Some(r.replicaSpec.value.(template := r.replicaSpec.value.template.(hostNetwork := true))))
  }

  function CustomRole(r: RawRole): RawRole {
    r.(policy := FillCommon(r.policy, RestartOf(r)))
  }

  /** With a chief, workers are restarted. */
  function TensorflowRestart(roles: set<Role>, role: Role, r: RawRole): RestartPolicy {
    if CHIEF in roles && role == WORKER && RestartOf(r) != Always then OnFailure else RestartOf(r)
  }

  function TensorflowPolicies(roles: set<Role>, role: Role, r: RawRole): RawRole {
    var restart := TensorflowRestart(roles, role, r);
    WithRestart(r.(policy := FillCommon(r.policy, restart)), restart)
  }

  function PytorchRole(roles: set<Role>, role: Role, r: RawRole): RawRole {
    if role != WORKER && role != MASTER then r
    else if role == WORKER && MASTER in roles then
      Waiting(r, MASTER)
    else r.(policy := FillBoth(r.policy))
  }

  function BaguaRole(ctx: Context, role: Role, r: RawRole): RawRole {
    var other := if ctx.elastic then ETCD else MASTER;
    if !ctx.elastic && !ctx.freshPolicy then r
    else if role == WORKER then
      Waiting(r, other)
    else if role == other then r.(policy := FillBoth(r.policy))
    else r
  }

  function LauncherWaitsFor(roles: set<Role>): Role {
    if WORKER in roles then WORKER else if LEAD_WORKER in roles then LEAD_WORKER else SCHEDULER
  }

  function DaskRole(roles: set<Role>, role: Role, r: RawRole): RawRole {
    if role == SCHEDULER then
      WithHostNetwork(WithRestart(r.(policy := FillBoth(r.policy), dependence := None), OnFailure))
    else if role == LAUNCHER then
      r.(policy := FillBoth(r.policy), dependence := Some(OnceRunning(LauncherWaitsFor(roles))))
    else if role == LEAD_WORKER then
      Waiting(r, SCHEDULER)
    else if role == WORKER then
      Waiting(r, LEAD_WORKER)
    else r
  }

  function RoleDefault(f: Framework, ctx: Context, role: Role, r: RawRole): RawRole {
    match f
    case Custom => CustomRole(r)
    case Tensorflow => if role in SPECIFIC_ROLES then WithTfPort(TensorflowPolicies(ctx.roles, role, r)) else r
    case Pytorch => PytorchRole(ctx.roles, role, r)
    case Bagua => BaguaRole(ctx, role, r)
    case Dask => DaskRole(ctx.roles, role, r)
  }

  /** The known roles that exist, in the order of the list. */
  function Existing(names: seq<Role>, roles: set<Role>): (r: seq<Role>)
    ensures forall n :: n in r <==> n in names && n in roles
  {
    if names == [] then []
    else
      var front, last := Existing(names[..|names| - 1], roles), names[|names| - 1];
      assert names == names[..|names| - 1] + [last];
      if last in roles then front + [last] else front
  }

  /** One condition for each role. */
  function Each(names: seq<Role>): Alternatives {
    seq(|names|, i requires 0 <= i < |names| => [names[i]])
  }

  function Without(names: seq<Role>, name: Role): (r: seq<Role>)
    ensures forall n :: n in r <==> n in names && n != name
  {
    if names == [] then []
    else
      var front, last := Without(names[..|names| - 1], name), names[|names| - 1];
      assert names == names[..|names| - 1] + [last];
      if last == name then front else front + [last]
  }

  function TensorflowPolicy(roles: set<Role>): JobPhasePolicy {
    var acquired := Existing([MASTER, CHIEF, WORKER], roles);
    var failing := Existing(SPECIFIC_ROLES, roles);
    JobPhasePolicy(Each(if CHIEF in roles then Without(failing, WORKER) else failing),
                   if acquired == [] then [] else [acquired])
  }

  /** The job phase policy a framework gives; `order` is the order in which a
      range over the roles met them, which only the custom framework sees. */
  function PolicyDefault(f: Framework, ctx: Context, order: seq<Role>): JobPhasePolicy {
    match f
    case Custom => JobPhasePolicy(Each(order), [order])
    case Tensorflow => TensorflowPolicy(ctx.roles)
    case Pytorch =>
      if WORKER in ctx.roles then JobPhasePolicy([[MASTER], [WORKER]], [[MASTER, WORKER]])
      else JobPhasePolicy([[MASTER]], [[MASTER]])
    case Bagua =>
      if ctx.elastic then JobPhasePolicy([[WORKER], [ETCD]], [[WORKER]])
      else if WORKER in ctx.roles then JobPhasePolicy([[WORKER], [MASTER]], [[WORKER, MASTER]])
      else JobPhasePolicy([[MASTER]], [[MASTER]])
    case Dask =>
      JobPhasePolicy([[LAUNCHER], [SCHEDULER]] + Each(Existing([LEAD_WORKER, WORKER], ctx.roles)), [[LAUNCHER]])
  }

  /** The roles a framework dereferences without asking. */
  function Dereferenced(f: Framework, ctx: Context): set<Role> {
    match f
    case Bagua => if ctx.elastic then {WORKER, ETCD} else if ctx.freshPolicy then {MASTER} else {}
    case Dask => {SCHEDULER, LAUNCHER}
    case _ => {}
  }

  /** The existing roles whose replica spec it dereferences. */
  predicate NeedsReplicaSpec(f: Framework, role: Role) {
    match f
    case Custom => true
    case Tensorflow => role in SPECIFIC_ROLES
    case Dask => role == SCHEDULER
    case _ => false
  }

  /** `SetDefault` dereferences nil. */
  predicate Panics(f: Framework, s: JobSpec) {
    || !(Dereferenced(f, ContextOf(s)) <= s.roleSpecs.Keys)
    || exists r <- s.roleSpecs :: NeedsReplicaSpec(f, r) && s.roleSpecs[r].replicaSpec.None?
  }

  function MapRoles(m: map<Role, RawRole>, done: set<Role>, g: (Role, RawRole) -> RawRole): map<Role, RawRole> {
    map r | r in m :: if r in done then g(r, m[r]) else m[r]
  }

  /** `SetDefault` of a framework, where it does not panic. */
  function FrameworkDefault(f: Framework, s: JobSpec, order: seq<Role>): JobSpec {
    var ctx := ContextOf(s);
    s.(bagua := if f == Bagua then OrElse(s.bagua, BaguaSpec(false, None, None)) else s.bagua,
       tensorflow := if f == Tensorflow then OrElse(s.tensorflow, TensorflowSpec(false)) else s.tensorflow,
       jobPhasePolicy := OrElse(s.jobPhasePolicy, PolicyDefault(f, ctx, order)),
       roleSpecs := MapRoles(s.roleSpecs, s.roleSpecs.Keys, (role, r) => RoleDefault(f, ctx, role, r)))
  }

  const NO_REPLICA_SPEC := ReplicaSpec(None, Template([], false), Unspecified)

  /** The common default of one role. */
  function DefaultRole(r: RawRole): RawRole {
    var replicaSpec := OrElse(r.replicaSpec, NO_REPLICA_SPEC).value;
    var restart := if replicaSpec.restart == Unspecified then Never else replicaSpec.restart;
    r.(replicaSpec := Some(replicaSpec.(restart := restart, replicas := OrElse(replicaSpec.replicas, 1))),
       controller := if r.controller == NoController then ControllerPod else r.controller,
       policy := if restart == Never then FillBoth(r.policy) else r.policy)
  }

  /** The policies a role leaves open are the default ones. */
  predicate PolicyFilled(was: RolePhasePolicy, now: RolePhasePolicy) {
    && now.nodeDownAsFailed == was.nodeDownAsFailed
    && (was.failed.Some? ==> now.failed == was.failed) && (was.failed.None? ==> now.failed == Some(AnyPod))
    && (was.succeeded.Some? ==> now.succeeded == was.succeeded)
    && (was.succeeded.None? ==> now.succeeded == Some(AllPods))
  }

  /** What the common defaults leave of a role: all that was given, one replica,
      restart policy Never and controller pod where nothing was; and under Never
      a role that said nothing fails with any pod and succeeds with all. */
  predicate IsDefaulted(was: RawRole, now: RawRole) {
    && now.replicaSpec.Some? && now.dependence == was.dependence
    && (was.controller != NoController ==> now.controller == was.controller)
    && (was.controller == NoController ==> now.controller == ControllerPod)
    && var s := now.replicaSpec.value;
       && (was.replicaSpec.None? ==> s == ReplicaSpec(Some(1), Template([], false), Never))
       && (was.replicaSpec.Some? ==>
             var given := was.replicaSpec.value;
             && s.template == given.template
             && (given.replicas.Some? ==> s.replicas == given.replicas)
             && (given.replicas.None? ==> s.replicas == Some(1))
             && (given.restart != Unspecified ==> s.restart == given.restart)
             && (given.restart == Unspecified ==> s.restart == Never))
       && (s.restart == Never ==> PolicyFilled(was.policy, now.policy))
       && (s.restart != Never ==> now.policy == was.policy)
  }

  lemma DefaultedRoles(m: map<Role, RawRole>)
    ensures forall role <- m :: IsDefaulted(m[role], DefaultRole(m[role]))
  {
  }

  const CLEAN_POD_POLICY_NONE := "None"

  /** The spec part of `Default`. */
  function CommonDefault(s: JobSpec): JobSpec {
    s.(cleanPodPolicy := OrElse(s.cleanPodPolicy, CLEAN_POD_POLICY_NONE),
       roleSpecs := MapRoles(s.roleSpecs, s.roleSpecs.Keys, (role, r) => DefaultRole(r)))
  }

  /** The framework's defaults, then the common ones. */
  function Full(f: Framework, s: JobSpec, order: seq<Role>): JobSpec {
    CommonDefault(FrameworkDefault(f, s, order))
  }

  // ----- The same in place -----

  predicate Enumerates(order: seq<Role>, roles: set<Role>) {
    && (forall r <- order :: r in roles) && (forall r <- roles :: r in order)
    && forall i, j | 0 <= i < j < |order| :: order[i] != order[j]
  }

  lemma MapRolesStep(m: map<Role, RawRole>, done: set<Role>, g: (Role, RawRole) -> RawRole, r: Role)
    ensures MapRoles(m, done + {r}, g) == if r in m then MapRoles(m, done, g)[r := g(r, m[r])] else MapRoles(m, done, g)
  {
  }

  /** One role brought to its default, if there is such a role. */
  function Stepped(m: map<Role, RawRole>, g: (Role, RawRole) -> RawRole, role: Role): map<Role, RawRole> {
    if role in m then m[role := g(role, m[role])] else m
  }

  lemma TwoStages(m: map<Role, RawRole>, names: set<Role>,
                  g: (Role, RawRole) -> RawRole, h: (Role, RawRole) -> RawRole, both: (Role, RawRole) -> RawRole)
    requires forall role, r :: both(role, r) == if role in names then h(role, g(role, r)) else r
    ensures MapRoles(MapRoles(m, names, g), names, h) == MapRoles(m, m.Keys, both)
  {
  }

  lemma SameMap(m: map<Role, RawRole>, g: (Role, RawRole) -> RawRole, h: (Role, RawRole) -> RawRole)
    requires forall r <- m :: g(r, m[r]) == h(r, m[r])
    ensures MapRoles(m, m.Keys, g) == MapRoles(m, m.Keys, h)
  {
  }

  lemma FourSteps(m: map<Role, RawRole>, g: (Role, RawRole) -> RawRole, a: Role, b: Role, c: Role, d: Role)
    requires a != b && a != c && a != d && b != c && b != d && c != d
             && forall r, x | r !in {a, b, c, d} :: g(r, x) == x
    ensures Stepped(Stepped(Stepped(Stepped(m, g, a), g, b), g, c), g, d) == MapRoles(m, m.Keys, g)
  {
  }

  class Draft {
    var cleanPodPolicy: Option<string>
    var bagua: Option<BaguaSpec>
    var tensorflow: Option<TensorflowSpec>
    var availablePorts: seq<int>
    var roleSpecs: map<Role, RawRole>
    var jobPhasePolicy: Option<JobPhasePolicy>
    var roleStatuses: map<Role, RolePhase>
    var phase: JobPhase

    constructor (s: JobSpec)
      ensures Spec() == s && roleStatuses == map[] && phase == NoPhase
    {
      cleanPodPolicy, bagua, tensorflow := s.cleanPodPolicy, s.bagua, s.tensorflow;
      availablePorts, roleSpecs, jobPhasePolicy := s.availablePorts, s.roleSpecs, s.jobPhasePolicy;
      roleStatuses, phase := map[], NoPhase;
    }

    function Spec(): JobSpec
      reads this
    {
      JobSpec(cleanPodPolicy, bagua, tensorflow, availablePorts, roleSpecs, jobPhasePolicy)
    }

    method SetCommonJobPhasePolicy() returns (order: seq<Role>)
      modifies this`jobPhasePolicy
      ensures old(jobPhasePolicy).None? ==> Enumerates(order, roleSpecs.Keys)
      ensures jobPhasePolicy == OrElse(old(jobPhasePolicy), JobPhasePolicy(Each(order), [order]))
    {
      order := [];
      if jobPhasePolicy.Some? {
        return;
      }
      var failed: Alternatives := [];
      var todo := roleSpecs.Keys;
      while todo != {}
        invariant todo <= roleSpecs.Keys
        invariant Enumerates(order, roleSpecs.Keys - todo) && failed == Each(order)
        decreases todo
      {
        var role :| role in todo;
        order, failed, todo := order + [role], failed + [[role]], todo - {role};
      }
      assert roleSpecs.Keys - todo == roleSpecs.Keys;
      jobPhasePolicy := Some(JobPhasePolicy(failed, [order]));
    }

    method SetCommonRolePhasePolicy() returns (panicked: bool)
      modifies this`roleSpecs
      ensures panicked <==> exists r <- old(roleSpecs) :: old(roleSpecs)[r].replicaSpec.None?
      ensures !panicked ==> roleSpecs == MapRoles(old(roleSpecs), old(roleSpecs).Keys, (role, r) => CustomRole(r))
    {
      ghost var was, g := roleSpecs, (role: Role, r: RawRole) => CustomRole(r);
      var todo := roleSpecs.Keys;
      while todo != {}
        invariant todo <= was.Keys && roleSpecs == MapRoles(was, was.Keys - todo, g)
        invariant forall r <- was.Keys - todo :: was[r].replicaSpec.Some?
        decreases todo
      {
        var role :| role in todo;
        var spec := roleSpecs[role];
        if spec.policy.succeeded.None? {
          spec := spec.(policy := spec.policy.(succeeded := Some(AllPods)));
        }
        if spec.replicaSpec.None? {
          return true;
        }
        if spec.replicaSpec.value.restart == Never || spec.replicaSpec.value.restart == ExitCode {
          if spec.policy.failed.None? {
            spec := spec.(policy := spec.policy.(failed := Some(AnyPod)));
          }
        }
        MapRolesStep(was, was.Keys - todo, g, role);
        assert was.Keys - (todo - {role}) == was.Keys - todo + {role};
        roleSpecs, todo := roleSpecs[role := spec], todo - {role};
      }
      assert was.Keys - todo == was.Keys;
      panicked := false;
    }

    method CustomSetDefault() returns (panicked: bool, order: seq<Role>)
      modifies this`jobPhasePolicy, this`roleSpecs
      ensures panicked <==> Panics(Custom, old(Spec()))
      ensures old(jobPhasePolicy).None? ==> Enumerates(order, old(roleSpecs).Keys)
      ensures !panicked ==> Spec() == FrameworkDefault(Custom, old(Spec()), order)
    {
      order := SetCommonJobPhasePolicy();
      panicked := SetCommonRolePhasePolicy();
    }

    /** The port loop of `setDefaultPort`. */
    method SetDefaultPort(containers: seq<Container>) returns (result: seq<Container>)
      ensures result == WithPort(containers)
    {
      result := containers;
      var hasDefaultContainer, index := false, 0;
      for i := 0 to |containers|
        invariant !hasDefaultContainer && forall j | 0 <= j < i :: containers[j].name != TF_CONTAINER
      {
        if containers[i].name == TF_CONTAINER {
          hasDefaultContainer, index := true, i;
          break;
        }
      }
      if !hasDefaultContainer {
        return;
      }
      assert FirstNamed(containers, TF_CONTAINER) == index;
      var hasTFJobPort := false;
      var ports := containers[index].ports;
      for i := 0 to |ports|
        invariant !hasTFJobPort && forall j | 0 <= j < i :: ports[j].name != TF_PORT.name
      {
        if ports[i].name == TF_PORT.name {
          hasTFJobPort := true;
          break;
        }
      }
      if !hasTFJobPort {
        result := containers[index := containers[index].(ports := ports + [TF_PORT])];
      }
    }

    method GetRolesIntersection(names: seq<Role>) returns (intersection: seq<Role>)
      ensures intersection == Existing(names, roleSpecs.Keys)
    {
      intersection := [];
      for i := 0 to |names|
        invariant intersection == Existing(names[..i], roleSpecs.Keys)
      {
        assert names[..i + 1][..i] == names[..i];
        if names[i] !in roleSpecs {
          continue;
        }
        intersection := intersection + [names[i]];
      }
      assert names[..|names|] == names;
    }

    method EachButWorker(existent: seq<Role>, hasChief: bool) returns (failed: Alternatives)
      ensures failed == Each(if hasChief then Without(existent, WORKER) else existent)
    {
      failed := [];
      ghost var kept: seq<Role> := [];
      for i := 0 to |existent|
        invariant kept == if hasChief then Without(existent[..i], WORKER) else existent[..i]
        invariant failed == Each(kept)
      {
        assert existent[..i + 1][..i] == existent[..i];
        if hasChief && existent[i] == WORKER {
          continue;
        }
        EachSnoc(kept, existent[i]);
        kept, failed := kept + [existent[i]], failed + [[existent[i]]];
      }
      assert existent[..|existent|] == existent;
    }

    method TensorflowJobPhasePolicy()
      modifies this`jobPhasePolicy
      ensures jobPhasePolicy == OrElse(old(jobPhasePolicy), TensorflowPolicy(roleSpecs.Keys))
    {
      var existent := GetRolesIntersection(SPECIFIC_ROLES);
      var hasChief := CHIEF in roleSpecs;
      if jobPhasePolicy.None? {
        var policy := JobPhasePolicy([], []);
        var acquired := GetRolesIntersection([MASTER, CHIEF, WORKER]);
        if |acquired| != 0 {
          policy := policy.(succeeded := [acquired]);
        }
        var failed := EachButWorker(existent, hasChief);
        jobPhasePolicy := Some(policy.(failed := failed));
      }
    }

    /** One role of the policy loop. */
    method TensorflowPoliciesOf(role: Role, hasChief: bool) returns (panicked: bool)
      requires role in roleSpecs && hasChief == (CHIEF in roleSpecs)
      modifies this`roleSpecs
      ensures panicked <==> old(roleSpecs)[role].replicaSpec.None?
      ensures !panicked ==> roleSpecs == old(roleSpecs)[role :=
                TensorflowPolicies(old(roleSpecs).Keys, role, old(roleSpecs)[role])]
    {
      var spec := roleSpecs[role];
      if spec.policy.succeeded.None? {
        spec := spec.(policy := spec.policy.(succeeded := Some(AllPods)));
      }
      if spec.replicaSpec.None? {
        return true;
      }
      var replicaSpec := spec.replicaSpec.value;
      if hasChief && role == WORKER {
        if replicaSpec.restart != Always {
          replicaSpec := replicaSpec.(restart := OnFailure);
        }
      }
      if replicaSpec.restart == Never || replicaSpec.restart == ExitCode {
        if spec.policy.failed.None? {
          spec := spec.(policy := spec.policy.(failed := Some(AnyPod)));
        }
      }
      roleSpecs := roleSpecs[role := spec.(replicaSpec := Some(replicaSpec))];
      panicked := false;
    }

    method TensorflowRolePolicies() returns (panicked: bool)
      modifies this`roleSpecs
      ensures panicked <==> exists r <- old(roleSpecs) :: r in SPECIFIC_ROLES && old(roleSpecs)[r].replicaSpec.None?
      ensures var keys := old(roleSpecs).Keys;
              !panicked ==> roleSpecs == MapRoles(old(roleSpecs), RoleSet(SPECIFIC_ROLES),
                (role, r) => TensorflowPolicies(keys, role, r))
    {
      var hasChief := CHIEF in roleSpecs;
      ghost var was := roleSpecs;
      ghost var g := (role: Role, r: RawRole) => TensorflowPolicies(was.Keys, role, r);
      SpecificRolesDiffer();
      for i := 0 to |SPECIFIC_ROLES|
        invariant roleSpecs == MapRoles(was, RoleSet(SPECIFIC_ROLES[..i]), g)
        invariant forall j | 0 <= j < i :: SPECIFIC_ROLES[j] in was ==> was[SPECIFIC_ROLES[j]].replicaSpec.Some?
      {
        var role := SPECIFIC_ROLES[i];
        MapRolesStep(was, RoleSet(SPECIFIC_ROLES[..i]), g, role);
        assert RoleSet(SPECIFIC_ROLES[..i + 1]) == RoleSet(SPECIFIC_ROLES[..i]) + {role};
        if role in roleSpecs {
          assert role !in RoleSet(SPECIFIC_ROLES[..i]);
          panicked := TensorflowPoliciesOf(role, hasChief);
          if panicked {
            return;
          }
        }
      }
      assert SPECIFIC_ROLES[..|SPECIFIC_ROLES|] == SPECIFIC_ROLES;
      panicked := false;
    }

    method TensorflowPorts()
      modifies this`roleSpecs
      requires forall r <- roleSpecs :: r in SPECIFIC_ROLES ==> roleSpecs[r].replicaSpec.Some?
      ensures roleSpecs == MapRoles(old(roleSpecs), RoleSet(SPECIFIC_ROLES), (role, r) => WithTfPort(r))
    {
      ghost var was := roleSpecs;
      ghost var g := (role: Role, r: RawRole) => WithTfPort(r);
      SpecificRolesDiffer();
      for i := 0 to |SPECIFIC_ROLES|
        invariant roleSpecs == MapRoles(was, RoleSet(SPECIFIC_ROLES[..i]), g)
      {
        var role := SPECIFIC_ROLES[i];
        MapRolesStep(was, RoleSet(SPECIFIC_ROLES[..i]), g, role);
        assert RoleSet(SPECIFIC_ROLES[..i + 1]) == RoleSet(SPECIFIC_ROLES[..i]) + {role};
        if role in roleSpecs {
          assert role !in RoleSet(SPECIFIC_ROLES[..i]);
          var spec := roleSpecs[role];
          var template := spec.replicaSpec.value.template;
          var containers := SetDefaultPort(template.containers);
          roleSpecs := roleSpecs[role := spec.(replicaSpec :=
                         Some(spec.replicaSpec.value.(template := template.(containers := containers))))];
        }
      }
      assert SPECIFIC_ROLES[..|SPECIFIC_ROLES|] == SPECIFIC_ROLES;
    }

    method TensorflowSetDefault() returns (panicked: bool)
      modifies this`tensorflow, this`jobPhasePolicy, this`roleSpecs
      ensures panicked <==> Panics(Tensorflow, old(Spec()))
      ensures !panicked ==> Spec() == FrameworkDefault(Tensorflow, old(Spec()), [])
    {
      ghost var was := roleSpecs;
      if tensorflow.None? {
        tensorflow := Some(TensorflowSpec(false));
      }
      TensorflowJobPhasePolicy();
      panicked := TensorflowRolePolicies();
      if panicked {
        return;
      }
      TensorflowPorts();
      ghost var ctx := old(ContextOf(Spec()));
      TwoStages(was, RoleSet(SPECIFIC_ROLES), (role, r) => TensorflowPolicies(was.Keys, role, r),
        (role, r) => WithTfPort(r), (role, r) => RoleDefault(Tensorflow, ctx, role, r));
    }

    /** The two nil checks every framework repeats. */
    method FillPolicy(role: Role)
      requires role in roleSpecs
      modifies this`roleSpecs
      ensures roleSpecs == old(roleSpecs)[role :=
                old(roleSpecs)[role].(policy := FillBoth(old(roleSpecs)[role].policy))]
    {
      if roleSpecs[role].policy.succeeded.None? {
        roleSpecs := roleSpecs[role := roleSpecs[role].(policy := roleSpecs[role].policy.(succeeded := Some(AllPods)))];
      }
      if roleSpecs[role].policy.failed.None? {
        roleSpecs := roleSpecs[role := roleSpecs[role].(policy := roleSpecs[role].policy.(failed := Some(AnyPod)))];
      }
    }

    method FillDependence(role: Role, other: Role)
      requires role in roleSpecs
      modifies this`roleSpecs
      ensures roleSpecs == old(roleSpecs)[role :=
                old(roleSpecs)[role].(dependence := OrElse(old(roleSpecs)[role].dependence, OnceRunning(other)))]
    {
      if roleSpecs[role].dependence.None? {
        roleSpecs := roleSpecs[role := roleSpecs[role].(dependence := Some(OnceRunning(other)))];
      }
    }

    /** A role that waits for another. */
    method FillWaiting(role: Role, other: Role)
      modifies this`roleSpecs
      ensures roleSpecs == Stepped(old(roleSpecs), (name, r) => Waiting(r, other), role)
    {
      if role in roleSpecs {
        FillPolicy(role);
        FillDependence(role, other);
      }
    }

    method PytorchRoles()
      modifies this`roleSpecs
      ensures roleSpecs == MapRoles(old(roleSpecs), old(roleSpecs).Keys,
              (role, r) => PytorchRole(old(roleSpecs).Keys, role, r))
    {
      RoleNamesDiffer();
      if WORKER in roleSpecs {
        FillPolicy(WORKER);
      }
      if MASTER in roleSpecs {
        FillPolicy(MASTER);
      }
      if WORKER in roleSpecs {
        if MASTER in roleSpecs {
          FillDependence(WORKER, MASTER);
        }
      }
    }

    method PytorchSetDefault()
      modifies this`jobPhasePolicy, this`roleSpecs
      ensures !Panics(Pytorch, old(Spec()))
      ensures Spec() == FrameworkDefault(Pytorch, old(Spec()), [])
    {
      if jobPhasePolicy.None? {
        jobPhasePolicy := Some(JobPhasePolicy([[MASTER]], [[MASTER]]));
        if WORKER in roleSpecs {
          jobPhasePolicy := Some(JobPhasePolicy([[MASTER], [WORKER]], [[MASTER, WORKER]]));
        }
      }
      PytorchRoles();
    }

    method BaguaStaticRoles() returns (panicked: bool)
      modifies this`roleSpecs
      ensures panicked <==> MASTER !in old(roleSpecs)
      ensures var ctx := Context(old(roleSpecs).Keys, false, true);
              !panicked ==> roleSpecs == MapRoles(old(roleSpecs), old(roleSpecs).Keys,
                (role, r) => BaguaRole(ctx, role, r))
    {
      RoleNamesDiffer();
      if MASTER !in roleSpecs {
        return true;
      }
      FillPolicy(MASTER);
      FillWaiting(WORKER, MASTER);
      panicked := false;
    }

    method BaguaElasticRoles(ghost ctx: Context) returns (panicked: bool)
      requires ctx.elastic
      modifies this`roleSpecs
      ensures panicked <==> WORKER !in old(roleSpecs) || ETCD !in old(roleSpecs)
      ensures !panicked ==> roleSpecs == MapRoles(old(roleSpecs), old(roleSpecs).Keys,
              (role, r) => BaguaRole(ctx, role, r))
    {
      RoleNamesDiffer();
      if WORKER !in roleSpecs {
        return true;
      }
      FillPolicy(WORKER);
      if ETCD !in roleSpecs {
        return true;
      }
      FillPolicy(ETCD);
      FillDependence(WORKER, ETCD);
      panicked := false;
    }

    method BaguaSetDefault() returns (panicked: bool)
      modifies this`bagua, this`jobPhasePolicy, this`roleSpecs
      ensures panicked <==> Panics(Bagua, old(Spec()))
      ensures !panicked ==> Spec() == FrameworkDefault(Bagua, old(Spec()), [])
    {
      panicked := false;
      ghost var was, ctx := roleSpecs, ContextOf(Spec());
      if bagua.None? {
        bagua := Some(BaguaSpec(false, None, None));
      }
      if !bagua.value.enableElastic {
        if jobPhasePolicy.None? {
          jobPhasePolicy := Some(JobPhasePolicy([[MASTER]], [[MASTER]]));
          if WORKER in roleSpecs {
            jobPhasePolicy := Some(JobPhasePolicy([[WORKER], [MASTER]], [[WORKER, MASTER]]));
          }
          panicked := BaguaStaticRoles();
        }
      } else {
        if jobPhasePolicy.None? {
          jobPhasePolicy := Some(JobPhasePolicy([[WORKER], [ETCD]], [[WORKER]]));
        }
        panicked := BaguaElasticRoles(ctx);
      }
      assert !panicked ==> roleSpecs == MapRoles(was, was.Keys, (role, r) => RoleDefault(Bagua, ctx, role, r));
    }

    method DaskJobPhasePolicy()
      modifies this`jobPhasePolicy
      ensures jobPhasePolicy == OrElse(old(jobPhasePolicy), PolicyDefault(Dask, ContextOf(Spec()), []))
    {
      if jobPhasePolicy.None? {
        var failed := [[LAUNCHER], [SCHEDULER]];
        if LEAD_WORKER in roleSpecs {
          failed := failed + [[LEAD_WORKER]];
        }
        if WORKER in roleSpecs {
          failed := failed + [[WORKER]];
        }
        ExistingOfTwo(LEAD_WORKER, WORKER, roleSpecs.Keys);
        assert failed == [[LAUNCHER], [SCHEDULER]] + Each(Existing([LEAD_WORKER, WORKER], roleSpecs.Keys));
        jobPhasePolicy := Some(JobPhasePolicy(failed, [[LAUNCHER]]));
      }
    }

    method DaskScheduler() returns (panicked: bool)
      modifies this`roleSpecs
      ensures panicked <==> SCHEDULER !in old(roleSpecs) || old(roleSpecs)[SCHEDULER].replicaSpec.None?
      ensures !panicked ==>
                roleSpecs == old(roleSpecs)[SCHEDULER :=
                  DaskRole(old(roleSpecs).Keys, SCHEDULER, old(roleSpecs)[SCHEDULER])]
    {
      if SCHEDULER !in roleSpecs {
        return true;
      }
      FillPolicy(SCHEDULER);
      var spec := roleSpecs[SCHEDULER].(dependence := None);
      if spec.replicaSpec.None? {
        return true;
      }
      var replicaSpec := spec.replicaSpec.value.(restart := OnFailure);
      replicaSpec := replicaSpec.(template := replicaSpec.template.(hostNetwork := true));
      roleSpecs := roleSpecs[SCHEDULER := spec.(replicaSpec := Some(replicaSpec))];
      panicked := false;
    }

    /** The roles but the scheduler. */
    method DaskWorkers() returns (panicked: bool)
      modifies this`roleSpecs
      ensures panicked <==> LAUNCHER !in old(roleSpecs)
      ensures var keys := old(roleSpecs).Keys;
              var g := (role: Role, r: RawRole) => DaskRole(keys, role, r);
              !panicked ==>
                roleSpecs == Stepped(Stepped(Stepped(old(roleSpecs), g, LEAD_WORKER), g, WORKER), g, LAUNCHER)
    {
      RoleNamesDiffer();
      var launcherDependenceRole := SCHEDULER;
      if LAUNCHER !in roleSpecs {
        return true;
      }
      FillPolicy(LAUNCHER);
      if LEAD_WORKER in roleSpecs {
        launcherDependenceRole := LEAD_WORKER;
      }
      FillWaiting(LEAD_WORKER, SCHEDULER);
      if WORKER in roleSpecs {
        launcherDependenceRole := WORKER;
      }
      FillWaiting(WORKER, LEAD_WORKER);
      roleSpecs := roleSpecs[LAUNCHER := roleSpecs[LAUNCHER].(dependence := Some(OnceRunning(launcherDependenceRole)))];
      panicked := false;
    }

    method DaskSetDefault() returns (panicked: bool)
      modifies this`jobPhasePolicy, this`roleSpecs
      ensures panicked <==> Panics(Dask, old(Spec()))
      ensures !panicked ==> Spec() == FrameworkDefault(Dask, old(Spec()), [])
    {
      RoleNamesDiffer();
      ghost var was := roleSpecs;
      ghost var ctx := ContextOf(Spec());
      ghost var g := (role: Role, r: RawRole) => DaskRole(was.Keys, role, r);
      DaskJobPhasePolicy();
      panicked := DaskScheduler();
      if panicked {
        return;
      }
      assert roleSpecs.Keys == was.Keys && roleSpecs == Stepped(was, g, SCHEDULER);
      panicked := DaskWorkers();
      if !panicked {
        FourSteps(was, g, SCHEDULER, LEAD_WORKER, WORKER, LAUNCHER);
        SameMap(was, g, (role, r) => RoleDefault(Dask, ctx, role, r));
      }
    }

    /** The role loop of `Default`. */
    method DefaultRoleSpecs()
      modifies this`roleSpecs
      ensures roleSpecs == MapRoles(old(roleSpecs), old(roleSpecs).Keys, (role, r) => DefaultRole(r))
    {
      ghost var was, g := roleSpecs, (role: Role, r: RawRole) => DefaultRole(r);
      var todo := roleSpecs.Keys;
      while todo != {}
        invariant todo <= was.Keys && roleSpecs == MapRoles(was, was.Keys - todo, g)
        decreases todo
      {
        var role :| role in todo;
        var spec := roleSpecs[role];
        if spec.replicaSpec.None? {
          spec := spec.(replicaSpec := Some(NO_REPLICA_SPEC));
        }
        var replicaSpec := spec.replicaSpec.value;
        if spec.controller == NoController {
          spec := spec.(controller := ControllerPod);
        }
        if replicaSpec.restart == Unspecified {
          replicaSpec := replicaSpec.(restart := Never);
        }
        if replicaSpec.restart == Never {
          spec := spec.(policy := spec.policy.(failed := OrElse(spec.policy.failed, AnyPod)));
          spec := spec.(policy := spec.policy.(succeeded := OrElse(spec.policy.succeeded, AllPods)));
        }
        if replicaSpec.replicas.None? {
          replicaSpec := replicaSpec.(replicas := Some(1));
        }
        MapRolesStep(was, was.Keys - todo, g, role);
        assert was.Keys - (todo - {role}) == was.Keys - todo + {role};
        roleSpecs, todo := roleSpecs[role := spec.(replicaSpec := Some(replicaSpec))], todo - {role};
      }
      assert was.Keys - todo == was.Keys;
    }

    method DefaultRoleStatuses()
      modifies this`roleStatuses
      ensures roleStatuses == (map r | r in roleSpecs :: Pending) + old(roleStatuses)
    {
      ghost var was := roleStatuses;
      var todo := roleSpecs.Keys;
      while todo != {}
        invariant todo <= roleSpecs.Keys
        invariant roleStatuses == (map r | r in roleSpecs.Keys - todo :: Pending) + was
        decreases todo
      {
        var role :| role in todo;
        if role !in roleStatuses {
          roleStatuses := roleStatuses[role := Pending];
        }
        todo := todo - {role};
      }
    }

    /** `Default`: the spec, and a Pending status for every role without one. */
    method Default()
      modifies this
      ensures Spec() == CommonDefault(old(Spec()))
      ensures roleSpecs.Keys == old(roleSpecs).Keys
      ensures forall role <- old(roleSpecs) :: IsDefaulted(old(roleSpecs)[role], roleSpecs[role])
      ensures roleStatuses == (map r | r in old(roleSpecs) :: Pending) + old(roleStatuses)
      ensures phase == Given(old(phase))
    {
      if cleanPodPolicy.None? {
        cleanPodPolicy := Some(CLEAN_POD_POLICY_NONE);
      }
      DefaultRoleSpecs();
      DefaultedRoles(old(roleSpecs));
      DefaultRoleStatuses();
      if phase == NoPhase {
        phase := JobPending;
      }
    }

    method FrameworkSetDefault(f: Framework) returns (panicked: bool, order: seq<Role>)
      modifies this`bagua, this`tensorflow, this`jobPhasePolicy, this`roleSpecs
      ensures panicked <==> Panics(f, old(Spec()))
      ensures f == Custom && old(jobPhasePolicy).None? ==> Enumerates(order, old(roleSpecs).Keys)
      ensures !panicked ==> Spec() == FrameworkDefault(f, old(Spec()), order)
    {
      panicked, order := false, [];
      match f
      case Custom => panicked, order := CustomSetDefault();
      case Tensorflow => panicked := TensorflowSetDefault();
      case Pytorch => PytorchSetDefault();
      case Bagua => panicked := BaguaSetDefault();
      case Dask => panicked := DaskSetDefault();
    }

    /** The gate of `Reconcile`: `updated` says that the spec was rewritten and
        the pass ends here. */
    method SetDefault(f: Framework) returns (panicked: bool, updated: bool, order: seq<Role>)
      modifies this
      ensures panicked <==> Panics(f, old(Spec()))
      ensures f == Custom && old(jobPhasePolicy).None? ==> Enumerates(order, old(roleSpecs).Keys)
      ensures !panicked ==> Spec() == Full(f, old(Spec()), order) && (updated <==> Spec() != old(Spec()))
    {
      var was := Spec();
      updated := false;
      panicked, order := FrameworkSetDefault(f);
      if panicked {
        return;
      }
      Default();
      updated := was != Spec();
    }
  }

  lemma EachSnoc(names: seq<Role>, n: Role)
    ensures Each(names + [n]) == Each(names) + [[n]]
  {
  }

  lemma ExistingOfTwo(a: Role, b: Role, roles: set<Role>)
    ensures Each(Existing([a, b], roles)) == (if a in roles then [[a]] else []) + if b in roles then [[b]] else []
  {
    assert [a, b][..1] == [a] && [a][..0] == [];
    assert Existing([a], roles) == if a in roles then [a] else [];
  }

  function RoleSet(names: seq<Role>): set<Role> {
    set n | n in names
  }

  lemma SpecificRolesDiffer()
    ensures forall i, j | 0 <= i < j < |SPECIFIC_ROLES| :: SPECIFIC_ROLES[i] != SPECIFIC_ROLES[j]
  {
    RoleNamesDiffer();
  }

  // ----- Doing it again -----

  lemma WithPortSettles(containers: seq<Container>)
    ensures WithPort(WithPort(containers)) == WithPort(containers)
  {
    var i, once := FirstNamed(containers, TF_CONTAINER), WithPort(containers);
    if i < |containers| {
      SameFirst(containers, once, TF_CONTAINER);
      if !HasPort(containers[i], TF_PORT.name) {
        assert TF_PORT in once[i].ports;
      }
    }
  }

  lemma {:induction false} SameFirst(a: seq<Container>, b: seq<Container>, name: string)
    requires |a| == |b| && forall j | 0 <= j < |a| :: a[j].name == b[j].name
    ensures FirstNamed(a, name) == FirstNamed(b, name)
  {
    if a != [] && a[0].name != name {
      SameFirst(a[1..], b[1..], name);
    }
  }

  function FullRole(f: Framework, ctx: Context, role: Role, r: RawRole): RawRole {
    DefaultRole(RoleDefault(f, ctx, role, r))
  }

  lemma TensorflowRoleSettles(ctx: Context, ctx': Context, role: Role, r: RawRole)
    requires ctx' == ctx.(freshPolicy := false)
    requires role in SPECIFIC_ROLES ==> r.replicaSpec.Some?
    ensures FullRole(Tensorflow, ctx', role, FullRole(Tensorflow, ctx, role, r)) == FullRole(Tensorflow, ctx, role, r)
  {
    if role in SPECIFIC_ROLES {
      WithPortSettles(r.replicaSpec.value.template.containers);
    }
  }

  lemma DaskRoleSettles(ctx: Context, ctx': Context, role: Role, r: RawRole)
    requires ctx' == ctx.(freshPolicy := false)
    requires role == SCHEDULER ==> r.replicaSpec.Some?
    ensures FullRole(Dask, ctx', role, FullRole(Dask, ctx, role, r)) == FullRole(Dask, ctx, role, r)
  {
  }

  lemma RoleSettles(f: Framework, ctx: Context, ctx': Context, role: Role, r: RawRole)
    requires ctx' == ctx.(freshPolicy := false)
    requires NeedsReplicaSpec(f, role) ==> r.replicaSpec.Some?
    ensures FullRole(f, ctx', role, FullRole(f, ctx, role, r)) == FullRole(f, ctx, role, r)
    ensures FullRole(f, ctx, role, r).replicaSpec.Some?
  {
    match f
    case Tensorflow => TensorflowRoleSettles(ctx, ctx', role, r);
    case Dask => DaskRoleSettles(ctx, ctx', role, r);
    case Custom =>
    case Pytorch =>
    case Bagua =>
  }

  lemma FullRoles(f: Framework, s: JobSpec, order: seq<Role>)
    ensures Full(f, s, order).roleSpecs == map r | r in s.roleSpecs :: FullRole(f, ContextOf(s), r, s.roleSpecs[r])
    ensures Full(f, s, order).jobPhasePolicy.Some?
    ensures ContextOf(Full(f, s, order)) == ContextOf(s).(freshPolicy := false)
  {
  }

  lemma FullIsSafe(f: Framework, s: JobSpec, order: seq<Role>)
    requires !Panics(f, s)
    ensures !Panics(f, Full(f, s, order))
  {
    FullRoles(f, s, order);
    forall r | r in s.roleSpecs ensures Full(f, s, order).roleSpecs[r].replicaSpec.Some? {
      assert FullRole(f, ContextOf(s), r, s.roleSpecs[r]).replicaSpec.Some?;
    }
  }

  lemma FullRolesSettle(f: Framework, s: JobSpec, order: seq<Role>, order': seq<Role>)
    requires !Panics(f, s)
    ensures Full(f, Full(f, s, order), order').roleSpecs == Full(f, s, order).roleSpecs
  {
    var once, ctx := Full(f, s, order), ContextOf(s);
    FullRoles(f, s, order);
    FullRoles(f, once, order');
    forall r | r in s.roleSpecs ensures FullRole(f, ContextOf(once), r, once.roleSpecs[r]) == once.roleSpecs[r] {
      RoleSettles(f, ctx, ContextOf(once), r, s.roleSpecs[r]);
    }
  }

  /** Doing it again, whatever order the roles are met in then, changes
      nothing and does not panic. */
  lemma DefaultsSettle(f: Framework, s: JobSpec, order: seq<Role>, order': seq<Role>)
    requires !Panics(f, s)
    ensures !Panics(f, Full(f, s, order))
    ensures Full(f, Full(f, s, order), order') == Full(f, s, order)
  {
    FullIsSafe(f, s, order);
    FullRolesSettle(f, s, order, order');
  }

  /** The stored specs pass after pass, none of which panics. */
  ghost predicate Passes(f: Framework, specs: seq<JobSpec>, orders: seq<seq<Role>>) {
    && |specs| == |orders| + 1 && !Panics(f, specs[0])
    && forall i | 0 <= i < |orders| :: specs[i + 1] == Full(f, specs[i], orders[i])
  }

  /** However many passes run, only the first can rewrite the spec; from the
      second on a pass gets through to validation. */
  lemma {:induction false} RewrittenAtMostOnce(f: Framework, specs: seq<JobSpec>, orders: seq<seq<Role>>, i: nat)
    requires Passes(f, specs, orders) && 0 < i < |orders|
    ensures specs[i + 1] == specs[i]
  {
    if i == 1 {
      DefaultsSettle(f, specs[0], orders[0], orders[1]);
    } else {
      RewrittenAtMostOnce(f, specs, orders, i - 1);
      SettledStays(f, specs, orders, i);
    }
  }

  lemma SettledStays(f: Framework, specs: seq<JobSpec>, orders: seq<seq<Role>>, i: nat)
    requires Passes(f, specs, orders) && 1 < i < |orders| && specs[i] == specs[i - 1]
    ensures specs[i + 1] == specs[i]
  {
    SettledIgnoresOrder(f, specs[i - 1], orders[i - 1], orders[i]);
  }

  lemma SettledIgnoresOrder(f: Framework, s: JobSpec, order: seq<Role>, order': seq<Role>)
    requires Full(f, s, order) == s
    ensures Full(f, s, order') == s
  {
    FullRoles(f, s, order);
  }
}
