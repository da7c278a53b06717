/** What the default job policies come to. */
module JobPolicies {
  import opened Decimal
  import opened Api
  import opened JobPhases
  import opened JobSpecs
  import opened Defaults
  import Cluster
  import RestartingRun

  lemma EachMeans(names: seq<Role>, phases: PhaseMap, phase: RolePhase)
    requires forall r <- names :: r in phases
    ensures HaveStatuses(Each(names), phases)
    ensures SomeHolds(Each(names), phases, phase) <==> exists r <- names :: phases[r] == phase
  {
    var conds := Each(names);
    forall c | c in conds ensures HaveStatus(c, phases) {
      var i :| 0 <= i < |names| && c == [names[i]];
    }
    if SomeHolds(conds, phases, phase) {
      var c :| c in conds && Holds(c, phases, phase);
      var i :| 0 <= i < |names| && c == [names[i]];
      assert names[i] in c;
    }
    if r :| r in names && phases[r] == phase {
      var i :| 0 <= i < |names| && names[i] == r;
      assert conds[i] in conds && Holds(conds[i], phases, phase);
    }
  }

  lemma OneMeans(names: seq<Role>, phases: PhaseMap, phase: RolePhase)
    requires forall r <- names :: r in phases
    ensures HaveStatuses([names], phases)
    ensures SomeHolds([names], phases, phase) <==> forall r <- names :: phases[r] == phase
  {
    assert [names][0] == names;
    assert Holds(names, phases, phase) ==> SomeHolds([names], phases, phase);
  }

  /** A job with no policy of its own under the custom framework: it fails with
      any role, succeeds with all of them, and runs when every role runs; in
      whatever order the policy was made from the roles. */
  lemma CustomJobPhase(last: JobPhase, ctx: Context, order: seq<Role>, phases: PhaseMap)
    requires Enumerates(order, ctx.roles) && ctx.roles <= phases.Keys
    ensures NextJobPhase(last, PolicyDefault(Custom, ctx, order), phases) == Some(
              if exists r <- ctx.roles :: phases[r] == RolePhase.Failed then JobFailed
              else if forall r <- ctx.roles :: phases[r] == RolePhase.Succeeded then JobSucceeded
              else if forall r <- phases :: phases[r] == Running then JobRunning
              else if last == JobPending then JobStarting
              else last)
  {
    EachMeans(order, phases, RolePhase.Failed);
    OneMeans(order, phases, RolePhase.Succeeded);
    PhaseIsReading(last, PolicyDefault(Custom, ctx, order), phases);
  }

  predicate IsSpecific(role: Role) {
    role in {CHIEF, EVALUATOR, MASTER, PS, WORKER}
  }

  /** The roles whose failure fails a TensorFlow job: with a chief, a worker's
      does not. */
  predicate FailsTensorflow(roles: set<Role>, role: Role) {
    role in roles && IsSpecific(role) && !(CHIEF in roles && role == WORKER)
  }

  predicate IsLeading(role: Role) {
    role in {MASTER, CHIEF, WORKER}
  }

  lemma TensorflowConditions(roles: set<Role>, phases: PhaseMap)
    requires roles <= phases.Keys
    ensures var policy := TensorflowPolicy(roles);
            && HaveStatuses(policy.failed, phases) && HaveStatuses(policy.succeeded, phases)
            && (SomeHolds(policy.failed, phases, RolePhase.Failed)
                <==> exists r <- roles :: FailsTensorflow(roles, r) && phases[r] == RolePhase.Failed)
            && (SomeHolds(policy.succeeded, phases, RolePhase.Succeeded)
                <==> (exists r <- roles :: IsLeading(r))
                     && forall r <- roles :: IsLeading(r) ==> phases[r] == RolePhase.Succeeded)
  {
    var acquired, failing := Existing([MASTER, CHIEF, WORKER], roles), Existing(SPECIFIC_ROLES, roles);
    var names := if CHIEF in roles then Without(failing, WORKER) else failing;
    EachMeans(names, phases, RolePhase.Failed);
    OneMeans(acquired, phases, RolePhase.Succeeded);
    assert forall r :: r in names <==> FailsTensorflow(roles, r);
    assert forall r :: r in acquired <==> r in roles && IsLeading(r);
    if acquired != [] {
      assert acquired[0] in acquired;
    }
  }

  /** A TensorFlow job with no policy of its own: without a chief any specific
      role fails it, with one any but the workers does; it succeeds with all of
      its masters, chiefs and workers, and has at least one of them. */
  lemma TensorflowJobPhase(last: JobPhase, ctx: Context, phases: PhaseMap)
    requires ctx.roles <= phases.Keys
    ensures NextJobPhase(last, PolicyDefault(Tensorflow, ctx, []), phases) == Some(
              if exists r <- ctx.roles :: FailsTensorflow(ctx.roles, r) && phases[r] == RolePhase.Failed then JobFailed
              else if (exists r <- ctx.roles :: IsLeading(r))
                      && forall r <- ctx.roles :: IsLeading(r) ==> phases[r] == RolePhase.Succeeded then JobSucceeded
              else if forall r <- phases :: phases[r] == Running then JobRunning
              else if last == JobPending then JobStarting
              else last)
  {
    TensorflowConditions(ctx.roles, phases);
    PhaseIsReading(last, PolicyDefault(Tensorflow, ctx, []), phases);
  }

  /** The job phase a policy gives that lists single roles as failing and one
      group as succeeding. */
  lemma SinglesAndGroup(last: JobPhase, failing: seq<Role>, leading: seq<Role>, phases: PhaseMap)
    requires (forall r <- failing :: r in phases) && forall r <- leading :: r in phases
    ensures NextJobPhase(last, JobPhasePolicy(Each(failing), [leading]), phases) == Some(
              if exists r <- failing :: phases[r] == RolePhase.Failed then JobFailed
              else if forall r <- leading :: phases[r] == RolePhase.Succeeded then JobSucceeded
              else if forall r <- phases :: phases[r] == Running then JobRunning
              else if last == JobPending then JobStarting
              else last)
  {
    EachMeans(failing, phases, RolePhase.Failed);
    OneMeans(leading, phases, RolePhase.Succeeded);
    PhaseIsReading(last, JobPhasePolicy(Each(failing), [leading]), phases);
  }

  /** What becomes of the job if any of the first roles fails it and all of the
      second make it succeed. */
  function PhaseBy(last: JobPhase, failing: set<Role>, leading: set<Role>, phases: PhaseMap): JobPhase
    requires failing + leading <= phases.Keys
  {
    if exists r <- failing :: phases[r] == RolePhase.Failed then JobFailed
    else if forall r <- leading :: phases[r] == RolePhase.Succeeded then JobSucceeded
    else if forall r <- phases :: phases[r] == Running then JobRunning
    else if last == JobPending then JobStarting
    else last
  }

  /** A PyTorch job fails and succeeds with its master, and with its workers if
      it has any. */
  lemma PytorchJobPhase(last: JobPhase, ctx: Context, phases: PhaseMap)
    requires MASTER in ctx.roles && ctx.roles <= phases.Keys
    ensures var deciding := if WORKER in ctx.roles then {MASTER, WORKER} else {MASTER};
            NextJobPhase(last, PolicyDefault(Pytorch, ctx, []), phases)
            == Some(PhaseBy(last, deciding, deciding, phases))
  {
    var names := if WORKER in ctx.roles then [MASTER, WORKER] else [MASTER];
    assert PolicyDefault(Pytorch, ctx, []) == JobPhasePolicy(Each(names), [names]);
    SinglesAndGroup(last, names, names, phases);
    assert forall r :: r in names <==> r in if WORKER in ctx.roles then {MASTER, WORKER} else {MASTER};
  }

  /** A static Bagua job likewise; an elastic one succeeds with its workers, and
      fails with them or with etcd. */
  lemma BaguaJobPhase(last: JobPhase, ctx: Context, phases: PhaseMap)
    requires ctx.roles <= phases.Keys
    requires if ctx.elastic then WORKER in ctx.roles && ETCD in ctx.roles else MASTER in ctx.roles
    ensures var failing := if ctx.elastic then {WORKER, ETCD}
                           else if WORKER in ctx.roles then {MASTER, WORKER} else {MASTER};
            NextJobPhase(last, PolicyDefault(Bagua, ctx, []), phases)
            == Some(PhaseBy(last, failing, if ctx.elastic then {WORKER} else failing, phases))
  {
    if ctx.elastic {
      SinglesAndGroup(last, [WORKER, ETCD], [WORKER], phases);
      assert PolicyDefault(Bagua, ctx, []) == JobPhasePolicy(Each([WORKER, ETCD]), [[WORKER]]);
      assert forall r :: r in [WORKER, ETCD] <==> r in {WORKER, ETCD};
    } else {
      var names := if WORKER in ctx.roles then [WORKER, MASTER] else [MASTER];
      SinglesAndGroup(last, names, names, phases);
      assert PolicyDefault(Bagua, ctx, []) == JobPhasePolicy(Each(names), [names]);
      assert forall r :: r in names <==> r in if WORKER in ctx.roles then {MASTER, WORKER} else {MASTER};
    }
  }

  /** A Dask job succeeds with its launcher, and fails with the launcher, the
      scheduler, the lead worker or the workers. */
  lemma DaskJobPhase(last: JobPhase, ctx: Context, phases: PhaseMap)
    requires LAUNCHER in ctx.roles && SCHEDULER in ctx.roles && ctx.roles <= phases.Keys
    ensures NextJobPhase(last, PolicyDefault(Dask, ctx, []), phases)
         == Some(PhaseBy(last, {LAUNCHER, SCHEDULER, LEAD_WORKER, WORKER} * ctx.roles, {LAUNCHER}, phases))
  {
    var others := Existing([LEAD_WORKER, WORKER], ctx.roles);
    var names := [LAUNCHER, SCHEDULER] + others;
    SinglesAndGroup(last, names, [LAUNCHER], phases);
    assert Each(names) == [[LAUNCHER], [SCHEDULER]] + Each(others);
    assert forall r :: r in names <==> r in {LAUNCHER, SCHEDULER, LEAD_WORKER, WORKER} * ctx.roles;
  }

  // ----- A job of restarting roles -----

  /** The role phases `UpdatePhases` reads: those of the pass in progress. */
  function PhasesSeen(s: Cluster.State): PhaseMap {
    if s.ctl.InPass? then s.ctl.local else s.phases
  }

  /** The phases at the given moments of a run. */
  function History(states: seq<Cluster.State>, moments: seq<nat>): seq<PhaseMap>
    requires forall m <- moments :: m < |states|
  {
    seq(|moments|, i requires 0 <= i < |moments| =>
      assert moments[i] in moments;
      PhasesSeen(states[moments[i]]))
  }

  lemma {:induction false} NoFailedRoleNoFailedJob(first: JobPhase, ctx: Context, order: seq<Role>,
                                                   history: seq<PhaseMap>)
    requires Enumerates(order, ctx.roles) && first != JobFailed
    requires forall phases <- history ::
               ctx.roles <= phases.Keys && forall r <- ctx.roles :: phases[r] != RolePhase.Failed
    ensures var phase := Updated(first, PolicyDefault(Custom, ctx, order), history);
            phase.Some? && phase.value != JobFailed
  {
    if history != [] {
      var front, last := history[..|history| - 1], history[|history| - 1];
      assert last in history;
      NoFailedRoleNoFailedJob(first, ctx, order, front);
      CustomJobPhase(Given(Updated(first, PolicyDefault(Custom, ctx, order), front).value), ctx, order, last);
    }
  }

  /** In every run, a custom job whose roles all restart their pods, under the
      default job policy, is never made Failed by its role phases, whenever
      `UpdatePhases` runs. */
  lemma JobOfRestartingRolesNeverFails(states: seq<Cluster.State>, events: seq<Cluster.Event>, moments: seq<nat>,
                                       first: JobPhase, ctx: Context, order: seq<Role>)
    requires Cluster.IsRun(states, events) && states[0].ctl.Idle?
    requires forall r <- ctx.roles :: Cluster.PhaseOf(states[0].phases, r) != RolePhase.Failed
    requires forall e <- events :: forall r <- ctx.roles :: RestartingRun.Restarts(e, r)
    requires forall m <- moments :: m < |states| && ctx.roles <= PhasesSeen(states[m]).Keys
    requires Enumerates(order, ctx.roles) && first != JobFailed
    ensures var phase := Updated(first, PolicyDefault(Custom, ctx, order), History(states, moments));
            phase.Some? && phase.value != JobFailed
  {
    var history := History(states, moments);
    forall phases | phases in history
      ensures ctx.roles <= phases.Keys && forall r <- ctx.roles :: phases[r] != RolePhase.Failed
    {
      var i :| 0 <= i < |history| && history[i] == phases;
      assert moments[i] in moments;
      forall r | r in ctx.roles ensures phases[r] != RolePhase.Failed {
        RestartingRun.RestartingRoleNeverFailsInRun(states, events, r, moments[i]);
      }
    }
    NoFailedRoleNoFailedJob(first, ctx, order, history);
  }
}
