/** Roles that restart their pods, over whole runs: they never fail. */
module RestartingRun {
  import opened Api
  import opened PodPass
  import opened Cluster

  /** Every failed pod is restarted, and node failures are not counted; the
      failure and success policies may be anything. */
  predicate IsRestartingSpec(spec: RoleSpec) {
    (spec.restart == Always || spec.restart == OnFailure) && !spec.policy.nodeDownAsFailed && spec.replicas > 0
  }

  /** Whenever a pass has the role, it has it with such a spec; which one may
      change from pass to pass. */
  predicate Restarts(e: Event, role: Role) {
    e.BeginPass? && role in e.specs ==> IsRestartingSpec(e.specs[role])
  }

  /** The loop is at bucket k of the very loop `PodPass` defines. */
  predicate RestartingLoop(l: RoleLoop, snapshot: seq<Pod>) {
    && IsRestartingSpec(l.inp.spec) && l.inp.phase != Failed
    && l.slices == RoleSlices(l.inp.spec, l.role, snapshot) && l.k <= |l.slices|
    && l.acc == After(l.inp, l.slices, l.k, Start([], RoleUncontrolled(l.inp.spec, l.role, snapshot)))
  }

  predicate NotFailed(s: State, role: Role) {
    && PhaseOf(s.phases, role) != Failed
    && (s.ctl.InPass? ==>
          && PhaseOf(s.ctl.local, role) != Failed
          && (role in s.ctl.specs ==> IsRestartingSpec(s.ctl.specs[role]))
          && (s.ctl.loop.Some? && s.ctl.loop.value.role == role ==> RestartingLoop(s.ctl.loop.value, s.ctl.snapshot)))
  }

  lemma BucketKeepsLoop(l: RoleLoop, snapshot: seq<Pod>)
    requires RestartingLoop(l, snapshot) && l.k < |l.slices| && !l.acc.failed
    ensures RestartingLoop(l.(k := l.k + 1, acc := Process(l.inp, l.acc, l.k, l.slices[l.k])), snapshot)
  {
    LoopMovesOn(l, Start([], RoleUncontrolled(l.inp.spec, l.role, snapshot)));
  }

  lemma EndRoleKeepsNotFailed(s: State, role: Role, e: Event, s': State)
    requires NotFailed(s, role) && e.EndRole? && Step(s, e, s') && s.ctl.loop.value.role == role
    ensures NotFailed(s', role)
  {
    var l := s.ctl.loop.value;
    assert l.acc == Pass(l.inp, role, s.ctl.snapshot, []);
    RestartingRoleNeverFails(l.inp, role, s.ctl.snapshot, [], e.down);
  }

  lemma StepKeepsNotFailed(s: State, role: Role, e: Event, s': State)
    requires NotFailed(s, role) && Step(s, e, s') && Restarts(e, role)
    ensures NotFailed(s', role)
  {
    if e.EndRole? && s.ctl.loop.value.role == role {
      EndRoleKeepsNotFailed(s, role, e, s');
    } else if e.NextBucket? && s.ctl.loop.value.role == role {
      BucketKeepsLoop(s.ctl.loop.value, s.ctl.snapshot);
    }
  }

  /** In no run does such a role enter Failed, neither in the stored status nor
      in that of the pass in progress. */
  lemma {:induction false} RestartingRoleNeverFailsInRun(states: seq<State>, events: seq<Event>, role: Role, k: nat)
    requires IsRun(states, events) && k < |states|
    requires states[0].ctl.Idle? && PhaseOf(states[0].phases, role) != Failed
    requires forall e <- events :: Restarts(e, role)
    ensures NotFailed(states[k], role)
  {
    if k > 0 {
      RestartingRoleNeverFailsInRun(states, events, role, k - 1);
      assert events[k - 1] in events;
      StepKeepsNotFailed(states[k - 1], role, events[k - 1], states[k]);
    }
  }
}
