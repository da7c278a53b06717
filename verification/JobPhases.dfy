/** The job's phase, deduced from the phases of its roles. */
module JobPhases {
  import opened Decimal
  import opened Api

  datatype JobPhase = NoPhase | JobPending | JobStarting | JobRunning | JobFailed | JobSucceeded

  /** An OR of ANDs over roles. */
  type Alternatives = seq<seq<Role>>

  datatype JobPhasePolicy = JobPhasePolicy(failed: Alternatives, succeeded: Alternatives)

  type PhaseMap = map<Role, RolePhase>

  predicate IsFinished(phase: JobPhase) {
    phase == JobFailed || phase == JobSucceeded
  }

  /** The inner loop of the policy search.  `None` is the nil dereference of a
      role without a status; the loop stops at the first role not in the phase. */
  function AllAt(names: seq<Role>, phases: PhaseMap, phase: RolePhase): Option<bool> {
    if names == [] then Some(true)
    else if names[0] !in phases then None
    else if phases[names[0]] != phase then Some(false)
    else AllAt(names[1..], phases, phase)
  }

  /** The outer loop: the first satisfied condition ends it. */
  function Search(conds: Alternatives, phases: PhaseMap, phase: RolePhase): Option<bool> {
    if conds == [] then Some(false)
    else
      var first := AllAt(conds[0], phases, phase);
      if first == Some(false) then Search(conds[1..], phases, phase) else first
  }

  /** The phase after a search; `None` if a search dereferences nil. */
  function NextJobPhase(last: JobPhase, policy: JobPhasePolicy, phases: PhaseMap): Option<JobPhase> {
    var failed := Search(policy.failed, phases, RolePhase.Failed);
    if failed.None? then None
    else if failed.value then Some(JobFailed)
    else
      var succeeded := Search(policy.succeeded, phases, RolePhase.Succeeded);
      if succeeded.None? then None
      else if succeeded.value then Some(JobSucceeded)
      else if forall r <- phases :: phases[r] == Running then Some(JobRunning)
      else if last == JobPending then Some(JobStarting)
      else Some(last)
  }

  method SatisfyPolicy(conds: Alternatives, phases: PhaseMap, phase: RolePhase) returns (result: Option<bool>)
    ensures result == Search(conds, phases, phase)
  {
    for i := 0 to |conds|
      invariant Search(conds, phases, phase) == Search(conds[i..], phases, phase)
    {
      var roleNames := conds[i];
      var satisfied := true;
      for j := 0 to |roleNames|
        invariant satisfied && AllAt(roleNames, phases, phase) == AllAt(roleNames[j..], phases, phase)
      {
        if roleNames[j] !in phases {
          return None;
        }
        if phases[roleNames[j]] != phase {
          satisfied := false;
          break;
        }
      }
      if satisfied {
        return Some(true);
      }
    }
    result := Some(false);
  }

  method RoleNames(phases: PhaseMap) returns (names: seq<Role>)
    ensures forall r :: r in names <==> r in phases
  {
    names := [];
    var todo := phases.Keys;
    while todo != {}
      invariant todo <= phases.Keys
      invariant forall r :: r in names <==> r in phases && r !in todo
      decreases todo
    {
      var r :| r in todo;
      names, todo := names + [r], todo - {r};
    }
  }

  lemma {:induction false} AllAtMeans(names: seq<Role>, phases: PhaseMap, phase: RolePhase)
    requires forall r <- names :: r in phases
    ensures AllAt(names, phases, phase) == Some(forall r <- names :: phases[r] == phase)
  {
    if names != [] {
      AllAtMeans(names[1..], phases, phase);
      assert names == [names[0]] + names[1..];
    }
  }

  method GetJobPhase(last: JobPhase, policy: JobPhasePolicy, phases: PhaseMap) returns (phase: Option<JobPhase>)
    ensures phase == NextJobPhase(last, policy, phases)
  {
    var failed := SatisfyPolicy(policy.failed, phases, RolePhase.Failed);
    if failed.None? {
      return None;
    }
    if failed.value {
      return Some(JobFailed);
    }
    var succeeded := SatisfyPolicy(policy.succeeded, phases, RolePhase.Succeeded);
    if succeeded.None? {
      return None;
    }
    if succeeded.value {
      return Some(JobSucceeded);
    }
    var roleNames := RoleNames(phases);
    AllAtMeans(roleNames, phases, Running);
    assert AllAt([], phases, Running) == Some(true);
    var running := SatisfyPolicy([roleNames], phases, Running);
    assert running == AllAt(roleNames, phases, Running);
    if running == Some(true) {
      return Some(JobRunning);
    }
    if last == JobPending {
      return Some(JobStarting);
    }
    phase := Some(last);
  }

  // ----- Meaning -----

  predicate HaveStatus(names: seq<Role>, phases: PhaseMap) {
    forall r <- names :: r in phases
  }

  /** Every role the conditions name has a status. */
  predicate HaveStatuses(conds: Alternatives, phases: PhaseMap) {
    forall c <- conds :: HaveStatus(c, phases)
  }

  predicate Holds(names: seq<Role>, phases: PhaseMap, phase: RolePhase) {
    forall r <- names :: r in phases && phases[r] == phase
  }

  predicate SomeHolds(conds: Alternatives, phases: PhaseMap, phase: RolePhase) {
    exists c <- conds :: Holds(c, phases, phase)
  }

  lemma {:induction false} SearchMeans(conds: Alternatives, phases: PhaseMap, phase: RolePhase)
    requires HaveStatuses(conds, phases)
    ensures Search(conds, phases, phase) == Some(SomeHolds(conds, phases, phase))
  {
    if conds != [] {
      assert conds[0] in conds && forall c <- conds[1..] :: c in conds;
      AllAtMeans(conds[0], phases, phase);
      SearchMeans(conds[1..], phases, phase);
      assert conds == [conds[0]] + conds[1..];
    }
  }

  /** A search panics exactly when it gets to a condition that meets a role
      without a status before a role in another phase, all conditions before it
      having failed. */
  lemma {:induction false} SearchPanicsExactly(conds: Alternatives, phases: PhaseMap, phase: RolePhase)
    ensures Search(conds, phases, phase).None? <==>
              exists i | 0 <= i < |conds| ::
                MeetsNil(conds[i], phases, phase)
                  && forall h | 0 <= h < i :: AllAt(conds[h], phases, phase) == Some(false)
  {
    if conds != [] {
      SearchPanicsExactly(conds[1..], phases, phase);
      MeetsNilMeansNone(conds[0], phases, phase);
      if Search(conds, phases, phase).None? && AllAt(conds[0], phases, phase) == Some(false) {
        var i :| 0 <= i < |conds[1..]| && MeetsNil(conds[1..][i], phases, phase)
                 && forall h | 0 <= h < i :: AllAt(conds[1..][h], phases, phase) == Some(false);
        assert MeetsNil(conds[i + 1], phases, phase);
        assert forall h | 0 < h < i + 1 :: conds[h] == conds[1..][h - 1];
      }
      if i :| 0 <= i < |conds| && MeetsNil(conds[i], phases, phase)
              && forall h | 0 <= h < i :: AllAt(conds[h], phases, phase) == Some(false)
      {
        if i > 0 {
          assert MeetsNil(conds[1..][i - 1], phases, phase);
          assert forall h | 0 <= h < i - 1 :: conds[1..][h] == conds[h + 1];
        }
      }
    }
  }

  /** Some role of the condition has no status and all before it are in the
      phase. */
  predicate MeetsNil(names: seq<Role>, phases: PhaseMap, phase: RolePhase) {
    exists j | 0 <= j < |names| :: names[j] !in phases && AllBefore(names, j, phases, phase)
  }

  predicate AllBefore(names: seq<Role>, j: nat, phases: PhaseMap, phase: RolePhase)
    requires j <= |names|
  {
    forall i | 0 <= i < j :: names[i] in phases && phases[names[i]] == phase
  }

  lemma {:induction false} MeetsNilMeansNone(names: seq<Role>, phases: PhaseMap, phase: RolePhase)
    ensures MeetsNil(names, phases, phase) <==> AllAt(names, phases, phase).None?
  {
    if names != [] {
      MeetsNilMeansNone(names[1..], phases, phase);
      if names[0] !in phases {
        assert AllBefore(names, 0, phases, phase);
      } else {
        MeetsNilTail(names, phases, phase);
      }
    }
  }

  lemma MeetsNilTail(names: seq<Role>, phases: PhaseMap, phase: RolePhase)
    requires names != [] && names[0] in phases
    ensures MeetsNil(names, phases, phase) <==> phases[names[0]] == phase && MeetsNil(names[1..], phases, phase)
  {
    var rest := names[1..];
    if MeetsNil(rest, phases, phase) && phases[names[0]] == phase {
      var j :| 0 <= j < |rest| && rest[j] !in phases && AllBefore(rest, j, phases, phase);
      assert forall i | 0 < i < j + 1 :: names[i] == rest[i - 1];
      assert names[j + 1] !in phases && AllBefore(names, j + 1, phases, phase);
    }
    if j :| 0 <= j < |names| && names[j] !in phases && AllBefore(names, j, phases, phase) {
      assert rest[j - 1] !in phases && AllBefore(rest, j - 1, phases, phase);
    }
  }

  /** The policy as its users read it: an OR of ANDs, failure before success
      before all roles running, and otherwise no news but the start. */
  function Reading(last: JobPhase, policy: JobPhasePolicy, phases: PhaseMap): JobPhase {
    if SomeHolds(policy.failed, phases, RolePhase.Failed) then JobFailed
    else if SomeHolds(policy.succeeded, phases, RolePhase.Succeeded) then JobSucceeded
    else if forall r <- phases :: phases[r] == Running then JobRunning
    else if last == JobPending then JobStarting
    else last
  }

  /** When every role the policy names has a status, the search is total and
      comes to the reading. */
  lemma PhaseIsReading(last: JobPhase, policy: JobPhasePolicy, phases: PhaseMap)
    requires HaveStatuses(policy.failed, phases) && HaveStatuses(policy.succeeded, phases)
    ensures NextJobPhase(last, policy, phases) == Some(Reading(last, policy, phases))
  {
    SearchMeans(policy.failed, phases, RolePhase.Failed);
    SearchMeans(policy.succeeded, phases, RolePhase.Succeeded);
  }

  /** Every condition of `a` is one of `b`, in whatever order either lists the
      conditions or their roles. */
  ghost predicate Includes(a: Alternatives, b: Alternatives) {
    forall c <- a :: exists d <- b :: SameRoles(c, d)
  }

  ghost predicate SameRoles(c: seq<Role>, d: seq<Role>) {
    forall r :: r in c <==> r in d
  }

  ghost predicate SameConditions(a: Alternatives, b: Alternatives) {
    Includes(a, b) && Includes(b, a)
  }

  lemma SameRolesAgree(c: seq<Role>, d: seq<Role>, phases: PhaseMap, phase: RolePhase)
    requires SameRoles(c, d)
    ensures HaveStatus(c, phases) <==> HaveStatus(d, phases)
    ensures Holds(c, phases, phase) <==> Holds(d, phases, phase)
  {
  }

  lemma IncludedHold(a: Alternatives, b: Alternatives, phases: PhaseMap, phase: RolePhase)
    requires Includes(a, b)
    ensures HaveStatuses(b, phases) ==> HaveStatuses(a, phases)
    ensures SomeHolds(a, phases, phase) ==> SomeHolds(b, phases, phase)
  {
    forall c | c in a
      ensures HaveStatuses(b, phases) ==> HaveStatus(c, phases)
      ensures Holds(c, phases, phase) ==> SomeHolds(b, phases, phase)
    {
      var d :| d in b && SameRoles(c, d);
      SameRolesAgree(c, d, phases, phase);
    }
  }

  lemma SameConditionsHold(a: Alternatives, b: Alternatives, phases: PhaseMap, phase: RolePhase)
    requires HaveStatuses(a, phases) && SameConditions(a, b)
    ensures HaveStatuses(b, phases) && (SomeHolds(a, phases, phase) <==> SomeHolds(b, phases, phase))
  {
    IncludedHold(a, b, phases, phase);
    IncludedHold(b, a, phases, phase);
  }

  /** The order in which a policy was listed, as a range over a map lists it,
      makes no difference. */
  lemma ListingOrderIsIrrelevant(last: JobPhase, a: JobPhasePolicy, b: JobPhasePolicy, phases: PhaseMap)
    requires HaveStatuses(a.failed, phases) && HaveStatuses(a.succeeded, phases)
    requires SameConditions(a.failed, b.failed) && SameConditions(a.succeeded, b.succeeded)
    ensures NextJobPhase(last, a, phases) == NextJobPhase(last, b, phases)
  {
    SameConditionsHold(a.failed, b.failed, phases, RolePhase.Failed);
    SameConditionsHold(a.succeeded, b.succeeded, phases, RolePhase.Succeeded);
    PhaseIsReading(last, a, phases);
    PhaseIsReading(last, b, phases);
  }

  // ----- The job's status over time -----

  function JobRank(phase: JobPhase): nat {
    match phase
    case NoPhase => 0
    case JobPending => 0
    case JobStarting => 1
    case _ => 2
  }

  /** `UpdatePhases` first turns a missing phase into Pending, and a missing
      policy into an empty one. */
  function Given(phase: JobPhase): JobPhase {
    if phase == NoPhase then JobPending else phase
  }

  function PolicyOf(policy: Option<JobPhasePolicy>): JobPhasePolicy {
    if policy.Some? then policy.value else JobPhasePolicy([], [])
  }

  /** Without a policy no role finishes the job. */
  lemma NoPolicyNeverFinishes(last: JobPhase, phases: PhaseMap)
    ensures NextJobPhase(last, PolicyOf(None), phases) == Some(
              if forall r <- phases :: phases[r] == Running then JobRunning
              else if last == JobPending then JobStarting
              else last)
  {
  }

  class Job {
    var policy: Option<JobPhasePolicy>
    var rolePhases: PhaseMap
    var phase: JobPhase
    var completionTime: Option<int>
    var runningTime: Option<int>

    constructor (policy: Option<JobPhasePolicy>, rolePhases: PhaseMap, phase: JobPhase)
      ensures this.policy == policy && this.rolePhases == rolePhases && this.phase == phase
      ensures completionTime == None && runningTime == None
    {
      this.policy, this.rolePhases, this.phase := policy, rolePhases, phase;
      completionTime, runningTime := None, None;
    }

    /** A job that is finished, or running, has the time of it. */
    predicate TimesAreSet()
      reads this
    {
      && (phase == JobFailed || phase == JobSucceeded ==> completionTime.Some?)
      && (phase == JobRunning ==> runningTime.Some?)
    }

    /** The two times are set once. */
    method SetJobPhase(next: JobPhase, now: int)
      modifies this
      ensures phase == next && policy == old(policy) && rolePhases == old(rolePhases)
      ensures completionTime == if IsFinished(next) && old(completionTime).None? then Some(now) else old(completionTime)
      ensures runningTime == if next == JobRunning && old(runningTime).None? then Some(now) else old(runningTime)
    {
      if IsFinished(next) && completionTime.None? {
        completionTime := Some(now);
      }
      if next == JobRunning && runningTime.None? {
        runningTime := Some(now);
      }
      phase := next;
    }

    method UpdatePhases(now: int) returns (panicked: bool)
      modifies this
      ensures policy == Some(PolicyOf(old(policy))) && rolePhases == old(rolePhases)
      ensures old(policy).Some? ==> policy == old(policy)
      ensures old(policy).None? ==>
                !panicked && phase == (if forall r <- rolePhases :: rolePhases[r] == Running then JobRunning
                                       else if old(phase) == NoPhase || old(phase) == JobPending then JobStarting
                                       else old(phase))
      ensures var next := NextJobPhase(Given(old(phase)), PolicyOf(old(policy)), rolePhases);
              && panicked == next.None?
              && phase == (if next.Some? then next.value else Given(old(phase)))
      ensures completionTime ==
              if !panicked && phase != old(phase) && phase in {JobFailed, JobSucceeded} && old(completionTime).None?
              then Some(now) else old(completionTime)
      ensures runningTime ==
              if !panicked && phase != old(phase) && phase == JobRunning && old(runningTime).None?
              then Some(now) else old(runningTime)
      ensures old(TimesAreSet()) ==> TimesAreSet()
    {
      if phase == NoPhase {
        phase := JobPending;
      }
      if policy.None? {
        policy := Some(JobPhasePolicy([], []));
        NoPolicyNeverFinishes(phase, rolePhases);
      }
      var next := GetJobPhase(phase, policy.value, rolePhases);
      if next.None? {
        return true;
      }
      if next.value != phase {
        SetJobPhase(next.value, now);
      }
      panicked := false;
    }
  }

  /** The job phase after `UpdatePhases` has run on one role status map after
      another; `None` after a panic. */
  function Updated(first: JobPhase, policy: JobPhasePolicy, history: seq<PhaseMap>): Option<JobPhase> {
    if history == [] then Some(first)
    else
      var before := Updated(first, policy, history[..|history| - 1]);
      if before.None? then None else NextJobPhase(Given(before.value), policy, history[|history| - 1])
  }

  /** Over any history the job phase only moves from Pending to Starting to the
      rest; after the first update it is never Pending again. */
  lemma {:induction false} JobPhaseNeverFallsBack(first: JobPhase, policy: JobPhasePolicy, history: seq<PhaseMap>,
                                                  j: nat)
    requires j <= |history| && Updated(first, policy, history).Some?
    ensures Updated(first, policy, history[..j]).Some?
    ensures JobRank(Updated(first, policy, history[..j]).value) <= JobRank(Updated(first, policy, history).value)
    ensures history != [] ==> Updated(first, policy, history).value !in {NoPhase, JobPending}
  {
    if j == |history| {
      assert history[..j] == history;
    } else {
      var front := history[..|history| - 1];
      JobPhaseNeverFallsBack(first, policy, front, j);
      assert front[..j] == history[..j];
    }
  }
}
