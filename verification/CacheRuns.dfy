/** How far the cached entries keep up with the role phases, pass after pass. */
module CacheRuns {
  import opened Decimal
  import opened Api
  import opened RoleCaches

  type Statuses = map<Role, RolePhase>

  function PhaseIn(statuses: Statuses, role: Role): RolePhase {
    if role in statuses then statuses[role] else Pending
  }

  /** `HandleRolePhases` refreshes a role whose phase has changed, and a running
      one every time. */
  predicate NeedsRefresh(before: Statuses, after: Statuses, role: Role) {
    role in after && (PhaseIn(before, role) != after[role] || after[role] == Running)
  }

  predicate Matches(e: RoleCache, phase: RolePhase) {
    e.phase == phase && e.running == (phase == Running)
  }

  predicate Same(c: JobCache, c': JobCache, role: Role) {
    (role in c <==> role in c') && (role in c ==> c'[role] == c[role])
  }

  /** The role has an entry that says what its status says. */
  predicate Agrees(c: JobCache, statuses: Statuses, role: Role) {
    role in statuses && role in c && Matches(c[role], statuses[role])
  }

  ghost predicate RefreshedRole(before: Statuses, after: Statuses, c: JobCache, c': JobCache, role: Role) {
    if NeedsRefresh(before, after, role) then Agrees(c', after, role) else Same(c, c', role)
  }

  /** What a call that returns nil does to the job's cache. */
  ghost predicate Refreshed(before: Statuses, after: Statuses, c: JobCache, c': JobCache) {
    forall role :: RefreshedRole(before, after, c, c', role)
  }

  ghost predicate PartlyRefreshedRole(before: Statuses, after: Statuses, c: JobCache, c': JobCache, role: Role) {
    Same(c, c', role) || (NeedsRefresh(before, after, role) && Agrees(c', after, role))
  }

  /** What a call that returns an error may have done. */
  ghost predicate PartlyRefreshed(before: Statuses, after: Statuses, c: JobCache, c': JobCache) {
    forall role :: PartlyRefreshedRole(before, after, c, c', role)
  }

  /** How a refresh ends: with nil, an error, or a nil dereference. */
  datatype Ending = Done | Erred | Panicked

  /** What a job's pass refreshes with: which roles of the spec are on the host
      network, and the pods listed for each role, `None` if that fails. */
  datatype Source = Source(hostNetwork: map<Role, bool>, listed: Role -> Option<seq<Pod>>)

  /** How the refresh of one role ends.  A role that is no longer in the spec is
      dereferenced once its pods are listed. */
  function EndingOf(src: Source, closed: bool, role: Role): Ending {
    if src.listed(role).None? then Erred
    else if role !in src.hostNetwork then Panicked
    else if closed then Erred
    else Done
  }

  /** `OnRolePhaseChanged`. */
  method OnRolePhaseChanged(cache: MemoryCache, key: string, role: Role, src: Source, phase: RolePhase)
    returns (ending: Ending)
    modifies cache
    ensures forall k | k != key :: cache.At(k) == old(cache.At(k))
    ensures cache.cache.None? == old(cache.cache).None?
    ensures ending == EndingOf(src, old(cache.cache).None?, role)
    ensures ending == Panicked <==> src.listed(role).Some? && role !in src.hostNetwork
    ensures ending == Done <==> src.listed(role).Some? && role in src.hostNetwork && old(cache.cache).Some?
    ensures ending != Done ==> cache.At(key) == old(cache.At(key))
    ensures ending == Done ==>
              && role in cache.At(key)
              && IsEntry(cache.At(key)[role], role, src.hostNetwork[role], phase, src.listed(role).value)
              && Matches(cache.At(key)[role], phase)
              && cache.At(key) == old(cache.At(key))[role := cache.At(key)[role]]
  {
    var pods := src.listed(role);
    if pods.None? {
      return Erred;
    }
    if role !in src.hostNetwork {
      return Panicked;
    }
    var data := BuildRoleCache(role, src.hostNetwork[role], phase, pods.value);
    var failed := cache.SetRoleCache(key, role, data);
    ending := if failed then Erred else Done;
  }

  /** The loop has dealt with the roles of `done` and touched no other. */
  ghost predicate Progress(before: Statuses, after: Statuses, c: JobCache, c': JobCache, done: set<Role>) {
    forall role :: if role in done then RefreshedRole(before, after, c, c', role) else Same(c, c', role)
  }

  lemma ProgressOne(before: Statuses, after: Statuses, c: JobCache, c': JobCache, done: set<Role>, c'': JobCache,
                    role: Role)
    requires Progress(before, after, c, c', done) && role !in done
    requires forall r | r != role :: Same(c', c'', r)
    requires RefreshedRole(before, after, c', c'', role)
    ensures Progress(before, after, c, c'', done + {role})
  {
    forall r ensures if r in done + {role} then RefreshedRole(before, after, c, c'', r) else Same(c, c'', r) {
      assert r != role ==> Same(c', c'', r);
    }
  }

  lemma ProgressEnds(before: Statuses, after: Statuses, c: JobCache, c': JobCache, done: set<Role>)
    requires Progress(before, after, c, c', done) && done <= after.Keys
    ensures PartlyRefreshed(before, after, c, c')
    ensures done == after.Keys ==> Refreshed(before, after, c, c')
  {
  }

  /** One round of the loop. */
  method HandleRolePhase(cache: MemoryCache, key: string, role: Role, before: Statuses, after: Statuses, src: Source)
    returns (ending: Ending)
    requires role in after
    modifies cache
    ensures forall k | k != key :: cache.At(k) == old(cache.At(k))
    ensures cache.cache.None? == old(cache.cache).None?
    ensures ending == if NeedsRefresh(before, after, role) then EndingOf(src, old(cache.cache).None?, role) else Done
    ensures ending != Done ==> cache.At(key) == old(cache.At(key))
    ensures ending == Done ==> RefreshedRole(before, after, old(cache.At(key)), cache.At(key), role)
    ensures forall r | r != role :: Same(old(cache.At(key)), cache.At(key), r)
  {
    var phase := after[role];
    var oldPhase := Pending;
    if role in before {
      oldPhase := before[role];
    }
    if oldPhase == phase && phase != Running {
      return Done;
    }
    ending := OnRolePhaseChanged(cache, key, role, src, phase);
  }

  /** How the refresh of the role ends, if it needs one. */
  predicate EndsWell(before: Statuses, after: Statuses, src: Source, closed: bool, role: Role) {
    NeedsRefresh(before, after, role) ==> EndingOf(src, closed, role) == Done
  }

  /** The loop over the role statuses, in any order, up to the first error or
      panic; it returns the role it stopped at. */
  method HandleRolePhases(cache: MemoryCache, key: string, hasDependence: bool, before: Statuses, after: Statuses,
                          src: Source)
    returns (ending: Ending, stopped: Option<Role>)
    modifies cache
    ensures forall k | k != key :: cache.At(k) == old(cache.At(k))
    ensures !hasDependence ==> ending == Done && cache.At(key) == old(cache.At(key))
    ensures hasDependence ==>
              (ending == Done <==> forall role <- after :: EndsWell(before, after, src, old(cache.cache).None?, role))
    ensures ending != Done ==>
              && stopped.Some? && NeedsRefresh(before, after, stopped.value)
              && ending == EndingOf(src, old(cache.cache).None?, stopped.value)
              && PartlyRefreshed(before, after, old(cache.At(key)), cache.At(key))
    ensures hasDependence && ending == Done ==> Refreshed(before, after, old(cache.At(key)), cache.At(key))
  {
    ending, stopped := Done, None;
    if !hasDependence {
      return;
    }
    ghost var was, done := cache.At(key), {};
    var todo := after.Keys;
    while todo != {}
      invariant done !! todo && done + todo == after.Keys
      invariant forall k | k != key :: cache.At(k) == old(cache.At(k))
      invariant cache.cache.None? == old(cache.cache).None?
      invariant forall role <- done :: EndsWell(before, after, src, old(cache.cache).None?, role)
      invariant Progress(before, after, was, cache.At(key), done)
      decreases todo
    {
      var roleName :| roleName in todo;
      ghost var sofar := cache.At(key);
      ending := HandleRolePhase(cache, key, roleName, before, after, src);
      if ending != Done {
        ProgressEnds(before, after, was, sofar, done);
        stopped := Some(roleName);
        return;
      }
      ProgressOne(before, after, was, sofar, done, cache.At(key), roleName);
      todo, done := todo - {roleName}, done + {roleName};
    }
    ending := Done;
    ProgressEnds(before, after, was, cache.At(key), done);
  }

  // ----- Runs -----

  /** The statuses before and after each pass, the job's cache likewise, and
      whether the pass's refresh returned nil.  The status a pass starts from is
      the one the pass before it wrote, even if that pass then failed to
      refresh. */
  ghost predicate IsCacheRun(statuses: seq<Statuses>, caches: seq<JobCache>, ok: seq<bool>) {
    && |statuses| == |ok| + 1 && |caches| == |ok| + 1
    && forall i | 0 <= i < |ok| ::
         if ok[i] then Refreshed(statuses[i], statuses[i + 1], caches[i], caches[i + 1])
         else PartlyRefreshed(statuses[i], statuses[i + 1], caches[i], caches[i + 1])
  }

  /** After any number of passes without an error, every role that has left
      Pending has an entry with its phase and the matching flag. */
  lemma {:induction false} ErrorFreeRunsAgree(statuses: seq<Statuses>, caches: seq<JobCache>, ok: seq<bool>, k: nat,
                                              role: Role)
    requires IsCacheRun(statuses, caches, ok) && k < |statuses|
    requires forall i | 0 <= i < k :: ok[i]
    requires PhaseIn(statuses[0], role) == Pending
    requires PhaseIn(statuses[k], role) != Pending
    ensures Agrees(caches[k], statuses[k], role)
  {
    if k > 0 {
      assert RefreshedRole(statuses[k - 1], statuses[k], caches[k - 1], caches[k], role);
      if PhaseIn(statuses[k - 1], role) == PhaseIn(statuses[k], role) {
        ErrorFreeRunsAgree(statuses, caches, ok, k - 1, role);
      }
    }
  }

  /** Whatever failed before, a pass without an error leaves a role in agreement
      exactly if its phase changed in the pass, or it runs, or its entry said
      so already. */
  lemma AgreesAfterExactly(before: Statuses, after: Statuses, c: JobCache, c': JobCache, role: Role)
    requires Refreshed(before, after, c, c') && role in after
    ensures Agrees(c', after, role) <==>
              PhaseIn(before, role) != after[role] || after[role] == Running || Agrees(c, after, role)
  {
    assert RefreshedRole(before, after, c, c', role);
  }

  /** So a running role's entry is repaired by any later pass without an error. */
  lemma RunningIsRepaired(statuses: seq<Statuses>, caches: seq<JobCache>, ok: seq<bool>, k: nat, role: Role)
    requires IsCacheRun(statuses, caches, ok) && k < |ok| && ok[k]
    requires PhaseIn(statuses[k + 1], role) == Running
    ensures Agrees(caches[k + 1], statuses[k + 1], role)
  {
    AgreesAfterExactly(statuses[k], statuses[k + 1], caches[k], caches[k + 1], role);
  }

  /** But another role's is not: while a phase other than Running stays, no
      pass touches the entry, whatever it says and whether or not passes fail. */
  lemma {:induction false} MissedChangeIsNeverRepaired(statuses: seq<Statuses>, caches: seq<JobCache>, ok: seq<bool>,
                                                       j: nat, k: nat, role: Role, phase: RolePhase)
    requires IsCacheRun(statuses, caches, ok) && j <= k < |statuses| && phase != Running
    requires forall i | j <= i <= k :: role in statuses[i] && statuses[i][role] == phase
    ensures Same(caches[j], caches[k], role)
    ensures Agrees(caches[k], statuses[k], role) <==> Agrees(caches[j], statuses[j], role)
  {
    if j < k {
      MissedChangeIsNeverRepaired(statuses, caches, ok, j, k - 1, role, phase);
      if ok[k - 1] {
        assert RefreshedRole(statuses[k - 1], statuses[k], caches[k - 1], caches[k], role);
      } else {
        assert PartlyRefreshedRole(statuses[k - 1], statuses[k], caches[k - 1], caches[k], role);
      }
    }
  }

  /** The run in which a role starts, is cached, and then leaves Running in a
      pass whose refresh fails. */
  function StatusesOf(role: Role, left: RolePhase): seq<Statuses> {
    [map[role := Pending], map[role := Running], map[role := left], map[role := left]]
  }

  function CachesOf(role: Role, ips: seq<string>): seq<JobCache> {
    var stale := map[role := RoleCache(Running, true, ips)];
    [map[], stale, stale, stale]
  }

  /** It starts from nothing, and it leaves an entry that says Running for
      ever, though the last pass goes without an error. */
  lemma ChangeCanBeMissed(role: Role, left: RolePhase, ips: seq<string>)
    requires left != Running
    ensures IsCacheRun(StatusesOf(role, left), CachesOf(role, ips), [true, false, true])
    ensures CachesOf(role, ips)[3][role].running && !Agrees(CachesOf(role, ips)[3], StatusesOf(role, left)[3], role)
  {
    var pending, running, gone: Statuses := map[role := Pending], map[role := Running], map[role := left];
    var empty, stale: JobCache := map[], map[role := RoleCache(Running, true, ips)];
    assert Refreshed(pending, running, empty, stale);
    assert PartlyRefreshed(running, gone, stale, stale);
    assert Refreshed(gone, gone, stale, stale);
  }
}
