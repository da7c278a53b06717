/** The cache of role phases and addresses, and the two ways an entry is made:
    by the operator from the role's pods, and by the observer from all pods of
    the job. */
module RoleCaches {
  import opened Decimal
  import opened Api
  import opened Pods
  import opened NeverRole

  datatype RoleCache = RoleCache(phase: RolePhase, running: bool, ips: seq<string>)

  type JobCache = map<Role, RoleCache>

  // ----- Keys -----

  function NamespacedNameToKey(ns: string, name: string): string {
    ns + "." + name
  }

  function FirstDot(s: string): (i: nat)
    ensures i <= |s|
    ensures i < |s| ==> s[i] == '.'
    ensures forall j | 0 <= j < i :: s[j] != '.'
  {
    if s == "" || s[0] == '.' then 0 else 1 + FirstDot(s[1..])
  }

  /** Splits at the first dot; `None` is the error of a key without one. */
  function KeyToNamespacedName(key: string): Option<(string, string)> {
    var i := FirstDot(key);
    if i == |key| then None else Some((key[..i], key[i + 1..]))
  }

  /** A key reads back as what it was made from exactly when the namespace has
      no dot, as Kubernetes guarantees; the name may have dots. */
  lemma KeyRoundTrip(ns: string, name: string)
    ensures KeyToNamespacedName(NamespacedNameToKey(ns, name)) == Some((ns, name)) <==> '.' !in ns
  {
    var key := NamespacedNameToKey(ns, name);
    var i := FirstDot(key);
    assert key[|ns|] == '.';
    if '.' !in ns {
      assert forall j | 0 <= j < |ns| :: key[j] == ns[j];
      assert key[..|ns|] == ns && key[|ns| + 1..] == name;
    } else {
      var j :| 0 <= j < |ns| && ns[j] == '.';
      assert key[j] == '.' && |key[..i]| < |ns|;
    }
  }

  // ----- The memory cache -----

  class MemoryCache {
    /** `None` once the cache is closed. */
    var cache: Option<map<string, JobCache>>

    constructor ()
      ensures cache == Some(map[])
    {
      cache := Some(map[]);
    }

    /** What the cache holds for a job. */
    function At(key: string): JobCache
      reads this
    {
      if cache.Some? && key in cache.value then cache.value[key] else map[]
    }

    method Close()
      modifies this
      ensures cache.None?
    {
      cache := None;
    }

    /** Reading a job that is not there leaves an empty entry. */
    method GetSubCache(key: string) returns (sc: Option<JobCache>)
      modifies this
      ensures old(cache).None? ==> sc.None? && cache.None?
      ensures old(cache).Some? ==> sc == Some(old(At(key))) && cache == Some(old(cache).value[key := old(At(key))])
      ensures forall k :: At(k) == old(At(k))
    {
      if cache.None? {
        return None;
      }
      if key !in cache.value {
        cache := Some(cache.value[key := map[]]);
      }
      assert cache.value == old(cache).value[key := cache.value[key]];
      sc := Some(cache.value[key]);
    }

    method SetRoleCache(key: string, role: Role, data: RoleCache) returns (failed: bool)
      modifies this
      ensures failed == old(cache).None? == cache.None?
      ensures At(key) == if failed then old(At(key)) else old(At(key))[role := data]
      ensures forall k | k != key :: At(k) == old(At(k))
    {
      var sc := GetSubCache(key);
      if sc.None? {
        return true;
      }
      cache := Some(cache.value[key := sc.value[role := data]]);
      failed := false;
    }

    /** `None` is the error; a role that is not there is a nil entry. */
    method GetRoleCache(key: string, role: Role) returns (data: Option<Option<RoleCache>>)
      modifies this
      ensures data.None? <==> old(cache).None?
      ensures data.Some? ==> data.value == if role in old(At(key)) then Some(old(At(key))[role]) else None
      ensures cache.None? == old(cache).None? && forall k :: At(k) == old(At(k))
    {
      var sc := GetSubCache(key);
      if sc.None? {
        return None;
      }
      data := Some(if role in sc.value then Some(sc.value[role]) else None);
    }

    method GetJobCache(key: string) returns (jobCache: Option<JobCache>)
      modifies this
      ensures jobCache == if old(cache).None? then None else Some(old(At(key)))
      ensures cache.None? == old(cache).None? && forall k :: At(k) == old(At(k))
    {
      jobCache := GetSubCache(key);
    }

    method DeleteJobCache(key: string)
      modifies this
      ensures cache.None? == old(cache).None?
      ensures At(key) == map[] && forall k | k != key :: At(k) == old(At(k))
    {
      if cache.Some? {
        if key in cache.value {
          cache := Some(cache.value - {key});
        }
      }
    }
  }

  // ----- Sorting pods -----

  /** The comparison of `SortPodsByRoleAndIndex` for pods that both carry an
      index label. */
  predicate PodLess(p: Pod, q: Pod) {
    var (tp, tq) := (GetReplicaType(p.labels), GetReplicaType(q.labels));
    if tp != tq then StringLess(tp, tq)
    else LabelLess(GetReplicaIndex(p.labels), GetReplicaIndex(q.labels))
  }

  const NOT_AFTER: (Pod, Pod) -> bool := (p: Pod, q: Pod) => !PodLess(q, p)

  predicate AllIndexed(pods: seq<Pod>) {
    forall p <- pods :: GetReplicaIndex(p.labels) != ""
  }

  /** What `sort.Slice` promises: a rearrangement, and an ordered one if the
      comparison is an order.  With a pod that has no index label it is not: the
      original then compares positions. */
  ghost predicate IsSorting(pods: seq<Pod>, sorted: seq<Pod>) {
    multiset(sorted) == multiset(pods) && (AllIndexed(pods) ==> AllApart(sorted, NOT_AFTER))
  }

  lemma PodLessIsOrder(p: Pod, q: Pod, r: Pod)
    ensures PodLess(p, q) ==> !PodLess(q, p)
    ensures !PodLess(q, p) && !PodLess(r, q) ==> !PodLess(r, p)
  {
    var (tp, tq, tr) := (GetReplicaType(p.labels), GetReplicaType(q.labels), GetReplicaType(r.labels));
    var (ip, iq, ir) := (GetReplicaIndex(p.labels), GetReplicaIndex(q.labels), GetReplicaIndex(r.labels));
    NotLessTransitive(tp, tq, tr);
    NotLabelLessTransitive(ip, iq, ir);
    StringLessTotal(tp, tq);
    StringLessTotal(tq, tr);
    StringLessTotal(tp, tr);
    StringLessTotal(ip, iq);
  }

  lemma NotLessTransitive(s: string, t: string, u: string)
    ensures !StringLess(t, s) && !StringLess(u, t) ==> !StringLess(u, s)
  {
    StringLessTotal(s, t);
    StringLessTotal(t, u);
    StringLessTotal(s, u);
    if StringLess(s, t) && StringLess(t, u) {
      StringLessTransitive(s, t, u);
    }
  }

  lemma NotLabelLessTransitive(s: string, t: string, u: string)
    ensures !LabelLess(t, s) && !LabelLess(u, t) ==> !LabelLess(u, s)
  {
    NotLessTransitive(s, t, u);
  }

  /** Where a pod belongs in an ordered list. */
  method Position(sorted: seq<Pod>, p: Pod) returns (i: nat)
    ensures i <= |sorted|
    ensures forall j | 0 <= j < i :: NOT_AFTER(sorted[j], p)
    ensures i < |sorted| ==> PodLess(p, sorted[i])
  {
    i := 0;
    while i < |sorted| && !PodLess(p, sorted[i])
      invariant i <= |sorted| && forall j | 0 <= j < i :: NOT_AFTER(sorted[j], p)
    {
      i := i + 1;
    }
  }

  lemma InsertedStaysOrdered(sorted: seq<Pod>, p: Pod, i: nat)
    requires AllApart(sorted, NOT_AFTER) && i <= |sorted|
    requires forall j | 0 <= j < i :: NOT_AFTER(sorted[j], p)
    requires i < |sorted| ==> PodLess(p, sorted[i])
    ensures AllApart(sorted[..i] + [p] + sorted[i..], NOT_AFTER)
  {
    var all := sorted[..i] + [p] + sorted[i..];
    forall j | i <= j < |sorted| ensures NOT_AFTER(p, sorted[j]) {
      PodLessIsOrder(p, sorted[i], sorted[j]);
      assert i < j ==> NOT_AFTER(sorted[i], sorted[j]);
    }
    forall a, b | 0 <= a < b < |all| ensures NOT_AFTER(all[a], all[b]) {
      assert a < i ==> all[a] == sorted[a];
      assert b < i ==> all[b] == sorted[b];
      assert a > i ==> all[a] == sorted[a - 1];
      assert b > i ==> all[b] == sorted[b - 1];
    }
  }

  /** Stands for the library's sort, of which only the contract is used. */
  method SortPodsByRoleAndIndex(pods: seq<Pod>) returns (sorted: seq<Pod>)
    ensures IsSorting(pods, sorted)
  {
    sorted := [];
    for k := 0 to |pods|
      invariant multiset(sorted) == multiset(pods[..k]) && AllApart(sorted, NOT_AFTER)
    {
      var i := Position(sorted, pods[k]);
      InsertedStaysOrdered(sorted, pods[k], i);
      InsertedIsAdded(sorted, pods[k], i);
      assert pods[..k + 1] == pods[..k] + [pods[k]];
      sorted := sorted[..i] + [pods[k]] + sorted[i..];
    }
    assert pods[..|pods|] == pods;
  }

  lemma InsertedIsAdded(pods: seq<Pod>, p: Pod, i: nat)
    requires i <= |pods|
    ensures multiset(pods[..i] + [p] + pods[i..]) == multiset(pods) + multiset{p}
  {
    assert pods == pods[..i] + pods[i..];
  }

  // ----- Entries -----

  function AddressOf(hostNetwork: bool, p: Pod): string {
    if hostNetwork then p.hostIP else p.podIP
  }

  /** The non-empty addresses, in the order of the pods. */
  function Addresses(hostNetwork: bool, pods: seq<Pod>): seq<string> {
    if pods == [] then []
    else
      var front, ip := Addresses(hostNetwork, pods[..|pods| - 1]), AddressOf(hostNetwork, pods[|pods| - 1]);
      if ip == "" then front else front + [ip]
  }

  /** The pods whose label names exactly the role. */
  function Named(role: Role): Pod -> bool {
    (p: Pod) => GetReplicaType(p.labels) == role
  }

  function Entry(role: Role, hostNetwork: bool, phase: RolePhase, sorted: seq<Pod>): RoleCache {
    RoleCache(phase, phase == Running, Addresses(hostNetwork, Filter(sorted, Named(role))))
  }

  /** `BuildRoleCache` may make this entry from the pods. */
  ghost predicate IsEntry(e: RoleCache, role: Role, hostNetwork: bool, phase: RolePhase, pods: seq<Pod>) {
    exists sorted :: IsSorting(Filter(pods, ALIVE), sorted) && e == Entry(role, hostNetwork, phase, sorted)
  }

  lemma {:induction false} PodAddresses(pods: seq<Pod>, ip: string)
    ensures ip in Addresses(false, pods) <==> ip != "" && exists p <- pods :: p.podIP == ip
  {
    if pods != [] {
      PodAddresses(pods[..|pods| - 1], ip);
      assert pods == pods[..|pods| - 1] + [pods[|pods| - 1]];
    }
  }

  lemma {:induction false} HostAddresses(pods: seq<Pod>, ip: string)
    ensures ip in Addresses(true, pods) <==> ip != "" && exists p <- pods :: p.hostIP == ip
  {
    if pods != [] {
      HostAddresses(pods[..|pods| - 1], ip);
      assert pods == pods[..|pods| - 1] + [pods[|pods| - 1]];
    }
  }

  lemma SortedNamed(role: Role, pods: seq<Pod>, sorted: seq<Pod>)
    requires IsSorting(Filter(pods, ALIVE), sorted)
    ensures forall p :: p in Filter(sorted, Named(role))
                        <==> p in pods && !p.deleting && GetReplicaType(p.labels) == role
  {
    forall p ensures p in sorted <==> p in Filter(pods, ALIVE) {
      assert p in sorted <==> p in multiset(sorted);
    }
  }

  /** The addresses in an entry are the non-empty ones of the role's living pods:
      the pods' own, or their hosts' if the role is on the host network. */
  lemma EntryHoldsAddresses(e: RoleCache, role: Role, hostNetwork: bool, phase: RolePhase, pods: seq<Pod>, ip: string)
    requires IsEntry(e, role, hostNetwork, phase, pods)
    ensures ip in e.ips
            <==> ip != "" && exists p <- pods :: !p.deleting && GetReplicaType(p.labels) == role
                                                 && ip == if hostNetwork then p.hostIP else p.podIP
  {
    var sorted :| IsSorting(Filter(pods, ALIVE), sorted) && e == Entry(role, hostNetwork, phase, sorted);
    SortedNamed(role, pods, sorted);
    if hostNetwork {
      HostAddresses(Filter(sorted, Named(role)), ip);
    } else {
      PodAddresses(Filter(sorted, Named(role)), ip);
    }
  }

  lemma EntrySays(e: RoleCache, role: Role, hostNetwork: bool, phase: RolePhase, pods: seq<Pod>)
    requires IsEntry(e, role, hostNetwork, phase, pods)
    ensures e.phase == phase && (e.running <==> phase == Running)
    ensures forall ip :: ip in e.ips
                         <==> ip != "" && exists p <- pods :: !p.deleting && GetReplicaType(p.labels) == role
                                                              && ip == if hostNetwork then p.hostIP else p.podIP
  {
    forall ip ensures ip in e.ips
                      <==> ip != "" && exists p <- pods :: !p.deleting && GetReplicaType(p.labels) == role
                                                           && ip == if hostNetwork then p.hostIP else p.podIP
    {
      EntryHoldsAddresses(e, role, hostNetwork, phase, pods, ip);
    }
  }

  lemma {:induction false} AddressesInOrder(hostNetwork: bool, pods: seq<Pod>)
    requires forall p <- pods :: p.podIP != "" && p.hostIP != ""
    ensures |Addresses(hostNetwork, pods)| == |pods|
    ensures forall i | 0 <= i < |pods| ::
              Addresses(hostNetwork, pods)[i] == if hostNetwork then pods[i].hostIP else pods[i].podIP
  {
    if pods != [] {
      AddressesInOrder(hostNetwork, pods[..|pods| - 1]);
      assert pods[|pods| - 1] in pods;
    }
  }

  method BuildRoleCache(role: Role, hostNetwork: bool, phase: RolePhase, pods: seq<Pod>) returns (e: RoleCache)
    ensures IsEntry(e, role, hostNetwork, phase, pods)
    ensures e.phase == phase && (e.running <==> phase == Running)
    ensures forall ip :: ip in e.ips
                         <==> ip != "" && exists p <- pods :: !p.deleting && GetReplicaType(p.labels) == role
                                                              && ip == if hostNetwork then p.hostIP else p.podIP
  {
    var alive := FilterPods(pods, ALIVE);
    var sorted := SortPodsByRoleAndIndex(alive);
    var ips := CollectIPs(role, hostNetwork, sorted);
    e := RoleCache(phase, phase == Running, ips);
    EntrySays(e, role, hostNetwork, phase, pods);
  }

  predicate Collected(ips: seq<string>, role: Role, hostNetwork: bool, pods: seq<Pod>) {
    ips == Addresses(hostNetwork, Filter(pods, Named(role)))
  }

  lemma NoneCollected(role: Role, hostNetwork: bool)
    ensures Collected([], role, hostNetwork, [])
  {
  }

  lemma AllCollected(ips: seq<string>, role: Role, hostNetwork: bool, pods: seq<Pod>)
    requires Collected(ips, role, hostNetwork, pods)
    ensures ips == Addresses(hostNetwork, Filter(pods, Named(role)))
  {
  }

  lemma OneMoreCollected(ips: seq<string>, role: Role, hostNetwork: bool, pods: seq<Pod>, p: Pod)
    requires Collected(ips, role, hostNetwork, pods)
    ensures var ip := AddressOf(hostNetwork, p);
            Collected(if GetReplicaType(p.labels) == role && |ip| != 0 then ips + [ip] else ips,
                      role, hostNetwork, pods + [p])
  {
    var kept := Filter(pods, Named(role));
    assert (pods + [p])[..|pods|] == pods && (kept + [p])[..|kept|] == kept;
  }

  method CollectIPs(role: Role, hostNetwork: bool, sorted: seq<Pod>) returns (ips: seq<string>)
    ensures ips == Addresses(hostNetwork, Filter(sorted, Named(role)))
  {
    ips := [];
    NoneCollected(role, hostNetwork);
    assert sorted[..0] == [];
    for i := 0 to |sorted|
      invariant Collected(ips, role, hostNetwork, sorted[..i])
    {
      assert sorted[..i + 1] == sorted[..i] + [sorted[i]];
      OneMoreCollected(ips, role, hostNetwork, sorted[..i], sorted[i]);
      if GetReplicaType(sorted[i].labels) != role {
        continue;
      }
      var ip := AddressOf(hostNetwork, sorted[i]);
      if |ip| == 0 {
        continue;
      }
      ips := ips + [ip];
    }
    assert sorted[..|sorted|] == sorted;
    AllCollected(ips, role, hostNetwork, sorted);
  }

  /** The observer's answer, made on demand from the job's status and all of
      its pods.  `hostNetwork` has the roles of the spec; statuses are never
      pruned, and one of a role that is no longer there is a nil dereference,
      for which `None` stands. */
  method GetJobCache(hostNetwork: map<Role, bool>, statuses: map<Role, RolePhase>, pods: seq<Pod>)
    returns (answer: Option<JobCache>)
    ensures answer.None? <==> exists role <- statuses :: role !in hostNetwork
    ensures answer.Some? ==>
              answer.value.Keys == statuses.Keys && AreEntries(answer.value, hostNetwork, statuses, pods)
  {
    var jobCache: JobCache := map[];
    var todo := statuses.Keys;
    while todo != {}
      invariant todo <= statuses.Keys && jobCache.Keys == statuses.Keys - todo
      invariant AreEntries(jobCache, hostNetwork, statuses, pods)
      decreases todo
    {
      var role :| role in todo;
      if role !in hostNetwork {
        return None;
      }
      jobCache := AddEntry(jobCache, hostNetwork, statuses, pods, role);
      todo := todo - {role};
    }
    answer := Some(jobCache);
  }

  ghost predicate AreEntries(jobCache: JobCache, hostNetwork: map<Role, bool>, statuses: map<Role, RolePhase>,
                             pods: seq<Pod>)
  {
    forall role <- jobCache ::
      && role in hostNetwork && role in statuses
      && IsEntry(jobCache[role], role, hostNetwork[role], statuses[role], pods)
  }

  method AddEntry(jobCache: JobCache, hostNetwork: map<Role, bool>, statuses: map<Role, RolePhase>, pods: seq<Pod>,
                  role: Role)
    returns (more: JobCache)
    requires AreEntries(jobCache, hostNetwork, statuses, pods) && role in hostNetwork && role in statuses
    ensures AreEntries(more, hostNetwork, statuses, pods) && more.Keys == jobCache.Keys + {role}
  {
    var e := BuildRoleCache(role, hostNetwork[role], statuses[role], pods);
    OneMoreEntry(jobCache, hostNetwork, statuses, pods, role, e);
    more := jobCache[role := e];
  }

  lemma OneMoreEntry(jobCache: JobCache, hostNetwork: map<Role, bool>, statuses: map<Role, RolePhase>, pods: seq<Pod>,
                     role: Role, e: RoleCache)
    requires AreEntries(jobCache, hostNetwork, statuses, pods) && role in hostNetwork && role in statuses
    requires IsEntry(e, role, hostNetwork[role], statuses[role], pods)
    ensures AreEntries(jobCache[role := e], hostNetwork, statuses, pods)
  {
  }

  // ----- The two ways agree -----

  /** What the index of replicas finds for the operator: the pods whose role
      is the given one up to `fold`, which stands for lower-casing. */
  function UpToCase(fold: string -> string, role: Role): Pod -> bool {
    (p: Pod) => GetReplicaType(p.labels) != "" && fold(GetReplicaType(p.labels)) == fold(role)
  }

  lemma {:induction false} FilterOccurrences(pods: seq<Pod>, keep: Pod -> bool, p: Pod)
    ensures multiset(Filter(pods, keep))[p] == if keep(p) then multiset(pods)[p] else 0
  {
    if pods != [] {
      FilterOccurrences(pods[..|pods| - 1], keep, p);
      assert pods == pods[..|pods| - 1] + [pods[|pods| - 1]];
    }
  }

  predicate HasIndex(p: Pod) {
    PodIndex(p.labels).Some? && PodIndex(p.labels).value >= 0
      && GetReplicaIndex(p.labels) == Itoa(PodIndex(p.labels).value)
  }

  /** The pod's index, or -1. */
  const INDEX_NO: Pod -> int := (p: Pod) => if PodIndex(p.labels).Some? then PodIndex(p.labels).value else -1

  ghost predicate Ascending(key: Pod -> int, pods: seq<Pod>) {
    forall i, j | 0 <= i < j < |pods| :: key(pods[i]) < key(pods[j])
  }

  ghost predicate KeysDiffer(key: Pod -> int, pods: seq<Pod>) {
    forall i, j | 0 <= i < j < |pods| :: key(pods[i]) != key(pods[j])
  }

  /** Only one arrangement is strictly ascending. */
  lemma {:induction false} AscendingIsUnique(key: Pod -> int, a: seq<Pod>, b: seq<Pod>)
    requires multiset(a) == multiset(b) && Ascending(key, a) && Ascending(key, b)
    ensures a == b
  {
    SameLength(a, b);
    if a != [] {
      SameLast(key, a, b);
      DropLast(a);
      DropLast(b);
      AscendingIsUnique(key, a[..|a| - 1], b[..|b| - 1]);
      assert a == a[..|a| - 1] + [a[|a| - 1]];
      assert b == b[..|b| - 1] + [b[|b| - 1]];
    }
  }

  lemma SameLength(a: seq<Pod>, b: seq<Pod>)
    requires multiset(a) == multiset(b)
    ensures |a| == |b|
  {
    assert |a| == |multiset(a)|;
    assert |b| == |multiset(b)|;
  }

  lemma DropLast(a: seq<Pod>)
    requires a != []
    ensures multiset(a[..|a| - 1]) == multiset(a) - multiset{a[|a| - 1]}
  {
    assert a == a[..|a| - 1] + [a[|a| - 1]];
  }

  lemma SameLast(key: Pod -> int, a: seq<Pod>, b: seq<Pod>)
    requires multiset(a) == multiset(b) && Ascending(key, a) && Ascending(key, b) && a != [] && b != []
    ensures a[|a| - 1] == b[|b| - 1]
  {
    var p, q := a[|a| - 1], b[|b| - 1];
    assert p in multiset(a) && q in multiset(b);
    assert p in b && q in a;
    var i :| 0 <= i < |b| && b[i] == p;
    var j :| 0 <= j < |a| && a[j] == q;
  }

  /** No two pods of the role share an index. */
  ghost predicate Distinguished(role: Role, pods: multiset<Pod>) {
    forall p, q | p in pods && q in pods && p != q && Named(role)(p) && Named(role)(q) :: INDEX_NO(p) != INDEX_NO(q)
  }

  /** The living pods carry printed indices, none is listed twice, and no two
      of the role share an index. */
  ghost predicate WellLabelled(role: Role, alive: seq<Pod>) {
    && (forall p | p in multiset(alive) :: HasIndex(p))
    && (forall p :: multiset(alive)[p] <= 1)
    && Distinguished(role, multiset(alive))
  }

  lemma TwiceIn(pods: seq<Pod>, i: nat, j: nat)
    requires i < j < |pods| && pods[i] == pods[j]
    ensures multiset(pods)[pods[i]] >= 2
  {
    assert pods == pods[..j] + [pods[j]] + pods[j + 1..];
    assert pods[i] in pods[..j];
  }

  lemma NoRepeat(pods: seq<Pod>, i: nat, j: nat)
    requires i < j < |pods| && multiset(pods)[pods[i]] <= 1
    ensures pods[i] != pods[j]
  {
    if pods[i] == pods[j] {
      TwiceIn(pods, i, j);
    }
  }

  lemma NotAfterIsBelow(p: Pod, q: Pod)
    requires HasIndex(p) && HasIndex(q) && GetReplicaType(p.labels) == GetReplicaType(q.labels)
    requires NOT_AFTER(p, q) && INDEX_NO(p) != INDEX_NO(q)
    ensures INDEX_NO(p) < INDEX_NO(q)
  {
    LabelOrderIsNumeric(INDEX_NO(q), INDEX_NO(p));
  }

  lemma SortedNamedAscend(role: Role, alive: seq<Pod>, sorted: seq<Pod>)
    requires WellLabelled(role, alive) && IsSorting(alive, sorted)
    ensures Ascending(INDEX_NO, Filter(sorted, Named(role)))
  {
    var named := Filter(sorted, Named(role));
    forall p | p in alive ensures GetReplicaIndex(p.labels) != "" {
      assert p in multiset(alive);
    }
    FilterKeepsApart(sorted, Named(role), NOT_AFTER);
    forall i, j | 0 <= i < j < |named| ensures INDEX_NO(named[i]) < INDEX_NO(named[j]) {
      var p, q := named[i], named[j];
      assert p in named && q in named;
      FilterOccurrences(sorted, Named(role), p);
      NoRepeat(named, i, j);
      assert p in multiset(sorted) && q in multiset(sorted);
      assert NOT_AFTER(p, q);
      NotAfterIsBelow(p, q);
    }
  }

  function AtKey(key: Pod -> int, k: int): Pod -> bool {
    (p: Pod) => key(p) == k
  }

  /** The pods at key 0, then those at 1, and so on. */
  function ByKey(key: Pod -> int, pods: seq<Pod>, n: nat): seq<Pod> {
    if n == 0 then [] else ByKey(key, pods, n - 1) + Filter(pods, AtKey(key, n - 1))
  }

  lemma OccurrencesAppend(a: seq<Pod>, b: seq<Pod>, p: Pod)
    ensures multiset(a + b)[p] == multiset(a)[p] + multiset(b)[p]
  {
  }

  lemma {:induction false} ByKeyOccurrences(key: Pod -> int, pods: seq<Pod>, n: nat, p: Pod)
    ensures multiset(ByKey(key, pods, n))[p] == if 0 <= key(p) < n then multiset(pods)[p] else 0
  {
    if n > 0 {
      ByKeyOccurrences(key, pods, n - 1, p);
      FilterOccurrences(pods, AtKey(key, n - 1), p);
      OccurrencesAppend(ByKey(key, pods, n - 1), Filter(pods, AtKey(key, n - 1)), p);
    }
  }

  ghost predicate AscendingBelow(key: Pod -> int, pods: seq<Pod>, n: int) {
    Ascending(key, pods) && forall p <- pods :: key(p) < n
  }

  predicate AtMostOne(key: Pod -> int, bucket: seq<Pod>, k: int) {
    |bucket| <= 1 && (|bucket| == 1 ==> key(bucket[0]) == k)
  }

  lemma {:induction false} ByKeyAscends(key: Pod -> int, pods: seq<Pod>, n: nat)
    requires forall k :: AtMostOne(key, Filter(pods, AtKey(key, k)), k)
    ensures AscendingBelow(key, ByKey(key, pods, n), n)
  {
    if n > 0 {
      ByKeyAscends(key, pods, n - 1);
      AppendAscends(key, ByKey(key, pods, n - 1), Filter(pods, AtKey(key, n - 1)), n);
    }
  }

  lemma AppendAscends(key: Pod -> int, front: seq<Pod>, bucket: seq<Pod>, n: int)
    requires AscendingBelow(key, front, n - 1) && AtMostOne(key, bucket, n - 1)
    ensures AscendingBelow(key, front + bucket, n)
  {
    assert forall i | 0 <= i < |front| :: front[i] in front;
    assert bucket != [] ==> bucket[0] in bucket;
  }

  lemma {:induction false} AtMostOneAtKey(key: Pod -> int, pods: seq<Pod>, k: int)
    requires KeysDiffer(key, pods)
    ensures AtMostOne(key, Filter(pods, AtKey(key, k)), k)
  {
    if pods != [] {
      var front, last := pods[..|pods| - 1], pods[|pods| - 1];
      AtMostOneAtKey(key, front, k);
      forall p | p in front ensures key(p) != key(last) {
        var i :| 0 <= i < |front| && front[i] == p;
        assert pods[i] == p;
      }
    }
  }

  lemma AtMostOnePerKey(key: Pod -> int, pods: seq<Pod>)
    requires KeysDiffer(key, pods)
    ensures forall k :: AtMostOne(key, Filter(pods, AtKey(key, k)), k)
  {
    forall k ensures AtMostOne(key, Filter(pods, AtKey(key, k)), k) {
      AtMostOneAtKey(key, pods, k);
    }
  }

  lemma DifferentAscend(key: Pod -> int, pods: seq<Pod>, n: nat)
    requires KeysDiffer(key, pods)
    ensures Ascending(key, ByKey(key, pods, n))
  {
    AtMostOnePerKey(key, pods);
    ByKeyAscends(key, pods, n);
  }

  /** The role's living pods by ascending index. */
  function ByIndex(role: Role, pods: seq<Pod>): seq<Pod> {
    var named := Filter(Filter(pods, ALIVE), Named(role));
    ByKey(INDEX_NO, named, MaxIndex(named) + 1)
  }

  lemma NamedDiffer(role: Role, alive: seq<Pod>)
    requires WellLabelled(role, alive)
    ensures KeysDiffer(INDEX_NO, Filter(alive, Named(role)))
  {
    var named := Filter(alive, Named(role));
    forall i, j | 0 <= i < j < |named| ensures INDEX_NO(named[i]) != INDEX_NO(named[j]) {
      var p, q := named[i], named[j];
      assert p in named && q in named;
      FilterOccurrences(alive, Named(role), p);
      NoRepeat(named, i, j);
      assert p in multiset(alive) && q in multiset(alive);
    }
  }

  lemma ByIndexAscends(role: Role, pods: seq<Pod>)
    requires WellLabelled(role, Filter(pods, ALIVE))
    ensures Ascending(INDEX_NO, ByIndex(role, pods))
  {
    var named := Filter(Filter(pods, ALIVE), Named(role));
    NamedDiffer(role, Filter(pods, ALIVE));
    DifferentAscend(INDEX_NO, named, MaxIndex(named) + 1);
  }

  lemma ByIndexOccurrences(role: Role, pods: seq<Pod>, p: Pod)
    requires WellLabelled(role, Filter(pods, ALIVE))
    ensures multiset(ByIndex(role, pods))[p] == if ALIVE(p) && Named(role)(p) then multiset(pods)[p] else 0
  {
    var alive := Filter(pods, ALIVE);
    var named := Filter(alive, Named(role));
    ByKeyOccurrences(INDEX_NO, named, MaxIndex(named) + 1, p);
    FilterOccurrences(alive, Named(role), p);
    FilterOccurrences(pods, ALIVE, p);
    if multiset(named)[p] > 0 {
      assert p in named && p in multiset(alive);
    }
  }

  lemma ByIndexIsSorted(role: Role, pods: seq<Pod>, sorted: seq<Pod>)
    requires WellLabelled(role, Filter(pods, ALIVE)) && IsSorting(Filter(pods, ALIVE), sorted)
    ensures Filter(sorted, Named(role)) == ByIndex(role, pods)
  {
    var named, byIndex := Filter(sorted, Named(role)), ByIndex(role, pods);
    SortedNamedAscend(role, Filter(pods, ALIVE), sorted);
    ByIndexAscends(role, pods);
    forall p ensures multiset(byIndex)[p] == multiset(named)[p] {
      ByIndexOccurrences(role, pods, p);
      NamedInBoth(role, pods, sorted, p);
    }
    AscendingIsUnique(INDEX_NO, byIndex, named);
  }

  /** What an entry says: the phase, whether it is Running, and the addresses
      of the role's living pods by ascending index. */
  lemma EntryIsByIndex(role: Role, hostNetwork: bool, phase: RolePhase, pods: seq<Pod>, e: RoleCache)
    requires IsEntry(e, role, hostNetwork, phase, pods) && WellLabelled(role, Filter(pods, ALIVE))
    ensures e == RoleCache(phase, phase == Running, Addresses(hostNetwork, ByIndex(role, pods)))
  {
    var sorted :| IsSorting(Filter(pods, ALIVE), sorted) && e == Entry(role, hostNetwork, phase, sorted);
    ByIndexIsSorted(role, pods, sorted);
  }

  /** So where every pod has its addresses, the i-th address is that of the
      living pod with the i-th index. */
  lemma EntryInOrder(role: Role, hostNetwork: bool, phase: RolePhase, pods: seq<Pod>, e: RoleCache, i: nat)
    requires IsEntry(e, role, hostNetwork, phase, pods) && WellLabelled(role, Filter(pods, ALIVE))
    requires forall p <- pods :: p.podIP != "" && p.hostIP != ""
    requires i < |ByIndex(role, pods)|
    ensures |e.ips| == |ByIndex(role, pods)|
    ensures e.ips[i] == if hostNetwork then ByIndex(role, pods)[i].hostIP else ByIndex(role, pods)[i].podIP
  {
    EntryIsByIndex(role, hostNetwork, phase, pods, e);
    ByIndexAreListed(role, pods);
    AddressesInOrder(hostNetwork, ByIndex(role, pods));
  }

  lemma ByIndexAreListed(role: Role, pods: seq<Pod>)
    requires WellLabelled(role, Filter(pods, ALIVE))
    ensures forall p :: p in ByIndex(role, pods) <==> p in pods && !p.deleting && GetReplicaType(p.labels) == role
  {
    forall p
      ensures p in ByIndex(role, pods) <==> p in pods && !p.deleting && GetReplicaType(p.labels) == role
    {
      ByIndexOccurrences(role, pods, p);
      assert p in ByIndex(role, pods) <==> multiset(ByIndex(role, pods))[p] > 0;
      assert p in pods <==> multiset(pods)[p] > 0;
    }
  }

  /** The two listings hold the same living pods of the role. */
  ghost predicate SameLiving(role: Role, a: seq<Pod>, b: seq<Pod>) {
    forall p | ALIVE(p) && Named(role)(p) :: multiset(a)[p] == multiset(b)[p]
  }

  lemma SameByIndex(role: Role, a: seq<Pod>, b: seq<Pod>)
    requires WellLabelled(role, Filter(a, ALIVE)) && WellLabelled(role, Filter(b, ALIVE))
    requires SameLiving(role, a, b)
    ensures ByIndex(role, a) == ByIndex(role, b)
  {
    SameByIndexPods(role, a, b);
    ByIndexAscends(role, a);
    ByIndexAscends(role, b);
    AscendingIsUnique(INDEX_NO, ByIndex(role, a), ByIndex(role, b));
  }

  lemma SameByIndexPods(role: Role, a: seq<Pod>, b: seq<Pod>)
    requires WellLabelled(role, Filter(a, ALIVE)) && WellLabelled(role, Filter(b, ALIVE))
    requires SameLiving(role, a, b)
    ensures multiset(ByIndex(role, a)) == multiset(ByIndex(role, b))
  {
    forall p ensures multiset(ByIndex(role, a))[p] == multiset(ByIndex(role, b))[p] {
      ByIndexOccurrences(role, a, p);
      ByIndexOccurrences(role, b, p);
    }
  }

  /** Two listings that hold the same living pods of the role, whatever else
      they hold, and in whatever order, give the same entry. */
  lemma EntryIsUnique(role: Role, hostNetwork: bool, phase: RolePhase, a: seq<Pod>, b: seq<Pod>, e: RoleCache,
                      f: RoleCache)
    requires IsEntry(e, role, hostNetwork, phase, a) && IsEntry(f, role, hostNetwork, phase, b)
    requires WellLabelled(role, Filter(a, ALIVE)) && WellLabelled(role, Filter(b, ALIVE))
    requires SameLiving(role, a, b)
    ensures e == f
  {
    EntryIsByIndex(role, hostNetwork, phase, a, e);
    EntryIsByIndex(role, hostNetwork, phase, b, f);
    SameByIndex(role, a, b);
  }

  lemma NamedInBoth(role: Role, pods: seq<Pod>, sorted: seq<Pod>, p: Pod)
    requires multiset(sorted) == multiset(Filter(pods, ALIVE))
    ensures multiset(Filter(sorted, Named(role)))[p] == if ALIVE(p) && Named(role)(p) then multiset(pods)[p] else 0
  {
    FilterOccurrences(sorted, Named(role), p);
    FilterOccurrences(pods, ALIVE, p);
  }

  /** The operator's entry, made from the pods the index finds for the role, and
      the observer's, made from all pods of the job, are the same. */
  lemma OperatorAndObserverAgree(fold: string -> string, role: Role, hostNetwork: bool, phase: RolePhase,
                                 all: seq<Pod>, listed: seq<Pod>, e: RoleCache, f: RoleCache)
    requires role != "" && multiset(listed) == multiset(Filter(all, UpToCase(fold, role)))
    requires WellLabelled(role, Filter(all, ALIVE))
    requires IsEntry(e, role, hostNetwork, phase, listed) && IsEntry(f, role, hostNetwork, phase, all)
    ensures e == f
  {
    forall p
      ensures ALIVE(p) && Named(role)(p) ==> multiset(listed)[p] == multiset(all)[p]
      ensures multiset(Filter(listed, ALIVE))[p] <= multiset(Filter(all, ALIVE))[p]
    {
      FilterOccurrences(all, UpToCase(fold, role), p);
      FilterOccurrences(all, ALIVE, p);
      FilterOccurrences(listed, ALIVE, p);
    }
    FewerStayWellLabelled(role, Filter(all, ALIVE), Filter(listed, ALIVE));
    EntryIsUnique(role, hostNetwork, phase, listed, all, e, f);
  }

  lemma FewerStayWellLabelled(role: Role, more: seq<Pod>, fewer: seq<Pod>)
    requires WellLabelled(role, more) && forall p :: multiset(fewer)[p] <= multiset(more)[p]
    ensures WellLabelled(role, fewer)
  {
    forall p | p in multiset(fewer) ensures p in multiset(more) {
      assert multiset(fewer)[p] <= multiset(more)[p];
    }
  }
}
