/** What a listing of the informer's cache looks like in a run, and so why the
    operator's and the observer's cache entries agree there. */
module CacheListing {
  import opened Decimal
  import opened Api
  import opened Pods
  import opened Cluster
  import opened ClusterSafety
  import opened RoleCaches

  predicate BornPrinted(st: Store) {
    forall u <- st.born :: HasIndex(st.born[u])
  }

  lemma PrintedHasIndex(p: Pod, index: nat)
    requires GetReplicaIndex(p.labels) == Itoa(index) && PodIndex(p.labels) == Some(index)
    ensures HasIndex(p)
  {
  }

  lemma StepKeepsPrinted(s: State, e: Event, s': State)
    requires BornPrinted(s.pods) && Step(s, e, s')
    ensures BornPrinted(s'.pods)
  {
    if e.NextBucket? {
      if WillCreate(s.ctl.loop.value) {
        PrintedHasIndex(e.made, s.ctl.loop.value.k);
        CreateEffect(s, e.made, s');
      } else {
        KeptBucketMovesOn(s, e.made, s');
      }
    }
  }

  lemma {:induction false} RunKeepsPrinted(states: seq<State>, events: seq<Event>, k: nat)
    requires IsRun(states, events) && BornPrinted(states[0].pods) && k < |states|
    ensures BornPrinted(states[k].pods)
  {
    if k > 0 {
      RunKeepsPrinted(states, events, k - 1);
      StepKeepsPrinted(states[k - 1], events[k - 1], states[k]);
    }
  }

  /** In every run, however stale the cache is, no two of its living pods share
      an index of one role. */
  lemma CachedPodsAreDistinct(states: seq<State>, events: seq<Event>, role: Role, k: nat, u: Uid, v: Uid)
    requires IsRun(states, events) && Init(states[0], Rule({}, {role})) && k < |states|
    requires var view := states[k].pods.view;
             && u in view && v in view && u != v && !view[u].deleting && !view[v].deleting
             && GetReplicaType(view[u].labels) == role && GetReplicaType(view[v].labels) == role
    ensures var view := states[k].pods.view;
            PodIndex(view[u].labels).None? || PodIndex(view[u].labels) != PodIndex(view[v].labels)
  {
    RunHoldsInv(states, events, Rule({}, {role}), k);
    CachedPodOccupies(states[k].pods, role, u);
    CachedPodOccupies(states[k].pods, role, v);
  }

  lemma CachedPodOccupies(st: Store, role: Role, u: Uid)
    requires Consistent(st) && u in st.view && !st.view[u].deleting && GetReplicaType(st.view[u].labels) == role
    ensures Occupies(st, Rule({}, {role}), u)
    ensures RoleOf(st, u) == role && IndexOf(st, u) == PodIndex(st.view[u].labels)
  {
    SamePlaceAgrees(st.born[u].labels, st.view[u].labels);
  }

  lemma {:induction false} DifferentOccurOnce(pods: seq<Pod>, p: Pod)
    requires forall i, j | 0 <= i < j < |pods| :: pods[i].uid != pods[j].uid
    ensures multiset(pods)[p] <= 1
  {
    if pods != [] {
      var front, last := pods[..|pods| - 1], pods[|pods| - 1];
      DifferentOccurOnce(front, p);
      assert pods == front + [last];
      assert forall i | 0 <= i < |front| :: front[i] == pods[i] && pods[i].uid != last.uid;
      assert last !in front;
    }
  }

  /** Any listing of the cache is well labelled for the role. */
  lemma ListingIsWellLabelled(states: seq<State>, events: seq<Event>, role: Role, k: nat, all: seq<Pod>)
    requires IsRun(states, events) && Init(states[0], Rule({}, {role})) && BornPrinted(states[0].pods)
    requires k < |states| && Lists(all, states[k].pods.view)
    ensures WellLabelled(role, Filter(all, ALIVE))
  {
    var st, alive := states[k].pods, Filter(all, ALIVE);
    RunHoldsInv(states, events, Rule({}, {role}), k);
    RunKeepsPrinted(states, events, k);
    forall p | p in multiset(alive) ensures HasIndex(p) {
      assert p in alive && p in all;
      SamePlaceAgrees(st.born[p.uid].labels, p.labels);
    }
    forall p ensures multiset(alive)[p] <= 1 {
      DifferentOccurOnce(all, p);
      FilterOccurrences(all, ALIVE, p);
    }
    forall p, q | p in multiset(alive) && q in multiset(alive) && p != q && Named(role)(p) && Named(role)(q)
      ensures INDEX_NO(p) != INDEX_NO(q)
    {
      assert p in alive && q in alive && HasIndex(p) && HasIndex(q);
      assert st.view[p.uid] == p && st.view[q.uid] == q;
      CachedPodsAreDistinct(states, events, role, k, p.uid, q.uid);
    }
  }

  /** In every state of every run, the entry the operator makes of a role from
      what its index finds in the cache, and the entry the observer makes from
      all of the job's pods in it, are the same. */
  lemma EntriesAgreeInRuns(states: seq<State>, events: seq<Event>, fold: string -> string, role: Role, k: nat,
                           hostNetwork: bool, phase: RolePhase, all: seq<Pod>, listed: seq<Pod>, e: RoleCache,
                           f: RoleCache)
    requires IsRun(states, events) && Init(states[0], Rule({}, {role})) && BornPrinted(states[0].pods)
    requires k < |states| && Lists(all, states[k].pods.view)
    requires role != "" && multiset(listed) == multiset(Filter(all, UpToCase(fold, role)))
    requires IsEntry(e, role, hostNetwork, phase, listed) && IsEntry(f, role, hostNetwork, phase, all)
    ensures e == f
    ensures e == RoleCache(phase, phase == Running, Addresses(hostNetwork, ByIndex(role, all)))
  {
    ListingIsWellLabelled(states, events, role, k, all);
    OperatorAndObserverAgree(fold, role, hostNetwork, phase, all, listed, e, f);
    EntryIsByIndex(role, hostNetwork, phase, all, f);
  }
}
