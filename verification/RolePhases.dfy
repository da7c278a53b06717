/** Counting a role's pods, deducing its phase, and explaining a failure. */
module RolePhases {
  import opened Decimal
  import opened Api
  import opened Pods

  /** The counter of a role's status that a pod adds to. */
  datatype Slot = AsPending | AsActive | AsSucceeded | AsFailed | AsUnknown | AsTerminating

  datatype Counters = Counters(
    pending: nat, active: nat, succeeded: nat, failed: nat, unknown: nat, terminating: nat)

  const ZERO := Counters(0, 0, 0, 0, 0, 0)

  /** A deletion timestamp comes first, then a down node if the policy asks,
      and only then the pod's own phase. */
  function SlotOf(policy: RolePhasePolicy, down: set<string>, p: Pod): Slot {
    if p.deleting then AsTerminating
    else if p.node != "" && policy.nodeDownAsFailed && p.node in down then AsFailed
    else
      match p.phase
      case PhaseUnset => AsPending
      case PodPending => AsPending
      case PodRunning => AsActive
      case PodSucceeded => AsSucceeded
      case PodFailed => AsFailed
      case PodUnknown => AsUnknown
  }

  function Number(policy: RolePhasePolicy, down: set<string>, pods: seq<Pod>, slot: Slot): nat {
    if pods == [] then 0
    else
      Number(policy, down, pods[..|pods| - 1], slot)
      + if SlotOf(policy, down, pods[|pods| - 1]) == slot then 1 else 0
  }

  lemma NumberSnoc(policy: RolePhasePolicy, down: set<string>, pods: seq<Pod>, p: Pod, slot: Slot)
    ensures Number(policy, down, pods + [p], slot)
         == Number(policy, down, pods, slot) + if SlotOf(policy, down, p) == slot then 1 else 0
  {
    assert (pods + [p])[..|pods|] == pods;
  }

  /** The counters `UpdateRoleReplicas` leaves. */
  function Count(policy: RolePhasePolicy, down: set<string>, pods: seq<Pod>): Counters {
    Counters(
      Number(policy, down, pods, AsPending),
      Number(policy, down, pods, AsActive),
      Number(policy, down, pods, AsSucceeded),
      Number(policy, down, pods, AsFailed),
      Number(policy, down, pods, AsUnknown),
      Number(policy, down, pods, AsTerminating))
  }

  function Bump(c: Counters, slot: Slot): Counters {
    match slot
    case AsPending => c.(pending := c.pending + 1)
    case AsActive => c.(active := c.active + 1)
    case AsSucceeded => c.(succeeded := c.succeeded + 1)
    case AsFailed => c.(failed := c.failed + 1)
    case AsUnknown => c.(unknown := c.unknown + 1)
    case AsTerminating => c.(terminating := c.terminating + 1)
  }

  lemma CountSnoc(policy: RolePhasePolicy, down: set<string>, pods: seq<Pod>, p: Pod)
    ensures Count(policy, down, pods + [p]) == Bump(Count(policy, down, pods), SlotOf(policy, down, p))
  {
    NumberSnoc(policy, down, pods, p, AsPending);
    NumberSnoc(policy, down, pods, p, AsActive);
    NumberSnoc(policy, down, pods, p, AsSucceeded);
    NumberSnoc(policy, down, pods, p, AsFailed);
    NumberSnoc(policy, down, pods, p, AsUnknown);
    NumberSnoc(policy, down, pods, p, AsTerminating);
  }

  /** The pods a role has by its counters; terminating ones are not among them. */
  function Actual(c: Counters): nat {
    c.active + c.succeeded + c.failed + c.unknown + c.pending
  }

  lemma BumpAddsOne(c: Counters, slot: Slot)
    ensures Actual(Bump(c, slot)) + Bump(c, slot).terminating == Actual(c) + c.terminating + 1
  {
  }

  lemma SnocAddsOne(policy: RolePhasePolicy, down: set<string>, pods: seq<Pod>, p: Pod)
    ensures var c, c' := Count(policy, down, pods), Count(policy, down, pods + [p]);
            Actual(c') + c'.terminating == Actual(c) + c.terminating + 1
  {
    CountSnoc(policy, down, pods, p);
    BumpAddsOne(Count(policy, down, pods), SlotOf(policy, down, p));
  }

  /** Every pod adds to exactly one counter. */
  lemma {:induction false} CountersAddUp(policy: RolePhasePolicy, down: set<string>, pods: seq<Pod>)
    ensures var c := Count(policy, down, pods);
            Actual(c) + c.terminating == |pods|
  {
    if pods != [] {
      var front, last := pods[..|pods| - 1], pods[|pods| - 1];
      CountersAddUp(policy, down, front);
      SnocAddsOne(policy, down, front, last);
      assert front + [last] == pods;
    }
  }

  /** A counter is positive exactly when some pod adds to it. */
  lemma {:induction false} NumberPositive(policy: RolePhasePolicy, down: set<string>, pods: seq<Pod>, slot: Slot)
    ensures Number(policy, down, pods, slot) > 0 <==> exists p <- pods :: SlotOf(policy, down, p) == slot
  {
    if pods != [] {
      NumberPositive(policy, down, pods[..|pods| - 1], slot);
      assert pods == pods[..|pods| - 1] + [pods[|pods| - 1]];
    }
  }

  predicate OnNodeDown(policy: RolePhasePolicy, down: set<string>, p: Pod) {
    policy.nodeDownAsFailed && p.node != "" && p.node in down
  }

  /** The living pods in the phase that do not count as down. */
  function InPhase(policy: RolePhasePolicy, down: set<string>, pods: seq<Pod>, phase: PodPhase): set<nat> {
    set i: nat | i < |pods| && !pods[i].deleting && pods[i].phase == phase && !OnNodeDown(policy, down, pods[i])
  }

  function Counted(policy: RolePhasePolicy, down: set<string>, pods: seq<Pod>, slot: Slot): set<nat> {
    set i: nat | i < |pods| && SlotOf(policy, down, pods[i]) == slot
  }

  lemma CountedSnoc(policy: RolePhasePolicy, down: set<string>, pods: seq<Pod>, p: Pod, slot: Slot)
    ensures |Counted(policy, down, pods + [p], slot)|
         == |Counted(policy, down, pods, slot)| + if SlotOf(policy, down, p) == slot then 1 else 0
  {
    var more := if SlotOf(policy, down, p) == slot then {|pods|} else {};
    assert Counted(policy, down, pods + [p], slot) == Counted(policy, down, pods, slot) + more;
  }

  lemma {:induction false} NumberIsSize(policy: RolePhasePolicy, down: set<string>, pods: seq<Pod>, slot: Slot)
    ensures Number(policy, down, pods, slot) == |Counted(policy, down, pods, slot)|
  {
    if pods != [] {
      var front, last := pods[..|pods| - 1], pods[|pods| - 1];
      NumberIsSize(policy, down, front, slot);
      NumberSnoc(policy, down, front, last, slot);
      CountedSnoc(policy, down, front, last, slot);
      assert pods == front + [last];
    }
  }

  lemma NumberSays(policy: RolePhasePolicy, down: set<string>, pods: seq<Pod>, slot: Slot, these: set<nat>)
    requires forall i: nat :: i in these <==> i < |pods| && SlotOf(policy, down, pods[i]) == slot
    ensures Number(policy, down, pods, slot) == |these|
  {
    NumberIsSize(policy, down, pods, slot);
    assert these == Counted(policy, down, pods, slot);
  }

  lemma PhaseSays(policy: RolePhasePolicy, down: set<string>, pods: seq<Pod>, slot: Slot, phase: PodPhase)
    requires (slot, phase) in {(AsActive, PodRunning), (AsSucceeded, PodSucceeded), (AsUnknown, PodUnknown)}
    ensures Number(policy, down, pods, slot) == |InPhase(policy, down, pods, phase)|
  {
    NumberSays(policy, down, pods, slot, InPhase(policy, down, pods, phase));
  }

  lemma PendingSays(policy: RolePhasePolicy, down: set<string>, pods: seq<Pod>)
    ensures Number(policy, down, pods, AsPending)
         == |InPhase(policy, down, pods, PodPending) + InPhase(policy, down, pods, PhaseUnset)|
  {
    NumberSays(policy, down, pods, AsPending,
               InPhase(policy, down, pods, PodPending) + InPhase(policy, down, pods, PhaseUnset));
  }

  lemma TerminatingSays(policy: RolePhasePolicy, down: set<string>, pods: seq<Pod>)
    ensures Number(policy, down, pods, AsTerminating) == |set i: nat | i < |pods| && pods[i].deleting|
  {
    NumberSays(policy, down, pods, AsTerminating, set i: nat | i < |pods| && pods[i].deleting);
  }

  lemma FailedSays(policy: RolePhasePolicy, down: set<string>, pods: seq<Pod>)
    ensures Number(policy, down, pods, AsFailed)
         == |set i: nat | i < |pods| && !pods[i].deleting
               && (pods[i].phase == PodFailed || OnNodeDown(policy, down, pods[i]))|
  {
    NumberSays(policy, down, pods, AsFailed,
               set i: nat | i < |pods| && !pods[i].deleting
                 && (pods[i].phase == PodFailed || OnNodeDown(policy, down, pods[i])));
  }

  /** What the counters count: the terminating pods, and of the others those in
      each phase; except that a pod on a node that is down, if the policy takes
      node failures for its own, counts as failed whatever its phase. */
  lemma CountersSay(policy: RolePhasePolicy, down: set<string>, pods: seq<Pod>)
    ensures var c := Count(policy, down, pods);
            && c.terminating == |set i: nat | i < |pods| && pods[i].deleting|
            && c.failed == |set i: nat | i < |pods| && !pods[i].deleting
                              && (pods[i].phase == PodFailed || OnNodeDown(policy, down, pods[i]))|
            && c.active == |InPhase(policy, down, pods, PodRunning)|
            && c.succeeded == |InPhase(policy, down, pods, PodSucceeded)|
            && c.unknown == |InPhase(policy, down, pods, PodUnknown)|
            && c.pending == |InPhase(policy, down, pods, PodPending) + InPhase(policy, down, pods, PhaseUnset)|
  {
    TerminatingSays(policy, down, pods);
    FailedSays(policy, down, pods);
    PhaseSays(policy, down, pods, AsActive, PodRunning);
    PhaseSays(policy, down, pods, AsSucceeded, PodSucceeded);
    PhaseSays(policy, down, pods, AsUnknown, PodUnknown);
    PendingSays(policy, down, pods);
  }

  lemma NoneTerminating(policy: RolePhasePolicy, down: set<string>, pods: seq<Pod>)
    requires forall p <- pods :: !p.deleting
    ensures Number(policy, down, pods, AsTerminating) == 0
  {
    NumberPositive(policy, down, pods, AsTerminating);
  }

  /** The phase decision, in the order of the original: failed, succeeded,
      running, starting, then a lost pod, then no change. */
  function GetRolePhase(spec: RoleSpec, c: Counters, last: RolePhase): RolePhase {
    if spec.policy.failed == Some(AnyPod) && c.failed > 0 then Failed
    else if spec.policy.failed == Some(AllPods) && c.failed >= spec.replicas then Failed
    else if spec.policy.succeeded == Some(AnyPod) && c.succeeded > 0 then Succeeded
    else if spec.policy.succeeded == Some(AllPods) && c.succeeded >= spec.replicas then Succeeded
    else if c.active >= spec.replicas then Running
    else if last == Pending then Starting
    else if spec.restart == Never && last == Running && Actual(c) < spec.replicas then Failed
    else last
  }

  /** A policy condition as its users read it. */
  predicate Meets(condition: Option<PhaseCondition>, count: nat, replicas: nat) {
    || (condition == Some(AnyPod) && count > 0)
    || (condition == Some(AllPods) && count >= replicas)
  }

  predicate LosesPods(spec: RoleSpec, c: Counters, last: RolePhase) {
    spec.restart == Never && last == Running && Actual(c) < spec.replicas
  }

  /** Exactly when a role ends up in each phase. */
  lemma PhaseReading(spec: RoleSpec, c: Counters, last: RolePhase)
    ensures var phase := GetRolePhase(spec, c, last);
            var fails, succeeds := Meets(spec.policy.failed, c.failed, spec.replicas),
                                   Meets(spec.policy.succeeded, c.succeeded, spec.replicas);
            var runs := c.active >= spec.replicas;
            && (phase == Failed <==> fails || (!succeeds && !runs && (last == Failed || LosesPods(spec, c, last))))
            && (phase == Succeeded <==> !fails && (succeeds || (!runs && last == Succeeded)))
            && (phase == Running <==> !fails && !succeeds && (runs || (last == Running && !LosesPods(spec, c, last))))
            && (phase == Starting <==> !fails && !succeeds && !runs && (last == Pending || last == Starting))
  {
  }

  function Rank(phase: RolePhase): nat {
    if phase == Pending then 0 else if phase == Starting then 1 else 2
  }

  /** Why a role failed: the reason, with what its message names. */
  datatype FailedReason =
    | NoReason
    | PodFailedReason(pod: Pod)
    | NodeDownReason(pod: Pod)
    | TerminatingReason(indices: multiset<string>)
    | MissingReason(missing: seq<nat>)

  function First(pods: seq<Pod>, wanted: Pod -> bool): (r: Option<Pod>)
    ensures r.None? <==> forall p <- pods :: !wanted(p)
    ensures r.Some? ==> r.value in pods && wanted(r.value)
  {
    if pods == [] then None
    else if wanted(pods[0]) then Some(pods[0])
    else
      assert pods == [pods[0]] + pods[1..];
      First(pods[1..], wanted)
  }

  const HAS_FAILED: Pod -> bool := (p: Pod) => p.phase == PodFailed

  function OnDownNode(down: set<string>): Pod -> bool {
    (p: Pod) => p.node != "" && p.node in down
  }

  function IndexLabels(pods: seq<Pod>): set<string> {
    set p | p in pods :: GetReplicaIndex(p.labels)
  }

  function TerminatingLabels(pods: seq<Pod>): multiset<string> {
    if pods == [] then multiset{}
    else
      var last := pods[|pods| - 1];
      TerminatingLabels(pods[..|pods| - 1])
      + if last.deleting then multiset{GetReplicaIndex(last.labels)} else multiset{}
  }

  /** The indices below `expected` whose numeral is not among the labels. */
  function MissingIndices(present: set<string>, expected: nat): (missing: seq<nat>)
    ensures forall i: nat :: i in missing <==> i < expected && Itoa(i) !in present
  {
    if expected == 0 then []
    else
      MissingIndices(present, expected - 1) + if Itoa(expected - 1) in present then [] else [expected - 1]
  }

  function ExtractFailedReason(down: set<string>, pods: seq<Pod>, expected: nat): FailedReason {
    var alive := Filter(pods, ALIVE);
    if First(alive, HAS_FAILED).Some? then PodFailedReason(First(alive, HAS_FAILED).value)
    else if First(alive, OnDownNode(down)).Some? then NodeDownReason(First(alive, OnDownNode(down)).value)
    else if TerminatingLabels(pods) != multiset{} then TerminatingReason(TerminatingLabels(pods))
    else if MissingIndices(IndexLabels(pods), expected) != [] then
      MissingReason(MissingIndices(IndexLabels(pods), expected))
    else NoReason
  }

  /** What the recorded reason claims about the counted pods. */
  ghost predicate Truthful(reason: FailedReason, down: set<string>, pods: seq<Pod>, expected: nat) {
    match reason
    case NoReason => false
    case PodFailedReason(p) => p in pods && !p.deleting && p.phase == PodFailed
    case NodeDownReason(p) => p in pods && !p.deleting && p.node != "" && p.node in down
    case TerminatingReason(indices) =>
      && indices != multiset{}
      && (forall text <- indices :: exists p <- pods :: p.deleting && GetReplicaIndex(p.labels) == text)
      && forall p <- pods :: p.deleting ==> GetReplicaIndex(p.labels) in indices
    case MissingReason(missing) =>
      && missing != []
      && (forall p <- pods :: !p.deleting)
      && forall i: nat :: i in missing <==>
           i < expected && forall p <- pods :: GetReplicaIndex(p.labels) != Itoa(i)
  }

  lemma {:induction false} TerminatingLabelsMeaning(pods: seq<Pod>)
    ensures TerminatingLabels(pods) == multiset{} <==> forall p <- pods :: !p.deleting
    ensures forall text <- TerminatingLabels(pods) ::
              exists p <- pods :: p.deleting && GetReplicaIndex(p.labels) == text
    ensures forall p <- pods :: p.deleting ==> GetReplicaIndex(p.labels) in TerminatingLabels(pods)
  {
    if pods != [] {
      var front, last := pods[..|pods| - 1], pods[|pods| - 1];
      TerminatingLabelsMeaning(front);
      assert pods == front + [last];
      assert last in pods;
      forall text | text in TerminatingLabels(pods)
        ensures exists p <- pods :: p.deleting && GetReplicaIndex(p.labels) == text
      {
        if text in TerminatingLabels(front) {
          var p :| p in front && p.deleting && GetReplicaIndex(p.labels) == text;
          assert p in pods;
        } else {
          assert last.deleting && GetReplicaIndex(last.labels) == text;
        }
      }
    }
  }

  /** Which reason is recorded: a failed pod comes first, then a node that is
      down, then terminating pods, then missing ones. */
  lemma ReasonReading(down: set<string>, pods: seq<Pod>, expected: nat)
    ensures var reason := ExtractFailedReason(down, pods, expected);
            var failed := exists p <- pods :: !p.deleting && p.phase == PodFailed;
            var onDown := exists p <- pods :: !p.deleting && p.node != "" && p.node in down;
            var leaving := exists p <- pods :: p.deleting;
            && (reason.PodFailedReason? <==> failed)
            && (reason.NodeDownReason? <==> !failed && onDown)
            && (reason.TerminatingReason? <==> !failed && !onDown && leaving)
            && (reason.NoReason? ==> forall i: nat | i < expected :: Itoa(i) in IndexLabels(pods))
  {
    TerminatingLabelsMeaning(pods);
    FirstFailed(pods);
    FirstOnDown(down, pods);
  }

  lemma FirstFailed(pods: seq<Pod>)
    ensures First(Filter(pods, ALIVE), HAS_FAILED).Some? <==> exists p <- pods :: !p.deleting && p.phase == PodFailed
  {
    forall p | p in pods && !p.deleting ensures p in Filter(pods, ALIVE) {
      assert ALIVE(p);
    }
  }

  lemma FirstOnDown(down: set<string>, pods: seq<Pod>)
    ensures First(Filter(pods, ALIVE), OnDownNode(down)).Some?
            <==> exists p <- pods :: !p.deleting && p.node != "" && p.node in down
  {
    forall p | p in pods && !p.deleting ensures p in Filter(pods, ALIVE) {
      assert ALIVE(p);
    }
  }

  /** Whatever reason is recorded, what it says is so. */
  lemma RecordedReasonIsTruthful(down: set<string>, pods: seq<Pod>, expected: nat)
    ensures var reason := ExtractFailedReason(down, pods, expected);
            reason != NoReason ==> Truthful(reason, down, pods, expected)
  {
    TerminatingLabelsMeaning(pods);
    assert forall i: nat :: Itoa(i) in IndexLabels(pods) <==> exists p <- pods :: GetReplicaIndex(p.labels) == Itoa(i);
  }

  function Numerals(n: nat): set<string> {
    set i: nat | i < n :: Itoa(i)
  }

  lemma {:induction false} NumeralsSize(n: nat)
    ensures |Numerals(n)| == n
  {
    if n > 0 {
      NumeralsSize(n - 1);
      forall i: nat | i < n - 1 ensures Itoa(i) != Itoa(n - 1) {
        if Itoa(i) == Itoa(n - 1) {
          ItoaInjective(i, n - 1);
        }
      }
      assert Numerals(n) == Numerals(n - 1) + {Itoa(n - 1)};
    }
  }

  lemma {:induction false} IndexLabelsSize(pods: seq<Pod>)
    ensures |IndexLabels(pods)| <= |pods|
  {
    if pods != [] {
      var front, last := pods[..|pods| - 1], pods[|pods| - 1];
      IndexLabelsSize(front);
      assert pods == front + [last];
      assert IndexLabels(pods) == IndexLabels(front) + {GetReplicaIndex(last.labels)};
    }
  }

  lemma SubsetSize<T>(a: set<T>, b: set<T>)
    requires a <= b
    ensures |a| <= |b|
  {
    assert b == a + (b - a);
  }

  /** Fewer pods than replicas leave an index that no label names. */
  lemma SomeIndexIsMissing(pods: seq<Pod>, expected: nat)
    requires |pods| < expected
    ensures MissingIndices(IndexLabels(pods), expected) != []
  {
    var missing := MissingIndices(IndexLabels(pods), expected);
    if missing == [] {
      NumeralsSize(expected);
      IndexLabelsSize(pods);
      assert forall i: nat | i < expected :: i !in missing;
      SubsetSize(Numerals(expected), IndexLabels(pods));
    }
  }

  /** Every move of a role into Failed records a reason, and the reason is true
      of the pods that were counted. */
  lemma FailureHasTruthfulReason(spec: RoleSpec, down: set<string>, pods: seq<Pod>, last: RolePhase)
    requires spec.replicas > 0
    requires last != Failed && GetRolePhase(spec, Count(spec.policy, down, pods), last) == Failed
    ensures Truthful(ExtractFailedReason(down, pods, spec.replicas), down, pods, spec.replicas)
  {
    RecordedReasonIsTruthful(down, pods, spec.replicas);
    if Count(spec.policy, down, pods).failed > 0 {
      FailedPodIsReason(spec.policy, down, pods, spec.replicas);
    } else {
      LostPodIsReason(spec.policy, down, pods, spec.replicas);
    }
  }

  lemma FailedPodIsReason(policy: RolePhasePolicy, down: set<string>, pods: seq<Pod>, expected: nat)
    requires Number(policy, down, pods, AsFailed) > 0
    ensures ExtractFailedReason(down, pods, expected) != NoReason
  {
    NumberPositive(policy, down, pods, AsFailed);
    var p :| p in pods && SlotOf(policy, down, p) == AsFailed;
    FailedSlotIsReason(policy, down, p);
    assert p in Filter(pods, ALIVE);
  }

  lemma FailedSlotIsReason(policy: RolePhasePolicy, down: set<string>, p: Pod)
    requires SlotOf(policy, down, p) == AsFailed
    ensures ALIVE(p) && (HAS_FAILED(p) || OnDownNode(down)(p))
  {
  }

  lemma LostPodIsReason(policy: RolePhasePolicy, down: set<string>, pods: seq<Pod>, expected: nat)
    requires Actual(Count(policy, down, pods)) < expected
    ensures ExtractFailedReason(down, pods, expected) != NoReason
  {
    CountersAddUp(policy, down, pods);
    TerminatingLabelsMeaning(pods);
    if TerminatingLabels(pods) == multiset{} {
      NoneTerminating(policy, down, pods);
      SomeIndexIsMissing(pods, expected);
    }
  }
}
