/** The entities of the API group: role specs, role status and pods. */
module Api {
  import opened Decimal

  type Role = string

  /** The label and annotation keys the controller knows, and all others.  The
      deprecated ones are the keys of kubeflow/common, still accepted when
      reading; the last three are the job-level keys. */
  datatype Key =
    | ReplicaIndexLabel
    | ReplicaTypeLabel
    | DeprecatedIndexLabel
    | DeprecatedTypeLabel
    | AresQueueKey
    | PreemptableKey
    | JobPriorityKey
    | OtherKey(name: string)

  type Labels = map<Key, string>

  predicate Distinct<T(==)>(s: seq<T>) {
    forall i, j | 0 <= i < j < |s| :: s[i] != s[j]
  }

  predicate IsJobLevelKey(key: Key) {
    key == AresQueueKey || key == PreemptableKey || key == JobPriorityKey
  }

  datatype RestartPolicy = Unspecified | Always | OnFailure | Never | ExitCode

  datatype PhaseCondition = AnyPod | AllPods | UnknownCondition

  datatype RolePhasePolicy = RolePhasePolicy(
    failed: Option<PhaseCondition>,
    succeeded: Option<PhaseCondition>,
    nodeDownAsFailed: bool)

  /** A replica count is a 32-bit integer, and validation keeps it positive. */
  type Replicas = n: nat | n <= 0x7fff_ffff

  /** The part of a validated role spec that a pass reads. */
  datatype RoleSpec = RoleSpec(replicas: Replicas, restart: RestartPolicy, policy: RolePhasePolicy)

  datatype RolePhase = Pending | Starting | Running | Failed | Succeeded

  predicate IsRoleFinished(phase: RolePhase) {
    phase == Failed || phase == Succeeded
  }

  predicate IsRoleStarted(phase: RolePhase) {
    phase == Running || IsRoleFinished(phase)
  }

  datatype PodPhase = PhaseUnset | PodPending | PodRunning | PodSucceeded | PodFailed | PodUnknown

  /** `exitCodes` lists the container statuses, `Some` where the container has
      terminated; `uid` is the identity the API server gives a pod. */
  datatype Pod = Pod(
    uid: nat,
    labels: Labels,
    deleting: bool,
    phase: PodPhase,
    node: string,
    exitCodes: seq<Option<int>>,
    podIP: string,
    hostIP: string)

  function GetLabelByName(labels: Labels, name: Key, deprecated: Key): string {
    if name in labels then labels[name]
    else if deprecated in labels then labels[deprecated]
    else ""
  }

  function GetReplicaType(labels: Labels): string {
    GetLabelByName(labels, ReplicaTypeLabel, DeprecatedTypeLabel)
  }

  function GetReplicaIndex(labels: Labels): string {
    GetLabelByName(labels, ReplicaIndexLabel, DeprecatedIndexLabel)
  }

  /** The bucket number a pod's labels give, if they give one. */
  function PodIndex(labels: Labels): Option<int> {
    var text := GetReplicaIndex(labels);
    if text == "" then None else Atoi(text)
  }

  predicate IndexNotNegative(labels: Labels) {
    PodIndex(labels).Some? ==> PodIndex(labels).value >= 0
  }

  /** The label set `CreateNewPod` puts on a pod: the template's labels, then
      the generated ones, then the job-level annotations of the job. */
  function NewPodLabels(template: Labels, generated: Labels, annotations: Labels, role: Role, index: nat): Labels {
    template
    + generated[ReplicaTypeLabel := role][ReplicaIndexLabel := Itoa(index)]
    + map key | key in annotations && IsJobLevelKey(key) :: annotations[key]
  }

  /** Whatever the template and the annotations say, a new pod reads back as
      the role and index it was made for. */
  lemma NewPodReadsBack(template: Labels, generated: Labels, annotations: Labels, role: Role, index: nat)
    requires index <= MAX_INT
    ensures var labels := NewPodLabels(template, generated, annotations, role, index);
            && GetReplicaType(labels) == role
            && ReplicaTypeLabel in labels && labels[ReplicaTypeLabel] == role
            && GetReplicaIndex(labels) == Itoa(index)
            && PodIndex(labels) == Some(index)
  {
    AtoiOfItoa(index);
  }

  /** A new pod carries the job-level annotations of the job as labels, and the
      other generated and template labels as they were, the generated ones
      first. */
  lemma NewPodCarries(template: Labels, generated: Labels, annotations: Labels, role: Role, index: nat)
    ensures var labels := NewPodLabels(template, generated, annotations, role, index);
            && (forall key | key in {AresQueueKey, PreemptableKey, JobPriorityKey} && key in annotations ::
                  key in labels && labels[key] == annotations[key])
            && forall key | key !in {ReplicaTypeLabel, ReplicaIndexLabel}
                            && (key !in annotations || key !in {AresQueueKey, PreemptableKey, JobPriorityKey}) ::
                 && (key in labels <==> key in generated || key in template)
                 && (key in generated ==> labels[key] == generated[key])
                 && (key in template && key !in generated ==> labels[key] == template[key])
  {
  }

  /** The same labels under the deprecated keys. */
  function Deprecated(role: string, index: string): Labels {
    map[DeprecatedTypeLabel := role, DeprecatedIndexLabel := index]
  }

  function Current(role: string, index: string): Labels {
    map[ReplicaTypeLabel := role, ReplicaIndexLabel := index]
  }

  /** Labels are read alike under either pair of keys, and where both are there
      the current ones are read. */
  lemma EitherKeysAreRead(role: string, index: string, other: string, otherIndex: string)
    ensures GetReplicaType(Current(role, index)) == GetReplicaType(Deprecated(role, index)) == role
    ensures GetReplicaIndex(Current(role, index)) == GetReplicaIndex(Deprecated(role, index)) == index
    ensures GetReplicaType(Deprecated(other, otherIndex) + Current(role, index)) == role
    ensures GetReplicaIndex(Deprecated(other, otherIndex) + Current(role, index)) == index
    ensures GetReplicaType(map[]) == "" && GetReplicaIndex(map[]) == ""
  {
  }
}
