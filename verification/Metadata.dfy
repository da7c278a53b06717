/** Aligning labels and annotations with the job's annotations by a merge
    patch. */
module Metadata {
  import opened Decimal
  import opened Api

  /** A patch in the form of a JSON merge patch: `None` is JSON's null. */
  type Patch = map<Key, Option<string>>

  /** RFC 7396 section 2, for a patch of plain members: null removes a member,
      anything else sets it. */
  function Apply(current: Labels, patch: Patch): Labels {
    map key | key in current.Keys + patch.Keys && !(key in patch && patch[key].None?) ::
      if key in patch then patch[key].value else current[key]
  }

  /** The key is to be set, or to be removed. */
  predicate ToSet(current: Labels, expected: Labels, filter: Key -> bool, key: Key) {
    key in expected && filter(key) && !(key in current && current[key] == expected[key])
  }

  predicate ToRemove(current: Labels, expected: Labels, filter: Key -> bool, key: Key) {
    key in current && filter(key) && key !in expected
  }

  /** What `diff` leaves in its result, before the test for emptiness. */
  function Changes(current: Labels, expected: Labels, filter: Key -> bool): Patch {
    map key | key in expected.Keys + current.Keys
              && (ToSet(current, expected, filter, key) || ToRemove(current, expected, filter, key)) ::
      if key in expected then Some(expected[key]) else None
  }

  method Additions(current: Labels, expected: Labels, filter: Key -> bool) returns (changes: Patch)
    ensures forall key :: key in changes <==> ToSet(current, expected, filter, key)
    ensures forall key <- changes :: key in expected && changes[key] == Some(expected[key])
  {
    changes := map[];
    var todo := expected.Keys;
    while todo != {}
      invariant todo <= expected.Keys
      invariant forall key :: key in changes <==> key !in todo && ToSet(current, expected, filter, key)
      invariant forall key <- changes :: key in expected && changes[key] == Some(expected[key])
      decreases todo
    {
      var key :| key in todo;
      todo := todo - {key};
      if !filter(key) {
        continue;
      }
      if key !in current || current[key] != expected[key] {
        changes := changes[key := Some(expected[key])];
      }
    }
  }

  method Removals(current: Labels, expected: Labels, filter: Key -> bool, added: Patch) returns (changes: Patch)
    requires forall key <- added :: key in expected
    ensures forall key :: key in changes <==> key in added || ToRemove(current, expected, filter, key)
    ensures forall key <- changes :: changes[key] == if key in added then added[key] else None
  {
    changes := added;
    var todo := current.Keys;
    while todo != {}
      invariant todo <= current.Keys
      invariant forall key :: key in changes
                              <==> key in added || (key !in todo && ToRemove(current, expected, filter, key))
      invariant forall key <- changes :: changes[key] == if key in added then added[key] else None
      decreases todo
    {
      var key :| key in todo;
      todo := todo - {key};
      if !filter(key) {
        continue;
      }
      if key !in expected {
        changes := changes[key := None];
      }
    }
  }

  /** Two loops over maps, in any order; a nil result is `None`. */
  method Diff(current: Labels, expected: Labels, filter: Key -> bool) returns (result: Option<Patch>)
    ensures var changes := Changes(current, expected, filter);
            result == if changes == map[] then None else Some(changes)
  {
    var changes := Additions(current, expected, filter);
    changes := Removals(current, expected, filter, changes);
    assert changes == Changes(current, expected, filter);
    if |changes| == 0 {
      return None;
    }
    result := Some(changes);
  }

  /** The two agree on the keys of the filter. */
  predicate AgreeOn(current: Labels, expected: Labels, filter: Key -> bool) {
    && (forall key <- current :: filter(key) ==> key in expected && expected[key] == current[key])
    && forall key <- expected :: filter(key) ==> key in current
  }

  /** Applying the patch makes the filtered keys what is expected and leaves
      the others alone. */
  lemma PatchAligns(current: Labels, expected: Labels, filter: Key -> bool)
    ensures var after := Apply(current, Changes(current, expected, filter));
            && AgreeOn(after, expected, filter)
            && forall key | !filter(key) ::
                 (key in after <==> key in current) && (key in current ==> after[key] == current[key])
  {
  }

  /** There is nothing to patch exactly when the two agree. */
  lemma NothingToPatchIffAgree(current: Labels, expected: Labels, filter: Key -> bool)
    ensures Changes(current, expected, filter) == map[] <==> AgreeOn(current, expected, filter)
  {
    var changes := Changes(current, expected, filter);
    if AgreeOn(current, expected, filter) {
      assert changes.Keys == {};
    }
    if changes == map[] {
      forall key | key in current && filter(key) ensures key in expected && expected[key] == current[key] {
        assert key !in changes;
      }
      forall key | key in expected && filter(key) ensures key in current {
        assert key !in changes;
      }
    }
  }

  /** The patch holds no redundant key: each makes a difference. */
  lemma EveryKeyMatters(current: Labels, expected: Labels, filter: Key -> bool, key: Key)
    requires key in Changes(current, expected, filter)
    ensures filter(key)
    ensures Apply(current, Changes(current, expected, filter) - {key})
         != Apply(current, Changes(current, expected, filter))
  {
    var changes := Changes(current, expected, filter);
    var with, without := Apply(current, changes), Apply(current, changes - {key});
    if key in expected {
      assert key in with && with[key] == expected[key];
      assert key !in without || without[key] == current[key];
    } else {
      assert key !in with && key in without;
    }
  }

  // ----- Patching an object -----

  /** An object of the API server, and how it takes patches: a refused one
      changes nothing. */
  class Target {
    var annotations: Labels
    var labels: Labels
    var patches: nat

    constructor (annotations: Labels, labels: Labels)
      ensures this.annotations == annotations && this.labels == labels && patches == 0
    {
      this.annotations, this.labels, patches := annotations, labels, 0;
    }

    method Patch(annotationsPatch: Option<Patch>, labelsPatch: Option<Patch>, accepted: bool)
      modifies this
      ensures patches == old(patches) + 1
      ensures annotations == if accepted && annotationsPatch.Some? then Apply(old(annotations), annotationsPatch.value)
                             else old(annotations)
      ensures labels == if accepted && labelsPatch.Some? then Apply(old(labels), labelsPatch.value) else old(labels)
    {
      patches := patches + 1;
      if accepted {
        if annotationsPatch.Some? {
          annotations := Apply(annotations, annotationsPatch.value);
        }
        if labelsPatch.Some? {
          labels := Apply(labels, labelsPatch.value);
        }
      }
    }
  }

  const JOB_LEVEL: Key -> bool := (key: Key) => IsJobLevelKey(key)

  /** Both maps of the object agree with the job's annotations, which rule the
      labels too. */
  predicate Aligned(annotations: Labels, labels: Labels, expected: Labels) {
    AgreeOn(annotations, expected, JOB_LEVEL) && AgreeOn(labels, expected, JOB_LEVEL)
  }

  /** `patchMetadata`: sends a patch exactly when the object is not aligned, and
      if the patch is accepted the object then is; so a second run sends
      nothing.  Keys that are not job-level stay as they were. */
  method PatchMetadata(expected: Labels, target: Target, accepted: bool) returns (failed: bool)
    modifies target
    ensures target.patches
         == old(target.patches) + if old(Aligned(target.annotations, target.labels, expected)) then 0 else 1
    ensures failed <==> !accepted && !old(Aligned(target.annotations, target.labels, expected))
    ensures failed ==> target.annotations == old(target.annotations) && target.labels == old(target.labels)
    ensures !failed ==> Aligned(target.annotations, target.labels, expected)
    ensures !failed ==> forall key | key in {AresQueueKey, PreemptableKey, JobPriorityKey} ::
              && (key in target.labels <==> key in expected) && (key in target.annotations <==> key in expected)
              && (key in expected ==> target.labels[key] == target.annotations[key] == expected[key])
    ensures forall key | key !in {AresQueueKey, PreemptableKey, JobPriorityKey} ::
              && (key in target.labels <==> key in old(target.labels))
              && (key in target.labels ==> target.labels[key] == old(target.labels)[key])
              && (key in target.annotations <==> key in old(target.annotations))
              && (key in target.annotations ==> target.annotations[key] == old(target.annotations)[key])
  {
    NothingToPatchIffAgree(target.annotations, expected, JOB_LEVEL);
    NothingToPatchIffAgree(target.labels, expected, JOB_LEVEL);
    PatchAligns(target.annotations, expected, JOB_LEVEL);
    PatchAligns(target.labels, expected, JOB_LEVEL);
    var annotations := Diff(target.annotations, expected, JOB_LEVEL);
    var labels := Diff(target.labels, expected, JOB_LEVEL);
    if annotations.None? && labels.None? {
      return false;
    }
    target.Patch(annotations, labels, accepted);
    failed := !accepted;
  }
}
