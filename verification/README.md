# The AresJob reconciliation loop, modelled and proved

This project models the controller of AresJobs and proves what it keeps. A job
has roles, each with a number of replicas, a restart policy and a phase policy.
One pass of the controller sorts the observed pods of every role into buckets by
index, creates and deletes pods, raises expectations for what it asked for,
recounts the pods, deduces role phases and from them the job phase, and
publishes the role phases to a cache. Between passes, and between any two
buckets of a pass, pods change, terminate and vanish, nodes go down and
recover, and the informer's cache lags behind.

## How it is laid out

The parts the original writes as loops over objects are methods and classes,
each proved against a function that says what it computes:

- `Reconciler`, `Expectations`, `NodeManager`, `Pods` - the pass over a role,
  the expectation counters, the table of unhealthy nodes, the bucket array
- `JobPhases`, `RoleCaches`, `CacheRuns` - job phase, memory cache, the
  refreshing of cache entries and the observer's answer
- `Defaults`, `Ranks`, `BaguaPorts`, `Metadata`, `PodGroups` - defaults,
  validation, ranks and names, ports, merge patches, pod groups

The functions they are proved against, and the facts about them, are in
`RolePhases` (counting, phase decision, failure reasons) and `PodPass` (the
bucket loop as a function of the pods and of the API server's answers).
`PassOutcome` says what a pass decides about every pod and index, and which
phase it leads to, from the pods' fields alone; `DefaultedJobs` and
`JobPolicies` say the same of the defaults.

`Cluster` is the controller inside its environment, as a state machine: the API
server's pods, the informer's view, the counters and the progress of a pass are
separate state. Its steps use the functions of `PodPass`. Over all of its runs
`ClusterSafety` proves that places are held once, `NeverRun` that roles which
never restart only advance, `RestartingRun` that roles which restart never fail,
`CacheListing` that the two ways of making a cache entry agree, and `LostPods`
that a lost-pod reason names indices without a pod. `Convergence` gives the
termination measure of repeated passes, and `CalmRuns` derives its rounds from
runs of the cluster.

`Api`, `JobSpecs` and `Decimal` hold the entities and the arithmetic of index
labels.

## What is assumed

- Expectations are integer counters per key: set overwrites, raise adds, an
  observation subtracts one, and a key is satisfied when neither is positive.
- Adding a pod to the cache and lowering the counter is one step. A run starts
  with no creation undelivered. Only this controller creates the job's pods.
- After a creation error other than a timeout there is no pod. After a timeout
  the pod may appear later, or never.
- The library's job controller runs the pass of one role after another, in any
  order, and stops at the first error.
- A pass lists the cache once, after its counters are reset, and reads the
  status the last completed pass wrote.
- A run starts with every cached and living pod at an index of its own; where
  cache entries or lost pods are spoken of, with indices that are printed
  numbers, as the controller itself prints them.
- A pod stays at its role and index; a deletion timestamp and the phases
  Succeeded and Failed are for ever; no other phase than the six occurs.
- Which exit codes are retryable, how the library names pods, records
  conditions and lower-cases names are arbitrary functions.
- Role names are lower-case, as validation demands, so lower-casing them in a
  pass changes nothing.

The theorems about a role that never restarts (`NeverRun`) are about the policy
Failed on AnyPod, Succeeded on AllPods, node failures not counted, a fixed spec,
and pods of which none is in the role by the deprecated label alone: the
selection of a role's pods accepts either label, but the index of an observed
pod goes by the first.

## Where the code does not keep what one would expect

- A change of phase that was missed because the refresh failed is not repaired
  by later passes, unless the role runs
  (`CacheRuns.MissedChangeIsNeverRepaired`). The usual case leaves an entry that
  says Running for ever (`CacheRuns.ChangeCanBeMissed`). The exact condition is
  `CacheRuns.AgreesAfterExactly`.
- Validation asks for 2 + n ports, computed in 32 bits. For n up to 2^31-3
  workers of an elastic Bagua job that is right; beyond, any number of ports is
  accepted, a worker gets a port exactly if there are enough
  (`BaguaPorts.WorkerGetsPortsExactly`), and with fewer than two the job panics
  (`BaguaPorts.PanicsExactly`, `BaguaPorts.WrappedValidationPanics`). For 2^31-1
  workers WORLD_SIZE of a static job is negative (`Ranks.BaguaRanksAreBijective`).
- Buckets past the replicas that are empty are filled, so the indices may get
  worse before they get better (`Convergence.RoundPlaces`).
- A lost-pod reason may name an index that has two pods, since crowded buckets
  are not counted: when the restart policy becomes Never while an old pod of the
  index is terminating and its successor runs (`LostPods.CrowdedIndexIsNamed`).
  In a run in which the role always was Never the named indices have no pod
  (`LostPods.NamedIndicesHaveNoPod`).
- A missing replica spec or replica count is reported by dereferencing it, a
  panic (`Ranks.ValidateCreate`, `Ranks.ValidationPanicsExactly`). The common
  defaults fill both in, so this happens only where validation runs without
  them (`Ranks.DefaultedJobNeverPanics`).
- The observer dereferences nil for a status of a role that the spec no longer
  has (`RoleCaches.GetJobCache`), and so does the refresh of a cache entry
  (`CacheRuns.OnRolePhaseChanged`); nothing ever removes such statuses.

## Model

| member | source | states |
|---|---|---|
| Api.NewPodReadsBack | reconciler/pod.go:288-321 | Whatever the template's labels and the job's annotations say, a pod made for a role and index reads back as that role and that index, as label text and as number |
| Api.NewPodCarries | reconciler/pod.go:288-321 | The queue, preemptable and priority annotations of the job become labels of the pod; all other labels are the generated ones, and the template's where none is generated |
| Api.EitherKeysAreRead | reconciler/utils.go:52-73 | Role and index are read alike under the current and the deprecated label keys, and where both are there the current ones are read |
| Decimal.AtoiOfItoa | reconciler/pod.go:115 | Reading back a printed index gives the index, for every 64-bit index |
| Decimal.ItoaInjective | reconciler/phase.go:147-152 | No two indices print alike |
| Decimal.LabelOrderIsNumeric | reconciler/utils.go:205-215 | Comparing printed indices by length and then by bytes is comparing the numbers |
| Pods.FilterPods | reconciler/utils.go:79-88 | The loop keeps exactly the pods that meet the requirement, in order |
| Pods.CalculatePodSliceSize | reconciler/pod.go:130-146 | The size is the larger of the replicas and the largest readable index plus one |
| Pods.GetPodSlices | reconciler/pod.go:107-127 | Slot k of the array holds exactly the pods whose label reads as k, in list order; labels that do not read as numbers are left out |
| Pods.DistinctIndicesGiveSingletons | reconciler/pod.go:195-214 | Pods with distinct indices give buckets of at most one pod |
| Expectations.ControllerExpectations.ResetExpectations | reconciler/expectation.go:36-41 | Both counters of every role's pods and services keys become zero and no other key changes, in whatever order the roles are met |
| Expectations.ControllerExpectations.SatisfiedExpectations | reconciler/expectation.go:43-52 | True exactly when no counter of any role of the job is positive |
| Expectations.ControllerExpectations.DeleteExpectations | reconciler/expectation.go:54-60 | Exactly the keys of the job's roles are gone |
| Expectations.ControllerExpectations.AddObject | reconciler/expectation.go:62-81 | One is taken off the add counter of the role the object is labelled with; an object without a role changes nothing |
| Expectations.ControllerExpectations.DeleteObject | reconciler/expectation.go:83-102 | The same for the del counter |
| NodeManager.Manager.IsNodeDown | reconciler/node/manager.go:45-54 | A node is down exactly when the table has a non-empty entry for it |
| NodeManager.Manager.HandleGeneric | reconciler/node/manager.go:77-97 | The new table, and true exactly when the node carries an unknown condition and had no entry |
| NodeManager.Manager.Handle | controllers/event_handler.go:87-132 | What each kind of event does to the table, and that the node's pods are enqueued exactly on an edge from healthy to down |
| NodeManager.DownIffLatestEventReportsDown | reconciler/node/manager.go:45-101 | Over every event history a node is down exactly when the latest event about it is an update or a generic event with an unknown condition; no stored entry is empty |
| NodeManager.EnqueuedExactlyOnTheEdge | controllers/event_handler.go:87-132 | After every history an event turns a node down exactly when it reports it down and the latest earlier event did not |
| RolePhases.CountersAddUp | reconciler/phase.go:34-63 | Every pod adds to exactly one counter |
| RolePhases.NumberPositive | reconciler/phase.go:34-63 | A counter is positive exactly when some pod is in its state |
| RolePhases.CountersSay | reconciler/phase.go:33-63 | What each counter counts, from the pods' own fields: terminating pods; of the others those in each phase; but one on a node that is down counts as failed if the policy asks, whatever its phase |
| RolePhases.PhaseReading | reconciler/phase.go:160-211 | Exactly when a role ends up Failed, Succeeded, Running or Starting, given the policy as its users read it |
| RolePhases.RecordedReasonIsTruthful | reconciler/phase.go:103-157 | Whatever reason is extracted is true of the counted pods: an alive failed pod, an alive pod on a down node, exactly the labels of the terminating pods, or exactly the indices no pod is labelled with |
| RolePhases.ReasonReading | reconciler/phase.go:103-157 | Which reason is recorded: a failed pod before a node that is down, before terminating pods, before missing ones; and none only if every index is labelled |
| RolePhases.SomeIndexIsMissing | reconciler/phase.go:145-155 | Fewer pods than replicas leave an index no label names (pigeonhole over injective printing) |
| RolePhases.FailureHasTruthfulReason | reconciler/phase.go:84-157 | Every move of a role into Failed records a reason, never an empty one, and it is true of the counted pods |
| PodPass.PassAccounts | reconciler/pod.go:186-260 | On every path through the bucket loop, errors midway included, creations counted are the creations that returned nil and deletions counted the deletions that succeeded |
| PodPass.QuietPass | reconciler/pod.go:195-268 | A pass goes on to recompute the phase exactly when every bucket is one it passes over; it has then made no call at all, and the counted pods are the uncontrolled ones and those alone in their bucket |
| PodPass.CountersMeanIndices | reconciler/pod.go:180-268 | When the phase is recomputed the counters fit the replicas, and one reaches the replicas exactly when every index below them holds exactly one pod in that state |
| PodPass.RunningMeansAllRun | reconciler/phase.go:193-196 | Moving into Running means that every index below the replicas holds exactly one pod: running, not terminating, not on a node counted as failed |
| PodPass.SucceededMeansAllSucceeded | reconciler/phase.go:180-191 | Moving into Succeeded under AllPods means that every index holds exactly one succeeded pod |
| PodPass.RestartingRoleNeverFails | reconciler/pod.go:227-268 | One pass never takes a role with policy Always or OnFailure into Failed, whatever its failure policy, unless node failures count |
| PassOutcome.BucketsHold | reconciler/pod.go:107-186 | A bucket holds the listed pods that either role label puts in the role and whose index it is, living ones only unless the role never restarts; every index of such a pod and every one below the replicas has a bucket |
| PassOutcome.PassCreates | reconciler/pod.go:195-212 | A pass without an error fills an index exactly if its bucket is empty, unless the role never restarts and runs or has finished |
| PassOutcome.PassDeletes | reconciler/pod.go:213-248 | It deletes a pod exactly if the pod is alone at its index, and past the replicas or failed and to be restarted: under Always and OnFailure, and under ExitCode if the code of the first terminated container is retryable |
| PassOutcome.PassCounts | reconciler/pod.go:180-256 | It counts a pod exactly if the pod is alone at its index and not to be restarted, or is terminating in a role that restarts |
| PassOutcome.ExitCodeDecides | reconciler/pod.go:229-253 | Under ExitCode a failed pod alone at a wanted index is deleted exactly if its code is retryable, and counted exactly if not |
| PassOutcome.ExitCodeFailure | reconciler/pod.go:229-268 | Such a role enters Failed only with a counted pod of a code that is not retryable, or on a node that is down if the policy asks |
| PassOutcome.DownNodeFailsRole | reconciler/phase.go:56-61 | A counted living pod on a node that is down fails the role if the policy takes node failures and any pod for a failure |
| PassOutcome.PhaseFromPods | reconciler/phase.go:160-211 | The phase after any pass, from the pods at the wanted indices: unchanged after a call or an error; else by the failure policy, the success policy, whether all run, and, for a role that never restarts and runs, whether an index has lost its single living pod |
| PassOutcome.TerminatingAreCounted | reconciler/pod.go:180-186 | The terminating counter of a role that restarts its pods is the number of its listed terminating pods |
| PodPass.MissingMeansNoSinglePod | reconciler/phase.go:145-155 | The indices a lost-pod reason names are exactly those whose bucket does not hold one pod: it is empty, or crowded and so not counted |
| LostPods.MissingMeansEmpty | reconciler/phase.go:145-155 | Where no two listed pods share an index, they are exactly those at which no pod is listed |
| LostPods.NamedIndicesHaveNoPod | reconciler/phase.go:145-155 | In every run of a role that never restarts, whenever its phase is recomputed, a lost-pod reason names exactly the indices at which no pod is listed |
| LostPods.CrowdedIndexIsNamed | reconciler/pod.go:195-197 | Without that history it may name an index with two pods, one terminating and one running, and the running role fails |
| Reconciler.Reconciler.CreateNewPod | reconciler/pod.go:278-356 | The expectation stays raised exactly when nil is returned: taken back on a refusal, kept on a timeout, never raised when the pod could not be prepared |
| Reconciler.Reconciler.DeletePod | reconciler/pod.go:218-225 | The expectation is raised exactly when the deletion succeeded |
| Reconciler.Reconciler.UpdateReplicaStatus | reconciler/phase.go:49-63 | Exactly one counter grows by one: terminating first, then a down node if it counts, then the pod's own phase |
| Reconciler.Reconciler.UpdateRoleReplicas | reconciler/phase.go:69-81 | The counters are recounted from zero; the phase stays, and a role without a status gets a Pending one |
| Reconciler.Reconciler.ExtractFailedReason | reconciler/phase.go:103-157 | The loops compute the reason the specification gives |
| Reconciler.Reconciler.UpdateRolePhase | reconciler/phase.go:84-101 | Phase and reason of this role only; the reason changes only on a move into Failed |
| Reconciler.Reconciler.ReconcileBucket | reconciler/pod.go:195-260 | One round of the loop does to calls, counted pods and counts what the specification does, and moves the counters of the role's key by as much |
| Reconciler.Reconciler.ReconcileBuckets | reconciler/pod.go:195-260 | The loop up to its end or its first error is the specification's loop |
| Reconciler.Reconciler.ReconcilePods | reconciler/pod.go:150-270 | On every exit the counters of the role's key have moved by exactly the calls that took effect and no other key has; an error leaves the role status alone; otherwise the phase is the one the pass leads to, which is the old one if a call took effect, the counters are those of the counted pods, a move into Failed gives a true reason, and else the reason stays |
| Reconciler.StatusAfterMeans | reconciler/pod.go:262-268 | The same of the status function that a whole pass over all roles is stated with |
| Reconciler.Reconciler.ReconcileJobs | reconciler/job.go:192-196 | An open expectation ends the pass before anything happens; otherwise the roles run their passes in order up to the first that fails, each from the status it had at the start: every role reached has exactly its own effective calls in its counters and the status its pass leaves, every other role zero counters and its old status |
| ClusterSafety.StepKeepsInv | reconciler/pod.go:180-268 | Every step of the environment and of the controller keeps the invariant: records consistent, places held once, unreported creations covered by the add counter, empty buckets still to come free |
| ClusterSafety.AtMostOnePodPerIndex | reconciler/pod.go:180-212 | In every run, however far the cache lags, no two living pods of a role share an index; in a role that is always Never no two pods do, living or not |
| ClusterSafety.CreationMeetsNoHolder | reconciler/pod.go:198-212 | Whenever a pass creates a pod, nothing living and nothing still in flight is at its index; under Never, no pod at all is, not even a cached one |
| ClusterSafety.CounterCoversUnreportedCreations | reconciler/pod.go:338-355 | In every state of every run the add counter is at least the number of created pods the informer has not reported, so the gate stays shut |
| ClusterSafety.GateListsEveryHolder | controllers/aresjob_controller.go:131-135 | A pass that gets through the gate has no unreported creation, and lists every pod that holds a place |
| ClusterSafety.CreatedPodIsNew | reconciler/pod.go:288-321 | The pod the controller describes is one the run model lets a pass create |
| ClusterSafety.ListedIndicesAreNotNegative | reconciler/pod.go:120-124 | If no pod starts with a negative index none ever has one, so the bucket array is never indexed with one |
| NeverRole.PassSettles | reconciler/phase.go:160-211 | One pass over a Never role keeps a finished phase, never lowers the phase's rank, and leaves behind a move into Failed an index that can never run again, behind one into Succeeded only indices that stay succeeded |
| NeverRun.StepKeeps | reconciler/phase.go:160-211 | Every step of a run keeps the invariant that ties the stored phase of a Never role to the cache |
| NeverRun.PhaseNeverFallsBack | reconciler/phase.go:198-211 | Over every run the phase of a Never role only moves from Pending to Starting to Running, Succeeded or Failed |
| NeverRun.FinishedIsForever | reconciler/phase.go:165-191 | Once stored, Failed is for ever, and so is Succeeded |
| NeverRun.StartedRoleGetsNoNewPod | reconciler/pod.go:198-203 | Once the role has started no pod is made for it again, and the indices its pods occupy only shrink |
| RestartingRun.RestartingRoleNeverFailsInRun | reconciler/pod.go:227-268 | In no run does a role that always restarts its pods enter Failed, stored or in progress |
| Convergence.TidyPassCalls | reconciler/pod.go:195-226 | On distinct healthy indices the pass creates once at each empty bucket and deletes once at each full bucket past the replicas, and does nothing else |
| Convergence.RoundPlaces | reconciler/pod.go:195-226 | What one pass on a fresh view leaves: every index below the replicas, and past them the gaps in place of the pods |
| Convergence.MaxFalls | reconciler/pod.go:198-226 | While some index is past the replicas the largest one falls, and afterwards it stays below them |
| Convergence.Converges | reconciler/pod.go:107-268 | As many passes as the largest index exceeds the last wanted one, and at least one, leave exactly the indices below the replicas, and every later pass does too |
| Convergence.ConvergedPassIsQuiet | reconciler/pod.go:262-268 | The next pass makes no call, whatever the API server would answer, and recomputes the phase |
| Convergence.ConvergedRoleRuns | reconciler/phase.go:193-196 | If the pods at those indices all run, the role becomes Running |
| CalmRuns.CalmRoundIsRound | reconciler/pod.go:150-270 | In every run, a pass on a fresh cache whose calls are carried out, while pods only change phase and terminating ones vanish, takes the listing at its start to any listing of the next fresh cache as a round does, whatever the other roles do meanwhile |
| CalmRuns.CalmRunsConverge | reconciler/pod.go:107-268 | In every run, after as many such rounds as the largest index exceeds the last wanted one, and at least one, exactly one living pod is at each index below the replicas and none elsewhere |
| JobPhases.SatisfyPolicy | reconciler/phase.go:251-265 | The nested loops compute the short-circuit search, nil dereferences included |
| JobPhases.GetJobPhase | reconciler/phase.go:250-283 | The job phase, or the panic, that the search order gives |
| JobPhases.SearchPanicsExactly | reconciler/phase.go:251-265 | A search dereferences nil exactly when it gets to a condition that meets a role without a status while all earlier ones match, every earlier condition having failed |
| JobPhases.PhaseIsReading | reconciler/phase.go:250-283 | When every named role has a status the phase is total and is the OR of ANDs: Failed before Succeeded before all roles Running |
| JobPhases.ListingOrderIsIrrelevant | reconciler/phase.go:272-278 | Policies that list the same conditions in another order give the same phase |
| JobPhases.Job.SetJobPhase | reconciler/phase.go:235-247 | Completion and running time are set once |
| JobPhases.Job.UpdatePhases | reconciler/phase.go:217-247 | A missing phase counts as Pending; the phase becomes what the search gives; without a policy no role finishes the job; the completion and the running time are set exactly when the phase changes to a finished one or to Running for the first time, so a finished or running job has them |
| JobPhases.JobPhaseNeverFallsBack | reconciler/phase.go:279-282 | Over any history of role statuses the job phase only moves from Pending to Starting to the rest, and is never Pending after an update |
| JobPolicies.CustomJobPhase | frameworks/custom/custom.go:40-55 | The default policy: fails with any role, succeeds with all, runs when all run; total, and the same in whatever order the roles were met |
| JobPolicies.TensorflowJobPhase | frameworks/tensorflow/tensorflow.go:64-82 | The default policy: fails with any specific role, except workers when there is a chief; succeeds with all of master, chief and worker if there is one; total |
| JobPolicies.PytorchJobPhase | frameworks/pytorch/pytorch.go:40-54 | The default policy: fails with the master or the workers, succeeds with both; with the master alone if there are no workers |
| JobPolicies.BaguaJobPhase | frameworks/bagua/bagua.go:88-140 | The default policy: static as for PyTorch; elastic jobs fail with workers or etcd and succeed with the workers |
| JobPolicies.DaskJobPhase | frameworks/dask/dask.go:155-170 | The default policy: fails with launcher, scheduler, lead worker or workers, succeeds with the launcher |
| JobPolicies.JobOfRestartingRolesNeverFails | frameworks/custom/custom.go:40-55 | In every run, a custom job of roles that restart their pods is never made Failed by its role phases, whenever the job phase is updated |
| Defaults.Draft.CustomSetDefault | frameworks/custom/custom.go:29-71 | Panics exactly on a nil replica spec; otherwise the default spec, with the policy listed in the order the roles were met |
| Defaults.Draft.TensorflowSetDefault | frameworks/tensorflow/tensorflow.go:56-112 | Panics exactly on a nil replica spec of a specific role; otherwise policies, worker restart policy and ports are the default ones |
| Defaults.Draft.SetDefaultPort | frameworks/tensorflow/tensorflow.go:115-143 | The default port is added to the first default container unless it has one |
| Defaults.Draft.PytorchSetDefault | frameworks/pytorch/pytorch.go:40-83 | Never panics; the default spec |
| Defaults.Draft.BaguaSetDefault | frameworks/bagua/bagua.go:80-163 | Panics exactly when a role it dereferences is missing: the master in static mode without a policy, worker or etcd in elastic mode; otherwise the default spec |
| Defaults.Draft.DaskSetDefault | frameworks/dask/dask.go:155-230 | Panics exactly without a scheduler, its replica spec or a launcher; otherwise the default spec |
| Defaults.Draft.Default | api/v1/aresjob_webhook.go:50-112 | All that is given is kept; a role gets one replica, restart policy Never and controller pod where it says nothing, and under Never fails with any pod and succeeds with all; a Pending status for exactly the roles without one, and a Pending phase if there is none |
| Defaults.Draft.SetDefault | controllers/aresjob_controller.go:174-188 | The gate: framework defaults, then common ones, and whether the spec was rewritten |
| Defaults.DefaultsSettle | controllers/aresjob_controller.go:174-188 | For every spec and framework, defaulting again, in whatever order roles are then met, changes nothing and does not panic |
| Defaults.RewrittenAtMostOnce | controllers/aresjob_controller.go:116-123 | However many passes run, only the first can rewrite the spec |
| DefaultedJobs.SilentRoleIsNever | api/v1/aresjob_webhook.go:69-93 | A role that gives no policies, no restart policy and a positive count or none comes out as one of those `NeverRun` is about |
| DefaultedJobs.SilentRoleOfFramework | controllers/aresjob_controller.go:174-188 | The same after the defaults of the custom, PyTorch and Bagua frameworks |
| DefaultedJobs.SilentRoleFinishesForEver | api/v1/aresjob_webhook.go:77-88 | In every run such a role, once finished, is so for ever |
| DefaultedJobs.CustomFills | frameworks/custom/custom.go:29-71 | A missing success policy is AllPods; a missing failure policy is AnyPod under Never and ExitCode and stays missing otherwise |
| DefaultedJobs.TensorflowFills | frameworks/tensorflow/tensorflow.go:56-143 | The same for the specific roles, after workers beside a chief restart on failure unless always; and the first tensorflow container gets port 2222 unless it has one of that name |
| DefaultedJobs.PytorchFills | frameworks/pytorch/pytorch.go:55-83 | Master and worker fail with any pod and succeed with all unless they say otherwise, and a worker waits for the master |
| DefaultedJobs.BaguaFills | frameworks/bagua/bagua.go:88-163 | The same for workers and etcd in elastic mode and workers and master in static mode; a static job with a phase policy of its own is left alone |
| DefaultedJobs.DaskFills | frameworks/dask/dask.go:172-230 | The scheduler restarts on failure, on the host's network, waiting for nothing; lead worker, workers and launcher wait for each other in that order |
| DefaultedJobs.DefaultDependencesDescend | frameworks/dask/dask.go:182-230 | What a framework makes a role wait for starts before it, so default dependences are never circular |
| DefaultedJobs.DefaultedRoleIsValid | api/v1/aresjob_webhook.go:120-139 | After the defaults a role is valid exactly if it has a proper name, a container, a positive 32-bit count or none, and says whom it waits for if it waits |
| RoleCaches.KeyRoundTrip | cache/type.go:40-50 | A cache key reads back as namespace and name exactly when the namespace has no dot |
| RoleCaches.MemoryCache.GetSubCache | cache/memory.go:29-37 | An error once closed; otherwise the job's entries, an empty entry being left behind where there was none, and nothing else changed |
| RoleCaches.MemoryCache.SetRoleCache | cache/memory.go:40-50 | An error exactly on a closed cache; otherwise this entry of this job and no other |
| RoleCaches.MemoryCache.GetRoleCache | cache/memory.go:53-63 | The entry or nil, and no entry changed |
| RoleCaches.MemoryCache.GetJobCache | cache/memory.go:66-74 | All entries of the job, and no entry changed |
| RoleCaches.MemoryCache.DeleteJobCache | cache/memory.go:77-86 | The job has no entries left and other jobs keep theirs |
| RoleCaches.PodLessIsOrder | reconciler/utils.go:196-217 | On pods that carry an index label the comparison is a strict weak order |
| RoleCaches.SortPodsByRoleAndIndex | reconciler/utils.go:196-217 | A rearrangement, ordered if every pod carries an index label |
| RoleCaches.BuildRoleCache | reconciler/phase.go:310-334 | The entry is made from some such rearrangement of the living pods; it has the phase, whether that is Running, and as addresses exactly the non-empty pod addresses of the role's living pods, or their hosts' on the host network |
| RoleCaches.EntryHoldsAddresses | reconciler/phase.go:310-334 | The same of every entry, the observer's included |
| RoleCaches.EntryInOrder | reconciler/phase.go:310-334 | Where every pod has its addresses the i-th one is that of the role's living pod with the i-th index |
| RoleCaches.GetJobCache | observer/observer.go:99-118 | A nil dereference exactly if some status is of a role the spec does not have; otherwise one entry for each role status and no other, made from all pods of the job |
| RoleCaches.EntryIsByIndex | reconciler/phase.go:310-334 | An entry holds the phase, whether it is Running, and the addresses of the role's living pods by ascending index number |
| RoleCaches.OperatorAndObserverAgree | observer/observer.go:99-118 | The operator's entry, from the pods its index finds, and the observer's, from all pods of the job, are equal, whatever the listing orders and whatever else the index finds |
| CacheListing.CachedPodsAreDistinct | reconciler/phase.go:310-334 | In every run, however stale the cache, no two of its living pods share an index of a role |
| CacheListing.ListingIsWellLabelled | reconciler/phase.go:310-334 | So every listing of the cache is one for which the two ways of making an entry agree |
| CacheListing.EntriesAgreeInRuns | observer/observer.go:99-118 | In every state of every run the operator's and the observer's entries of a role are equal: phase, flag, and the addresses of the cached living pods by ascending index |
| CacheRuns.OnRolePhaseChanged | reconciler/phase.go:289-334 | An error exactly when the pods cannot be listed, or the cache is closed and the role is in the spec; a nil dereference exactly when they can be and the role is not; either way nothing changes, and otherwise exactly this entry is set |
| CacheRuns.HandleRolePhases | controllers/job.go:98-121 | Without a dependence in the spec nothing happens; otherwise it ends well exactly if the refresh of every changed or running role does, and all of these then have a fresh entry and the others are as before; if not, it ends as the refresh of the role it stopped at, and only some have |
| CacheRuns.ErrorFreeRunsAgree | controllers/job.go:98-121 | After any number of passes without an error every role that has left Pending has an entry with its phase and the matching flag |
| CacheRuns.AgreesAfterExactly | controllers/job.go:111-115 | Whatever failed before, after a pass without an error a role agrees exactly if its phase changed in it, or it runs, or its entry said so already |
| CacheRuns.RunningIsRepaired | controllers/job.go:111-115 | A running role's entry is repaired by any later pass without an error |
| CacheRuns.MissedChangeIsNeverRepaired | controllers/job.go:111-115 | While a role keeps a phase other than Running no pass touches its entry, whatever it says: it agrees later exactly if it agreed at first |
| CacheRuns.ChangeCanBeMissed | controllers/job.go:111-118 | A run from Pending and an empty cache in which a role starts, is cached and leaves Running while the refresh fails: the entry says Running ever after |
| Ranks.ValidateCreate | api/v1/aresjob_webhook.go:120-139 | Accepts exactly the specs it should; panics exactly when the roles it met before the last one pass and the last one is well named without a replica spec or count |
| Ranks.ValidationPanicsExactly | api/v1/aresjob_webhook.go:120-139 | Some visiting order panics exactly when some well-named role has no replica spec or count, and every order does if that is the only role |
| Ranks.NilCountPanics | api/v1/aresjob_webhook.go:130-134 | A job with one role and no replica count is such a job |
| Ranks.DefaultedJobNeverPanics | api/v1/aresjob_webhook.go:50-139 | After the common defaults no order panics |
| Ranks.BaguaValidate | frameworks/bagua/bagua.go:48-78 | Accepts exactly by role, replica and port count, the last computed in 32 bits |
| Ranks.DaskValidate | frameworks/dask/dask.go:232-266 | Accepts exactly by roles, replicas and default container ports |
| Ranks.BaguaRanksAreBijective | frameworks/bagua/bagua.go:188-233 | In a validated static job RANK is a bijection from master and workers onto as many numbers, and WORLD_SIZE is their number exactly unless the workers are 2^31-1 |
| Ranks.OwnNameAtRank | frameworks/bagua/bagua.go:233-236 | The name at position RANK of the node list is the pod's own |
| Ranks.GetRolesDomainNames | reconciler/utils.go:123-134 | The names of each role's pods in order of role and index |
| Ranks.PodDomainNameLabels | reconciler/utils.go:107-121 | Between its dots a pod's domain name has the pod's name, the service of its job and role, and the namespace |
| Ranks.PytorchRank | frameworks/pytorch/pytorch.go:94-109 | The rank, or the error of an index that is not a number |
| Ranks.PytorchRanksAreBijective | frameworks/pytorch/pytorch.go:85-123 | In a validated job RANK is a bijection onto the numbers below WORLD_SIZE, the master first and the workers by index |
| Ranks.GetWorldSize | frameworks/dask/dask.go:145-153 | The sum over the three ranked roles, in whatever order roles are met |
| Ranks.GetEnvForDaskRole | frameworks/dask/dask.go:94-137 | The scheduler is told only the scheduler's address and port; every other pod also its rank, the world size, and the master's address and port, the lead worker's first port before the launcher's |
| Ranks.DaskRanksAreBijective | frameworks/dask/dask.go:94-153 | In a validated job lead worker, workers and launcher take the ranks below the world size, each once, and exactly rank 0 takes itself for the master |
| Ranks.MasterPortIsRankZeros | frameworks/dask/dask.go:94-137 | In a validated job the master port everyone is told is the first port of the pod with rank 0 |
| Ranks.FirstPortIs | frameworks/dask/dask.go:50-75 | The port of a role is the first port of its first container called dask, if there is one |
| BaguaPorts.SliceHolds | frameworks/bagua/bagua.go:322-330 | Worker i gets the ports at its positions, in bounds and in order |
| BaguaPorts.PortsArePartitioned | frameworks/bagua/bagua.go:322-330 | All but fewer than `replicas` positions lie in the slice of exactly one worker, who gets that port; slices are of equal size |
| BaguaPorts.ValidationAsksForEnough | frameworks/bagua/bagua.go:70-74 | Validation asks for a port each exactly when the worker count is at most 2^31-3; beyond, the number it asks for wraps around |
| BaguaPorts.WorkerGetsPortsExactly | frameworks/bagua/bagua.go:303-330 | A worker of a validated elastic job gets a port exactly if there are at least two more ports than workers; validation has seen to that for up to 2^31-3 workers |
| BaguaPorts.WorkerPortsAreNotEtcds | frameworks/bagua/bagua.go:303-330 | What a worker gets is a stretch of the available ports without the first two |
| BaguaPorts.PodTemplate.AddEnv | frameworks/bagua/bagua.go:165-181 | Every container gets the environment once |
| BaguaPorts.PodTemplate.AddContainerPort | frameworks/bagua/bagua.go:332-355 | The ports are opened on the first container, after those it has |
| BaguaPorts.ToldPortsAreOpened | frameworks/bagua/bagua.go:246-355 | The ports a pod is told are its own are exactly those opened on its container, in order |
| BaguaPorts.WorkersKnowEtcd | frameworks/bagua/bagua.go:246-345 | The etcd ports an elastic worker is told are the ones etcd is told and opens |
| BaguaPorts.PanicsExactly | frameworks/bagua/bagua.go:183-355 | In a validated job the environment panics exactly for workers and etcd of an elastic job with fewer than two ports, and opening ports exactly in such a job; it then has more than 2^31-3 workers |
| BaguaPorts.WrappedValidationPanics | frameworks/bagua/bagua.go:70-74 | Every elastic job with that many workers is valid without a single port, and every worker of it panics |
| Metadata.Diff | reconciler/metadata.go:30-60 | The changes, or nil exactly if there are none |
| Metadata.PatchAligns | reconciler/metadata.go:30-60 | Applied as a JSON merge patch (section 2 of RFC 7396) it makes the filtered keys what is expected and leaves the others alone |
| Metadata.NothingToPatchIffAgree | reconciler/metadata.go:56-58 | The patch is empty exactly when the two already agree |
| Metadata.EveryKeyMatters | reconciler/metadata.go:38-55 | No key of the patch is redundant |
| Metadata.PatchMetadata | reconciler/metadata.go:63-90 | A patch is sent exactly when labels or annotations differ from the job's annotations, and an accepted one makes queue, preemptable and priority of both what the job says, so a second run sends nothing; all other keys stay |
| PodGroups.GangJob.UpdateScheduled | reconciler/podgroup.go:85-99 | The scheduled condition is recorded and stored exactly when the pod group says so and the job does not |
| PodGroups.GangJob.CheckEviction | reconciler/podgroup.go:102-115 | Sure on an evicted pod group, possible on a preempted pod, else neither |
| PodGroups.GangJob.SyncFromPodGroup | reconciler/podgroup.go:37-69 | The action and the stored status |
| PodGroups.Reconcile | controllers/aresjob_controller.go:96-149 | The gates in their order, and whether the framework is reached |
| PodGroups.SyncReading | reconciler/podgroup.go:37-115 | The exact action and the exact status stored, for every pod group that can be read: news of scheduling or of a sure eviction ends the pass, or is an error if it cannot be stored; a recorded or possible eviction only skips the pods |
| PodGroups.ReachesExactly | reconciler/podgroup.go:37-69 | Exactly when a pass gets past the pod group to the framework |
| PodGroups.EvictionIsRecorded | reconciler/podgroup.go:55-68 | A pass that sees an evicted pod group, and whose update is taken, leaves the job evicted |
| PodGroups.EvictionIsAbsorbing | reconciler/podgroup.go:51-54 | Once evicted, no later pass with gang scheduling on and the pod group readable reaches the framework, and the job stays evicted |
| PodGroups.BreaksAgainIffNotRecorded | reconciler/podgroup.go:85-99 | Whether the scheduled update ends the next pass too depends exactly on whether the library recorded the condition |
| PodGroups.ScheduledBreaksAtMostOnce | reconciler/podgroup.go:45-50 | With a library that records, the scheduled update ends at most one pass |

## Left out

- NeverRun.FinishedIsForever: for a role whose pods may carry another role in the deprecated label nothing is claimed, because such pods are counted in one role and expected in another.
- NeverRun.PhaseNeverFallsBack: the same runs are left out.
- NeverRun.StartedRoleGetsNoNewPod: the same runs are left out.
- NeverRun.StepKeeps: the same runs are left out.
- Convergence.Converges: is about rounds, in which what a pass asked for is what happens; that rounds occur in runs, and what then lives, is `CalmRuns.CalmRunsConverge`.
- CalmRuns.CalmRunsConverge: runs in which a pod is in two roles by its two role labels are left out, and so are rounds in which a call fails or a pod of the role is deleted by others.
- RoleCaches.OperatorAndObserverAgree: takes distinct living indices from the listing it is given; that every listing has them is `CacheListing.ListingIsWellLabelled`.
- ClusterSafety.AtMostOnePodPerIndex: the gate and the counters of services are not part of the run model; they could only keep more passes from beginning.
- PodGroups.ScheduledBreaksAtMostOnce: the library's recording of conditions is not visible, so what it must do is a premise, and `PodGroups.BreaksAgainIffNotRecorded` says that it is needed.
- PodGroups.Reconcile: the returns for an invalid definition, an unknown framework, a failed defaulting update and a failed validation are left out; each ends the pass before the gates that matter here.
- RolePhases.RecordedReasonIsTruthful: reasons are structured values; the texts of the messages, and the sorting and cutting short of the lists in them, are not modelled.
- Reconciler.Reconciler.ExtractFailedReason: likewise.
- Reconciler.Reconciler.UpdateRoleReplicas: counters are unbounded, where the original's are 32-bit; the alias of the counters in the library's own job status is left out.
- RoleCaches.MemoryCache.GetJobCache: the returned map is a copy, where the original hands out the live one.
- RoleCaches.SortPodsByRoleAndIndex: stands for the library's unstable sort, of which only the contract is used; lists with a pod that has no index label are only said to be rearranged.
- CacheRuns.HandleRolePhases: a controller without a cache and a job of an unknown framework, for which nothing happens, are not modelled.
- Ranks.GetEnvForDaskRole: ports are numbers, and their printing is left out.
- Defaults.Draft.Default: finalizer, labels and annotations are left out, and so is the default of the API machinery's scheme, which registers nothing for this type.
- Defaults.Draft.SetDefault: a failing update of the job at the API server is left out.
- Label keys are a datatype and label values strings; the keys' texts are not modelled.
- Invalid definitions, finalizing and clean-up of finished jobs: a run is over a valid job that is not being deleted.
- Services, events, logging, HTTP routes, commands, configuration, the work queue and expectation expiry.
- The library's own pass over a finished job, its condition handling and the gang scheduler.
- Init containers, host files and the initializer that waits on dependences.
- The defaults of the standalone, demo and MPI frameworks, and TF_CONFIG.
- Wall-clock times, except that two of them are set once.
- Concurrent access to the memory cache and the node table: each call is one step.
