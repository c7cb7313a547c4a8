# The reconcile protocol of the Armada operator

The operator installs Armada's services from custom resources: for each of them a controller generates a set of
Kubernetes objects and brings the cluster to them, one client call after the other, each of which may fail. This
project models that protocol and proves what it keeps. Paths below are those of the repository; nothing here runs it.

## How the model is laid out

The work of one Reconcile call, on the heap:

- `Components.dfy` is the struct of generated objects with its shared maps, slices and nested pointers as cells. It has
  the deep copy that makes the snapshot, the function that resets live objects from the snapshot, and the proof that any
  interleaving of resets and cluster reads leaves the snapshot alone and loses nothing that was read.
- `Session.dfy` is one Reconcile call at work: the client (get, create, update, delete, each of which may fail before or
  after taking effect), CreateOrUpdate with the shared mutate function, the wait for a Job, the tolerant delete. Each of
  its methods ties the new store and the calls made to one operation of `Plans.dfy`, and says exactly when it fails. What
  becomes of every call and what the API answers of a Job at that moment are inputs of the client (`fate`, `status`,
  `patience`), so no method body can choose them.
- `Reconcilers.dfy` has the Reconcile functions of Lookout, ArmadaServer, Scheduler, Executor and Binoculars from the
  first upsert on. Each is proved to do a prefix of its plan, the whole plan when it succeeds, and to fail exactly if one
  of its calls fails or the next stage is refused. `LookoutStatus.dfy` has the status update at the end of the Lookout's.
- `Installers.dfy` puts Reconcile calls in a row: each generates its objects anew and works with one client on one
  cluster, where it may fail anywhere.
- `Jobs.dfy`, `ClusterRoles.dfy`, `ObjectDeletion.dfy` and `Finalizers.dfy` have the Job scans and the bounded wait, the
  cluster-scoped objects of an Executor and their clean-up, and the finalizer functions.

What the plans amount to, on values:

- `Stages.dfy` gives the plan of each controller, `Plans.dfy` the meaning of a plan as a function on the store,
  with history independence, retry confluence and idempotence; `InstallOrder.dfy` brings both together and adds the
  order of installation.
- `Settling.dfy` says exactly when a plan settles and exactly when the API server lets it through, and
  `ExecutorPlans.dfy` what that means for an Executor's spec.

Whole runs, as state machines whose steps are those of the user, the caches, the Job controller and the reconcile with
its failures:

- `LookoutProtocol.dfy` with `LookoutInvariants.dfy`, `LookoutQuiescence.dfy`, `LookoutForeignJobs.dfy` and
  `LookoutPartition.dfy`: the migration gate, the create-only partition Job and its status condition; and with
  `LookoutProgress.dfy`: that the controller is never stuck and can always come to rest.
- `ExecutorProtocol.dfy` with `ExecutorSafety.dfy`: the finalizer protocol that keeps cluster-scoped objects from leaking.
  `ExecutorDeletion.dfy` shows that its steps are what the finalizer functions of `ObjectDeletion.dfy` do,
  `ExecutorProgress.dfy` that the controller can always install everything and clean everything up.

Derived objects: `Labels.dfy` (label and annotation merging, selectors), `Networking.dfy` (Services and Ingresses),
`SpecCopies.dfy` (the generated deep copies of the API types).

## What is assumed of the libraries

- CreateOrUpdate gets the object, calls the mutate function, creates the object if it was missing and updates it only if it
  differs. The API server defaults managed fields by a function of these fields.
- A write succeeds only on the stored resourceVersion. An object with a deletion timestamp goes when it has no finalizer.
  The API server refuses an update that changes the roleRef of a ClusterRoleBinding.
- The client decodes an answer into new maps and nested structs, never into those the object in memory has. After a reset
  these are the snapshot's, so this is what keeps the snapshot unwritten.
- SetStatusCondition replaces the condition if its status, reason, message or observed generation differ, and says so.
- The work queue coalesces requests, runs one reconcile per object and requeues on error. Caches deliver versions in order.
- A read within a Reconcile call answers with the object that is stored. The operator's client reads an informer cache
  instead: if that still holds an object equal to the generated one after someone has changed it, the call succeeds
  without its update, and repairs it only in the reconcile of the event to come. The protocols of whole runs do model
  the caches.
- Others may write what the API server allows: `LookoutProgress.UsersAreFree`, `LookoutProgress.JobsAreFree` and
  `ExecutorProgress.OthersAreFree` say that the protocols allow exactly that.
- What a terminal Job condition says is final, and nobody changes the owner references of a Job that exists. One operator
  instance is active.

## Where properties of the design hold only under a condition

- No leak holds while the binding list does not shrink, that is, while every edit keeps the old suffixes
  (`KeysGrowWithSuffixes`). `CleanupIsExact` says exactly when a deletion leaks, and `ShrinkingListLeaks` gives a run: a
  suffix dropped from the spec before the Executor is deleted leaves its binding behind.
- Quiescence does not always mean accuracy: the operator adopts a Job that someone else created and leaves it without an
  owner reference, so its events never reach the work queue (`ForeignJobBreaksAccuracy` is a run from the initial state).
  `AccuracyIff` says exactly when it does, in every run with no condition on it: at rest with a Lookout that asks for
  partitioning, what is reported is accurate if and only if the migration Job stored now is not Complete, or was Complete
  when the controller last read it and the partition Job has the verdict it had then, or was not and the Lookout happens to
  show the partition Job. `QuiescenceImpliesAccuracy` derives accuracy from a condition on the single events of a run,
  which concerns only events that put nothing into the queue, with nothing else queued or to come that does, while the
  controller is at rest or its running reconcile may come to rest without another write (`Harmless`). For changes that come
  to a state of rest this condition is exact (`HarmlessAtRestIff`; `PartitionChangeIsSafeIff` and
  `MigrationReplacementIsSafeIff` spell it out for the two Jobs), and every change that violates it there breaks any run it
  comes to (`HarmfulChangeBreaksAnyRun`). For an event that arrives while a reconcile still runs it is sufficient; whether
  it does harm then depends on what follows, as `AccuracyIff` says.
- A plan settles exactly when no key is both upserted and removed, upserts of one key agree, and defaulting changes
  nothing that is generated and reset (`SettlesIff`). An Executor settles exactly when additional bindings with one suffix
  name one role (`ExecutorSettlesIff`).
- But two roles for one suffix never get that far: their bindings have one name, so the second one is an update of the
  roleRef, which is refused. An Executor reconcile can complete exactly when its spec clashes neither with itself nor with
  the roles of stored bindings (`ExecutorCompletesIff`); otherwise it stops before the Secret, however often it is tried
  (`ClashStopsTheInstall`, `InstallClashing`, and `ClashingSpecIsRefused` for a spec). Changing the role of a suffix that is
  already installed is such a clash too.

## Model

| member | source | states |
|---|---|---|
| Jobs.IsJobFinished | internal/controller/install/common_helpers.go:335-343 | the scan returns true exactly when some condition of type Complete or Failed has status True |
| Jobs.GetTrueJobCondition | internal/controller/install/common_helpers.go:346-354 | returns the earliest condition of the type with status True, and one exactly when one exists |
| Jobs.FirstTrueIsEarliest | internal/controller/install/common_helpers.go:346-354 | what GetTrueJobCondition returns is true, of the type, and preceded by no other such condition |
| Jobs.NewJobTablePartitionedCondition | internal/controller/install/lookout_controller.go:508-526 | the condition is a function of Job name, generation and verdict: Complete wins over Failed, which carries its message; each reason has its status and its text |
| Jobs.ReasonMatchesJob | internal/controller/install/lookout_controller.go:508-526 | Running exactly for an unfinished Job, True exactly for a Complete one, Failed exactly for one that failed and never completed |
| Jobs.WaitForJob | internal/controller/install/common_helpers.go:319-332 | at most timeout over interval reads, none before the first interval; stops at the first error or terminal answer; success only with the caller's Job finished, which holds the last answer |
| Jobs.WaitOutcomeIsUnique | internal/controller/install/common_helpers.go:319-332 | for given answers the wait has one outcome, so what WaitForJob promises leaves nothing open |
| Components.ApiObject.DeepCopy | internal/controller/install/common_helpers.go:83-99 | an equal object with its own maps and nested data, nil maps staying nil |
| Components.CommonComponents.DeepCopy | internal/controller/install/common_helpers.go:73-102 | every component copied, nil where the original is nil, no object shared with the original |
| Components.CommonComponents.ReconcileComponents | internal/controller/install/common_helpers.go:105-193 | live objects of reset kinds share the snapshot's managed fields or are dropped when the snapshot has none; Jobs, PrometheusRule and ServiceMonitor are unchanged; no nil dereferenced, no index out of range, snapshot not written |
| Components.CommonComponents.ResetBindings | internal/controller/install/common_helpers.go:179-184 | the loop over the bindings resets each of them and nothing else |
| Components.ResetsKeepWhatWasRead | internal/controller/install/common_helpers.go:105-193 | after any resets and reads, Jobs, PrometheusRule and ServiceMonitor hold what was read last, status included; other objects all of it but the managed fields, which are the snapshot's after a reset |
| Components.Mutate | internal/controller/install/lookout_controller.go:88-93 | the mutate function as a function on values: every reset role gets the snapshot's managed fields, everything else stays, live pointers and the snapshot included |
| Components.Interleave | internal/controller/install/common_helpers.go:73-193 | snapshot isolation for every interleaving of resets and cluster reads: live pointers and nil-ness never change, the snapshot keeps its values, each live object holds exactly what the events make of it |
| Sessions.Client.Save | internal/controller/install/common_helpers.go:627-642 | creates what was missing, updates what differs, with one call, and makes none otherwise; an update that would change a roleRef is refused; it fails exactly if it is refused or its call fails, and then the store is as before or as after the write |
| Sessions.Session.Fetch | internal/controller/install/common_helpers.go:640 | the first half of CreateOrUpdate: the cluster's object is read over one live object, then the whole graph is reset |
| Sessions.Session.CreateOrUpdate | internal/controller/install/common_helpers.go:627-642 | whatever fails, the store and the calls are as before or as after the one upsert operation of this role, and it fails exactly if one of its calls does or the API server refuses; roles not yet written still hold what was generated; Jobs seen to end still show it |
| Sessions.Session.Upsert | internal/controller/install/common_helpers.go:627-642 | a nil component is skipped, any other one is created or reset; success means the stage took effect, failure that a call failed or the API server refused |
| Sessions.Session.AwaitJob | internal/controller/install/common_helpers.go:319-332 | the result is the one that the answers to its own polls under this Job's key decide: success only if the last of them showed the Job ended and all earlier ones did not, and exactly these conditions stay in the live Job; a timeout only after all polls or the end of the context; the store is not written |
| Sessions.Session.DeleteIfPresent | internal/controller/install/common_helpers.go:659-677 | the object is gone on success, one that was not there counts as deleted, nil is skipped; only a failed call makes it fail |
| Sessions.Session.UpsertPartition | internal/controller/install/lookout_controller.go:147-154 | creates a missing partition Job and changes nothing about an existing one; what it returns is the status that the API answered of an existing Job with its one call, and none of a Job just created; it fails exactly if one of its calls does |
| Sessions.Session.ConditionsOf | internal/controller/install/lookout_controller.go:146-148 | the migration Job still shows what the wait read last, through all mutate calls since |
| Sessions.Begin | internal/controller/install/lookout_controller.go:88-93 | the snapshot is a separate copy of the generated components, from which every later reset works |
| Reconcilers.InstallJobs | internal/controller/install/lookout_controller.go:103-118 | each Job is upserted and seen to end before the next one is touched |
| Reconcilers.ToggleCronJob | internal/controller/install/lookout_controller.go:132-140 | upsert when the flag is on, delete when it is off |
| Reconcilers.ReconcileArmadaServer | internal/controller/install/armadaserver_controller.go:95-158 | follows its plan to the end on success; otherwise as far as it gets, and then one of its calls failed, or the next stage was refused or its Job did not end in time |
| Reconcilers.ReconcileScheduler | internal/controller/install/scheduler_controller.go:93-159 | follows its plan to the end on success; otherwise as far as it gets, and then one of its calls failed, or the next stage was refused or its Job did not end in time |
| Reconcilers.ReconcileExecutor | internal/controller/install/executor_controller.go:112-155 | follows its plan to the end on success; otherwise as far as it gets, and then one of its calls failed, or the next stage was refused or its Job did not end in time |
| Reconcilers.ReconcileBinoculars | internal/controller/install/binoculars_controller.go:91-136 | follows its plan to the end on success; otherwise as far as it gets, and then one of its calls failed, or the next stage was refused or its Job did not end in time |
| Reconcilers.FailsIffStopped | internal/controller/install/lookout_controller.go:95-144 | a reconcile fails exactly if one of its own calls did, the API server refuses the next stage of its plan or the wait of that stage timed out; whatever it waited for was shown to have ended by the answer to a call of its own |
| Reconcilers.InstallLookout | internal/controller/install/lookout_controller.go:95-144 | the Lookout's components in order, with the same reasons to fail; on success every Job was seen to end in this reconcile |
| Reconcilers.ReconcileLookout | internal/controller/install/lookout_controller.go:88-165 | the partition Job is touched only by a reconcile whose own poll showed the migration Job Complete; then the condition of that Job as the API answered of it last, or of one just created, is reported to the stored Lookout, otherwise the stored Lookout is left to the user; it fails exactly if a call does, a stage is refused, or the report fails or comes too late |
| LookoutStatus.LookoutObject.Report | internal/controller/install/lookout_controller.go:156-160 | no call when the Lookout in memory has the condition; otherwise it is stored over the version that was read, or not at all and the reconcile fails, which it does exactly if the call fails or another version is stored |
| LookoutStatus.ReportIsAStep | internal/controller/install/lookout_controller.go:156-160 | what a report may do to the stored Lookout is exactly what the reporting steps of the protocol of whole runs do |
| Installers.Attempt | internal/controller/install/common_helpers.go:627-642 | one Reconcile call of any of the five controllers: store and calls are those of the stages it went through, the API server accepted them, every write comes after the Jobs that gate it, each of which was shown to have ended by the answer to a call of this reconcile; and why it failed, if it did |
| Installers.Install | internal/controller/install/common_helpers.go:627-642 | any number of Reconcile calls with any failures and then one that succeeds, or goes through the plan and fails, leave the store of a single one that does; if a Lookout asks for a partition Job and none is stored in the end, that of a single one without it; and if the API server lets the plan through on the first store, the last one succeeds as soon as its own calls go through and its Jobs end in time |
| Installers.NothingStops | internal/controller/install/common_helpers.go:627-642 | a reconcile of a plan that the API server lets through, whose calls go through and whose Jobs end in time, is stopped nowhere |
| Installers.LastSucceeds | internal/controller/install/lookout_controller.go:146-161 | after any attempts a last one that succeeds leaves the store that the whole plan makes of the first store, and the plan without the partition Job only if no such Job is stored then, be it created by an earlier attempt or by someone else |
| Plans.EachOpAlone | internal/controller/install/common_helpers.go:627-642 | in a complete or aborted reconcile each key ends as if its own operation had run alone |
| Plans.HistoryIndependence | internal/controller/install/common_helpers.go:105-193 | reset kinds end with the generated managed fields whatever was stored, the others are unchanged if they existed, removed objects are gone, other keys untouched |
| Plans.DefaultedAlways | internal/controller/install/common_helpers.go:627-642 | every stored object stays a fixed point of an idempotent defaulting |
| Plans.RetryConfluence | internal/controller/install/common_helpers.go:627-642 | any aborted attempts followed by a complete one leave the store of a single complete attempt |
| Plans.Idempotence | internal/controller/install/common_helpers.go:627-642 | under any defaulting a second run leaves the store equal, creates and deletes nothing; when defaulting changes nothing that is reset it writes nothing |
| Settling.SettlesIff | internal/controller/install/common_helpers.go:627-642 | for every plan and store, a second complete run makes only waits exactly when no key is both upserted and removed, upserts of one reset key agree and defaulting changes none of them |
| Settling.PossibleIff | internal/controller/install/common_helpers.go:179-184 | the API server lets a plan through exactly when bindings under one key agree on their role and those stored already have it |
| Settling.AbortedIsNoObstacle | internal/controller/install/common_helpers.go:179-184 | an aborted attempt neither spoils a plan that could get through nor helps one that could not |
| ExecutorPlans.ExecutorCompletesIff | internal/controller/install/executor_controller.go:112-155 | an Executor reconcile can complete exactly when equal suffixes name equal roles and stored bindings have the roles named |
| ExecutorPlans.ExecutorSettlesIff | internal/controller/install/executor_controller.go:112-155 | after a complete Executor reconcile the next one makes no call exactly when equal suffixes name equal roles and defaulting changes nothing |
| ExecutorPlans.ClashStopsTheInstall | internal/controller/install/executor_controller.go:123-145 | otherwise no reconcile, however far it gets, writes the Secret or the Deployment |
| ExecutorPlans.ClashStays | internal/controller/install/executor_controller.go:123-145 | what a reconcile does on the way neither resolves such a clash nor makes one |
| ExecutorPlans.ClashingSpecIsRefused | internal/controller/install/executor_controller.go:414-434 | a spec with two roles for one suffix: two bindings are created, the third is refused on every store |
| Installers.InstallClashing | internal/controller/install/executor_controller.go:112-155 | every Reconcile call of an Executor that clashes fails, and its Deployment stays as it was found |
| InstallOrder.OpsConsistent | internal/controller/install/lookout_controller.go:95-161 | when components under one key are the same object a plan has one operation per key |
| InstallOrder.ReconcileEffect | internal/controller/install/lookout_controller.go:95-161 | what a complete reconcile of any controller leaves under the key of every component, written or not, and that all other keys are untouched |
| InstallOrder.ReconcileConfluence | internal/controller/install/lookout_controller.go:88-161 | reconciles aborted at any stages, then a complete one, leave what one complete reconcile leaves; one more changes nothing |
| InstallOrder.WritesFollowGates | internal/controller/install/armadaserver_controller.go:110-130 | in every reconcile, however far it gets, nothing but the ServiceAccount, the Secret and the Jobs up to a gating Job is written before that Job was seen to end; so init-pulsar comes after wait-for-pulsar |
| InstallOrder.NothingElseBeforeGates | internal/controller/install/lookout_controller.go:95-161 | so no object but ServiceAccounts, Secrets and Jobs is written or removed before every gating Job was seen to have ended, and no Job before those that gate it |
| InstallOrder.LookoutGated | internal/controller/install/lookout_controller.go:95-161 | the migration Job gates everything after it, the partition Job included |
| InstallOrder.ArmadaServerGated | internal/controller/install/armadaserver_controller.go:102-154 | with PulsarInit on, every Job gates all that comes after it |
| InstallOrder.SchedulerGated | internal/controller/install/scheduler_controller.go:100-154 | the first Job gates all that comes after it |
| InstallOrder.PlaceholderJobNeverSent | internal/controller/install/armadaserver_controller.go:248-260 | with PulsarInit off no call is made on any Job |
| InstallOrder.LookoutEffect | internal/controller/install/lookout_controller.go:132-154 | the CronJob exists exactly when pruning is on, an existing partition Job is kept and a missing one created, the profiling Service is not installed |
| InstallOrder.SchedulerEffect | internal/controller/install/scheduler_controller.go:126-154 | the CronJob exists exactly when the pruner is on, and the profiling Service and Ingress are installed |
| LookoutInvariants.HoldsAlways | internal/controller/install/lookout_controller.go:61-166 | in every state of every run, what a reconcile holds was stored at the versions it read, and the Lookout has one life with growing generations |
| LookoutQuiescence.AccuracyIff | internal/controller/install/lookout_controller.go:146-161 | in every run, with empty queue and idle controller and a live Lookout that asks for partitioning: the versions of both Jobs that the controller last concluded from, and that its status is accurate exactly when the migration Job is not Complete, or was then and the partition Job keeps its verdict, or was not and the Lookout shows the partition Job |
| LookoutQuiescence.QuiescenceImpliesAccuracy | internal/controller/install/lookout_controller.go:146-161 | with empty queue and idle controller a live Lookout with a Complete migration Job has its partition Job and the condition computed from the stored Job, in every run in which events that nobody notices, at rest or about to be, neither change the verdict of the partition Job nor make the migration Job Complete unless the Lookout shows the partition Job |
| LookoutQuiescence.FreshKept | internal/controller/install/lookout_controller.go:633-638 | each step keeps: unless a request is queued or an event to come will queue one, a running reconcile works on the cached Lookout, and a controller at rest or about to be shows what the caches hold |
| LookoutProgress.NoDeadEnd | internal/controller/install/lookout_controller.go:61-166 | a reconcile that works on what is stored always has a next step that is no error, unless the migration Job it waits for is missing or unfinished |
| LookoutProgress.QuiescentIff | internal/controller/install/lookout_controller.go:61-166 | a state is quiescent exactly if neither a delivery nor a step of the operator is possible in it |
| LookoutProgress.ProgressFromAnywhere | internal/controller/install/lookout_controller.go:61-166 | from every reachable state with a request queued or a reconcile running, with the migration Job ended or the Lookout being deleted, deliveries and steps of the operator without an error lead to a quiescent and accurate one: the Lookout is gone if it was being deleted; otherwise it has its finalizer and, if it asks for partitioning and the migration Job is Complete, its partition Job and the condition of that |
| LookoutForeignJobs.HarmlessAtRestIff | internal/controller/install/lookout_controller.go:146-160 | for every change of either Job that comes to an accurate quiescent state: it leads to no inaccurate one exactly when its delivery meets the condition of QuiescenceImpliesAccuracy |
| LookoutForeignJobs.PartitionChangeIsSafeIff | internal/controller/install/lookout_controller.go:147-160 | there, with a Complete migration Job, a change of the partition Job does no harm exactly when the Job is owned or keeps its verdict |
| LookoutForeignJobs.MigrationReplacementIsSafeIff | internal/controller/install/lookout_controller.go:146-148 | in every quiescent state, deleting the migration Job and creating another does no harm exactly when one of them is owned, the new one is not Complete or the Lookout shows the partition Job, as it does if the deleted one was Complete |
| LookoutForeignJobs.HarmfulChangeBreaksAnyRun | internal/controller/install/lookout_controller.go:146-154 | any harmless run at rest can be extended by any change of either Job that is not harmless to a run at rest with a wrong condition |
| LookoutForeignJobs.ForeignJobBreaksAccuracy | internal/controller/install/lookout_controller.go:149-154 | a run in which a partition Job without the owner reference leaves the condition wrong for good |
| LookoutPartition.PartitionJobCreatedOnce | internal/controller/install/lookout_controller.go:147-154 | creations number at most one plus external deletions, and the Job's template never changes while it exists |
| LookoutPartition.PartitionJobWrites | internal/controller/install/lookout_controller.go:147-154 | the operator's one write to the partition Job is its creation where none is stored, in a reconcile that read the migration Job Complete; edits and disabling change no Job |
| LookoutPartition.ProgressNeverGoesBackward | internal/controller/install/lookout_controller.go:156-160 | between any two points of a run without Job deletions a terminal reason stays |
| LookoutPartition.TrueMeansPartitioned | internal/controller/install/lookout_controller.go:508-526 | status True implies that the stored partition Job is Complete |
| LookoutPartition.StatusWritesBounded | internal/controller/install/lookout_controller.go:156-160 | status writes number at most one plus spec edits plus changes of the Job's conditions, so no self-triggered loop |
| LookoutPartition.StatusWriteObservesGeneration | internal/controller/install/lookout_controller.go:511-514 | a status write changes the condition alone and stores the generation of that moment |
| ClusterRoles.CreateAdditionalClusterRoleBindings | internal/controller/install/executor_controller.go:414-434 | one binding per entry, in order, with its name, role and subject |
| ClusterRoles.CreateClusterRoleBindings | internal/controller/install/executor_controller.go:171-201 | every binding is for the custom service account where one is set and for the Executor's own otherwise; their names and roles are those of the Executor and of its additional entries, in order; the names are exactly the keys upserted and deleted |
| ClusterRoles.KeysDistinctIffSuffixesDistinct | internal/controller/install/executor_controller.go:416-418 | the keys of one Executor are distinct exactly when its suffixes are |
| ClusterRoles.Cluster.DeleteExternalResources | internal/controller/install/executor_controller.go:490-511 | role, PrometheusRule and bindings go in this order with one call each, missing ones counting as done; it fails exactly if one of its calls does, and then the first ones are gone and nothing else |
| ClusterRoles.CleanupCoversExternalKeys | internal/controller/install/executor_controller.go:490-511 | without the PrometheusRule, which has an owner reference, the clean-up is exactly the list of cluster-scoped keys the finalizer protocol works with |
| ClusterRoles.Cluster.UpsertExternalResources | internal/controller/install/executor_controller.go:123-131 | success adds exactly the listed objects, failure the first of them and nothing else; it fails exactly if one of its calls does |
| ObjectDeletion.ApiServer.AddFinalizerIfNeeded | internal/controller/install/common_helpers.go:574-587 | no call when the finalizer is there; otherwise it is added to the others, unless the call fails or the object is not current |
| ObjectDeletion.ApiServer.HandleObjectDeletion | internal/controller/install/common_helpers.go:589-624 | the stored object changes only when the clean-up has removed everything, and then by losing this finalizer alone; for a current object that is what happens unless one of its own calls fails, so an interrupted clean-up can be completed |
| ObjectDeletion.ApiServer.CheckAndHandleObjectDeletion | internal/controller/install/common_helpers.go:549-571 | the four cases of deletion timestamp and finalizer, with what a failing call may leave in each: of the stored object, of the clean-up and of the answer to the caller |
| ExecutorDeletion.DeletionHandlingIsARun | internal/controller/install/common_helpers.go:549-624 | what the deletion handling may do is exactly what the Attach, Delete, Detach and Fail steps of the finalizer protocol do, from the start of a reconcile to the end of the handling |
| ExecutorDeletion.RuleAside | internal/controller/install/executor_controller.go:490-511 | but for the PrometheusRule itself, a clean-up that deletes it too may do exactly what one of the cluster-scoped keys alone may do |
| ExecutorSafety.NoLeakAlways | internal/controller/install/executor_controller.go:104-131 | in every state of every run whose binding list never shrinks, a cluster-scoped object implies a stored Executor that carries the finalizer and lists it |
| ExecutorSafety.KeysGrowWithSuffixes | internal/controller/install/executor_controller.go:195-201 | one spec's keys include another's exactly when its suffixes do |
| ExecutorSafety.BinocularsNeverLeak | internal/controller/install/binoculars_controller.go:297-325 | with its two constant names a Binoculars object never leaks, whatever is edited |
| ExecutorSafety.CleanupIsExact | internal/controller/install/executor_controller.go:490-511 | interrupted clean-ups keep the finalizer until one has deleted every listed object; then exactly these are gone, and nothing leaks exactly when every object created was listed |
| ExecutorSafety.ShrinkingListLeaks | internal/controller/install/executor_controller.go:414-434 | a run in which a dropped suffix leaves its binding behind |
| ExecutorProgress.ProgressFromAnywhere | internal/controller/install/executor_controller.go:104-155 | from every reachable state, deliveries and steps of the operator without an error lead to one where a live Executor has its finalizer and all its cluster-scoped objects, and one being deleted has lost all of them and the finalizer, and is gone unless someone else's holds it |
| Labels.MergeMaps | internal/controller/install/common_helpers.go:246-254 | whatever the key order, the right-biased union of the maps |
| Labels.MergedPointwise | internal/controller/install/common_helpers.go:246-254 | a key is there exactly when some map holds it, with the value of the last that does |
| Labels.MergeAssociative | internal/controller/install/common_helpers.go:246-254 | merging merged maps is merging all of them |
| Labels.MergeUnits | internal/controller/install/common_helpers.go:246-254 | nil and empty maps are units in any position |
| Labels.AllLabels | internal/controller/install/common_helpers.go:281-293 | the loop that skips nil maps amounts to release, then the maps, then app |
| Labels.LabelsPointwise | internal/controller/install/common_helpers.go:281-293 | app is always the name, any other key has the last value given, release defaults to the name |
| Labels.SelectorMatchesOwnName | internal/controller/install/common_helpers.go:269-271 | an identity selector matches labels exactly when they were made for the same name, even if the user sets app |
| Labels.LookoutWorkload | internal/controller/install/lookout_controller.go:203-576 | the generated selectors of Deployment and Service match the generated Pods of the Deployment and of the migration Job and neither those of the partition Job nor of the pruner; every Pod keeps the user's labels but app |
| Labels.LookoutSelectors | internal/controller/install/lookout_controller.go:203-210 | the Deployment and Service selectors match the Deployment's Pods and never the partition Job's |
| Labels.BuildIngressAnnotations | internal/controller/install/common_helpers.go:517-543 | the right-biased merge of computed, base, issuer and user annotations |
| Labels.AnnotationPriority | internal/controller/install/common_helpers.go:517-543 | for every key which of the four sources decides it, and when it is absent |
| Networking.BuildIngress | internal/controller/builders/ingress.go:10-58 | an error exactly without hostnames or with a port that is not positive; rule i is for hostname i and TLS covers the hosts of the rules |
| Networking.BuildService | internal/controller/builders/service.go:40-91 | one port under each exposed name and no other; a node port type exactly when a node port is set |
| Networking.NewProfilingComponents | internal/controller/install/common_helpers.go:698-774 | the profiling Service has its one port, the profiling Ingress its name, labels, annotations and path and leads to that Service; asking for it without hostnames or port is an error |
| Networking.LookoutNetwork | internal/controller/install/lookout_controller.go:355-373 | the ports of the Service, node ports included, the names, labels, annotations and rules of the Ingresses, and that they lead to ports the Service has; when generation fails |
| Networking.ArmadaServerNetwork | internal/controller/install/armadaserver_controller.go:505-545 | the same: the gRPC Ingress leads to the gRPC port and the REST one, with its rewrite, to the HTTP port of the Service; when generation fails |
| Networking.SchedulerNetwork | internal/controller/install/scheduler_controller.go:354-373 | the same: the gRPC Ingress leads to the gRPC port of the Service; when generation fails |
| Networking.BinocularsNetwork | internal/controller/install/binoculars_controller.go:327-366 | the same: both Ingresses lead to the HTTP port of the Service; when generation fails |
| SpecCopies.CopyStructs | api/install/v1alpha1/zz_generated.deepcopy.go:382-388 | a slice of structs is copied element by element, each with a pointer of its own, nil and empty kept apart |
| SpecCopies.CopyIngressConfig | api/install/v1alpha1/zz_generated.deepcopy.go:737-758 | an equal value with its own maps and slice, nil and empty kept apart |
| SpecCopies.CopyPrometheusPointer | api/install/v1alpha1/zz_generated.deepcopy.go:1105-1119 | a pointer to a struct is copied with the map and the pointer it holds, nil staying nil |
| SpecCopies.CopyPartitionPointer | api/install/v1alpha1/zz_generated.deepcopy.go:1085-1092 | the deadline is copied into a pointer of its own, nil staying nil |
| SpecCopies.CopyCommon | api/install/v1alpha1/zz_generated.deepcopy.go:344-410 | an equal value that shares no map, slice or pointer with the source, at any depth |
| SpecCopies.CopyLookoutSpec | api/install/v1alpha1/zz_generated.deepcopy.go:985-1050 | an equal spec that shares nothing with the source, the embedded common part included |
| SpecCopies.CopyLookout | api/install/v1alpha1/zz_generated.deepcopy.go:771-777 | metadata, spec and conditions of a Lookout are copied, nothing is shared |
| SpecCopies.CopyExecutorSpec | api/install/v1alpha1/zz_generated.deepcopy.go:644-679 | an equal spec that shares nothing with the source |
| SpecCopies.CopiesAreIndependent | api/install/v1alpha1/zz_generated.deepcopy.go:771-777 | whatever is written to anything a copy of a Lookout reaches is invisible in the original, and the other way round |
| SpecCopies.ExecutorCopiesAreIndependent | api/install/v1alpha1/zz_generated.deepcopy.go:644-679 | the same for an Executor's spec |

## Left out

- Components.CommonComponents.ReconcileComponents: the ten single-pointer blocks are one loop over the roles in source order, and the struct's fields are a map from role to object; Spec, Data, Rules and the like are one managed content value.
- Components.ApiObject.DeepCopy: one class stands for all kinds of objects.
- Sessions.Session.CreateOrUpdate: nobody else writes the managed objects during a reconcile; the API server's defaulting does not depend on the stored object, as the allocation of a cluster IP does.
- Sessions.Session.AwaitJob: as nobody else writes the managed objects during a reconcile, a Job is not deleted while it is waited for; its conditions are whatever `status` answers, poll by poll.
- Sessions.Session.UpsertPartition: the partition Job is passed by value, since no mutate function reaches it.
- Reconcilers.ReconcileLookout: the transition time of the condition is not modelled. It starts after the deletion check, which ObjectDeletion models, and after generation; the same holds for the other Reconcile functions. Parsing of the application config and the failure of a generator are not part of this model, so neither is that ArmadaServer, Executor and Binoculars generate before the deletion check.
- InstallOrder.ReconcileEffect: that components under one key are the same object is assumed, and so are names that are unique across objects of different resources. `ExecutorPlans.dfy` treats the one case in which a spec can break the former.
- Installers.Install: every attempt generates the same components; that generation is a function of the spec, and that the spec is not edited between the attempts, is assumed.
- Settling.PossibleIff: of the immutable fields of stored objects only the roleRef is modelled.
- Plans.HistoryIndependence: in stored objects nil and empty maps are the same.
- LookoutQuiescence.QuiescenceImpliesAccuracy: the transition time of a condition is not modelled; a Lookout is not created again under the same name, carries no finalizer but the operator's and is not stripped of it by the user; caches deliver every version; requeue is unconditional and has no delay.
- LookoutPartition.ProgressNeverGoesBackward: the same restrictions.
- ExecutorSafety.NoLeakAlways: cluster-scoped names are taken to be unique across the cluster; the user does not remove the operator's finalizer.
- LookoutProgress.ProgressFromAnywhere: that the migration Job ends is up to the Job controller, and so is when a step is taken: the run is shown to exist, and no scheduling is modelled.
- ExecutorProgress.ProgressFromAnywhere: the same.
- ExecutorDeletion.DeletionHandlingIsARun: nobody else acts while the handling runs; of the finalizers of others the protocol keeps only whether there are any.
- SpecCopies.CopyCommon: the fields are grouped by what they need and copied group by group; a struct type of the Kubernetes API is a text and one pointer, so what such a type nests deeper is not modelled. The copies return the struct that the source writes to its out argument.
- The bodies of Pod templates, scripts, PromQL rules, probes, affinity, images and resource quantities.
- YAML and JSON conversion, checksums, `cmd/main.go`, metrics, leader election and logging.
- EventIngester, LookoutIngester and SchedulerIngester, which make upserts of the same shape, and the empty Queue controller.
- Webhooks, `api/core`, Helm charts and kustomize files.
- Clocks: time enters only as the number of polls of a wait.
