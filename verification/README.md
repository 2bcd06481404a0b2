# Two controllers over one store: a verified model

This project models the multi-cluster operator's two controllers, ClusterManager and ClusterClaim,
as step-by-step protocols over one shared object store, and proves what they keep, what they
reach and where they fall short, over every run, every interleaving and every fault.

`dafny verify dfyconfig.toml` checks everything.

## How the model is built

**The store.** `Api.World` holds the managers, the claims and the six kinds of Cluster API objects.
`Store` gives each request its meaning as a function. A *plan* decides both what others do and
what fails: every request uses up one *tick*. First the tick's events happen (users, administrators,
CAPI, watch handlers), then the request is served, refused, or served with the answer lost. So a
theorem about all plans is a theorem about all interleavings and all faults. Every entry goes into
a log together with the world it left, so "at every moment" means at every position of the log.
`ApiServers.ApiServer` is the same store as a mutable object; its methods are proved equal to the
functions.

**The controllers.** `ManagerReconcilers` and `ClaimReconcilers` hold the reconcilers as classes with
the branches, early returns, swallowed errors, overwritten results and deferred patches of the Go
methods; each method is proved equal to a function in `Reconciling`, `Observation`, `Watching` or
`Claiming`. Everything else is proved about those functions.

**Runs.** `Safety.Run` alternates arbitrary outside events with reconciles of arbitrary managers;
`Claiming.Play` adds reconciles of claims. Reconciles of the two controllers may be in flight at the
same time: to the one controller a request of the other is an event, which can fall anywhere in a
plan (`Overlaps`). So an overlapping execution is, for a statement about one controller's reconciles,
a run in which the other's requests are events.

**The proofs.** `Traces` shows once which steps a reconcile can take under any plan (reads, creation
of its own children from their templates, resizing, deletion of its own Cluster, and a patch that
writes what the body changed). Invariants are then proved step by step. `Merging`, `Readiness`,
`Approving` and `Answers` say for each operation, and for every plan, what it writes and answers in
terms of what it read, without its own helpers.

## Assumptions

- Reads are linearizable and each controller has one worker. Accordingly no event stands for a write
  of the ClusterManager controller itself in the theorems about its own reconciles.
- A Cluster carries CAPI's finalizer by the time its deletion is requested, so the request marks it
  and CAPI removes it later. A deletion that was requested is never taken back.
- The patch helper sends two merge patches, metadata with spec and then status, each only if it
  differs from the snapshot and each writing only the fields that differ. The list of finalizers is
  one field. The server accepts no new finalizer on an object whose deletion was requested, and
  removes such an object with its last finalizer.
- A nil annotation map and an empty one are the same stored object; writing to it panics. A panic
  ends the fold, and the deferred patch still runs.
- The kubeconfig secret, the remote kubeadm-config, node list and health check are one input per
  reconcile, `Observation.Remote`; the random suffix is part of it.
- Upper-casing is exact for ASCII and for the long s, the only other letter that can produce a
  provider name.
- An update of a claim's status fails if the claim was written since it was read.

## What the proofs found

- A ready manager looks again only if one of three reads failed: of the Cluster while no endpoint is
  annotated, of the control plane, or of the deployment (`Queue.ReadyAsksOnlyOnError`). A child whose
  creation is refused then is forgotten until something else wakes the controller
  (`ParkedRounds.RefusedCreationIsForgotten`).
- An unready manager is parked exactly when the node list fails, those reads do not, and the deferred
  patch goes through (`Queue.ReconcileParksExactly`); one such failure is enough
  (`ParkedRounds.OneFailedNodeListParks`). `Queue.ProvisioningDrives` says exactly when the queue is
  empty while a child is missing.
- The queue of a deleting manager drains before the finalizer is off in exactly one way: the read of
  the Cluster fails, the patch that says Deleting goes through, and nothing wakes it
  (`Draining.DeletionDrives`, with a round that does it in `ParkedRounds.OneFailedReadParksADeletion`).
- A registered manager with our finalizer can never be removed (`Deletion.RegisteredNeverRemoved`).
- The deferred patch carries neither uid nor resourceVersion. If the reconcile read a manager that was
  being deleted but did not say Deleting yet, and its status patch is accepted on a live manager that
  replaced it, the live manager says Deleting, and its phase can then move backward. In every other
  case, replacements in flight included, the phase order holds (`Lifecycle.PhaseOrder`,
  `Recreation.LandedPhaseMovesBack`).
- With notices about the manager delivered, its labels still naming the claim and the claim's cluster
  name kept: if every removal of the manager is handled before the claim's next reconcile starts and
  none happens while one is in flight, or if the manager carries our finalizer and keeps it, creations
  never exceed approvals (`Ledgers.HandledRemovalsNeverOverdraw`). Exactly, a reconcile creates a manager
  without credit if and only if the claim was fulfilled when it was read, the manager was then found
  missing, the server takes the create, and no approval came in between (`Ledgers.OverdrawsExactly`).
  Each proviso is needed: a lost notice, a manager relabelled before its removal, a claim edited to
  another cluster name and a removal in flight all yield a second manager
  (`Overdrafts.LostNoticeRecreates`, `Overdrafts.RelabelledRecreates`, `Overdrafts.RenamedRecreates`,
  `Overdrafts.RemovalInFlightRecreates`).
- The status refresh overwrites the desired size and version of an unready manager with what it
  observes (`Observation.ObservedExactly`), and later phases push that down to the children. The
  comments at controllers/cluster/clustermanager_controller_phase.go:165 and :205 say that the
  manager takes over the children's values; the code does the opposite, and the model follows it.
- A manager becomes ready as soon as a reconcile reads its control plane with replicas, before any
  machine runs; besides that only the health check does it (`Readiness.ReadyHasReasonInRuns`,
  `Readiness.ReadyExactly`).
- The watch handlers go astray for exactly the names that contain the suffix (`Watching.HandlersReach`).
- MergeJson leaves a comma in its caller's first argument, and reads its own comma if the second
  argument shares that byte (`Util.MergeJson`).

## Model

| member | source | states |
|---|---|---|
| ManagerReconcilers.ClusterManagerReconciler.Reconcile | controllers/cluster/clustermanager_controller.go:73-122 | get, snapshot, body, phase, deferred patch: store and answer are those of the specification, for every plan of interleavings and faults, panics included |
| ManagerReconcilers.ClusterManagerReconciler.ReconcileBody | controllers/cluster/clustermanager_controller.go:99-122 | finalizer first, then the branch on deletion and cluster type |
| ManagerReconcilers.ClusterManagerReconciler.ReconcilePhases | controllers/cluster/clustermanager_controller.go:124-165 | the loop with its overwritten result and collected errors is the recursive fold over the list of phases |
| ManagerReconcilers.ClusterManagerReconciler.CreateClusterPhase | controllers/cluster/clustermanager_controller_capi_phase.go:17-89 | the four get-or-create steps are one walk over the control-plane chain, in which a failed read of the third and fourth object does not stop the walk |
| ManagerReconcilers.ClusterManagerReconciler.CreateMachineDeploymentPhase | controllers/cluster/clustermanager_controller_capi_phase.go:91-148 | the three get-or-create steps are one walk over the worker chain |
| ManagerReconcilers.ClusterManagerReconciler.SetEndpointPhase | controllers/cluster/clustermanager_controller_phase.go:139-163 | the annotation is set once the Cluster has a host; waits, errors and the nil-map panic |
| ManagerReconcilers.ClusterManagerReconciler.KubeadmControlPlaneUpdate | controllers/cluster/clustermanager_controller_phase.go:166-203 | size (as int32) and version go down, the manager becomes ready, nil replicas panic, a failed patch is swallowed |
| ManagerReconcilers.ClusterManagerReconciler.MachineDeploymentUpdatePhase | controllers/cluster/clustermanager_controller_phase.go:206-240 | size and version go down; a nil version panics after the new size was patched |
| ManagerReconcilers.ClusterManagerReconciler.UpdateClusterManagerStatus | controllers/cluster/clustermanager_controller_phase.go:25-136 | every early return of the status refresh, with what it has overwritten by then |
| ManagerReconcilers.ClusterManagerReconciler.CountNodes | controllers/cluster/clustermanager_controller_phase.go:69-99 | the node loop leaves the closed-form counts, and panics exactly at the first node without conditions |
| ManagerReconcilers.ClusterManagerReconciler.ReconcileDelete | controllers/cluster/clustermanager_controller.go:167-200 | finalizer off if the Cluster is missing, else delete it and wait |
| ManagerReconcilers.ClusterManagerReconciler.ReconcilePhase | controllers/cluster/clustermanager_controller.go:202-220 | the phase from type, readiness and deletion |
| ManagerReconcilers.ClusterManager.SetTypedPhase | apis/cluster/v1alpha1/clustermanager_types.go:109-111 | changes the phase and nothing else |
| ManagerReconcilers.ClusterManagerReconciler.RequeueForCluster | controllers/cluster/clustermanager_controller_watch.go:33-63 | patches ControlPlaneReady of the manager of the same name |
| ManagerReconcilers.ClusterManagerReconciler.RequeueForKubeadmControlPlane | controllers/cluster/clustermanager_controller_watch.go:66-101 | patches MasterRun of the manager found by splitting the name |
| ManagerReconcilers.ClusterManagerReconciler.RequeueForMachineDeployment | controllers/cluster/clustermanager_controller_watch.go:104-139 | patches WorkerRun of the manager found by splitting the name |
| ClaimReconcilers.ClusterClaimReconciler.Reconcile | controllers/claim/clusterclaim_controller.go:52-92 | store and answer are those of the specification, for every plan and setting |
| ClaimReconcilers.ClusterClaimReconciler.CreateClusterManager | controllers/claim/clusterclaim_controller_phase.go:17-66 | get or create, with labels, annotations, size, version and AWS settings of the claim |
| ClaimReconcilers.ClusterClaimReconciler.RequeueClusterClaimForClusterManager | controllers/claim/clusterclaim_controller.go:94-127 | an approved claim whose created manager was removed becomes ClusterDeleted; every other case changes nothing |
| ApiServers.ApiServer.Patch | controllers/cluster/clustermanager_controller.go:84-94 | the deferred patch as two conditional requests, each merging onto whatever is stored by then |
| ApiServers.ApiServer.PatchChildFrom | controllers/cluster/clustermanager_controller_phase.go:185-199 | the same for a child: only changed replicas and version are written |
| ApiServers.ApiServer.UpdateClaimStatus | controllers/claim/clusterclaim_controller.go:72 | accepted only if the claim is still the one that was read |
| Traces.BodyBuilds | controllers/cluster/clustermanager_controller.go:99-165 | under any plan, a body that does not tear down only reads, creates its own children from their templates and resizes them |
| Traces.TearDownSteps | controllers/cluster/clustermanager_controller.go:167-200 | under any plan, a teardown only reads and deletes its own Cluster |
| Traces.PatchSteps | controllers/cluster/clustermanager_controller.go:88-94 | under any plan, the deferred patch only merges the body's changes into the stored manager |
| Traces.EventTouches | controllers/cluster/clustermanager_controller_watch.go:60 | what any single act of the others can do to one manager |
| Merging.MergeMapAt | controllers/cluster/clustermanager_controller.go:84-94 | key by key: an annotation that the reconcile changed gets the computed value, every other one keeps the stored value |
| Merging.EditsSurvive | controllers/cluster/clustermanager_controller.go:84-94 | under any plan no request of a reconcile changes an annotation, the finalizers, a spec field or a status field that it did not itself change between snapshot and working copy; what it writes is what it computed; labels, AWS settings and the deletion mark it never writes |
| Merging.ForeignNotesSurvive | controllers/cluster/clustermanager_controller.go:84-94 | so under any plan it never erases or changes an annotation other than the endpoint and the suffix |
| Merging.PatchReports | controllers/cluster/clustermanager_controller.go:88-94 | for every plan: a reconcile that read its manager answers without an error exactly if its body did and each request of the deferred patch was confirmed |
| Merging.ControlPlanePush | controllers/cluster/clustermanager_controller_phase.go:166-203 | for every plan: nothing is sent to a control plane that was read as wanted; otherwise one patch, which changes replicas or version only if that field differed when it was read |
| Merging.DeploymentPush | controllers/cluster/clustermanager_controller_phase.go:206-240 | the same for the deployment; without a version it panics, after the size was patched |
| Safety.FinalizerSafety | controllers/cluster/clustermanager_controller.go:84-119 | at every moment of every run, with every fault and with users deleting and handlers patching between a reconcile's read and its patch: each Cluster this controller created has its manager, with the finalizer on it |
| Safety.BodyKeeps | controllers/cluster/clustermanager_controller.go:99-122 | the body never touches labels, AWS settings, phase or endpoint of its copy, and drops the finalizer only in a teardown |
| Lifecycle.NeighboursUntouched | controllers/cluster/clustermanager_controller_capi_template.go:17-208 | a reconcile, with any faults, leaves every other manager and all its children as they are |
| Lifecycle.ReconcileMinds | controllers/cluster/clustermanager_controller_capi_phase.go:17-148 | under any plan every step a reconcile takes itself writes only its manager and that manager's children, and no claim |
| Lifecycle.PhaseOrder | controllers/cluster/clustermanager_controller.go:202-220 | in every run, with managers replaced at any time: the phase of k is legal for its type at every moment, and Deleting only on a manager that is being deleted, if and only if no status patch computed from a deleting manager that did not say so lands on a live one; and then no step moves the phase backward, even when readiness flips back |
| Lifecycle.ReconcileForward | controllers/cluster/clustermanager_controller.go:73-122 | the same equivalence for one reconcile with any plan |
| Lifecycle.UnreplacedNeverLands | controllers/cluster/clustermanager_controller.go:88-94 | only a manager added again while the reconcile is in flight can be landed on |
| Lifecycle.UnreplacedRunsAreOrdered | controllers/cluster/clustermanager_controller.go:88-94 | in every run in which no manager is added again during its own reconcile, no patch lands and the phase order holds |
| Recreation.LandedPhaseMovesBack | controllers/cluster/clustermanager_controller.go:88-94 | a run in which a patch lands on a replacement and the phase of a live manager then goes from Deleting to Provisioned |
| Readiness.PhaseExactly | controllers/cluster/clustermanager_controller.go:202-220 | the new phase of a sane manager is legal, not empty, and the further of the old one and the one that deletion, readiness and type call for |
| Readiness.PhaseInWords | controllers/cluster/clustermanager_controller.go:202-220 | in words: Registering or Registered at first, Registered or Provisioned when ready, Deleting when deleted |
| Readiness.RankIsPhase | controllers/cluster/clustermanager_controller.go:202-220 | within a type the rank of a legal phase determines the phase |
| Readiness.StoredPhase | controllers/cluster/clustermanager_controller.go:84-94 | after every fault-free reconcile, with others editing, reporting and deleting meanwhile, the stored manager is as ready as the body found it and has exactly that phase |
| Readiness.BodyReady | controllers/cluster/clustermanager_controller_phase.go:166-203 | under any plan the body makes a manager ready only if its own read found the control plane with replicas or the health check said ok; a teardown makes it unready |
| Readiness.ReconcileReady | controllers/cluster/clustermanager_controller.go:73-122 | under any plan the request that makes the stored manager ready comes after such a read in the same reconcile, or the health check said ok |
| Readiness.ReadyHasReasonInRuns | controllers/cluster/clustermanager_controller.go:73-122 | so does, in every run, each request of any reconcile that makes k ready |
| Readiness.ReadyExactly | controllers/cluster/clustermanager_controller_phase.go:117-203 | a building body that does not panic ends ready if and only if the health check, if it was made, said ok, or else the manager was ready or the control plane was found |
| Readiness.StoredReadiness | controllers/cluster/clustermanager_controller.go:73-122 | and so does the stored manager after a fault-free reconcile |
| Deletion.DeletionCreatesNothing | controllers/cluster/clustermanager_controller.go:108-119 | in every run after the deletion of a non-registered manager: no child is created or resized, only its own Cluster is deleted, and nothing brings the Cluster or the finalizer back |
| Deletion.DeletionFades | controllers/cluster/clustermanager_controller.go:167-200 | the measure (Cluster present, finalizer present) never increases, at any step of any run, with any faults |
| Deletion.TearDownWaits | controllers/cluster/clustermanager_controller.go:167-200 | a fault-free reconcile of a deleting manager, while others edit it, report on it or remove its Cluster: if it saw the Cluster, that is marked or gone by then, the finalizers stay and it asks to run again; if not, the finalizer is off |
| Deletion.TearDownReleases | controllers/cluster/clustermanager_controller.go:176-185 | with the Cluster gone, a fault-free reconcile takes the finalizer off, whatever others write to the manager besides its finalizers; it disappears exactly if it was the last one |
| Deletion.DeletionEnds | controllers/cluster/clustermanager_controller.go:167-200 | whatever happened before and whatever fails afterwards, one fault-free reconcile after CAPI removed the Cluster leaves nothing to do for good, handlers and edits in flight included |
| Deletion.DeletionCompletes | controllers/cluster/clustermanager_controller.go:167-200 | reconcile, removal, reconcile, with the Cluster also removable in flight: the manager is gone unless another finalizer holds it |
| Deletion.ReleasedStays | controllers/cluster/clustermanager_controller.go:99-102 | a released manager held by other finalizers stays released: later reconciles, with any faults, try in vain to put the finalizer back |
| Draining.TearDownRound | controllers/cluster/clustermanager_controller.go:167-200 | a reconcile of a deleting manager, with any faults, neither asks to run again nor gets the finalizer off if and only if it read the manager, its read of the Cluster failed and the patch that says Deleting went through |
| Draining.DeletionDrives | controllers/cluster/clustermanager_controller.go:167-200 | in every run of rounds, with any faults, the queue of a deleting manager drains with the finalizer on if and only if one round did that and nothing woke the queue |
| ParkedRounds.OneFailedReadParksADeletion | controllers/cluster/clustermanager_controller.go:186-189 | a round that does it |
| Deletion.TearDownAsksAgain | controllers/cluster/clustermanager_controller.go:186-199 | the teardown alone asks to run again exactly if it saw the Cluster |
| Answers.TearDownExactly | controllers/cluster/clustermanager_controller.go:167-200 | for every plan: our finalizer and nothing else goes exactly if the Cluster is read as missing; a found one is deleted with a minute's wait, a failed read ends quietly |
| Deletion.RegisteredNeverRemoved | controllers/cluster/clustermanager_controller.go:108-119 | in every run a registered manager with our finalizer stays in the store |
| Provisioning.MissingNeverGrows | controllers/cluster/clustermanager_controller_capi_phase.go:17-148 | no step of any run takes a child out of the store if no one else does |
| Answers.ControlPlaneWalk | controllers/cluster/clustermanager_controller_capi_phase.go:17-89 | for every plan: which of the four objects a walk tries to create, from what it reads; a failed read of the first two stops it, of the control plane it does not; and when it asks to run again |
| Answers.WorkerWalk | controllers/cluster/clustermanager_controller_capi_phase.go:91-148 | the same for the three worker objects, where every failed read stops it and only a confirmed creation asks again |
| Answers.ReadsExactly | controllers/cluster/clustermanager_controller.go:76-82 | for every plan: what a read of a manager, a claim or a child answers, and that it changes nothing |
| Answers.CreateConfirmed | controllers/cluster/clustermanager_controller_capi_phase.go:24-32 | for every plan: when a creation takes effect and when it is confirmed |
| Provisioning.WalkFillsGap | controllers/cluster/clustermanager_controller_capi_phase.go:17-148 | a fault-free walk over a chain creates its first missing object and nothing else |
| Provisioning.ReconcileFillsGaps | controllers/cluster/clustermanager_controller.go:124-165 | a fault-free reconcile creates exactly the first missing child of each incomplete chain |
| Provisioning.ReconcileShrinks | controllers/cluster/clustermanager_controller.go:124-165 | so each incomplete chain gets shorter by exactly one |
| Provisioning.TendedShrinks | controllers/cluster/clustermanager_controller.go:124-165 | and by at least one if others add children in the meantime |
| Convergence.BoundedProvisioning | controllers/cluster/clustermanager_controller_capi_phase.go:17-148 | any run with four fault-free reconciles, failing ones in between and others adding children at any time, from any subset of children, ends with all seven |
| Queue.ParksExactly | controllers/cluster/clustermanager_controller.go:150-164 | the body of an unready manager ends unready without asking to run again if and only if the node list failed and none of the three reads before it failed or panicked |
| Queue.ReconcileParksExactly | controllers/cluster/clustermanager_controller.go:73-122 | the whole reconcile does so if and only if, besides, the deferred patch went through |
| Queue.RestsExactly | controllers/cluster/clustermanager_controller.go:73-165 | a reconcile of a provisionable manager ends without error, delay or panic if and only if no early read failed or panicked, the status phase has nothing to wait for, and the patch went through |
| Queue.EarlyAnswers | controllers/cluster/clustermanager_controller_phase.go:139-240 | which reads make the phases before the status phase fail, and which make them panic |
| Queue.ReadyAsksOnlyOnError | controllers/cluster/clustermanager_controller.go:150-164 | the body of a ready manager asks to run again if and only if the read of the Cluster (no endpoint annotated), of the control plane or of the deployment failed and none panicked; refused creations do not count |
| ParkedRounds.RefusedCreationIsForgotten | controllers/cluster/clustermanager_controller_capi_phase.go:24-31 | a round in which the creation of a ready manager's Cluster is refused drains the queue with the Cluster missing |
| ParkedRounds.OneFailedNodeListParks | controllers/cluster/clustermanager_controller_phase.go:63-67 | a round in which only the node list fails drains the queue of an unready manager with the control plane missing |
| Queue.BodyObserves | controllers/cluster/clustermanager_controller.go:147-164 | which result survives the fold: the status phase's, unless something failed before it |
| Answers.FoldExactly | controllers/cluster/clustermanager_controller.go:150-164 | the loop over any phases in closed form: without a panic all of them run, the answer is an error if any is, and the result is that of the phase before the first error |
| Answers.OthersAreObserved | controllers/cluster/clustermanager_controller.go:124-165 | the body of a manager not created from a claim sends no request and answers what the refresh answers |
| Answers.NothingToDo | controllers/cluster/clustermanager_controller.go:76-82 | a manager that is gone is no error, one that cannot be read is |
| Answers.EndpointExactly | controllers/cluster/clustermanager_controller_phase.go:139-163 | for every plan: each case of the endpoint phase, its waits and its panic; it annotates the host and leaves every other annotation |
| Answers.WakesExactly | controllers/cluster/clustermanager_controller.go:234-255 | an act of others wakes the queue if and only if it is the first deletion request, a first endpoint, or a write of the controller that brings the finalizer or such an endpoint |
| Queue.FinalizerWakes | controllers/cluster/clustermanager_controller.go:234-255 | the patch that adds the finalizer passes the update predicate |
| Queue.SelfDriven | controllers/cluster/clustermanager_controller.go:99-164 | from a fresh manager on the queue, in every fault-free run, the queue does not drain before all seven children exist, and five rounds are enough |
| Queue.ProvisioningDrives | controllers/cluster/clustermanager_controller.go:73-165 | in every run of rounds of a manager that nobody deletes, with any faults, the queue is empty while a child is missing if and only if one round rested so and nothing woke it |
| Fulfilment.ApprovalCreates | controllers/claim/clusterclaim_controller.go:82-88 | a fault-free reconcile of an approved claim creates its missing manager, fresh and with the claim's values, and asks for nothing more |
| Fulfilment.ApprovedClaimIsProvisioned | controllers/claim/clusterclaim_controller_phase.go:17-66 | through both controllers, without faults: five rounds after the claim's reconcile all seven children exist, the queue does not drain before, and they carry the claim's values as long as the remote version is not read |
| Approving.ClaimLeftAlone | controllers/claim/clusterclaim_controller.go:52-92 | for every plan: a claim that is missing, unreadable, or in any phase but the empty one and Approved is left alone, and so is a new one under AutoAdmit; only the failed read is an error |
| Approving.NewClaimAwaits | controllers/claim/clusterclaim_controller.go:68-76 | for every plan: the one request about a new claim makes it Awaiting, with the reason, if it is still the claim that was read and the request is not refused; the answer is an error unless the server confirmed it |
| Approving.NewClaimIsHeld | controllers/claim/clusterclaim_controller.go:68-76 | without faults and with nobody else writing it, a claim without a phase is Awaiting afterwards, all else is as the others left it, and nothing more is asked for |
| Approving.ApprovedIsServed | controllers/claim/clusterclaim_controller_phase.go:17-66 | for every plan: what an approved claim's reconcile reads, creates and answers |
| Approving.NewManagerCarries | controllers/claim/clusterclaim_controller_phase.go:28-56 | the new manager leads back to its claim, has the claim's owner, creator and values, the domain and nothing else |
| Approving.RemovalCloses | controllers/claim/clusterclaim_controller.go:94-127 | a removal moves the approved claim that the created manager is labelled with to ClusterDeleted, and changes nothing otherwise |
| SteadyState.SteadyStateFixpoint | controllers/cluster/clustermanager_controller_phase.go:166-240 | one quiet reconcile gives both sized children the manager's size (as int32) and version, and a store that the next one leaves as it is |
| SteadyState.RestsForEver | controllers/cluster/clustermanager_controller.go:73-122 | as does any number of further ones |
| SteadyState.QuietReconcile | controllers/cluster/clustermanager_controller.go:73-122 | the whole store after one quiet reconcile, and that it asks for nothing more |
| Wiring.ReferencesResolve | controllers/cluster/clustermanager_controller_capi_template.go:32-206 | at every moment of every run each child refers to the children it should, and with all seven there every reference resolves |
| Wiring.ValuesPropagate | controllers/cluster/clustermanager_controller_capi_template.go:47-184 | at every moment every existing child carries the manager's replicas (as int32), version, region, key and instance type, as long as each reconcile cannot read the remote version, reads a ready manager, or only adds the finalizer or tears down |
| Wiring.ValuesOutlastTheRead | controllers/cluster/clustermanager_controller_phase.go:61 | and in the reconcile that does read it, the manager keeps the values until the deferred patch and the children to its end |
| Wiring.OwnersAreFound | controllers/cluster/clustermanager_controller_capi_phase.go:37-142 | under any faults, a child with an owner is created only after the same reconcile found the owner in the store |
| Wiring.OwnerIsRoot | controllers/cluster/clustermanager_controller_capi_template.go:59-206 | the owner named in a child is the root of its chain |
| Answers.NewChildrenAreBlank | controllers/cluster/clustermanager_controller_capi_template.go:17-208 | a child is created without anything that only its own controller reports |
| Delivery.ClaimReachesChildren | controllers/claim/clusterclaim_controller_phase.go:43-55 | through both controllers, at every moment of every run, the manager and each existing child carry the claim's values, as long as no reconcile has read the remote version |
| Delivery.ClaimOutlastsTheRead | controllers/cluster/clustermanager_controller_phase.go:61 | and in the reconcile that does read it, the manager until the deferred patch, the children to its end |
| Delivery.NothingThere | controllers/claim/clusterclaim_controller_phase.go:24-31 | a store without the manager and its children is a starting point for that |
| Claiming.ReconcileClaimSteps | controllers/claim/clusterclaim_controller.go:52-92 | under any plan a reconcile of a claim only moves it to Awaiting or creates the manager it asked for when it was read |
| Claiming.ApprovedNeverParks | controllers/claim/clusterclaim_controller.go:82-88 | a reconcile that read an approved claim asks to run again, or the manager existed at some moment of it |
| Claiming.HandlerIsAtomic | controllers/claim/clusterclaim_controller.go:104-126 | under any plan the removal handler writes nothing, or does in one step what the removal means for the claims at that moment |
| Claiming.HandlerIsClusterGone | controllers/claim/clusterclaim_controller.go:94-127 | left alone it does do that |
| Ledgers.HandledRemovalsNeverOverdraw | controllers/claim/clusterclaim_controller.go:82-127 | at every moment of every run of both controllers no more managers were created for a claim than it was approved, even if claims share a cluster name, if each removal of its manager is handled before the claim's next reconcile and not made during it, or the manager keeps our finalizer |
| Ledgers.InTimeNeverOverdraws | controllers/claim/clusterclaim_controller_phase.go:19-63 | a reconcile that starts so does not overdraw |
| Ledgers.CreationsNeverExceedApprovals | controllers/claim/clusterclaim_controller.go:82-127 | the same bound for every run in which no reconcile of the claim overdraws |
| Ledgers.OwnReconcile | controllers/claim/clusterclaim_controller_phase.go:19-63 | a reconcile of the claim keeps the books unless it overdraws |
| Ledgers.OverdrawsExactly | controllers/claim/clusterclaim_controller_phase.go:19-63 | a reconcile creates more than its credit at the read of the claim and the approvals since cover if and only if the claim was fulfilled at that read, the manager is found missing, the server takes a create sent then, and no approval comes in between |
| Ledgers.ForeignReconcile | controllers/claim/clusterclaim_controller_phase.go:19-63 | a reconcile of any other claim keeps them, even if it asks for the same cluster |
| Overdrafts.RemovalInFlightRecreates | controllers/claim/clusterclaim_controller_phase.go:27-58 | a removal between the two reads yields a second manager without approval |
| Overdrafts.LostNoticeRecreates | controllers/claim/clusterclaim_controller.go:122-125 | so does a removal whose update of the claim failed |
| Overdrafts.RelabelledRecreates | controllers/claim/clusterclaim_controller.go:173-180 | so does the removal of a manager that lost its labels, which is reported to nobody |
| Overdrafts.RenamedRecreates | controllers/claim/clusterclaim_controller_phase.go:19-24 | so does editing an approved claim to another cluster name |
| Overlaps.ManagerRequestsAreEvents | controllers/cluster/clustermanager_controller.go:73-122 | every request of a manager's reconcile is, to the claim controller, one or two events that its theorems allow in flight |
| Overlaps.ClaimRequestsAreEvents | controllers/claim/clusterclaim_controller.go:52-92 | every request of a claim's reconcile is, to the manager controller, one event that its theorems on finalizer safety, phase order, isolation, provisioning and references allow |
| Overlaps.ClaimRequestsSpareStored | controllers/claim/clusterclaim_controller_phase.go:24-31 | no request of a claim's reconcile touches a stored manager; to its deletion it is an event that the deletion theorems allow |
| Watching.HandlersReach | controllers/cluster/clustermanager_controller_watch.go:76-79 | a handler reaches the manager it was called for if and only if the name does not contain the suffix |
| Watching.RelayIsAtomic | controllers/cluster/clustermanager_controller_watch.go:38-60 | under any plan a handler's own requests write nothing, or its one field in one step onto whatever is stored at that moment |
| Watching.HandlersAreAtomic | controllers/cluster/clustermanager_controller_watch.go:33-139 | so do the three handlers, on their own field of the manager they were called for; deleting children are ignored |
| Watching.HandlersReport | controllers/cluster/clustermanager_controller_watch.go:60-136 | left alone, each handler changes its own status field of that manager and nothing else |
| Watching.RelayIsWrite | controllers/cluster/clustermanager_controller_watch.go:38-60 | a handler that is left alone is one atomic write of its field |
| Watching.HandlersCommute | controllers/cluster/clustermanager_controller_watch.go:98-136 | the two counting handlers, one after the other, commute for any children and counts |
| Watching.HandlersInterleave | controllers/cluster/clustermanager_controller_watch.go:82-136 | one handler's write before the other's read, or between its read and its patch, makes no difference |
| Watching.WritesCommute | controllers/cluster/clustermanager_controller_watch.go:98-136 | the two writes commute in every store |
| Watching.HandlerWritesSurvive | controllers/cluster/clustermanager_controller.go:84-94 | under any plan a reconcile overwrites a handler's field only with a value it computed by changing that very field |
| Watching.BlindReconcilesSpare | controllers/cluster/clustermanager_controller_phase.go:25-67 | until it reads the remote version it overwrites none |
| Naming.UnmapExact | controllers/cluster/clustermanager_controller_watch.go:77-115 | for a suffix without self-overlap, splitting name+suffix returns the name if and only if the name does not contain the suffix, else the part before its first occurrence |
| Naming.ControlPlaneBorderless | controllers/cluster/clustermanager_controller_watch.go:77 | "-control-plane" has no self-overlap |
| Naming.WorkersBorderless | controllers/cluster/clustermanager_controller_watch.go:115 | "-md-0" has no self-overlap |
| Naming.UnmapNeedsBorderless | controllers/cluster/clustermanager_controller_watch.go:77-115 | a suffix that overlaps itself breaks the round trip |
| Naming.ChildKeysIsolated | controllers/cluster/clustermanager_controller_capi_template.go:68-136 | children of two managers never share a key, whatever the names |
| Naming.ChildKeysDistinct | controllers/cluster/clustermanager_controller_capi_template.go:17-208 | the seven keys of one manager are distinct |
| Text.FindIsFirst | controllers/cluster/clustermanager_controller_watch.go:77 | the search behind split and replace finds the first occurrence |
| Text.JoinSplit | controllers/cluster/clustermanager_controller_watch.go:77 | splitting loses nothing |
| Observation.ObservedExactly | controllers/cluster/clustermanager_controller_phase.go:61-135 | a complete refresh in terms of the remote cluster alone: masters plus workers are all nodes, no more run than exist, both providers agree and come from the first recognized node or else the config, readiness is the health check |
| Observation.ProviderNameExactly | controllers/util/util.go:142-154 | letter by letter: AWS for a/A w/W s/S/long s, vSphere for the spellings of vsphere, Unknown for everything else |
| Observation.ObservedProvider | controllers/cluster/clustermanager_controller_phase.go:89-115 | after a complete refresh both provider fields are the spelling of the first node whose scheme spells one, else of the config's cloud provider, else Unknown |
| Observation.ObservedScheme | controllers/cluster/clustermanager_controller_phase.go:89-98 | a first recognized node aws://... makes it AWS, vsphere://... vSphere |
| Observation.CountedExactly | controllers/cluster/clustermanager_controller_phase.go:69-99 | the four counters are the numbers of nodes with or without the master label, and of those whose last condition is Ready |
| Observation.ObservedAnnotations | controllers/cluster/clustermanager_controller_phase.go:131-135 | the refresh sets the suffix if the cluster is up and changes no other annotation |
| Observation.ObserveStops | controllers/cluster/clustermanager_controller_phase.go:25-133 | answer and working copy at each early end of the refresh, panics included |
| Observation.TallyCounts | controllers/cluster/clustermanager_controller_phase.go:69-99 | counts after the loop |
| Observation.ProviderIsFirst | controllers/cluster/clustermanager_controller_phase.go:89-98 | the provider is the first recognized one, and Unknown only if there is none |
| Observation.TallyPanics | controllers/cluster/clustermanager_controller_phase.go:80-85 | what has been overwritten when the loop panics |
| Api.Int32 | controllers/cluster/clustermanager_controller_phase.go:193-194 | Go's conversion to int32: in range, congruent, identity in range |
| Util.ResultMonoid | controllers/util/util.go:21-36 | the zero result is the identity and the minimum is associative |
| Util.CombinedIsMostUrgent | controllers/util/util.go:21-36 | folding any list yields the first result that requeues at once, else a nonzero one with the least delay, else zero |
| Util.CombinedAppends | controllers/util/util.go:21-36 | grouping does not matter |
| Util.MergeJson | controllers/util/util.go:122-127 | on Go slices with shared arrays: panics exactly on an empty argument, yields the intended text if and only if the comma does not land on a byte still to be read, leaves a comma in the first argument and changes nothing before it or beyond its capacity |
| Util.MergedPrints | controllers/util/util.go:122-127 | merging two printed objects prints the concatenated members if and only if both are nonempty |
| Placeholders.SetHyperregistryServiceURI | controllers/util/hyperregistryApicaller.go:28-33 | for every order of the map: some enumeration of its keys replaced in turn; for every well-formed template, token-level substitution |
| Placeholders.SubstitutionIsTokenLevel | controllers/util/hyperregistryApicaller.go:28-33 | any order, even with repetitions, that covers the template's names gives token-level substitution |
| Placeholders.ReplaceFills | controllers/util/hyperregistryApicaller.go:30 | a single replacement fills exactly the placeholder of that name |
| Placeholders.OrderMatters | controllers/util/hyperregistryApicaller.go:29-31 | without a '/' between two placeholders the result depends on the order of the map |

## Left out

- Kubernetes client, informer caches, REST, TLS and kubeconfig parsing: represented by the outcomes of requests and the remote input.
- Stale caches and several workers or replicas: assumed away, see Assumptions.
- YAML and JSON decoding of the kubeadm-config and the regular expression: an optional version and an optional provider string.
- CreateSuffixString and URIToSecretName: randomness, URL parsing and hashing; the suffix is an input.
- SetHyperregistryOIDC and the other HTTP callers: network plumbing.
- Fixed kubeadm and AWS settings in the builders: constants that no property depends on.
- The builders put the addresses of the manager's SSH key and version into the children; the server's answer to a create is taken to repeat what was sent, so this aliasing has no effect and the builders are functions.
- Event filters other than the update predicate of managers and the type filter on removed managers: which watch event reaches a handler is left to the environment.
- Names of labels, annotations and fields that no branch reads, and owner labels of other components.
- Generated code, scheme registration, main, manifests and logging.
- Convergence.BoundedProvisioning: says nothing about other cluster types, which have no children.
- Queue.SelfDriven: a panic counts as leaving the manager on the queue, because the restarted operator lists every manager again.
- Deletion.DeletionEnds: the manager itself disappears only if no other finalizer is on it, and other finalizers are not edited during the closing reconcile.
- Claiming.Play: alternates whole reconciles; overlapping ones are expressed by events, see above.
