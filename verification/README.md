# Cluster API Provider Yandex: a verified model of its two controllers

The provider keeps two kinds of Kubernetes objects in step with Yandex Cloud. A `YandexCluster`
owns three linked cloud objects (target group, backend group, application load balancer); a
`YandexMachine` owns one compute instance, and on the control plane one target in the shared
target group. Both controllers work in reconcile rounds against an API server and a cloud that
fail, answer late and change on their own. This project models both as state machines in which
one step is one API call, proves what every run keeps, what undisturbed rounds reach and how
teardown ends, and proves the controller code, written as methods, to be a refinement of them.

## How it is built

| files | content |
|---|---|
| `Basics`, `Api`, `Cloud` | options and call outcomes, the YandexCluster object, the load balancer side of the cloud |
| `Admission`, `MachineAdmission`, `Names` | the three webhooks, the name regular expression, generated load balancer names |
| `ClusterProtocol`, `ClusterSafety`, `ClusterTheorems` | the cluster controller as a state machine, its inductive invariant, properties of every run |
| `ClusterRounds`, `ClusterConvergence`, `ClusterTeardown` | whole rounds: they end, they converge, deletion finishes |
| `ClusterVerdicts` | what cluster rounds answer and store: verdicts, causes of failure, waiting for an active load balancer |
| `AlbBuilders`, `ClusterController` | builders, load balancer service and cluster reconciler as imperative code |
| `FleetProtocol`, `FleetSafety`, `FleetTheorems`, `FleetRounds` | the machine controller for any number of machines sharing one target group |
| `FleetTargets` | which targets of the group nobody has on record, in every run |
| `FleetVerdicts` | what machine rounds answer and store: verdicts, causes of failure, the bootstrap gate, instance states |
| `FleetLosses`, `FleetRuns` | what each losing step costs, and runs that show it |
| `Together` | one cluster and its machines in one history, sharing the cluster's target group |
| `MachineController` | machine scope, compute service, target registration and machine reconciler as imperative code |

Every call has one of three outcomes: success, failure without effect, failure after the effect.
Between any two calls other people may act: users edit, delete and hold objects, load balancers
and instances change status or disappear, accepted deletions finish, other machines' rounds make
their calls, and a controller may crash in the middle of a round. A round works on a copy of the
object and stores the differences with its last patch (machines also patch once in the middle).

In `ClusterController` and `MachineController` a `World` class holds the stored object and the
cloud and records, as a ghost trace, every action taken; its client methods let others interfere
before each call. The methods of the services and reconcilers are proved to leave a trace that is
a run of the state machine, so every property of runs is a property of that code.

## What is assumed

These are hypotheses of the code; each is visible in the model.

- A read of the object returns the last stored version, and one object is not reconciled twice at
  the same time (a round starts only when none is in flight).
- A patch stores all changed fields or none. It fails on a missing object, when the webhook
  rejects it, and when it adds a finalizer to an object being deleted.
- An accepted create is visible by name at once; created ids and granted addresses are not empty;
  an instance id is never used again. A create always makes a new object (it never adopts one).
- A load balancer listens on the requested port and, if one was requested, the requested address,
  and keeps both. In the convergence lemmas the address resolves as IPv4 (`AddressesResolve`).
- Nobody else edits the controllers' finalizers, a stored provider id, a stored status, or cloud
  objects under the cluster's name. A load balancer may be lost at any time; a group goes only
  after an accepted deletion. A new machine has no provider id (`Assumed`; for machines made from
  templates this is proved).
- A user does not change `spec.folderID` (`KeepsFolder`). The webhook does not check it, and
  `ClusterTeardown.FolderEditLeaksExactly` proves that the cluster then leaks.
- A new instance is not given an address that a living instance of its subnet has, nor one that a
  control-plane machine still has on record in its object or in a round (`Assumed`). Addresses of
  machines that are gone are reused freely. The second part is needed even when that machine has
  no living instance, and even when it has lost its finalizer and only somebody else's holds it:
  `FleetLosses.ReissuedAddressIsTakenAway`.
- The address of an instance and the control-plane label of a machine do not change.

## Results that qualify the documentation

- A load balancer lost while the listener address is left open is final, and retries restore the
  full topology exactly when a load balancer exists or may still be made (`RetryConfluence`).
- The cluster round dereferences a nil pointer exactly when the load balancer vanishes between
  its status check and the following read (`DescribePanicsExactlyWhenLost`, `PanicIsReached`).
- A machine can have more than one instance, and an instance can outlive its machine and the
  finalizer: when the provider id is not stored, or the create reports failure, deletion finds no
  provider id and reports "deleted" (internal/pkg/cloud/services/compute/reconcile.go:107-111).
  The number of instances counts exactly these losing steps (`InstancesAreKnownOrLost`), no more
  of them can live without the finalizer (`LivingWithoutFinalizerAreLost`), and each kind of
  step does it in a run (`SecondInstanceIsReached`, `InstanceOutlivesItsMachine`).
- A target can outlive its machine: exactly when its record was lost while it was registered, and
  no machine took it back since (`LeftBehindExactly`, `ZombieIsReached`).
- Dots are removed from generated names, so two legal cluster names can share one load balancer
  name (`DottedNamesCollide`), and deleting one cluster then takes the other's resources
  (`DeletionHitsANeighbourExactly`).
- The comment on `generateName` speaks of names longer than the maximum; the code already hashes
  names of exactly the maximum length, and the model follows the code.

## Model

| member | source | states |
|---|---|---|
| ClusterTheorems.NoResourceOutlivesTheObject | controllers/yandexcluster_controller.go:117-204 | in every run, while a target group, backend group or load balancer of the cluster exists, the stored object has its finalizer; a gone object owns nothing |
| ClusterTheorems.DependencyOrder | internal/pkg/cloud/services/loadbalancers/alb.go:23-129 | in every run an existing load balancer points to an existing backend group and that to an existing target group, neither being deleted, and no name is taken twice |
| ClusterTheorems.OneNameOneType | internal/pkg/cloud/services/loadbalancers/reconcile.go:11-47 | in every run the name and folder used are those of creation, for the object and for the copy of a round, and the type is ALB, so no cluster round takes the NLB or unknown branch |
| ClusterTheorems.ResourcesAreNamedAsSpecified | internal/pkg/cloud/scope/cluster.go:122-149 | in every run the resources are kept in the folder of the spec, under the name the spec gives and, when it gives none, under the one generated for the owning cluster, of 4 to 63 characters and ending in -api |
| ClusterTheorems.EndpointIsWriteOnce | api/v1alpha1/yandexcluster_webhook.go:107-123 | once set, the endpoint survives every sequence of edits and patches; the load balancer spec never changes |
| ClusterTheorems.EndpointAgreesWithStatus | controllers/yandexcluster_controller.go:151-179 | in every run the endpoint is empty or valid, and a Ready object's endpoint equals its recorded listener |
| ClusterTheorems.StrandedNeverCreates | internal/pkg/cloud/services/loadbalancers/alb.go:245-248 | with the endpoint set, no listener address, and no round in flight that began before the endpoint was set, no continuation ever has a load balancer that did not exist before |
| ClusterTheorems.DescribePanicsExactlyWhenLost | internal/pkg/cloud/services/loadbalancers/alb.go:270-295 | a round that saw its load balancer active panics in the next successful read if and only if, among any number of things others did in between, the load balancer vanished |
| ClusterTheorems.TargetGroupIsKept | internal/pkg/cloud/services/loadbalancers/alb.go:94-110 | in every run the target group of a cluster that is not being deleted stays, under the same id |
| ClusterSafety.RunInv | controllers/yandexcluster_controller.go:59-210 | the inductive invariant of object, cloud and round in flight holds in every state of every run |
| ClusterSafety.ReadyRunInv | controllers/yandexcluster_controller.go:151-174 | in every run a Ready object, and every copy of it in a round, has the listener of the existing load balancer as its endpoint |
| ClusterRounds.RoundsEnd | controllers/yandexcluster_controller.go:106-110 | whatever every call answers, a round is over after at most nine calls |
| ClusterRounds.DriveIsRun | controllers/yandexcluster_controller.go:59-111 | an undisturbed round is a run, so the invariant and all run properties apply to it |
| ClusterConvergence.ForwardRound | internal/pkg/cloud/services/loadbalancers/alb.go:133-268 | an undisturbed round leaves both groups, and a load balancer exactly when one existed or may be made; an existing one is kept |
| ClusterConvergence.RetryConfluence | internal/pkg/cloud/services/loadbalancers/alb.go:133-268 | after any run the first undisturbed round leaves the one topology the creation asked for, if and only if a load balancer exists or may be made |
| ClusterConvergence.ReadyRound | controllers/yandexcluster_controller.go:142-179 | with an active or just created load balancer the round ends in success exactly when the endpoint is empty or equal to the listener; the stored object is given in full for both cases |
| ClusterConvergence.TwoRoundsToReady | controllers/yandexcluster_controller.go:114-180 | a fresh cluster with an empty endpoint is not Ready after one undisturbed round and Ready, with the wanted topology, after two |
| ClusterConvergence.ReadyIsAFixedPoint | controllers/yandexcluster_controller.go:166-174 | after any run a round on a Ready cluster with an active load balancer changes nothing and issues no mutating call, but for setting the LoadBalancerReady condition; it changes nothing at all exactly when that is set |
| ClusterConvergence.CompleteClusterIsOnlyRead | internal/pkg/cloud/services/loadbalancers/alb.go:145-267 | while the load balancer exists a round issues no mutating call, whatever its calls answer |
| ClusterConvergence.LostLoadBalancerComesBack | internal/pkg/cloud/services/loadbalancers/alb.go:226-265 | with a listener address in the spec, a load balancer lost after Ready is made again with the same endpoint and the round ends Ready |
| ClusterConvergence.LostLoadBalancerIsFinal | internal/pkg/cloud/services/loadbalancers/alb.go:245-248 | without one every undisturbed round fails, makes no load balancer and only clears the condition of the object |
| ClusterVerdicts.VerdictsSayWhatIsStored | controllers/yandexcluster_controller.go:114-210 | in every run from any state, the verdict of a round tells what its last patch stores: Done with the finalizer dropped or with a cluster declared Ready, RequeueAfter with a cleared condition in a deletion and the conditions kept otherwise, an immediate requeue exactly when the finalizer is added |
| ClusterVerdicts.DoneMeansDone | controllers/yandexcluster_controller.go:201-204 | in every run, after a round that ends in Done the stored object has lost its finalizer if it was being deleted, and else has it, is Ready and agrees with its recorded listener |
| ClusterVerdicts.FailureHasACause | controllers/yandexcluster_controller.go:121-179 | a call makes its round fail if and only if the call fails, the load balancer is lost for good, or it contradicts the listener or the endpoint of the spec; the failure clears the condition, unless the endpoint is contradicted, and changes nothing else |
| ClusterVerdicts.OtherTypesFail | internal/pkg/cloud/services/loadbalancers/reconcile.go:11-34 | with another load balancer type a round fails at once, for reconciling and for deletion |
| ClusterVerdicts.OnlyActiveIsDescribed | internal/pkg/cloud/services/loadbalancers/alb.go:364-376 | in every run a round goes on to read the listener if and only if it looked successfully and found its load balancer active, and comes back later if and only if it looked successfully and did not |
| ClusterVerdicts.CompleteRound | controllers/yandexcluster_controller.go:119-179 | whatever the three existing resources are like, an undisturbed round changes nothing in the cloud; the object and the verdict are decided by whether the load balancer contradicts the listener, is active, and agrees with the endpoint |
| ClusterVerdicts.WaitsUntilActive | controllers/yandexcluster_controller.go:137-140 | after any run, while the load balancer is not active an undisturbed round changes neither object nor cloud and comes back later |
| ClusterConvergence.PanicIsReached | controllers/yandexcluster_controller.go:131-149 | a run from a fresh cluster, with no failing call, whose second round panics |
| ClusterTeardown.TeardownNeverGoesBack | controllers/yandexcluster_controller.go:183-210 | once the object is being deleted and no round that began before is in flight, no action of any run moves load balancer, groups or finalizer backwards |
| ClusterTeardown.AcceptedDeleteAdvances | internal/pkg/cloud/services/loadbalancers/alb.go:65-129 | during a teardown one measure over load balancer, groups and finalizer never rises with a call of the controller, and falls if and only if the call takes effect and asks for something not under way |
| ClusterTeardown.DeleteRound | internal/pkg/cloud/services/loadbalancers/alb.go:42-129 | in every state the invariant allows, an undisturbed delete round makes exactly one request, for the outermost resource left, and comes back later; it makes none for a load balancer that is deleting or stopping; when nothing is left it drops the finalizer and is done |
| ClusterTeardown.TeardownTakesExactly | controllers/yandexcluster_controller.go:191-209 | with n resources present the finalizer is there after n delete rounds and gone after n + 1 |
| ClusterTeardown.FolderEditLeaksExactly | api/v1alpha1/yandexcluster_webhook.go:107-123 | the webhook admits every folder edit, and with nothing in the new place the next deletion leaks if and only if the folder changed |
| ClusterTeardown.DeletionHitsANeighbourExactly | internal/pkg/cloud/scope/cluster.go:122-154 | deleting a cluster whose spec names no load balancer takes away what a neighbour of the folder has under its generated name if and only if the two cluster names agree once cleaned; other names are untouched |
| ClusterController.YandexClusterReconciler.Reconcile | controllers/yandexcluster_controller.go:59-111 | under any interference and failures one reconcile is a run of the state machine that ends between rounds, with its verdict, and no resource without finalizer |
| ClusterController.YandexClusterReconciler.ReconcileNormal | controllers/yandexcluster_controller.go:114-180 | leaves the copy and the verdict the state machine gives for the answers received |
| ClusterController.YandexClusterReconciler.ReconcileDelete | controllers/yandexcluster_controller.go:183-210 | same, for deletion |
| ClusterController.YandexClusterReconciler.AdoptListener | controllers/yandexcluster_controller.go:151-179 | sets endpoint, status and Ready when the endpoint is empty, status and Ready when it equals the listener, and fails with the copy untouched otherwise |
| ClusterController.AlbService.ReconcileTargetGroup | internal/pkg/cloud/services/loadbalancers/alb.go:133-167 | refines its protocol stages: the id found or created is passed on, an error ends the round |
| ClusterController.AlbService.ReconcileBackendGroup | internal/pkg/cloud/services/loadbalancers/alb.go:171-206 | same, with the request carrying the target group id |
| ClusterController.AlbService.ReconcileALB | internal/pkg/cloud/services/loadbalancers/alb.go:209-268 | refines the load balancer stage: mismatch, unrecoverable, create and keep branches |
| ClusterController.AlbService.DescribeALB | internal/pkg/cloud/services/loadbalancers/alb.go:279-295 | refines the description stage, including the nil dereference |
| ClusterController.AlbService.DeleteALBService | internal/pkg/cloud/services/loadbalancers/alb.go:42-62 | deletes in reverse order, going on only when the outer resource is gone |
| ClusterController.AlbService.Reconcile | internal/pkg/cloud/services/loadbalancers/reconcile.go:11-21 | dispatch on the type: only ALB can succeed |
| ClusterController.AlbService.Delete | internal/pkg/cloud/services/loadbalancers/reconcile.go:24-34 | dispatch on the type for deletion |
| AlbBuilders.AcceptedRequestsMakeAChain | internal/pkg/cloud/services/loadbalancers/builders/alb_builders.go:95-342 | the three requests, each built with the id the one before it gave, make a linked chain that listens where the spec says, and touch no other name |
| Admission.EndpointErrors | api/v1alpha1/yandexcluster_webhook.go:168-190 | each complaint is present exactly when its check fails |
| Admission.ValidateCreate | api/v1alpha1/yandexcluster_webhook.go:69-96 | no error exactly for admitted specs, each error exactly for its cause |
| Admission.ValidateUpdate | api/v1alpha1/yandexcluster_webhook.go:99-129 | no error exactly for admitted updates, each error exactly for its cause |
| Admission.HistoryKeepsLoadBalancerAndEndpoint | api/v1alpha1/yandexcluster_webhook.go:69-129 | over every admitted history the load balancer spec is the first one and of type ALB, and the endpoint is write-once and valid |
| Names.ClearString | internal/pkg/cloud/scope/cluster.go:152-154 | the result has only [a-z0-9-], and clean names are unchanged |
| Names.GenerateName | internal/pkg/cloud/scope/cluster.go:139-149 | 4 to 63 characters, all in [a-z0-9-], ending in -api |
| Names.ShortNamesCollideExactly | internal/pkg/cloud/scope/cluster.go:139-149 | two names that need no hashing collide if and only if they agree after cleaning |
| Names.RemovedCharactersLeaveNoTrace | internal/pkg/cloud/scope/cluster.go:152-154 | a character outside [a-z0-9-] leaves no trace, wherever it stands; with clean names unchanged this decides every result |
| Names.LongNamesCollideExactly | internal/pkg/cloud/scope/cluster.go:147-148 | two hashed names of 28 characters collide if and only if the first sixteen digits of the digests agree |
| Names.CleanNamesAreInjective | internal/pkg/cloud/scope/cluster.go:139-145 | on clean names of at most 59 characters the generated name determines the cluster |
| Names.DottedNamesCollide | internal/pkg/cloud/scope/cluster.go:152-154 | two distinct legal names with one load balancer name |
| FleetTargets.LeftBehindExactly | internal/pkg/cloud/services/compute/reconcile.go:85-149 | in every run a target in the group is on record with no machine that has its finalizer if and only if some machine lost its record while it was registered, and since then it neither was put on record again nor left the group |
| FleetTargets.NoZombieTargets | internal/pkg/cloud/services/compute/reconcile.go:85-149 | in every run, with addresses reused once they are free, the targets are distinct and each is on record with a control-plane machine that has its finalizer if and only if it is no such open loss |
| FleetTargets.CarefulMachineLeavesNothing | internal/pkg/cloud/services/compute/reconcile.go:116-149 | a machine that never lost the record of a registered target leaves none behind, whatever crashes and failures it and others had |
| FleetTargets.CarefulRunsAreClean | internal/pkg/cloud/services/compute/reconcile.go:85-97 | all targets are on record if and only if no loss is open |
| FleetTheorems.MachinesDoNotDisturbEachOther | internal/pkg/cloud/services/loadbalancers/alb.go:298-351 | a call of one machine changes no other machine and no target that another machine has on record |
| FleetTheorems.ReadyMeansRegistered | internal/pkg/cloud/services/compute/reconcile.go:73-97 | in every state, a Ready control-plane machine that is not being deleted has its recorded pair in the group, as long as the group was kept |
| FleetTheorems.DeregisteredBeforeDelete | internal/pkg/cloud/services/compute/reconcile.go:142-149 | in every run, when an instance deletion is about to be requested, the machine's recorded pair is not in the group |
| FleetTargets.FinalizerGoesLast | controllers/yandexmachine_controller.go:192-199 | in every run the instance that a machine without its finalizer knows is gone; while its object is there its target is not in the group, and later that address in the group is another machine's or an open loss |
| FleetTheorems.LivingWithoutFinalizerAreLost | internal/pkg/cloud/services/compute/reconcile.go:107-131 | in every run a machine without its finalizer has at most as many living instances as it took losing steps: a create that works and reports failure, or a crash or unstored last patch with a new provider id in the copy |
| FleetTheorems.NoRoundPanics | internal/pkg/cloud/services/compute/reconcile.go:181-205 | in every run the first interface exists wherever it is indexed: a recorded address implies it |
| FleetTheorems.InstancesAreKnownOrLost | internal/pkg/cloud/services/compute/reconcile.go:29-71 | in every run the number of instances ever made for a machine is the number of its losing steps, plus one if it knows one, and the id it knows is one of them |
| FleetTheorems.CarefulMachineIsClean | internal/pkg/cloud/services/compute/reconcile.go:29-131 | a machine that never took such a step has at most one instance ever, and while that lives, the machine knows it and has its finalizer |
| FleetTheorems.KnownIdsArePrefixed | internal/pkg/cloud/scope/machine.go:109-120 | in every run each provider id is the prefix followed by the id read back from it |
| FleetSafety.ProviderIdRoundTrip | internal/pkg/cloud/scope/machine.go:117-181 | the instance id read from a provider id is the one written |
| FleetSafety.CallIsolated | internal/pkg/cloud/services/loadbalancers/alb.go:298-362 | one machine's call leaves other machines' instances as they are, and every target another machine may still act on |
| FleetSafety.AddThenRemove | internal/pkg/cloud/services/loadbalancers/builders/alb_builders.go:109-136 | an add request followed by the remove request of the same pair gives back the group, in order |
| FleetSafety.FleetRunInv | controllers/yandexmachine_controller.go:65-200 | the inductive invariant holds in every state of every run of any number of machines |
| FleetRounds.LocalRoundIsFleetRun | controllers/yandexmachine_controller.go:65-144 | an undisturbed round of one machine is a run of the fleet |
| FleetRounds.MachineRoundsEnd | controllers/yandexmachine_controller.go:139-143 | whatever every call answers, a machine round is over after at most six calls |
| FleetRounds.NewMachineBecomesReady | controllers/yandexmachine_controller.go:147-180 | a machine without an instance is Ready, registered and with exactly one more instance after two undisturbed rounds with the boot between them |
| FleetRounds.RunningBecomesReady | internal/pkg/cloud/services/compute/reconcile.go:73-97 | one undisturbed round makes a machine with a running instance Ready with its address, and registered on the control plane |
| FleetRounds.RunningIsAFixedPoint | controllers/yandexmachine_controller.go:166-174 | after any run a round on a Ready machine whose instance runs is done, and changes at most the two reports of the instance's state, nothing at all exactly when these already say that it runs |
| FleetRounds.FirstDeleteRound | internal/pkg/cloud/services/compute/reconcile.go:133-149 | while the instance it knows lives one round removes the recorded target and no other, requests the deletion, keeps the finalizer and comes back later |
| FleetRounds.LastDeleteRound | internal/pkg/cloud/services/compute/reconcile.go:107-131 | when the instance it knows is gone, or it knows none, one round removes the recorded target and no other, drops the finalizer and is done |
| FleetRounds.MachineTeardownTakesExactly | controllers/yandexmachine_controller.go:183-200 | the finalizer survives the first round exactly when the instance the machine knows lives, even one already being deleted, and is gone after the second; the group loses exactly the recorded target |
| FleetRounds.CreatesWhenUnknown | controllers/yandexmachine_controller.go:147-160 | whatever its calls answer, a round makes an instance if and only if the bootstrap data is ready, no provider id is stored, the finalizer could be stored and the create takes effect |
| FleetRounds.WaitingDeleteRound | internal/pkg/cloud/services/compute/reconcile.go:133-140 | with an instance already being deleted a round only records that, touches neither group nor instance, and comes back later |
| FleetVerdicts.NothingBeforeBootstrap | controllers/yandexmachine_controller.go:157-160 | in every run a machine whose bootstrap data was never ready has no instance, has lost none and knows none |
| FleetVerdicts.UnreadyRound | controllers/yandexmachine_controller.go:147-160 | until then an undisturbed round stores the finalizer, nothing else, and is done |
| FleetVerdicts.VerdictsSayWhatIsStored | controllers/yandexmachine_controller.go:147-200 | in every run the verdict of a round tells what its last patch stores: a delete round that is done drops the finalizer and its known instance is gone, one that comes back has recorded the instance's status; a forward round that is done leaves a Ready machine, or only the finalizer, one that comes back has recorded the instance's status, as a failure unless the instance is on its way |
| FleetVerdicts.FailureHasACause | internal/pkg/cloud/services/compute/reconcile.go:29-98 | in every run a call makes its round fail if and only if it fails, the first patch is refused, the running instance has no single address, the group is missing for a registration, or it has been replaced before the target was added or removed; a failed create, lookup or address is recorded in the conditions and no other failure touches the copy |
| FleetVerdicts.ForwardRoundReports | internal/pkg/cloud/services/compute/reconcile.go:44-97 | a round on an instance that is missing, not running, without a single address or not to be looked up changes nothing in the cloud and stores exactly that; failure is set if and only if it was, or the instance is missing or in a state other than starting and provisioning |
| FleetVerdicts.FailedCreateRound | internal/pkg/cloud/services/compute/reconcile.go:31-37 | a create that fails is recorded, with no id, and the round fails |
| FleetLosses.NextRoundShowsTheLosses | controllers/yandexmachine_controller.go:132-155 | after any run the next undisturbed round leaves one instance and one more for each losing step of the machine's past |
| FleetLosses.LosingAnInstanceLeavesIt | internal/pkg/cloud/services/compute/reconcile.go:107-111 | after any run, a round that ends unstored with a new provider id and then the deletion of the machine leave no finalizer, and the instance alive if and only if it was |
| FleetLosses.UnreportedInstanceLivesOn | internal/pkg/cloud/services/compute/reconcile.go:31-37 | the same for a create that works and reports failure, however its round ends |
| FleetRuns.SecondInstanceIsReached | internal/pkg/cloud/services/compute/reconcile.go:31-41 | for each of the three losing steps a run from an empty fleet with one such step and two instances |
| FleetRuns.InstanceOutlivesItsMachine | internal/pkg/cloud/services/compute/reconcile.go:107-111 | for each of them a run from an empty fleet at whose end machine and finalizer are gone and the instance lives |
| FleetLosses.LosingARecordLeavesAZombie | internal/pkg/cloud/services/compute/reconcile.go:193-200 | after any run, losing the record of a registered target in either way and then deleting the machine leave a target nobody answers for |
| FleetLosses.LostRecordStays | internal/pkg/cloud/services/compute/reconcile.go:193-200 | the target of a lost record outlives the finalizer if and only if it was registered |
| FleetLosses.DeletionKeepsZombies | internal/pkg/cloud/services/compute/reconcile.go:101-150 | after any run, deleting a machine takes out the target it has on record and no other, and neither makes nor removes targets nobody has on record |
| FleetRuns.ZombieIsReached | internal/pkg/cloud/services/compute/reconcile.go:85-97 | for a crash and for a failed patch a run from an empty fleet at whose end machine, finalizer and instance are gone and the target is left behind |
| FleetLosses.ReissuedAddressIsTakenAway | internal/pkg/cloud/services/loadbalancers/alb.go:315-350 | if the cloud gave a new machine an address another machine still has on record, the deletion of that other machine would remove the target of the Ready new one |
| FleetRuns.ReissueIsReached | internal/pkg/cloud/services/loadbalancers/alb.go:315-350 | a run from an empty fleet up to that point, in which no living instance has the address |
| Together.ReadyMachinesAreInTheClustersGroup | internal/pkg/cloud/services/compute/reconcile.go:85-97 | in every history of a cluster and its machines, while the cluster is not being deleted, each Ready control-plane machine that is not being deleted has its target in the cluster's own group |
| Together.MachineRoundsReadTheImplementedType | internal/pkg/cloud/services/loadbalancers/reconcile.go:50-73 | in every history the load balancer type that machine rounds read from the cluster is ALB, so registration never takes the branches that only fail |
| MachineController.YandexMachineReconciler.Reconcile | controllers/yandexmachine_controller.go:65-144 | under any interference and failures one reconcile is a run of the fleet that ends between rounds, with its verdict, and never panics |
| MachineController.YandexMachineReconciler.ReconcileNormal | controllers/yandexmachine_controller.go:147-180 | stores the finalizer before anything is made, then leaves the copy and verdict of the state machine |
| MachineController.YandexMachineReconciler.ReconcileDelete | controllers/yandexmachine_controller.go:183-200 | drops the finalizer from the copy only when the instance it knows is gone or it knows none |
| MachineController.YandexMachineReconciler.ActOnStatus | controllers/yandexmachine_controller.go:166-179 | the status decides about Ready, failure and the verdict as in the state machine |
| MachineController.RecordedAddressIsThePair | internal/pkg/cloud/services/compute/reconcile.go:162-190 | the address recorded for an instance, with the subnet of the first interface of the spec, is the pair the instance has in the cloud |
| MachineController.ComputeService.Reconcile | internal/pkg/cloud/services/compute/reconcile.go:23-98 | refines create, lookup, address and registration; on success an instance status is set |
| MachineController.ComputeService.Delete | internal/pkg/cloud/services/compute/reconcile.go:101-150 | refines lookup, deregistration and deletion; true only when the known instance is gone, or none is known, and no recorded target is left |
| MachineController.ComputeService.RegisterControlPlane | internal/pkg/cloud/services/compute/reconcile.go:181-190 | refines registration; indexing the first interface is safe by the invariant |
| MachineController.ComputeService.DeregisterControlPlane | internal/pkg/cloud/services/compute/reconcile.go:193-205 | refines deregistration; nothing to do without an address |
| MachineController.TargetService.AddTargetALB | internal/pkg/cloud/services/loadbalancers/alb.go:298-322 | refines registration: an existing target is kept, a missing group is an error |
| MachineController.TargetService.RemoveTargetALB | internal/pkg/cloud/services/loadbalancers/alb.go:325-351 | refines deregistration: a missing group or target is success |
| MachineController.TargetService.AddTarget | internal/pkg/cloud/services/loadbalancers/reconcile.go:50-60 | dispatch on the type: an unsupported type fails and leaves the group as it is |
| MachineController.TargetService.RemoveTarget | internal/pkg/cloud/services/loadbalancers/reconcile.go:63-73 | same, for removal |
| MachineController.IsAddressRegisteredALB | internal/pkg/cloud/services/loadbalancers/alb.go:354-362 | true exactly when the (address, subnet) pair is among the targets |
| MachineController.MachineScope.InterfaceRequests | internal/pkg/cloud/scope/machine.go:205-220 | one request per interface, in order, with its subnet, and an external address exactly where asked |
| MachineController.MachineScope.GetInstanceReq | internal/pkg/cloud/scope/machine.go:183-251 | a request that is built asks for every interface in order and for the rest of the spec as it is |
| MachineController.MachineScope.SetProviderID | internal/pkg/cloud/scope/machine.go:117-120 | afterwards the instance id read back is the one set |
| MachineAdmission.BoundedNameMatchesExactly | api/v1alpha1/yandexmachinetemplate_webhook.go:36-42 | the expression accepts exactly 1 to inner + 2 characters of [-a-z0-9], first a letter, last a letter or digit |
| MachineAdmission.TemplateNamesLeaveRoom | api/v1alpha1/yandexmachinetemplate_webhook.go:36-42 | an accepted name with a hyphen and five characters is a label of at most 63 characters, and among names not ending in a hyphen only accepted ones give a label |
| MachineAdmission.ValidateTemplateCreate | api/v1alpha1/yandexmachinetemplate_webhook.go:64-85 | each complaint exactly for its cause, none exactly for admitted templates |
| MachineAdmission.ValidateTemplateUpdate | api/v1alpha1/yandexmachinetemplate_webhook.go:88-114 | accepted exactly when the specs are equal |
| MachineAdmission.TemplatesNeverCarryProviderId | api/v1alpha1/yandexmachinetemplate_webhook.go:64-114 | over every admitted history no version carries a provider id, so machines made from it start as the fleet assumes, and their names are legal labels |
| MachineAdmission.ValidateMachineUpdate | api/v1alpha1/yandexmachine_webhook.go:62-92 | accepted exactly when the specs agree apart from the provider id, by comparing unstructured maps after deleting that key in both |
| MachineAdmission.FieldsDecide | api/v1alpha1/yandexmachine_webhook.go:78-89 | comparing the maps without the key decides the comparison of the specs without the field |
| MachineAdmission.HistoryKeepsInterfaces | api/v1alpha1/yandexmachine_webhook.go:78-89 | over every admitted history the spec apart from the provider id is the first one, so registration and deregistration use one subnet |

## Left out

- Network load balancers: their functions only return an error; the model proves that branch unreachable for clusters and lets it fail for targets.
- Logging, metrics, the paused annotation, owner and cluster lookups, watches, and the mapping from clusters to machines: when a lookup fails no round starts.
- Labels, descriptions, log options, load balancing mode and locality of requests, which decide nothing.
- Other people's finalizers are one flag, `held`.
- Condition reasons, messages and timestamps; failure reason and message are one flag, `failed`.
- Bootstrap data and quantities: when they cannot be read or parsed, the create counts as failed without effect.
- The digest of a cluster name is a parameter of 64 hexadecimal characters, so nothing is said about which names are hashed alike, only that the first sixteen digits decide it.
- Address parsing and DNS are an arbitrary `Resolver` for each webhook call; error decoding is the choice between found, missing and error.
- Adding and removing a target takes effect at once, or not at all; a deletion in progress of a group is invisible to the controller.
- Integer widths: ports are integers restricted by the schema and the webhook, 1 to 65535, before any conversion.
- One object lives once: creating a second object of the same name after deletion is not modelled.
- Two cluster objects in one state: what one deletion does to a neighbour is stated on the cloud the two share, without the neighbour's own rounds.
- The parts of a machine spec that are neither provider id nor interfaces are one field, `others`.
- ClusterTeardown.TeardownTakesExactly: starts from a load balancer that is not stopping or being deleted, because a stopping one is waited for and not deleted.
