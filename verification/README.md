# The AIStore operator's reconcile protocol, verified

A Dafny model of how the AIStore operator drives a cluster: two StatefulSets (proxies and targets), the AIS cluster map,
the live AIS config and the status of the CR, changed call by call by passes that may fail or stop anywhere, while
pods, AIS membership, users and the clock move between any two calls. Run `dafny verify dfyconfig.toml`.

How it is built:

* **Protocols as transition systems.** `TargetRollout`, `ProxyRollout`, `RestartHash`, `Cleanup`, `AuthnRetention` and, for
  the whole life of a cluster, `Lifecycle` say what one step may do; the main results are theorems over every run
  (`RolloutIsOneAtATime`, `RolloutEnds`, `RolloutNeverKillsPrimary`, `ProxyRolloutEnds`, the theorems of `Histories`,
  `RolloutsFollowTheHash`).
* **The operator's methods as methods.** The classes (`...Controller`, `Reconciler`, `Cleanup`, ...) follow the Go methods
  call by call. API calls are methods that may fail, may take effect although they fail, and let the world move
  before they act. Every read and effect is appended to a log or run, and each append must be a step of the cluster
  or of the transition system; so the theorems hold of what the methods do. That a method does not do too little is stated
  separately: with the world held still (`quiet`, `calm`) its effect is pinned down exactly.
* **Specification functions.** `Passes` is one whole pass in a still world; `Reconciler.Reconcile` is proved to do exactly
  that there. What the function does is stated independently of it: `PassSteps` and `PassWrites` say, of the pods that
  the counters of a StatefulSet stand for, when a pass writes what and how it ends; `PassReads`, that what it notes as read
  is so; `Teardown`, how a cluster is shut down and torn down, and that this comes to an end; `Quiescence`, when the next
  pass has nothing to do; `TargetRolloutProgress` and `ProxyRolloutProgress`, that pass after pass a rollout ends.

What the proofs brought to light (each is a lemma or method with a concrete case, next to what holds in general):

* With two proxies the last rollout step can hand the primary role to a pod that is still terminating
  (`ProxyRollout.TwoProxiesPrimaryOnDyingPod`); with three or more it cannot. For the same reason "partition 1 means
  that pod 0 is primary" holds only until the primary has been moved to the highest pod ahead of the patch
  that lifts the partition, which may fail: see `PrimaryPlacement`.
* A decommissioning scale-down counts nodes. A removed target that was in maintenance before the pass is left in the
  map when the replicas are lowered (`TargetScalingController.MaintainedTargetIsRemovedInPlace`); while no node joins, it
  is the only way for a removed target to stay. And if all the removed ones are in maintenance, and all the kept ones
  registered, the scale-down never ends (`TargetScalingController.MaintainedTargetsHoldUp`, `TargetScaling.HeldUpExactly`).
* One terminating pod of a fully updated target set is reported as a rollout
  (`StatefulSets.TerminatingPodLooksLikeARollout`); the pass then waits.
* Two different volumes of one name in a template make every pass report a difference and sync again, although nothing
  changes any more (`PodTemplate.InconsistentVolumesLoop`). Kubernetes rejects such templates.
* A config push whose recording on the CR failed goes unnoticed if the spec returns to the recorded config
  (`RestartHash.UnrecordedPushIsMissed`; when a pass leaves the two in step, `HandleConfigState` says exactly).
* A first change of Net.HTTP that is taken back before the templates were compared restarts the cluster although nothing
  changed (`RestartHash.FlippingBackRolls`, and exactly when, `FlippingBackRollsExactly`). The first restart hash is
  only recorded together with a change of the config hash.
* A pass may end in Ready although a StatefulSet was read as missing, if creating it reports that the name is taken
  (`Quiescence.ReadyWithoutTargets`; otherwise both were read ready, `Histories.ReadyMeansReadReady`).
* A pass that ends in Ready while the shutdown flag is set is not followed by a quiet one: the next begins the shutdown
  (`Quiescence.NextPassIsQuietExactly`).
* `deleteAllPVCs` forgets whether target claims were found, so clean-up goes on while they are still terminating
  (`Cleanup.TargetVolumeIsForgotten`; exactly when, `Cleanup.Cleaner.CleanupResources`).
* Cleanup jobs are found by name prefix in the namespace, so those of another cluster there are waited for, and deleted,
  too (`Cleanup.OtherClustersJob`).

The semantic comparisons of the Kubernetes libraries are modelled by what they compute: deep equality is equality (absent
and empty being the same), and the derivative comparison of maps ignores desired values that are empty.

## Model

| member | source | states |
|---|---|---|
| PodNaming.PodNameInjective | operator/internal/resources/aistore/proxy/statefulset.go:27-29 | two ordinals of one StatefulSet never share a pod name, because decimal numerals are injective |
| PodNaming.HostnameMatchesExactly | operator/internal/controller/aistore/common.go:354-359 | a hostname matches a pod if and only if it is the pod name, alone or followed by a dot and a domain |
| PodNaming.OneOrdinalPerHostname | operator/internal/controller/aistore/common.go:354-359 | a hostname, short or fully qualified, belongs to the pod of at most one ordinal |
| PodNaming.PrefixMatchingIsAmbiguous | operator/internal/controller/aistore/common.go:354-359 | plain prefix matching would not have that property: a hostname of ordinal 10 also starts with the pod name of ordinal 1 |
| ClusterMap.FindAISNodeByPodName | operator/internal/controller/aistore/common.go:361-369 | finds a node that serves the pod whenever there is one, in whatever order the map is walked |
| ClusterMap.ServesOneOrdinal | operator/internal/controller/aistore/common.go:361-369 | no node serves two ordinals of one StatefulSet |
| StatefulSets.NothingReportedExactly | operator/internal/controller/aistore/common.go:427-448 | with counters that match the pods, neither a rollout nor a scaling is reported if and only if there are as many pods as the spec says and, while the revisions differ, an OnDelete set has all of them live and updated |
| StatefulSets.RolloutExactly | operator/internal/controller/aistore/common.go:427-438 | a rollout is reported if and only if the revisions differ and, under OnDelete, stale or terminating pods outnumber the pods in excess of the spec |
| StatefulSets.OldPodIsReported | operator/internal/controller/aistore/common.go:417-438 | a live pod on another revision below the spec size is always reported while surplus pods are terminating |
| StatefulSets.ScaleUpIsNotARollout | operator/internal/controller/aistore/common.go:417-448 | growing a fully updated set is never reported as a rollout, and as a scaling exactly while a pod is missing |
| StatefulSets.ScaleDownIsNotARollout | operator/internal/controller/aistore/common.go:417-448 | shrinking one neither, however many pods still terminate; it is a scaling exactly while surplus pods exist |
| StatefulSets.TerminatingPodLooksLikeARollout | operator/internal/controller/aistore/common.go:427-438 | finding: one terminating pod of a fully updated set of the right size is reported as a rollout |
| StatefulSets.ReadyExactly | operator/internal/controller/aistore/common.go:500-538 | with counters that match the pods, a set of fixed size reads ready if and only if it has exactly the wanted pods, all ready and, once there is an update revision, all live and updated; an autoscaled one if and only if that holds or it is settled with the minimum of pods ready |
| TargetRollout.IndexByName | operator/internal/controller/aistore/target_controllers.go:457-506 | the map built from the listing is the listing by name |
| TargetRollout.FindPodNeedingUpdate | operator/internal/controller/aistore/target_controllers.go:457-506 | returns ordinal i if and only if i is below the size, its pod is there, live and on another revision, and every lower pod is there, live, on the update revision, and ready or unschedulable |
| TargetRollout.DisruptionIsOrderly | operator/internal/controller/aistore/target_controllers.go:508-587 | in any world, over any run: whenever a pass drains or deletes ordinal i, the listing it read in this very pass showed every lower pod live, updated, and ready or unschedulable, and pod i live on another revision; no higher ordinal was ever disrupted, and a delete had its clearance (in maintenance in the map read, or unschedulable) |
| TargetRollout.ListingIsFresh | operator/internal/controller/aistore/target_controllers.go:508-545 | the listing a pass works from was read at a step of that same pass |
| TargetRollout.ClearanceIsFresh | operator/internal/controller/aistore/target_controllers.go:551-587 | the map (or pod) behind a deletion was read later in that same pass |
| TargetRollout.RolloutIsOneAtATime | operator/internal/controller/aistore/target_controllers.go:457-587 | from all-ready pods, in every reachable state there is a k with all pods below k live, updated, and ready or unschedulable, and all pods above k live and ready on the old revision, with active nodes |
| TargetRolloutProgress.OldPodIsDriven | operator/internal/controller/aistore/target_controllers.go:113-187 | while an old pod is left, with counters that match the pods, surplus pods terminating and nothing but the rollout to do, driving the rollout is what the pass does, and none of the early exits is taken |
| TargetRolloutProgress.OldPodMovesThePass | operator/internal/controller/aistore/target_controllers.go:113-187 | so a whole pass over a created cluster whose proxies are let be drives it |
| TargetRolloutProgress.RoundDecreases | operator/internal/controller/aistore/target_controllers.go:457-587 | every round - the step of the pass, then the rollout pass, then recovery - strictly decreases (old pods, chosen node not yet in maintenance); no state with an old pod is stuck |
| TargetRolloutProgress.RolloutEnds | operator/internal/controller/aistore/target_controllers.go:457-587 | after at most 2n rounds every pod is live on the update revision, and ready or unschedulable |
| TargetRolloutController.Controller.PrepareTargetForRollout | operator/internal/controller/aistore/target_controllers.go:551-587 | clears a pod for deletion, starts maintenance or fails; every call it makes is a step of the transition system, and undisturbed it does exactly what the branch calls for |
| TargetRolloutController.Controller.ReplacePod | operator/internal/controller/aistore/target_controllers.go:518-545 | deletes the pod only once cleared |
| TargetRolloutController.Controller.HandleTargetRollout | operator/internal/controller/aistore/target_controllers.go:508-545 | every pass is a run of the transition system; undisturbed, its effect is exactly one advance of the rollout, and it fails if and only if the node is missing from the map |
| ProxyRollout.RolloutNeverKillsPrimary | operator/internal/controller/aistore/proxy_controller.go:234-352 | over every run of one template change on two or more healthy proxies, the pod the StatefulSet controller deletes is never the primary |
| ProxyRollout.PrimaryPlacement | operator/internal/controller/aistore/proxy_controller.go:234-352 | where the primary is at each stage: pod 0 while the partition protects it, the highest pod once the partition is lifted |
| ProxyRollout.PrimaryStaysUp | operator/internal/controller/aistore/proxy_controller.go:234-352 | with three or more proxies the primary pod is up in every state of every rollout |
| ProxyRollout.TwoProxiesPrimaryOnDyingPod | operator/internal/controller/aistore/proxy_controller.go:322-333 | finding: with two proxies a run hands the primary role to a pod that is still terminating |
| ProxyRolloutController.Controller.SetPrimaryTo | operator/internal/controller/aistore/proxy_controller.go:354-375 | succeeds only with the wanted pod as primary; a pod that already is primary is left alone; undisturbed it succeeds if and only if the pod is primary or has a node in the map |
| ProxyRolloutController.Controller.SyncProxyPodSpec | operator/internal/controller/aistore/proxy_controller.go:234-271 | the primary is moved to pod 0 before template and partition 1 are written together; every call is a step of the transition system; undisturbed, a due template is written if and only if no proxy is ready or pod 0 can be primary |
| ProxyRolloutController.Controller.HandleProxyRollout | operator/internal/controller/aistore/proxy_controller.go:289-333 | lifts the partition, after moving the primary to the highest pod, only when revisions differ, there is a partition and the status counts one old pod; undisturbed it does so then, if and only if that pod can be primary |
| ProxyRolloutProgress.ComesToRest | operator/internal/controller/aistore/proxy_controller.go:234-352 | left alone, the StatefulSet controller and the pods come to rest |
| ProxyRolloutProgress.UndisturbedPass | operator/internal/controller/aistore/proxy_controller.go:125-203 | what the step of the pass does to the rollout: the template with partition 1, the partition lifted, or nothing |
| ProxyRolloutProgress.ProxyRolloutEnds | operator/internal/controller/aistore/proxy_controller.go:125-352 | the rollout of two or more proxies takes two rounds of a pass and the controller coming to rest: after the first all pods but pod 0 are new and ready and pod 0 is primary behind the partition; after the second, and any later one, all are, the partition is gone and the highest pod is primary |
| TargetScaling.IsReadyToScaleDownDecommission | operator/internal/controller/aistore/target_controllers.go:298-313 | ready if and only if no node is leaving and the node count is not the current size |
| TargetScaling.IsReadyToScaleDownRetain | operator/internal/controller/aistore/target_controllers.go:277-293 | ready if and only if every removed ordinal is in maintenance or absent |
| TargetScaling.OnlyMaintenanceRemains | operator/internal/controller/aistore/target_controllers.go:298-313 | if no node joins between the two map reads, the only removed targets left in the map when it reads ready are those that were in maintenance already |
| TargetScaling.KeptIsNotNamed | operator/internal/controller/aistore/target_controllers.go:341-399 | a node that serves a removed ordinal serves no kept one |
| TargetScaling.HeldUpExactly | operator/internal/controller/aistore/target_controllers.go:298-313 | once no node is leaving and all kept targets are registered, the count holds a scale-down up if and only if every removed target is still in the map |
| TargetScalingController.MaintainedTargetIsRemovedInPlace | operator/internal/controller/aistore/target_controllers.go:189-313 | finding: a pass over a concrete cluster - two kept targets serving, one removed target gone and one in maintenance - lowers the replica count with the latter still in the map |
| TargetScalingController.MaintainedTargetsHoldUp | operator/internal/controller/aistore/target_controllers.go:189-313 | finding: with all kept targets registered and all removed ones in maintenance a pass changes neither the map nor the replica count, so the scale-down never ends |
| TargetScalingController.Controller.ConfirmScalingNeeded | operator/internal/controller/aistore/common.go:399-408 | an autoscale scale-down goes ahead if and only if a read past the cache is settled and outside the unavailability budget |
| TargetScalingController.Controller.ScaleDownLB | operator/internal/controller/aistore/target_controllers.go:596-609 | deletes load balancers of removed ordinals only, and all of them if no call fails |
| TargetScalingController.Controller.PrepareTargetsForScaleDown | operator/internal/controller/aistore/target_controllers.go:341-399 | the map is read first; only nodes that it shows serving a removed ordinal are told to leave or put into maintenance, and every removed ordinal is dealt with; in a calm cluster it succeeds if and only if no removed ordinal is still to register |
| TargetScalingController.Controller.StartTargetScaling | operator/internal/controller/aistore/target_controllers.go:315-339 | a config with the rebalance setting of the spec is pushed before any node is decommissioned; load balancers are made or deleted first; what is done to nodes is judged by a map read in this call |
| TargetScalingController.Controller.IsReadyToScaleDown | operator/internal/controller/aistore/target_controllers.go:260-273 | dispatches on the scale-down mode, on a map read just now |
| TargetScalingController.Controller.ResolveStatefulSetScaling | operator/internal/controller/aistore/target_controllers.go:217-258 | the replica count is set at most once, to the wanted size; growing by more than one directly follows a healthy cluster and a push with rebalance off; shrinking by a read of a map that reads ready |
| TargetScalingController.Controller.HandleTargetScaling | operator/internal/controller/aistore/target_controllers.go:189-207 | the whole pass, as a history of the cluster: kept ordinals are never named; replicas are lowered only after every removed ordinal was dealt with, and then, in the cluster itself, (retain) all of them are in maintenance or absent, or (decommission, no joins) none is left if and only if none was in maintenance; in a calm cluster the pass does exactly its part |
| ProxyScaleDown.PrimaryOrdinalUnique | operator/internal/controller/aistore/proxy_controller.go:402-412 | the primary has at most one ordinal |
| ProxyScaleDown.FindPrimaryPodIdx | operator/internal/controller/aistore/proxy_controller.go:402-412 | finds ordinal i if and only if the primary serves pod i below the current size |
| ProxyScaleDown.CallsNameRemoved | operator/internal/controller/aistore/proxy_controller.go:486-501 | every decommission call names a node that serves a removed ordinal |
| ProxyScaleDown.NoRemovedSkipped | operator/internal/controller/aistore/proxy_controller.go:486-501 | no removed ordinal that has a node is skipped |
| ProxyScaleDown.RemovedIsNotPrimary | operator/internal/controller/aistore/proxy_controller.go:379-400 | a node that serves a removed ordinal is not the primary once the primary is below the new size |
| ProxyScaleDown.Controller.SetLowestEligiblePodAsPrimary | operator/internal/controller/aistore/proxy_controller.go:430-484 | walks ordinals upwards and stops at the first eligible pod that accepts the role; the log has the pod reads, map reads and calls behind every verdict and nothing else; in a calm cluster it succeeds if and only if an ordinal is eligible, with the lowest |
| ProxyScaleDown.Controller.EnsurePrimarySurvivesScaleDown | operator/internal/controller/aistore/proxy_controller.go:414-428 | succeeds only with the primary below the new size; leaves a primary that is there already alone |
| ProxyScaleDown.Controller.DecommissionProxies | operator/internal/controller/aistore/proxy_controller.go:486-501 | makes exactly the removal calls, in order, whether or not they succeed, and none that names the primary |
| ProxyScaleDown.Controller.PrepareProxyScaleDown | operator/internal/controller/aistore/proxy_controller.go:379-400 | reads the map, moves the primary if it has to, tells the removed nodes to leave, in this order and on the strength of that map; no removal call before the primary is below the new size, and none names it |
| ProxyScaleDown.Controller.HandleProxyScale | operator/internal/controller/aistore/proxy_controller.go:213-232 | the replica count is lowered only after that preparation; in a calm cluster it succeeds unless the primary has to move and no ordinal that stays is eligible, and exactly the nodes told to leave are then leaving |
| RebalanceConfig.GenerateConfigToSet | operator/internal/resources/aistore/cmn/config.go:73-81 | the pushed config has rebalance on if and only if the cluster is ready for it and the spec does not turn it off (unset means on); this step changes nothing else |
| RestartHash.HexIsNeverInitial | operator/internal/controller/aistore/cluster_controller.go:751-769 | a hash never ends in the initial tag, so tagged and untagged values cannot be confused |
| RestartHash.ConfigState.UpdateClusterConfig | operator/internal/controller/aistore/cluster_controller.go:724-748 | pushes unless the hash on the CR is that of the config and no push is forced |
| RestartHash.ConfigState.HandleConfigState | operator/internal/controller/aistore/cluster_controller.go:678-722 | a pass that succeeds records the hash of the config, and leaves CR and cluster in step if and only if it was forced, the recorded hash was another, or they were in step; the CR is never ahead of the cluster; a failed call changes nothing or everything |
| RestartHash.OutOfStepBecause | operator/internal/controller/aistore/cluster_controller.go:678-722 | over every run of config passes, CR and cluster are out of step only because of a failed pass whose push took effect and whose record did not, with no successful push since |
| RestartHash.UnrecordedPushIsMissed | operator/internal/controller/aistore/cluster_controller.go:724-736 | finding: a run of three passes - in step, a failed one for another config, a successful one for the first - that ends with the cluster running the other |
| RestartHash.AnnotationsKeyByKey | operator/internal/resources/aistore/cmn/statefulset.go:87-102 | each annotation of a template is the value of the user, or else the recorded hash or the network |
| RestartHash.UserKeyHidesTheHash | operator/internal/resources/aistore/cmn/statefulset.go:87-102 | a user annotation under the same key hides the recorded hash |
| RestartHash.AnnotationsRollExactly | operator/internal/controller/aistore/common.go:198-222 | templates that differ in the recorded hash at most roll if and only if the new hash is set, untagged and different |
| RestartHash.RolloutsFollowTheHash | operator/internal/controller/aistore/cluster_controller.go:678-769 | refinement, over every run from every state: annotations cause a rollout exactly when the Net.HTTP hash has changed at some time and is not the one that the last template pass since then met |
| RestartHash.OneRolloutPerChange | operator/internal/controller/aistore/cluster_controller.go:678-769 | no change of a recorded hash is rolled out twice; and each is rolled out, save one the run ends before, if and only if each is rolled out before the next one comes |
| RestartHash.OneHashNeverRolls | operator/internal/controller/aistore/cluster_controller.go:751-769 | with one Net.HTTP hash throughout - the first recording, any toggling of rebalance - annotations never cause a rollout |
| RestartHash.FlippingBackRollsExactly | operator/internal/controller/aistore/cluster_controller.go:751-769 | with no change waiting and the hash, after any config passes, back where it was, the next template pass rolls if and only if that hash was the first one recorded and some pass had another |
| RestartHash.FlippingBackRolls | operator/internal/controller/aistore/cluster_controller.go:751-769 | finding: so a first change that is taken back restarts the cluster, though the template had been compared with the very same hash |
| PodTemplate.ShouldUpdateInitContainers | operator/internal/controller/aistore/common.go:76-88 | reports a difference if and only if the number of init containers, or a name, image or security context among them, differs |
| PodTemplate.ShouldUpdateContainers | operator/internal/controller/aistore/common.go:90-103 | reports a difference if and only if the number of containers, or a name, image, security context or resources among them, differs - or the environment or probes of the daemon container |
| PodTemplate.DerivativeMeansCovered | operator/internal/controller/aistore/common.go:198-202 | the derivative comparison of annotations means: every desired key is there, and has the desired value unless that is empty; the size test decides nothing |
| PodTemplate.AnnotationRolloutExactly | operator/internal/controller/aistore/common.go:198-222 | annotations cause a rollout if and only if one other than the restart hash is missing or differs, or the restart hash is set, untagged and differs |
| PodTemplate.LabelRolloutExactly | operator/internal/controller/aistore/common.go:224-254 | labels cause none if and only if they are equal, or the managed-by label is all that was added |
| PodTemplate.ShouldUpdateVolumes | operator/internal/controller/aistore/common.go:256-275 | the loop over a map of current volumes decides VolumesDiffer |
| PodTemplate.SelfComparison | operator/internal/controller/aistore/common.go:256-275 | a volume list differs from itself if and only if it uses one name for two volumes |
| PodTemplate.ShouldUpdatePodTemplate | operator/internal/controller/aistore/common.go:37-49 | runs the checks in order and reports a difference exactly if one of them does |
| PodTemplate.LeftAloneExactly | operator/internal/controller/aistore/common.go:37-289 | when a template is left alone, in all its fields: if and only if containers agree in what is compared of their kind, security context, priority class and tolerations agree, annotations serve, labels agree up to the managed-by label, and each wanted volume is the last of its name |
| PodTemplate.SyncContainers | operator/internal/controller/aistore/common.go:332-352 | afterwards the containers are the desired ones; reports whether anything was written |
| PodTemplate.PodTemplateSpec.SyncPodTemplate | operator/internal/controller/aistore/common.go:291-330 | in place: the template becomes Synced(desired, old), and the result says exactly whether it changed |
| PodTemplate.DifferenceAfterSync | operator/internal/controller/aistore/common.go:37-352 | after a sync a difference is reported if and only if one volume name is used for two volumes |
| PodTemplate.SyncIsIdempotent | operator/internal/controller/aistore/common.go:291-330 | syncing twice is syncing once |
| PodTemplate.EmptyRolloutExactly | operator/internal/controller/aistore/common.go:37-352 | a difference is reported with nothing to write if and only if the template is in line and one volume name is used twice |
| PodTemplate.SyncsFollowChanges | operator/internal/controller/aistore/common.go:37-352 | over any run of passes with consistent volumes a difference is reported at most once per wanted template |
| PodTemplate.RolloutsFollowChanges | operator/internal/controller/aistore/common.go:37-352 | over any run of passes whatever the template changes at most once per wanted template |
| PodTemplate.InconsistentVolumesLoop | operator/internal/controller/aistore/common.go:256-275 | finding: with one name for two volumes every pass reports a difference and syncs again, although the template no longer changes |
| ClusterSpec.SizeAcceptedExactly | operator/api/aistore/v1beta1/aistore_validation.go:44-59 | validation accepts exactly the sizes on which the size functions are defined and at least one |
| ClusterSpec.OneStorageExactly | operator/api/aistore/v1beta1/aistore_validation.go:61-83 | validation accepts exactly the specs with one and only one kind of state storage |
| ClusterSpec.ValidateSpec | operator/api/aistore/v1beta1/aistore_validation.go:18-42 | accepts if and only if no validation rejects; on rejection the warnings are those of the validations before the first that rejects |
| ClusterSpec.AcceptedExactly | operator/api/aistore/v1beta1/aistore_validation.go:44-126 | what is accepted, in the fields of the spec: sizes in order, autoscaled daemons with a node selector, one kind of state storage that outlives a shutdown, and no objection of the remaining validations |
| ClusterSpec.SizeExactly | operator/api/aistore/v1beta1/aistore_types.go:861-901 | an autoscaled size is the largest within the limit that there are nodes for; a fixed one is that of the daemon or, if it has none, of the cluster |
| ClusterSpec.MinReadyExactly | operator/api/aistore/v1beta1/aistore_types.go:876-913 | enough daemons are ready if and only if all of a fixed size are, or of an autoscaled one at least one and all but as many as may be unavailable |
| ClusterSpec.AcceptedSizes | operator/api/aistore/v1beta1/aistore_types.go:861-913 | for an accepted spec the size functions are total, a fixed size is at least one, and at least one daemon of each kind must be up in all cases |
| AutoScale.UnionIsCanonical | operator/internal/controller/aistore/cluster_controller.go:1254-1259 | the union is sorted, free of duplicates and complete, and two unions are equal lists if and only if they name the same nodes |
| AutoScale.ToleratesTaints | operator/internal/controller/aistore/common.go:550-571 | true if and only if each NoSchedule or NoExecute taint is tolerated by some toleration |
| AutoScale.ListMatchingNodeNames | operator/internal/controller/aistore/cluster_controller.go:1192-1221 | exactly the names of the nodes that match the selector and whose taints are tolerated, sorted |
| AutoScale.ListNodesRunningDaemonPods | operator/internal/controller/aistore/cluster_controller.go:1223-1252 | exactly the nodes with a daemon pod on them, once each, sorted |
| AutoScale.StatusKeeper.UpdateAutoScaleStatus | operator/internal/controller/aistore/cluster_controller.go:992-999 | patches exactly if the status differs |
| AutoScale.StatusKeeper.DetermineAutoScaleStatus | operator/internal/controller/aistore/cluster_controller.go:204-244 | the status lists exactly the schedulable and the occupied nodes of each autoscaled kind, and is patched exactly if that set changes; a failed read changes nothing; if no patch fails it succeeds exactly when no read that is needed failed |
| AutoScale.SizeCoversRunningPods | operator/api/aistore/v1beta1/aistore_types.go:888-901 | the wanted size never falls below the number of nodes running pods, short of the limit |
| AutoScale.DeferredScaleDownIsReady | operator/internal/controller/aistore/common.go:371-538 | a scale-down held back by the budget does not hold back the pass if and only if at least one pod is ready |
| StatefulSets.ScalingNeededExactly | operator/internal/controller/aistore/common.go:371-397 | with counters that match the pods, the size is changed if and only if more pods are wanted, or fewer of a fixed size, or fewer of an autoscaled set that is settled and has all pods ready or more unready than the budget tolerates |
| Lifecycle.PatchKeepsOrder | operator/internal/controller/aistore/cluster_controller.go:132-175 | a status patch never lowers the teardown rank, leaves a live cluster live, turns rebalance on only after a settled read, and enters ShuttingDown only from Ready |
| Lifecycle.InvHolds | operator/internal/controller/aistore/cluster_controller.go:103-191 | the invariant of every history: copies lag behind only in what users may change; ShuttingDown and target rollouts have rebalance off |
| Histories.TeardownNeverGoesBack | operator/internal/controller/aistore/cluster_controller.go:132-175 | the teardown rank never decreases over any history |
| Histories.TeardownStages | operator/internal/controller/aistore/cluster_controller.go:302-362 | each teardown stage is entered from the one before, for its reason, found in that pass: deletion requested; every delete call made and nothing left in the cluster - or, with hosts to clean, the jobs for that created; no cleanup job at work in the cluster |
| Histories.FinalizerGoesLast | operator/internal/controller/aistore/cluster_controller.go:364-380 | the finalizer is removed only in Finalized, after deletion, decommissioning, clean-up and host clean-up in that order, with no cleanup job at work when the last was left |
| Histories.FinalizerIsHeld | operator/internal/controller/aistore/cluster_controller.go:246-269 | from its first state on the CR holds its finalizer until it is finalized |
| Histories.DeletionPreempts | operator/api/aistore/v1beta1/aistore_types.go:1089-1105 | a pass that finds the CR marked for deletion does no work for the cluster and enters only teardown states (or Initialized from nothing) |
| Histories.ShutdownIsDecided | operator/api/aistore/v1beta1/aistore_types.go:942-948 | shutdown is decided only on a copy with the flag set and state Ready, in a pass that found no deletion |
| Histories.ShutdownBegins | operator/internal/controller/aistore/cluster_controller.go:141-153 | ShuttingDown is entered only from Ready, after that decision and a push with rebalance off in the same pass |
| Histories.NoRebalanceWhileShuttingDown | operator/internal/controller/aistore/cluster_controller.go:969-980 | ReadyRebalance is false in every ShuttingDown state |
| Histories.ProxiesGoFirst | operator/internal/controller/aistore/cluster_controller.go:271-290 | while shutting down only size zero is set, and for targets only after the pass read the proxies at zero |
| Histories.ShutdownCompletes | operator/internal/controller/aistore/cluster_controller.go:271-300 | Shutdown is entered only from ShuttingDown, in a pass that read both at zero |
| Histories.RebalanceOffDuringRollout | operator/internal/controller/aistore/target_controllers.go:401-422 | from the write of the target template until the StatefulSet is read up to date and without a rollout (or missing), over any number of passes and edits of the spec, the last pushed config has rebalance off |
| Histories.NoPushDuringRollout | operator/internal/controller/aistore/cluster_controller.go:643-653 | and no config with rebalance on is pushed in that time |
| Histories.RolloutBeginsWithRebalanceOff | operator/internal/controller/aistore/target_controllers.go:401-422 | a target template write is preceded in its pass by a push with rebalance off |
| Histories.GrowthBeginsWithRebalanceOff | operator/internal/controller/aistore/target_controllers.go:226-243 | growing a running target set by more than one is preceded, in its pass, by a push with rebalance off |
| Histories.NodesLeaveAfterPush | operator/internal/controller/aistore/target_controllers.go:315-339 | targets are told to leave only after a push, in that pass, of the rebalance setting that the spec had at that push, with none other since |
| Histories.ShrinkIsConfirmed | operator/internal/controller/aistore/common.go:399-408 | an autoscaled set, of proxies or targets, is only made smaller after a read past the cache, in that pass, that shows it settled and outside the unavailability budget |
| Histories.ReadyMeans | operator/internal/controller/aistore/cluster_controller.go:621-656 | Ready is entered only in a pass that saw a healthy map with the minimum of proxies and targets, and that read both StatefulSets up to date, with pods - whichever their counters count - that are settled and suffice (or read one as missing and then found it taken) |
| Histories.ReadyMeansReadReady | operator/internal/controller/aistore/cluster_controller.go:621-656 | and so only with a StatefulSet read so in that pass, unless the pass read it as missing |
| Reconciler.Reconciler.Reconcile | operator/internal/controller/aistore/cluster_controller.go:103-191 | continues the history by steps that may happen, whatever fails or interferes; in a calm world its effects and result are exactly those of WholePass |
| Reconciler.Reconciler.HandleConfigState | operator/internal/controller/aistore/cluster_controller.go:678-709 | pushes and records as required; calm: exactly ConfigStage |
| Reconciler.Reconciler.DisableRebalance | operator/internal/controller/aistore/cluster_controller.go:969-980 | condition off in the status, then a forced push; calm: exactly that |
| Reconciler.Reconciler.EnableRebalanceCondition | operator/internal/controller/aistore/cluster_controller.go:982-990 | only after a settled read of the targets |
| Reconciler.Reconciler.InitializeCR | operator/internal/controller/aistore/cluster_controller.go:246-269 | finalizer first, then Initialized; calm: exactly that |
| Reconciler.Reconciler.CheckDeletion | operator/internal/controller/aistore/cluster_controller.go:132-139 | a CR marked for deletion goes to Decommissioning before anything else |
| Reconciler.Reconciler.CheckShutdown | operator/internal/controller/aistore/cluster_controller.go:141-153 | rebalance off, then ShuttingDown |
| Reconciler.Reconciler.ShutdownCluster | operator/internal/controller/aistore/cluster_controller.go:271-300 | proxies to zero, read, targets to zero, read, Shutdown |
| Reconciler.Reconciler.DecommissionCluster | operator/internal/controller/aistore/cluster_controller.go:302-319 | asks the cluster to stop while both kinds have ready pods, then goes on |
| Reconciler.Reconciler.CleanupClusterRes | operator/internal/controller/aistore/cluster_controller.go:321-339 | goes on once a pass of delete calls found nothing, or at once if hosts are cleaned |
| Reconciler.Reconciler.CleanupHost | operator/internal/controller/aistore/cluster_controller.go:341-362 | lists the cleanup jobs and goes on if and only if none is at work; calm: exactly that |
| Reconciler.Reconciler.Finalize | operator/internal/controller/aistore/cluster_controller.go:364-380 | removes the finalizer |
| Reconciler.Reconciler.EnsurePrereqs | operator/internal/controller/aistore/cluster_controller.go:509-552 | invalid specs go no further; external services are waited for |
| Reconciler.Reconciler.BootstrapNew | operator/internal/controller/aistore/cluster_controller.go:586-611 | proxies, then targets, then Created |
| Reconciler.Reconciler.HandleCREvents | operator/internal/controller/aistore/cluster_controller.go:621-656 | proxies, targets, cluster, rebalance, config, Ready, in that order; calm: exactly that |
| Reconciler.Reconciler.CheckAISClusterReady | operator/internal/controller/aistore/cluster_controller.go:1293-1339 | passes on health and on the minimum of both kinds |
| Reconciler.Reconciler.HandleSuccessfulReconcile | operator/internal/controller/aistore/cluster_controller.go:1277-1291 | writes Ready if it is not there |
| Reconciler.Reconciler.LogIsHistory | operator/internal/controller/aistore/cluster_controller.go:103-191 | what the reconciler has done is a history, so every theorem about histories holds of it |
| Reconciler.Reconciler.HandleProxyState | operator/internal/controller/aistore/proxy_controller.go:125-203 | the order of precedence of template, PVC policy, scaling, rollout and readiness; calm: exactly ProxyStage |
| Reconciler.Reconciler.HandleTargetState | operator/internal/controller/aistore/target_controllers.go:113-187 | the same for targets; Go only with a settled status; calm: exactly TargetStage, whose steps StepExactly and TargetWritesExactly pin down |
| Reconciler.Reconciler.HandleTargetScaling | operator/internal/controller/aistore/target_controllers.go:189-258 | confirm, prepare, resolve; calm: exactly ScaleTargets |
| Reconciler.Reconciler.SyncTargetPodSpec | operator/internal/controller/aistore/target_controllers.go:401-422 | rebalance off before the template is written |
| Reconciler.Reconciler.InitProxies | operator/internal/controller/aistore/proxy_controller.go:53-92 | one proxy, wait for it, then all |
| Reconciler.Reconciler.UpdateStatefulSetReplicas | operator/internal/client/api.go:227-248 | writes the size only if it differs; a missing StatefulSet is an error |
| PassSteps.TemplateDueExactly | operator/internal/controller/aistore/common.go:198-222 | a new template is called for if and only if it differs in more than annotations, an annotation other than the restart hash is missing or differs, or the restart hash is set, untagged and differs |
| PassSteps.StepExactly | operator/internal/controller/aistore/target_controllers.go:113-187 | for every state of the pods that the counters stand for: when a pass writes the template, the PVC policy or the size, drives the rollout, lets the StatefulSet be, or only waits |
| PassWrites.ProxyWritesExactly | operator/internal/controller/aistore/proxy_controller.go:125-203 | for every write to the proxies: a pass over a created cluster makes it if and only if its reason holds of the pods (and, for an autoscaled shrink, of a direct read) |
| PassWrites.TargetWritesExactly | operator/internal/controller/aistore/target_controllers.go:113-258 | the same of the targets and of the nodes told to leave: only once the proxies are let be, growth by several only in a healthy cluster, a shrink only when it is ready |
| PassWrites.PassEndsExactly | operator/internal/controller/aistore/cluster_controller.go:621-676 | how a pass over a created cluster ends, for every state of the pods; one that is to run again takes back Ready, one that is done sets it |
| PassWrites.FinalPushExactly | operator/internal/controller/aistore/cluster_controller.go:649-655 | a pass that ends well pushes the config if and only if its hash was not recorded, with rebalance as the spec has it, and leaves it recorded |
| PassWrites.BootstrapExactly | operator/internal/controller/aistore/cluster_controller.go:586-611 | a cluster that was not created yet: what a pass makes, and that it is created if and only if the proxies are up and the targets are there |
| PassWrites.MissingIsMade | operator/internal/controller/aistore/proxy_controller.go:125-132 | a StatefulSet of a created cluster that is not found is made |
| PassWrites.HeldUpExactly | operator/internal/controller/aistore/cluster_controller.go:509-552 | an invalid spec or a service without address holds a pass up, and then nothing is done for the cluster |
| PassWrites.NewIsTakenUp | operator/internal/controller/aistore/cluster_controller.go:117-121 | a new CR gets its finalizer and is then treated like any other |
| PassReads.ReadsAreTrue | operator/internal/controller/aistore/cluster_controller.go:103-191 | whatever a pass in a still world notes as read or found is so |
| Teardown.DyingPassExactly | operator/internal/controller/aistore/cluster_controller.go:132-175 | a pass over a CR that is marked for deletion goes exactly one step - a running cluster is told to stop, objects are deleted, hosts are cleaned, jobs are waited for, the finalizer goes - unless pods, objects or jobs hold it up, and then asks to be run again |
| Teardown.TeardownEnds | operator/internal/controller/aistore/cluster_controller.go:302-380 | over any sequence of passes, each in a world of its own, four passes that are not held up let go of the CR |
| Teardown.ShutdownPassExactly | operator/internal/controller/aistore/cluster_controller.go:141-300 | a pass over a cluster that is to be shut down turns rebalance off, empties the proxies, then the targets, and ends in Shutdown if and only if both are found empty |
| Teardown.OtherwiseLetBe | operator/internal/controller/aistore/cluster_controller.go:155-167 | a shutdown that is called off leads to Upgrading, and a cluster that is shut down is let be |
| Quiescence.EventsMean | operator/internal/controller/aistore/cluster_controller.go:621-656 | the drive towards the spec ends well if and only if nothing is left to wait for or to roll out, and then leaves the CR in one determined state |
| Quiescence.AfterConfigIsIdempotent | operator/internal/controller/aistore/cluster_controller.go:678-709 | recording a config twice is recording it once |
| Quiescence.NextPassIsQuietExactly | operator/internal/controller/aistore/cluster_controller.go:103-191 | after a pass that ends well in Ready, the next one over the same world writes nothing if and only if no shutdown is asked for and the recorded hashes call for no new template |
| Quiescence.NextPassIsQuiet | operator/internal/controller/aistore/cluster_controller.go:621-721 | in particular if the restart annotation did not change |
| Quiescence.PassEndsReadyExactly | operator/internal/controller/aistore/cluster_controller.go:621-656 | over a cluster that is to be run, with a valid spec, a pass ends well and in Ready if and only if the cluster was created, external services have their addresses, both StatefulSets are let be for the state of their pods (that of the targets may be missing, its name taken), and the map of a healthy cluster has the minimum of each |
| Quiescence.ReadyWithoutTargets | operator/internal/controller/aistore/target_controllers.go:51-120 | finding: a concrete pass that ends in Ready with the target StatefulSet read as missing |
| Cleanup.Cleaner.DeleteKind | operator/internal/client/api.go:373-423 | deletes all objects of a kind up to the first failure; finds nothing only if nothing is left |
| Cleanup.Cleaner.AnyOf | operator/internal/resources/aistore/cmn/utils.go:71-85 | stops at the first error, with false; otherwise tells whether any call found something |
| Cleanup.Cleaner.DeleteAllPVCs | operator/internal/controller/aistore/cluster_cleanup.go:132-140 | both kinds of volume claims are deleted; undisturbed, it reports that something was found if and only if there are proxy claims, whatever there is of target claims |
| Cleanup.Cleaner.CleanupResources | operator/internal/controller/aistore/cluster_cleanup.go:23-42 | without an error everything to be deleted is on its way out; if nothing was found nothing is left, except that target claims may be; undisturbed, it marks exactly what is to be deleted and finds something if and only if there is something to delete other than target claims |
| Cleanup.TargetVolumeIsForgotten | operator/internal/controller/aistore/cluster_cleanup.go:132-140 | finding: a concrete pass that marks a target claim, reports that nothing was found, and leaves the claim terminating |
| Cleanup.JobKeeper.ListCleanupJobs | operator/internal/controller/aistore/cluster_cleanup.go:60-73 | exactly the jobs of the namespace whose name has the prefix |
| Cleanup.JobKeeper.DeleteFinishedJobs | operator/internal/controller/aistore/cluster_cleanup.go:75-107 | asks exactly the jobs to go that succeeded or are more than two minutes old; every call is a step of the transition system |
| Cleanup.JobKeeper.CleanupHost | operator/internal/controller/aistore/cluster_controller.go:341-362 | extends the run of job passes; goes on exactly when no job remains, and then all cleanup jobs are on their way out; certainly once the clock is two minutes past the last creation and no call fails; undisturbed, it asks exactly the jobs to go that are done and waits if and only if there are others |
| Cleanup.OtherClustersJob | operator/internal/controller/aistore/cluster_cleanup.go:60-73 | finding: whatever cluster a job belongs to, it is waited for while young and asked to go afterwards |
| Cleanup.HostIsLeftClean | operator/internal/controller/aistore/cluster_controller.go:341-362 | over every run without new jobs, host clean-up is left only with every cleanup job on its way out |
| Cleanup.JobsRunOut | operator/internal/controller/aistore/cluster_cleanup.go:75-107 | over every such run, a pass that lists the jobs once the clock is two minutes past the last creation, and any after it, fails or goes on, with every cleanup job on its way out |
| AuthnRetention.ControlledIsHeld | operator/internal/controller/aisauth/cleanup.go:35-59 | in every reachable state a claim controlled by the CR means that the CR holds its finalizer, unless a pass that read policy Delete gave it up |
| AuthnRetention.CollectedOnlyUnderDelete | operator/internal/controller/aisauth/cleanup.go:94-113 | garbage collection takes the claim only after such a pass |
| AuthnRetention.RetainedForGood | operator/internal/controller/aisauth/cleanup.go:94-113 | given up under Retain, an existing claim stays |
| AuthnRetention.Reconciler.EnsureFinalizer | operator/internal/controller/aisauth/cleanup.go:25-33 | the finalizer is there before anything is applied |
| AuthnRetention.Reconciler.ReconcilePersistence | operator/internal/controller/aisauth/aistoreauth_controller.go:156-172 | applies the claim with the CR as controller |
| AuthnRetention.Reconciler.ReconcileResources | operator/internal/controller/aisauth/aistoreauth_controller.go:102-136 | the claim is applied whenever all calls succeed |
| AuthnRetention.Reconciler.RetainPVC | operator/internal/controller/aisauth/cleanup.go:94-113 | succeeds only with the claim let go of, or under policy Delete |
| AuthnRetention.Reconciler.ReconcileDeletion | operator/internal/controller/aisauth/cleanup.go:35-59 | succeeds only with the CR gone; releases under the policy the pass read |
| AuthnRetention.Reconciler.Reconcile | operator/internal/controller/aisauth/aistoreauth_controller.go:56-100 | every call of a pass is a step of the transition system; a pass that succeeds has found or left the CR gone, or has applied the claim; undisturbed it succeeds, with exactly the CR and claim of AfterPass |

## Left out

- Informer caches: a cached read may return any status, but it returns a StatefulSet's size and template as last written where a theorem depends on them; staleness is covered only as far as the code covers it (observed generation, the direct read before an autoscale scale-down).
- AIS internals: elections, data migration and the effect of rebalance are not modelled; membership calls change flags in the cluster map, and the map may change by itself between calls.
- HTTP clients, tokens, TLS, trust stores, certificates, RBAC, services, the admin client and the builders of Kubernetes objects: API calls that may fail. Pod templates keep the fields that the comparison looks at.
- Load balancers: `TargetScalingController` makes and deletes those of targets during scaling; elsewhere external services are either ready or waited for.
- Hashes: two functions with hexadecimal values; that different configs have different hashes is assumed nowhere.
- Requeue delays: only whether a pass asks to be run again.
- Integer width: sizes and counters are unbounded integers; the source's are 32 bits wide and stay small.
- Template changes that arrive during a proxy rollout, and target templates set back to the current revision during a rollout.
- Edits of the spec within one history of `Lifecycle`, other than the shutdown flag, the config and deletion: sizes, autoscaling, scale-down mode and retention are those of one spec.
- Two CRs of one name after another, and two operators at once.
- Warnings of the remaining spec validations, beyond their order: they are inputs of `ClusterSpec.ValidateSpec`.
- PodDisruptionBudgets, the StatsD ConfigMap and events: without effect on anything proved here.
- Reconciler.Reconciler.HandleTargetScaling: names removed targets as one step; who is named, in which order and when replicas may be lowered is proved in TargetScalingController.
- Reconciler.Reconciler.HandleProxyState: writes of a proxy template and drives of a proxy rollout are single steps; their calls are those of ProxyRolloutController and ProxyScaleDown.
- Reconciler.Reconciler.CleanupClusterRes: takes the delete calls as one step, which finds whether anything was left; they are those of Cleanup, including that target claims are not noticed.
- Reconciler.Reconciler.CleanupHost: takes the listing and deleting of jobs as one read of whether any is at work; the jobs themselves are those of Cleanup.JobKeeper.
- TargetRolloutProgress.RolloutEnds: progress is stated for rounds in which no call fails, the status counters match the pods when the pass begins and recreated pods recover; failing passes are covered by the safety theorems only.
- ProxyRolloutProgress.ProxyRolloutEnds: likewise for passes in which no call fails, every proxy has a node in the cluster map, and the controller comes to rest between two of them.
- RebalanceConfig.GenerateConfigToSet: the TLS file paths, backend and auth settings that the source also writes are functions of the spec and taken as part of the config handed in.
- Cleanup.JobKeeper.CleanupHost: when a job that was asked to go is really gone is left to the cluster.
- AutoScale.UnionIsCanonical: strings are ordered by their characters, where the source orders bytes.
