# AshML, in Dafny

AshML trains models on a Kubernetes cluster and serves them behind a stable address. This
project models the parts of it whose correctness is a matter of protocol or arithmetic, and
proves what they promise:

- **The front door of a deployment.** The row, the cluster's Deployments and Services, and every
  operation on them (deploy, rollout, promote, retire, sync) as one state machine, with pods
  becoming ready and dying in between (`FrontDoor`, `FrontDoorSafety`, `FrontDoorRuns`,
  `FrontDoorOutcomes`, `FrontDoorConvergence`, `FrontDoorAnswering`, `FrontDoorLosses`). `Cluster`, `DeploymentRows` and `ControlPlane`
  are the same operations in place, method by method, each proved equal to its step.
- **Weighted routing.** Largest-remainder apportionment (`Apportionment`, `Routing`), hashing and
  picking (`Choice`), and the router that forwards requests (`Router`).
- **Training jobs.** Placement and quota (`Placement`, `Quota`), job rows and tokens
  (`JobLifecycle`, `RunTokens`, `JobStore`), and executors that list, claim, place, launch and
  observe, with crashes and other executors in between (`Jobs`, `Rounds`, `JobRuns`, `OneExecutor`,
  `Capacity`, `LaunchNames`, `Orphans`, `Rulings`, `PodTokens`; `Scenes` and `Interference` hold the
  runs that go wrong). `AuditLog` is the scheduler's folded audit trail.
- **Images.** The PNG decoder from file to RGB (`PngFilter`, `PngPixels`, `PngContainer`), the crop
  and the area resampling (`Sums`, `Coverage`, `Raster`, `Resample`), and the way from a file to
  what a model is sent (`ImagePipeline`).
- **Resumable training.** Which batches a run trains on however often it is killed (`Training`).

`Prelude` and `Names` hold shared vocabulary and the rules for Kubernetes names.

## Assumptions

- Each API operation and each deployment's share of a sync pass is one step, as the comments of
  `services/deployments.js` assume. In the training half a step is one transaction, one
  read or one call to the cluster, and everything an executor remembers between steps is part of the
  state. A Kubernetes Job is identified by its job and attempt, of which its name is made.
- A changed Deployment is rolled over: its ready count becomes the smaller of what it was and what
  is now wanted. The simulator instead sets it to zero.
- There is one deployment in a front-door state and one namespace. The first eight characters of
  its id, dashes left out, are lower-case hexadecimal, as PostgreSQL prints a UUID.
- `admitted` stands for the registry's checks on a version, `apiUrl` for whether the control plane
  has an address to give a router. Error text is represented by what it names.
- Arithmetic on weights, hash points and pixel coverage is exact; doubles are not modelled.
- A node's name is represented by its place in the collation order, an audit decision by the key
  it is compared by. Whether a failure reason is of a kind a retry can change is an input.
- zlib is an inverse pair given as parameters, and a CRC is any function.

## Promises the code does not keep

Each of these is stated with an input or a run that breaks it and the condition under which it holds.

- `services/deployments.js` keeps an address on pods that are ready, and that holds. But the pods
  may be the router's: a deploy or rollout over a split scales every version it zeroes down at
  once, and the router is then left with nothing ready to forward to; and a pass can move an
  address from a version that answers onto a ready router with nothing ready behind it
  (`FrontDoorLosses`; the conditions are `FrontDoorAnswering.DeployReaches`, `RolloutReaches` and
  `SyncReaches`). The router's readiness probe (`k8s/manifest.js:731-738`, `router/src/app.js:103-124`)
  answers for what the router last saw; while it is right a pass loses nothing (`SyncReachesBehindProbe`).
- `services/executor.js:5-8` and ADR 0012 say several executors may run, but `scheduleJob` checks no
  state and an executor may act on a row it read earlier. The conditions hold for any number of
  executors and crashes; with one executor each of them always holds (`OneExecutor`,
  `Capacity.OneExecutorOverPromisesNothing`).
  - A job that has gone back to the queue is bound, the queue then holds a job with a node that
    nothing counts, and the node is promised twice (`Interference.TwoExecutorsDoubleBook`). Too much
    is promised exactly when such a job is claimed and there is no room for it
    (`Capacity.NothingIsOverPromisedIff`), and the queue holds one exactly once a job is bound while
    queued (`Capacity.QueueHoldsNothingIff`).
  - A launch is marked on a row that has gone on to another attempt, whose Job is then not the one
    recorded, and two launches can share a Kubernetes Job name (`Interference.TwoExecutorsRepeatAName`).
    The names recorded are the attempts' own exactly while no launch is so marked
    (`LaunchNames.NamesAreOwnIff`), and two are the same exactly when a launch is marked under a name
    recorded before (`NamesRepeatIff`); the first does not imply the second
    (`Interference.MisnamedWithoutRepeating`).
  - A cancelled job's workload is left behind (`Interference.TwoExecutorsLeaveAnOrphan`,
    `TwoExecutorsTearDownTooEarly`, `TwoExecutorsLeaveAStray`, `TwoExecutorsDeleteTheWrongJob`),
    exactly when a Job is created for a row already cancelled, a cancel finds the row in the queue with
    its Job still there, or a teardown ends the cancel with the Job there (`Orphans.LeftBehindIff`).
    The last comes about exactly when the teardown deletes another attempt's Job or the Job is created
    between its delete and its end of the cancel (`TeardownMissesIff`).
  - A requeued job is marked as never to be retried (`Interference.TwoExecutorsForfeitARetry`),
    exactly when it is ruled on after it has stopped being failed (`Rulings.RefusalsAreDeservedIff`).
- `services/executor.js:26-31` says a launch interrupted by a crash is safe to repeat. The repeat
  adopts the Job but has revoked the token its pod was given (`Interference.CrashCutsThePodOff`).
  A pod is cut off exactly when its job is issued another token after the one its Job was created with
  (`PodTokens.PodIsCutOffIff`); with one executor that is when the Job was already there
  (`PodCanReportIff`).
- With `MAX_STEPS` set, a run resumed from the checkpoint taken at the limit trains one more batch
  (`Training.OneStepTooMany`; the condition is `ResumingAtTheLimit`).

Where comments and code differ the code is followed. `services/deployments.js:342-344` says changing a
weight leaves pod templates byte for byte the same: a template carries its weight as an annotation
(`k8s/manifest.js:467`), so nothing here is claimed of it. `routing-table.js` says the failover cooldown
is shorter than the refresh interval and that either view can put a version back: both default to
5,000 ms, and a version is eligible only when both views agree. `png.js` says alpha is composited
rather than dropped: a `tRNS` chunk is ignored for greyscale and truecolour images, so their
transparency is dropped. `resnet_cifar.py` says a resumed run is the same run continued: the
random crops and flips of the images are not restored, only the batches are.

## Model

| member | source | states |
|---|---|---|
| Names.JobNamesDistinct | packages/server/src/k8s/manifest.js:25-34 | two attempts of a job with the same Kubernetes Job name are the same attempt, though the human part is truncated |
| Names.JobNameFits | packages/server/src/k8s/manifest.js:25-34 | a Job name is at most 63 characters |
| Names.ServingNamesFit | packages/server/src/k8s/manifest.js:257-287 | an address's, a version's and a router's name are too |
| Names.TargetNamesDistinct | packages/server/src/k8s/manifest.js:279-287 | two versions of a deployment never share a Deployment name |
| Names.FrontNameIsNoTarget | packages/server/src/k8s/manifest.js:257-287 | the address's Service name is no version's name |
| Names.RouterNameIsItsOwn | packages/server/src/k8s/manifest.js:658-666 | the router's name is no version's and not the address's |
| Names.NamesInFull | packages/server/src/k8s/manifest.js:25-34 | the four names in full, for a name short enough not to be cut |
| Names.Id8IsItsStart | packages/server/src/k8s/manifest.js:25-34 | what a name carries of a UUID is its first eight characters |
| Apportionment.ApportionTotal | packages/server/src/domain/routing.js:152-182 | what is handed out totals exactly what there was |
| Apportionment.ApportionQuota | packages/server/src/domain/routing.js:152-182 | every part is the floor or the ceiling of its exact proportional share |
| Apportionment.ApportionNonNegative | packages/server/src/domain/routing.js:152-182 | no part is negative |
| Apportionment.ApportionKeepsZero | packages/server/src/domain/routing.js:152-182 | a weight of 0 stays 0 while any other weight is positive |
| Apportionment.ApportionMonotone | packages/server/src/domain/routing.js:152-182 | a strictly larger weight never ends below a smaller one |
| Apportionment.LargerRemainderFirst | packages/server/src/domain/routing.js:171-179 | the units rounding leaves over go to the larger remainders, and among equal remainders in order |
| Apportionment.ApportionEvenly | packages/server/src/domain/routing.js:159-179 | with every other version at 0 the rest is divided evenly, the first few taking one more |
| Apportionment.ApportionIdentity | packages/server/src/domain/routing.js:152-182 | apportioning weights over their own total gives them back |
| Routing.ValidateWeights | packages/server/src/domain/routing.js:81-130 | accepts exactly the splits that are non-empty, distinct, in range and total 100, and otherwise names the first fault in the order the code looks for them |
| Routing.ComputeRollout | packages/server/src/domain/routing.js:152-182 | the loop over whole parts and remainders computes the apportioned split |
| Routing.HandOutRemainder | packages/server/src/domain/routing.js:171-179 | handing out one at a time in order of remainder is the specification's hand-out |
| Routing.RolloutIsValid | packages/server/src/domain/routing.js:152-182 | a rollout of any distinct weights is a complete split: total 100, distinct, in range, in version order |
| Routing.RolloutVersions | packages/server/src/domain/routing.js:152-182 | the split names the versions it had and the one rolled out, no others |
| Routing.RolloutNamesItsShare | packages/server/src/domain/routing.js:152-182 | the version rolled out gets exactly what was asked while there are others to give the rest to |
| Routing.RolloutIsProportional | packages/server/src/domain/routing.js:152-182 | every other version gets the floor or ceiling of its share of the rest, and one at 0 stays at 0 |
| Routing.RolloutKeepsOrder | packages/server/src/domain/routing.js:152-182 | a version with a strictly larger share than another never ends below it |
| Routing.RolloutIdempotent | packages/server/src/domain/routing.js:152-182 | rolling out the weight a version already has changes nothing of a valid split |
| Choice.ShiftAndAddMultiplies | packages/server/src/domain/routing.js:58-68 | the shifts and adds over signed 32-bit words multiply by 16777619 modulo 2^32 |
| Choice.KnownHashes | packages/server/src/domain/routing.js:58-68 | the hashes of the empty key, of "a" and of "foobar" are FNV-1a's published ones |
| Choice.HashKey | packages/server/src/domain/routing.js:58-68 | the loop computes FNV-1a over the key's UTF-16 code units |
| Choice.Pick | packages/server/src/domain/routing.js:233-241 | the running total picks the target whose stretch of the line holds the point |
| Choice.PickIsStretch | packages/server/src/domain/routing.js:233-241 | a point lands on a target exactly when it lies in that target's stretch |
| Choice.ChooseTarget | packages/server/src/domain/routing.js:201-230 | chooses nothing exactly when no target both takes traffic and is ready, and otherwise one that does |
| Choice.DrawsReachByWeight | packages/server/src/domain/routing.js:201-241 | without a key, or with an empty one, an eligible target is chosen exactly when the draw times the total weight lies between the weights before it and those with its own, so an interval of draws of length weight/total reaches it |
| Choice.ReasonsMean | packages/server/src/domain/routing.js:201-230 | which reason is given: the only one in rotation, the only one ready, among several by key, or among several by chance |
| Choice.StickyStretch | packages/server/src/domain/routing.js:201-241 | which buckets of the 10,000 reach a target |
| Choice.KeysFollowTheirBucket | packages/server/src/domain/routing.js:201-230 | where a key goes depends on its bucket alone |
| Choice.StickyShare | packages/server/src/domain/routing.js:201-241 | over any table, whichever versions are down, a version of weight w that can answer is reached by the floor or ceiling of 10000*w/t buckets, t being the weight that can answer, and any other by none |
| Choice.StickyShareOfWhole | packages/server/src/domain/routing.js:201-241 | with every version that takes traffic reachable, one of weight w is reached by exactly 100*w buckets |
| Choice.TwoVersionStretch | packages/server/src/domain/routing.js:201-241 | with two versions a key reaches the first exactly when its bucket is below 100 times the first's weight |
| Choice.TwoVersionChoice | packages/server/src/domain/routing.js:201-241 | with two versions, either of which may have everything, a key reaches the first exactly when its bucket is below 100 times its weight |
| Choice.RaisingAShareKeepsItsKeys | packages/server/src/domain/routing.js:201-241 | raising a version's share, from nothing or to everything, never moves a key off it |
| Cluster.SimCluster.ApplyDeployment | packages/server/src/k8s/sim.js:170-192 | creates or replaces a Deployment, ready pods capped by what is now wanted |
| Cluster.SimCluster.ApplyService | packages/server/src/k8s/sim.js:194-203 | creates a Service, leaving the selector of one that exists |
| Cluster.SimCluster.PatchServiceSelector | packages/server/src/k8s/sim.js:205-211 | points an existing Service elsewhere, and nothing else |
| Cluster.SimCluster.ListDeploymentNames | packages/server/src/k8s/sim.js:213-225 | exactly the Deployments that carry the labels |
| Cluster.SimCluster.ObserveDeployment | packages/server/src/k8s/sim.js:227-249 | what is wanted and ready, or that there is no such Deployment |
| Cluster.SimCluster.DeleteDeployment | packages/server/src/k8s/sim.js:251-267 | removes a Deployment and the Service of its name |
| DeploymentRows.DeploymentStore.SetWeights | packages/server/src/repos/deployments.js:173-182 | the loop of updates gives each version named its weight and leaves the rest |
| DeploymentRows.DeploymentStore.RecordRouter | packages/server/src/repos/deployments.js:286-296 | records the router, resetting what was seen of it |
| DeploymentRows.WithWeightsAt | packages/server/src/repos/deployments.js:173-182 | what a version's weight is after a list of updates |
| DeploymentRows.RouterRecorded | packages/server/src/repos/deployments.js:286-296 | once a router is gone nothing seen of it is kept, and recording one keeps what was |
| DeploymentRows.WritingASplit | packages/server/src/repos/deployments.js:173-182 | writing a split over rows of the same versions makes the rows' split that split |
| DeploymentRows.UpsertedMembers | packages/server/src/repos/deployments.js:151-161 | upserting leaves every other version as it was and gives this one what was asked |
| DeploymentRows.UpsertedTarget | packages/server/src/repos/deployments.js:151-161 | a version served before keeps what was seen of it, and a new one is pending with nothing seen of it |
| DeploymentRows.UpsertedSorted | packages/server/src/repos/deployments.js:151-161 | versions stay distinct and in order |
| FrontDoorSafety.NeverJudgedStopped | packages/server/src/services/deployments.js:591-601 | a deployment whose weights are a complete split always wants a front and is never judged to have stopped |
| FrontDoorSafety.AnswersIffReady | packages/server/src/k8s/sim.js:82-90 | the address has an endpoint exactly when the pods it stands for are ready |
| FrontDoorSafety.LaunchStage | packages/server/src/services/deployments.js:332-422 | after the versions' objects are applied every version has the pods it should and the address stands where it did |
| FrontDoorSafety.RemovalStage | packages/server/src/services/deployments.js:455-469 | removing an unused router spares everything the address or the split needs |
| FrontDoorSafety.ReapStage | packages/server/src/services/deployments.js:485-515 | reaping spares every target, the router in use and the version the address selects |
| FrontDoorSafety.ApplyMakesLive | packages/server/src/services/deployments.js:332-422 | applying a committed row leaves row and cluster in step, the address where it was |
| FrontDoorSafety.ApplyKeepsFrontReady | packages/server/src/services/deployments.js:332-422 | applying a row never takes the last ready pod from under the address |
| FrontDoorSafety.ReadyIsEvidence | packages/server/src/services/deployments.js:523-567 | what a pass calls ready has a ready pod in that same pass |
| FrontDoorSafety.MoveStage | packages/server/src/services/deployments.js:692-715 | a move leaves the address on ready pods, where it was wanted |
| FrontDoorSafety.ScaleDownStage | packages/server/src/services/deployments.js:730-759 | scaling down what is out of rotation spares what the address stands on |
| FrontDoorOutcomes.ApplyGivesPods | packages/server/src/services/deployments.js:332-422 | after a row is applied every version that takes traffic, and the one the address stands on, wants the pods it was deployed with, every other version none, and a router two |
| FrontDoorOutcomes.DeployGivesPods | packages/server/src/services/deployments.js:239-322 | a deploy gives the version deployed the number of pods asked for, and leaves none to any version the address is not on |
| FrontDoorOutcomes.RolloutGivesPods | packages/server/src/services/deployments.js:943-1003 | so does a rollout, a version new to the deployment being given the deployment's own number |
| FrontDoorOutcomes.SyncGivesPods | packages/server/src/services/deployments.js:767-873 | so does a sync pass, which changes no version's weight or number of pods |
| FrontDoorOutcomes.RunGivesPods | packages/server/src/services/deployments.js:239-1061 | and so does every run of them, with pods coming and going |
| FrontDoorOutcomes.LaunchedService | packages/server/src/services/deployments.js:357-378 | launching gives a version without one a Service, which selects that version's pods and no other's |
| FrontDoorOutcomes.RetireLeavesNothing | packages/server/src/services/deployments.js:1028-1061 | a version that is served, takes no traffic and has not the address on it is gone after a retirement, with its Deployment and Service and nothing else; any other retirement changes nothing |
| FrontDoorOutcomes.ReapLeavesOnlyKept | packages/server/src/services/deployments.js:485-515 | after reaping every model-server object left is of a version served or one the address is on |
| FrontDoorOutcomes.ApplyLeavesOnlyKept | packages/server/src/services/deployments.js:332-422 | so it is after any apply, unless it stops for want of an address to give the router |
| FrontDoorOutcomes.MoveLeavesOnlyKept | packages/server/src/services/deployments.js:839-850 | and after any pass that moves the address |
| FrontDoorOutcomes.RefusalsChangeNothing | packages/server/src/services/deployments.js:239-305 | a deploy of no replicas, a share outside 0 to 100, a rollout with nothing deployed, and a new version the registry does not admit change nothing |
| FrontDoorOutcomes.VersionStatusMeans | packages/server/src/services/deployments.js:523-567 | each status of a version, by what its Deployment wants, has ready and is stuck on, and whether it served before |
| FrontDoorOutcomes.DeploymentStatusMeans | packages/server/src/services/deployments.js:591-663 | each status of a deployment, by the statuses of its versions in rotation, whether its address answers and is in place, and whether it served before |
| FrontDoorOutcomes.ExplanationMeans | packages/server/src/services/deployments.js:591-663 | what each is explained by: exactly the versions in rotation that failed, that are broken, or that are not ready while nothing answers; and the pods counted are those in rotation |
| FrontDoorOutcomes.ChangesCounted | packages/server/src/services/deployments.js:767-873 | the count a pass returns is of the records it found different: versions, router and deployment |
| FrontDoorRuns.DeployIsRolloutTo100 | packages/server/src/services/deployments.js:295-305 | a deploy writes the split a rollout to 100 would |
| FrontDoorRuns.StepKeepsInv | packages/server/src/services/deployments.js:239-1061 | every operation and every change of readiness keeps the row a complete split with distinct versions, the serving version a target, and the cluster in step |
| FrontDoorRuns.RunKeepsInv | packages/server/src/services/deployments.js:239-1061 | and so does every run |
| FrontDoorRuns.SyncKeepsLive | packages/server/src/services/deployments.js:767-873 | a pass keeps the deployment live; it changes the cluster only when it moves the address |
| FrontDoorRuns.RetireKeepsLive | packages/server/src/services/deployments.js:1028-1061 | retiring never touches what the address stands on |
| FrontDoorRuns.StepKeepsAnswering | packages/server/src/services/deployments.js:332-1061 | no deploy, rollout, promotion, retirement or pass takes an address with ready endpoints to one with none |
| FrontDoorRuns.RunKeepsAnswering | packages/server/src/services/deployments.js:332-1061 | nor does any run of them |
| FrontDoorRuns.MovesOntoReadyPods | packages/server/src/services/deployments.js:692-715 | every move of the address lands on pods with one ready in that pass, and the address then answers |
| FrontDoorConvergence.ReadyMeans | packages/server/src/services/deployments.js:591-682 | READY is reported exactly when something takes traffic, all of it is ready, the address is in place and what it resolves to can answer |
| FrontDoorConvergence.OnePassConverges | packages/server/src/services/deployments.js:767-873 | with all pods ready one pass puts the address in place, keeps a router exactly when two versions take traffic, leaves no pods wanted out of rotation and reports READY |
| FrontDoorConvergence.SyncStaysSteady | packages/server/src/services/deployments.js:767-873 | what is ready stays ready over a pass |
| FrontDoorConvergence.SecondLookChangesNothing | packages/server/src/services/deployments.js:767-873 | once in place a second pass writes nothing |
| FrontDoorConvergence.SyncConverges | packages/server/src/services/deployments.js:767-873 | after at most two passes every later one leaves row and cluster alone and counts no change |
| FrontDoorAnswering.DeployReaches | packages/server/src/services/deployments.js:239-318 | a deploy keeps a request reaching a model exactly when the address is on a version or the new version has a ready pod |
| FrontDoorAnswering.RolloutReaches | packages/server/src/services/deployments.js:943-1002 | a rollout does exactly when the address is on a version or some version of the new split has a ready pod |
| FrontDoorAnswering.RetireReaches | packages/server/src/services/deployments.js:1028-1061 | a retirement always does |
| FrontDoorAnswering.SyncReaches | packages/server/src/services/deployments.js:767-873 | a pass keeps it except exactly when the address is on a version, a router is wanted and ready, and no version in rotation has a ready pod |
| FrontDoorAnswering.SyncReachesBehindProbe | packages/server/src/k8s/manifest.js:731-738 | a pass always keeps it while a ready router means a version in rotation is ready |
| FrontDoorLosses.DeployOverSplitLosesTheModel | packages/server/src/services/deployments.js:295-402 | from any fresh deployment there is a run on which requests reach a model until a deploy, and then reach none |
| FrontDoorLosses.RolloutOverSplitLosesTheModel | packages/server/src/services/deployments.js:943-1002 | from any fresh deployment there is a run on which requests reach a model until a rollout, and then reach none |
| FrontDoorLosses.PassOntoRouterLosesTheModel | packages/server/src/services/deployments.js:692-759 | from any fresh deployment there is a run on which requests reach a model until a sync pass, and then reach none |
| ControlPlane.Deployments.LaunchVersions | packages/server/src/services/deployments.js:361-382 | the loop over targets launches each of them |
| ControlPlane.Deployments.Apply | packages/server/src/services/deployments.js:332-422 | the calls in order make the step, and fail exactly when a router is wanted and has no address to be given |
| ControlPlane.Deployments.ApplyRouter | packages/server/src/services/deployments.js:432-444 | makes the router when it is wanted |
| ControlPlane.Deployments.CreateFront | packages/server/src/services/deployments.js:386-405 | makes the address where there is none, pointing at what should be served |
| ControlPlane.Deployments.RemoveRouterIfUnused | packages/server/src/services/deployments.js:455-469 | removes the router once nothing wants it or points at it |
| ControlPlane.Deployments.Reap | packages/server/src/services/deployments.js:485-515 | the loop deletes exactly the objects that are neither served nor pointed at |
| ControlPlane.Deployments.MoveFrontDoor | packages/server/src/services/deployments.js:692-715 | moves the address exactly when it should move and may |
| ControlPlane.Deployments.ScaleDownRetired | packages/server/src/services/deployments.js:730-759 | the loop scales down exactly the versions out of rotation |
| ControlPlane.Deployments.ObserveTargets | packages/server/src/services/deployments.js:780-808 | the loop records each version as seen and counts what changed |
| ControlPlane.Deployments.Sync | packages/server/src/services/deployments.js:767-873 | one deployment's share of a pass is the step, and the count returned is the number of changes |
| ControlPlane.Deployments.Deploy | packages/server/src/services/deployments.js:239-318 | a deploy is its step, and returns the versions it dropped |
| ControlPlane.Deployments.Rollout | packages/server/src/services/deployments.js:943-1002 | a rollout is its step |
| ControlPlane.Deployments.Promote | packages/server/src/services/deployments.js:1012-1018 | a promotion is a rollout to 100 |
| ControlPlane.Deployments.Retire | packages/server/src/services/deployments.js:1028-1061 | a retirement is its step, refused while the version takes traffic or is pointed at |
| Router.RoutingTable.Refresh | packages/router/src/routing-table.js:72-114 | a fetch that fails keeps the table there was |
| Router.RoutingTable.MarkUnreachable | packages/router/src/routing-table.js:171-173 | puts a version out of rotation for 5,000 ms |
| Router.RoutingTable.MarkReachable | packages/router/src/routing-table.js:176-178 | ends a version's cooldown |
| Router.RoutingTable.Handle | packages/router/src/app.js:146-234 | the forwarding loop gives the reply, forwards and marks of the specification |
| Router.RequestIsServedAtMostTwice | packages/router/src/app.js:146-234 | at most two forwards, to distinct versions eligible when chosen; an answer ends it and is attributed to its version; giving up after one means no other was eligible; the fall-through reply is never given |
| Router.FailsOverToAnyOther | packages/router/src/app.js:146-234 | while another version is eligible a failed forward has somewhere to go |
| Router.RefusedIffNoneEligible | packages/router/src/app.js:146-234 | a request is refused outright exactly when no version is eligible |
| Router.FailuresCool | packages/router/src/app.js:146-234 | after a request a version that failed it cools down for 5,000 ms from then, one that answered it does not, and nothing else believed has changed |
| Router.BucketPicksForwards | packages/router/src/app.js:146-234 | with a key the first forward follows its bucket over all versions, and the second over those left |
| Router.DrawsSpreadForwards | packages/router/src/app.js:146-234 | without one each forward follows its own draw, by the weights eligible when it is made |
| Router.LastGoodTable | packages/router/src/routing-table.js:72-114 | the split in use is the last fetched successfully, however many fetches failed since |
| Router.RefreshesCounted | packages/router/src/routing-table.js:72-114 | the refreshes counted are the fetches that succeeded |
| Router.CooldownEnds | packages/router/src/routing-table.js:159-178 | a version is out only within 5,000 ms of a forward that failed |
| Router.CooldownHolds | packages/router/src/routing-table.js:159-178 | and within them it is out, unless it has answered since |
| PngFilter.PaethIsNearest | packages/cli/src/png.js:183-191 | the predictor is a nearest of left, above and above-left to left + above - above-left, ties in that order |
| PngFilter.FiltersMean | packages/cli/src/png.js:152-191 | byte by byte, what each of the five filters adds to what is stored, modulo 256: nothing, left, above, the floor of half their sum, or the nearest of the three |
| PngFilter.UnfilterUndoesFilterLine | packages/cli/src/png.js:152-191 | for every filter, unfiltering a filtered line gives it back |
| PngFilter.FilterUndoesUnfilterLine | packages/cli/src/png.js:152-191 | and filtering an unfiltered line gives the stored one back |
| PngFilter.UnfilterUndoesFilter | packages/cli/src/png.js:152-181 | unfiltering recovers an image for every choice of filter per line, height, stride and bytes per pixel |
| PngFilter.FilterUndoesUnfilter | packages/cli/src/png.js:152-181 | and filtering recovers the stored lines |
| PngFilter.OneImage | packages/cli/src/png.js:152-181 | stored lines describe one image only |
| PngFilter.StoredScanlines | packages/cli/src/png.js:155-159 | reading scanlines out of the flat data inverts laying them out |
| PngFilter.ScanlinesLieInOrder | packages/cli/src/png.js:155-162 | a line's filter byte and its bytes, by their place in the data |
| PngFilter.ReconstructByte | packages/cli/src/png.js:167-177 | one byte is its difference plus the prediction, modulo 256 |
| PngFilter.ReconstructLine | packages/cli/src/png.js:161-178 | the inner loop rebuilds one line in place from the bytes before it, or reports an unknown filter |
| PngFilter.UnfilterBuffer | packages/cli/src/png.js:152-181 | the loops fill the buffer with the unfiltered image, or name the first line whose filter is unknown |
| PngPixels.OnWhiteIsNearest | packages/cli/src/png.js:232-242 | compositing gives the whole number nearest the blend, never darker than the colour; white for alpha 0, the colour for 255 |
| PngPixels.StoredColourIsRead | packages/cli/src/png.js:206-230 | whatever the colour type and depth a colour is stored in, the pixel read is that colour over white |
| PngPixels.SamplesLieInOrder | packages/cli/src/png.js:200-212 | where each sample of a pixel lies in its row, and that of two bytes the first is taken |
| PngPixels.NoColourPastPalette | packages/cli/src/png.js:214-222 | a pixel is refused exactly when its palette index has no entry |
| PngPixels.TruecolourImage | packages/cli/src/png.js:200-246 | 8-bit truecolour comes out as its scanlines |
| PngPixels.PixelInto | packages/cli/src/png.js:206-242 | writes one pixel's three bytes, or reports a palette index with no entry |
| PngPixels.RowInto | packages/cli/src/png.js:205-243 | writes a row of pixels, stopping at the first with no colour |
| PngPixels.ToRgb | packages/cli/src/png.js:200-246 | the loops expand the whole image, or report the first bad index |
| PngContainer.WordRoundTrip | packages/cli/src/png.js:56 | reading a big-endian word inverts writing it |
| PngContainer.WordsAreBigEndian | packages/cli/src/png.js:56 | a word is read and written most significant byte first |
| PngContainer.FormatConstants | packages/cli/src/png.js:23 | the signature and the names of the chunks |
| PngContainer.KindsAreSevenBit | packages/cli/src/png.js:57 | a chunk's kind is read as 7-bit text |
| PngContainer.HeaderFields | packages/cli/src/png.js:128-144 | where the fields of a header are, and exactly which headers are refused |
| PngContainer.WalkVisitsChunks | packages/cli/src/png.js:54-75 | walking a file visits exactly the chunks it was laid out from, and what follows them unless one of them ended the walk |
| PngContainer.CutFileIsRefused | packages/cli/src/png.js:54-63 | a file cut inside a chunk is refused with that chunk's name and length, unless fewer than eight bytes of it are left, which are passed over |
| PngContainer.FindsWhatIsThere | packages/cli/src/png.js:65-75 | of the chunks up to IEND the last palette and transparency are kept, and all the image data in order |
| PngContainer.RefusedInOrder | packages/cli/src/png.js:77-126 | each refusal, in the order in which it is looked for, and the fields of what is returned |
| PngContainer.WalkChunks | packages/cli/src/png.js:54-75 | the loop over offsets is that walk |
| PngContainer.DecodeOfChunks | packages/cli/src/png.js:44-126 | decoding a file depends only on the chunks it was laid out from and what follows them |
| PngContainer.AncillaryChunksIgnored | packages/cli/src/png.js:65-75 | chunks of unknown kinds, anywhere, change nothing, whatever bytes follow |
| PngContainer.ImageDataMaySplit | packages/cli/src/png.js:68-106 | however the compressed stream is cut into IDAT chunks, and whatever bytes follow, the result is the same |
| PngContainer.DecodedSize | packages/cli/src/png.js:44-126 | what is decoded has three bytes for every pixel of its dimensions |
| PngContainer.ReadPixels | packages/cli/src/png.js:101-116 | length check, unfiltering and expansion in order, with their errors |
| PngContainer.ShortDataRefused | packages/cli/src/png.js:101-111 | data is too little exactly when it is shorter than every line with its filter byte |
| PngContainer.UnknownFilterRefused | packages/cli/src/png.js:178-180 | the first line whose filter byte is above 4 is the one refused |
| PngContainer.DecodePng | packages/cli/src/png.js:44-126 | the decoder, with each refusal in the order the code makes it |
| PngContainer.DecodeUndoesFilteredEncode | packages/cli/src/png.js:44-126 | RGB written with any filter on each line is read back for every width and height, and refused exactly when one is zero |
| PngContainer.HeaderWritten | scripts/cifar-png.py:61-80 | the header written: the dimensions, eight bits, truecolour, no interlace |
| PngContainer.DecodeUndoesEncode | scripts/cifar-png.py:61-80 | what the repository's own encoder writes is read back |
| Coverage.OutputCovers | packages/cli/src/png.js:289-305 | along an axis an output pixel's overlaps total width/size |
| Coverage.CoverCountsCells | packages/cli/src/png.js:289-305 | an overlap counts the cells of a grid fine enough for both that lie in both pixels |
| Coverage.SourceIsCovered | packages/cli/src/png.js:289-305 | and a source pixel's overlaps with all outputs total exactly 1 |
| Coverage.OutsideIsUncovered | packages/cli/src/png.js:299-305 | the loop bounds leave out nothing that is covered |
| Coverage.WeightsTotalArea | packages/cli/src/png.js:297-314 | the weights of an output pixel total (width/size)*(height/size) |
| Coverage.SourceWeightsTotalOne | packages/cli/src/png.js:297-314 | each source pixel's weights over all outputs total 1 |
| Coverage.MassIsConserved | packages/cli/src/png.js:284-324 | the unrounded outputs times their area total what the source held |
| Raster.PictureOfBytes | packages/cli/src/png.js:308-319 | reading a picture's flat bytes gives the picture back |
| Raster.BytesOfPicture | packages/cli/src/png.js:308-319 | and writing out the picture of a buffer gives the buffer back |
| Resample.RoundedIsNearest | packages/cli/src/png.js:317-319 | rounding is to the nearest whole number, halves up |
| Resample.MassWithin | packages/cli/src/png.js:299-314 | a weighted total lies between the least and greatest covered value times the area |
| Resample.AverageWithin | packages/cli/src/png.js:284-324 | each rounded channel lies between the least and the greatest of the pixels covered |
| Resample.AverageFitsByte | packages/cli/src/png.js:317-319 | so storing it in a byte never wraps |
| Resample.ResizedSame | packages/cli/src/png.js:284-324 | an image already of the size asked for is unchanged |
| Resample.AddRow | packages/cli/src/png.js:303-313 | the innermost loop adds up one source row, skipped columns adding nothing |
| Resample.AddPixel | packages/cli/src/png.js:299-314 | the loop over rows gives the full weighted totals of an output pixel |
| Resample.ResizeTo | packages/cli/src/png.js:284-324 | the loops fill the buffer with the resampled picture |
| ImagePipeline.MarginsAreEven | packages/cli/src/png.js:256-261 | the crop is centred to within a pixel and full along the shorter axis |
| ImagePipeline.CentreCrop | packages/cli/src/png.js:256-269 | copies the centred square, row by row |
| ImagePipeline.ToInstance | packages/cli/src/png.js:327-338 | nests the flat bytes as rows of pixels |
| ImagePipeline.ImageToInstance | packages/cli/src/png.js:349-364 | decode, crop, resize and nest, or the decoder's refusal |
| ImagePipeline.SeenWithinSquare | packages/cli/src/png.js:349-364 | no channel sent to the model lies outside what the centred square of the file held |
| ImagePipeline.EncodedSquareArrives | scripts/cifar-png.py:61-80 | square RGB of the size asked for, written as a PNG with any filters, reaches the model byte for byte |
| Placement.MemoryTestIsExact | packages/server/src/domain/placement.js:156-182 | the count-based test passes exactly when, whichever good devices the committed jobs hold, enough big ones remain |
| Placement.FittingHasRoom | packages/server/src/domain/placement.js:103-208 | a node that fits has room for the request on top of what is committed |
| Placement.FreeIsWhatIsLeft | packages/server/src/domain/placement.js:49-95 | what a node has free is what it offers less what is reserved and committed, its GPUs being no more than are good |
| Placement.FitsExactly | packages/server/src/domain/placement.js:103-208 | a node fits exactly when it is ready and has, on top of what is reserved and committed, the cores, the memory if any is asked for, and the GPUs, within what it may give out and what is good, with enough of the memory asked for |
| Placement.RefusedForTheFirstLack | packages/server/src/domain/placement.js:103-208 | the refusal given is for the first thing lacking, in the order they are looked at |
| Placement.BetterIsStrictOrder | packages/server/src/domain/placement.js:225-247 | the comparison orders differently named nodes totally and strictly |
| Placement.ChoosesTheBest | packages/server/src/domain/placement.js:225-306 | a node is chosen exactly when one fits, and it comes first in the order among all that fit |
| Placement.ChoosesTheTightest | packages/server/src/domain/placement.js:225-306 | no node that fits leaves fewer GPUs over than the one chosen, or for a job without GPUs has fewer to waste; at equal GPUs none leaves fewer cores, and at equal cores none comes before it by name |
| Placement.EveryNodeOnce | packages/server/src/domain/placement.js:276-298 | the audit rows hold each node once, the winner selected and the others as they fared |
| Placement.OrderDoesNotMatter | packages/server/src/domain/placement.js:263-306 | the choice does not depend on the order nodes are listed in |
| Quota.AffordedExactly | packages/server/src/domain/quota.js:32-95 | a job is admitted exactly when no limit would be exceeded, zero meaning no limit |
| Quota.WithinEachLimit | packages/server/src/domain/quota.js:32-95 | in terms of the four limits: each measure against its own, zero being no limit |
| Quota.FirstBreachIsFirst | packages/server/src/domain/quota.js:33-82 | the breach reported is the first in the order jobs, GPUs, CPUs, memory |
| RunTokens.TokenTable.IssueRunToken | packages/server/src/services/auth.js:160-170 | revokes every token of the job, then adds the new one |
| RunTokens.TokenTable.RevokeRunTokens | packages/server/src/repos/auth.js:170-177 | revokes the job's tokens and no others |
| RunTokens.TokenTable.ExpireRunTokens | packages/server/src/repos/auth.js:198-209 | shortens the job's live tokens to the grace period and never lengthens one |
| RunTokens.AtMostOneLive | packages/server/src/services/auth.js:160-170 | after any changes at most one token of a job is live, and it is the latest issued |
| RunTokens.NeverExtended | packages/server/src/repos/auth.js:198-209 | no change ever gives a token a later expiry or takes back a revocation |
| RunTokens.NeverRevives | packages/server/src/repos/auth.js:62-79 | a token that is not live at a moment never becomes live at it |
| RunTokens.GraceEnds | packages/server/src/repos/auth.js:198-209 | a finished run's token is dead from the end of its grace period, whatever follows |
| RunTokens.LiveUntilTold | packages/server/src/repos/auth.js:170-209 | over any changes a token stays live exactly while none issues another to its job, revokes its job's or ends a grace period of its job by then; other jobs' changes never matter |
| RunTokens.IssuedSpeaks | packages/server/src/services/auth.js:160-170 | a token issued is live for its job and attempt until it expires, whatever befalls other jobs |
| JobLifecycle.ChangesAreLegal | packages/server/src/domain/job-state.js:29-42 | no transaction steps outside the table; terminal states stay; CANCELLING leads only to CANCELLED |
| JobLifecycle.AttemptsAreBudgeted | packages/server/src/domain/retry-policy.js:134-191 | the attempt rises by one only when a retry is granted, and never past max_retries |
| JobLifecycle.RowsStaySettled | packages/server/src/services/jobs.js:83-132 | no transaction leaves a row CREATED or RETRYING |
| JobLifecycle.RelaunchIsANewAttempt | packages/server/src/repos/jobs.js:384-406 | a job that was launched is back before launching only as the next attempt |
| JobLifecycle.CancellingOnlyEnds | packages/server/src/domain/job-state.js:29-42 | once cancelling, whatever follows, a job only ever finishes being cancelled |
| JobLifecycle.ObservationsMean | packages/server/src/services/jobs.js:252-345 | what each observation makes of a row in each state: SUCCEEDED, FAILED with the kind of failure, RUNNING, unchanged or refused |
| JobLifecycle.CancelsMean | packages/server/src/services/jobs.js:158-191 | which jobs a cancel ends at once, which it starts to end, and which it is refused for |
| JobLifecycle.MovesMean | packages/server/src/services/jobs.js:206-240 | which rows can be claimed, requeued, marked launched or finished being cancelled, and what that leaves |
| JobLifecycle.RulingsMean | packages/server/src/domain/retry-policy.js:134-191 | a job gets another attempt, with nothing held of the last, exactly when it failed in a way that can change with attempts left; otherwise why not is recorded, and only that |
| Jobs.NextQueuedIsFirst | packages/server/src/repos/jobs.js:236-250 | the job claimed is queued, not excluded, and no other such job has priority or arrived before it |
| Jobs.PriorityThenArrival | packages/server/src/repos/jobs.js:236-250 | HIGH is claimed before MEDIUM and MEDIUM before LOW, and among equals the one queued first |
| Jobs.CountsWhileHolding | packages/server/src/repos/nodes.js:182-201 | what a job counts for against its project, by measure, from its claim until its run is over |
| Jobs.UsageLeavesItOut | packages/server/src/services/scheduler.js:81-95 | a job's admission is decided on what every other job of its project holds |
| Jobs.NoQuotaNoLimit | packages/server/src/services/scheduler.js:81-95 | a project with no quota set is never refused for one |
| JobRuns.LaunchesAreBudgeted | packages/server/src/services/executor.js:35-163 | over any run, with any executors and crashes, a job is launched at most max_retries + 1 times, each at a different attempt of its row |
| LaunchNames.NamesAreOwnIff | packages/server/src/services/jobs.js:229-238 | over every run, with any number of executors and crashes, every launch is recorded under its own attempt's Job, and every row names its own attempt's, exactly when no launch is marked on a row that has gone on to another attempt |
| LaunchNames.NamesRepeatIff | packages/server/src/k8s/manifest.js:25-34 | over every run two launches of a job are recorded under one Kubernetes Job name exactly when a launch of it is marked under a name recorded before |
| LaunchNames.LaunchesHaveDistinctNames | packages/server/src/repos/jobs.js:374-406 | on a run that marks no launch on a later attempt, no two launches of a job share a Kubernetes Job name |
| OneExecutor.LaunchesHaveDistinctNames | packages/server/src/services/executor.js:26-74 | so with one executor no two launches of a job share a Kubernetes Job name |
| OneExecutor.SoleNeverInterferes | packages/server/src/services/executor.js:106-163 | one executor never marks a launch on a later attempt, nor creates the Job of a row that is cancelled or half torn down, nor can a cancel find a queued row with its Job there |
| JobRuns.OneTokenSpeaks | packages/server/src/services/auth.js:160-170 | at any moment of any run at most one token speaks for a job |
| OneExecutor.WritesAreApt | packages/server/src/services/executor.js:106-163 | with one executor every transaction finds its row as the executor read it, but for a cancel |
| OneExecutor.StepKeepsInv | packages/server/src/services/executor.js:106-163 | with one executor every step, crash and outside event keeps rows, memory and cluster consistent, the Job recorded being the attempt's |
| OneExecutor.RunKeepsInv | packages/server/src/services/executor.js:182-293 | every run of one executor keeps the same |
| OneExecutor.CancelledLeavesNothing | packages/server/src/services/jobs.js:137-191 | with one executor a cancelled job leaves no Job of its attempt in the cluster and none on the way |
| OneExecutor.NoRetryIsLost | packages/server/src/services/jobs.js:423-502 | with one executor a failure that may pass, with budget left, is always still to be ruled on |
| OneExecutor.QueuedHoldsNothing | packages/server/src/services/scheduler.js:144-153 | with one executor a queued job holds no node and has no workload |
| Rounds.ClaimIsPlaced | packages/server/src/services/executor.js:106-128 | from any state, a job just claimed is bound to the node decided on and about to be launched, or, if there is none, back in the queue |
| Rounds.LaunchIsMade | packages/server/src/services/executor.js:35-71 | from any state, an undisturbed launch issues the job a token, revokes its others and no other job's, sees to it that its attempt's Job is in the cluster, and marks the row with it |
| Rounds.OutcomeIsRecorded | packages/server/src/services/executor.js:130-167 | from any state, an undisturbed pass over a launched job records what became of it, succeeded, failed and how, running or lost, and touches nothing else |
| Rounds.CancelIsFinished | packages/server/src/services/executor.js:85-94 | from any state, an undisturbed pass over a job being cancelled deletes its Job and cancels it |
| Rounds.RetryIsGranted | packages/server/src/services/executor.js:220-235 | from any state, an undisturbed ruling on a failed job queues it again exactly when it may pass and attempts are left |
| Rounds.QueuedJobSucceeds | packages/server/src/services/executor.js:182-292 | from any state in which a job is next in the queue and can be placed, one pass starts it on the node decided on, with its Job and a token of its own, and a pass that sees its pod succeed leaves it SUCCEEDED |
| Capacity.DecidedHasRoom | packages/server/src/services/scheduler.js:60-135 | the node decided on has room on top of what its jobs already hold |
| Capacity.RaisedOnlyWithinLimit | packages/server/src/services/scheduler.js:78-109 | with any number of executors, no admission raises a project's use of a limited resource above the limit then in force; only the claim of a job still holding a node raises it otherwise |
| Capacity.ClaimingBookedAdds | packages/server/src/repos/nodes.js:108-148 | such a claim adds the whole request to its node and its project, past both gates |
| Capacity.StepKeepsIff | packages/server/src/repos/nodes.js:108-237 | a step of any executor takes a node or a project past its bounds exactly when it claims a job still holding a node for which there is no room |
| Capacity.NothingIsOverPromisedIff | packages/server/src/repos/nodes.js:108-237 | over every run that takes nothing away, with any number of executors, nothing is promised twice at any point exactly when no step was such a claim |
| Capacity.QueueHoldsNothingIff | packages/server/src/repos/nodes.js:220-237 | over every run, with any number of executors and crashes, a queued job holds a node at some point exactly when some step binds a job in the queue |
| Capacity.NothingIsOverPromised | packages/server/src/repos/nodes.js:108-237 | over every run that takes nothing away and binds no job in the queue, with any number of executors, no node is promised more than it offers net of reservations and no project more than its limits |
| Capacity.OneExecutorOverPromisesNothing | packages/server/src/services/scheduler.js:60-135 | with one executor, over every run that takes nothing away |
| PodTokens.PodIsCutOffIff | packages/server/src/services/auth.js:160-170 | over every run, with any number of executors and crashes, the pod of a Job in the cluster holds a revoked token exactly when its job was issued another after the one the Job was created with |
| PodTokens.LaunchCanReportIff | packages/server/src/services/executor.js:35-74 | when any executor asks for the Job of its launch, the pod holds a revoked token exactly when another was issued after the launch's own, or after the one the Job already there was created with |
| PodTokens.PodCanReportIff | packages/server/src/services/executor.js:35-74 | with one executor, the pod of a launch can report exactly when its Job was not already in the cluster |
| Interference.TwoExecutorsDoubleBook | packages/server/src/services/scheduler.js:60-135 | a run of two executors that promises one CPU twice |
| Interference.TwoExecutorsRepeatAName | packages/server/src/services/jobs.js:229-238 | a run of two executors that records two launches under one Kubernetes Job name |
| Interference.MisnamedWithoutRepeating | packages/server/src/services/jobs.js:229-238 | a run of two executors that marks a launch on a later attempt though no name is recorded twice |
| Interference.TwoExecutorsLeaveAnOrphan | packages/server/src/services/executor.js:85-94 | a run of two executors that creates the workload of a job already cancelled |
| Interference.TwoExecutorsTearDownTooEarly | packages/server/src/services/executor.js:85-94 | a run of two executors that creates the workload between the delete and the end of the cancel |
| Interference.TwoExecutorsDeleteTheWrongJob | packages/server/src/services/executor.js:85-94 | a run of two executors that deletes the Job of an earlier attempt and leaves the one that runs |
| Interference.TwoExecutorsLeaveAStray | packages/server/src/services/jobs.js:158-191 | a run of two executors that cancels a queued job whose workload is running |
| Orphans.RunKeepsTeardowns | packages/server/src/services/executor.js:78-94 | over every run a row read as being cancelled keeps its attempt and the Job recorded with it, and stays cancelling or cancelled until its teardown ends |
| Orphans.OrphanedIff | packages/server/src/services/jobs.js:135-191 | a step of any executor leaves a job's workload behind exactly when it creates it for a row already cancelled, cancels the row from the queue with it there, or ends the cancel with it there |
| Orphans.LeftBehindIff | packages/server/src/services/jobs.js:135-191 | over every run, with any number of executors and crashes, a job's workload is left behind at some point exactly when some step was one of those three |
| Orphans.TeardownMissesIff | packages/server/src/services/executor.js:85-94 | over every run an executor is at some point about to end a cancel with the Job there exactly when it deleted the Job of another attempt, or the Job was created between its delete and its end of the cancel |
| Orphans.NothingIsLeftBehind | packages/server/src/services/executor.js:78-94 | on a run on which no executor gets in the way of another's cancel, no workload is ever left behind and every row names its own attempt's Job |
| Interference.RuledForGood | packages/server/src/services/jobs.js:428-431 | once a ruling stands nothing gives the job another attempt |
| Interference.StaleRulingForfeitsRetries | packages/server/src/services/jobs.js:423-457 | ruling on a job forfeits the retries it has left exactly when it is no longer FAILED |
| Interference.TwoExecutorsForfeitARetry | packages/server/src/services/jobs.js:423-457 | a run of two executors that leaves a requeued job so ruled |
| Rulings.StepKeepsJustIff | packages/server/src/services/jobs.js:423-502 | a step of any executor records a refusal the job does not deserve exactly when it rules on a row that is no longer failed |
| Rulings.RefusalsAreDeservedIff | packages/server/src/services/jobs.js:423-502 | over every run every refusal on record at any point is deserved exactly when no step did so |
| Rulings.NoRetryIsLost | packages/server/src/services/jobs.js:423-502 | on such a run, with any number of executors, a failure that may pass, with budget left, is always still to be ruled on |
| Interference.CrashCutsThePodOff | packages/server/src/services/executor.js:26-74 | a run of one executor with one crash that leaves a starting pod with a revoked token |
| JobStore.JobTable.ApplyTransition | packages/server/src/services/jobs.js:38-58 | moves a row exactly when the table allows it, and otherwise leaves everything |
| JobStore.JobTable.SubmitJob | packages/server/src/services/jobs.js:83-132 | adds one queued row |
| JobStore.JobTable.CancelJob | packages/server/src/services/jobs.js:158-191 | cancels at once or starts cancelling, by state, or refuses and changes nothing |
| JobStore.JobTable.LockNextQueuedJob | packages/server/src/repos/jobs.js:236-250 | the scan finds the job that comes first |
| JobStore.JobTable.ClaimNextJob | packages/server/src/services/jobs.js:206-220 | claims it, or changes nothing when there is none |
| JobStore.JobTable.Committed | packages/server/src/repos/nodes.js:119-128 | sums what occupies a node |
| JobStore.JobTable.ReadClusterView | packages/server/src/repos/nodes.js:108-148 | every node with what is committed on it |
| JobStore.JobTable.ProjectUsage | packages/server/src/repos/nodes.js:182-201 | sums what a project holds, by every measure |
| JobStore.JobTable.Affords | packages/server/src/services/scheduler.js:83-93 | the quota check with the job's own request left out |
| JobStore.JobTable.ScheduleJob | packages/server/src/services/scheduler.js:60-153 | both gates, then the binding, or the row unbound and requeued |
| JobStore.JobTable.MarkLaunched | packages/server/src/services/jobs.js:229-238 | records the Job created and moves SCHEDULING to STARTING, or does neither |
| JobStore.JobTable.RecordObservation | packages/server/src/services/jobs.js:252-364 | applies what the cluster shows, a cancel under way winning |
| JobStore.JobTable.FinishCancellation | packages/server/src/services/jobs.js:367-372 | CANCELLING to CANCELLED or nothing |
| JobStore.JobTable.ConsiderRetry | packages/server/src/services/jobs.js:423-502 | grants a retry exactly when one is due, and otherwise records the ruling |
| AuditLog.SameVerdictIffSameDecisions | packages/server/src/repos/scheduling.js:96-104 | comparing sorted keys compares verdicts as multisets |
| AuditLog.AuditTable.NewestPass | packages/server/src/repos/scheduling.js:68-85 | finds the rows of the last pass and only those |
| AuditLog.AuditTable.RecordDecisions | packages/server/src/repos/scheduling.js:21-65 | the table becomes that of the log with the pass recorded |
| AuditLog.LogIsLossless | packages/server/src/repos/scheduling.js:21-65 | expanding the stored passes by their counts gives back every non-empty verdict in order |
| AuditLog.LogIsFolded | packages/server/src/repos/scheduling.js:24-37 | no two neighbouring stored passes share a verdict |
| AuditLog.CountsTotalPasses | packages/server/src/repos/scheduling.js:29-35 | the counts total the passes that decided anything |
| Training.LoaderResumes | examples/training/resnet_cifar.py:157-171 | skipping the batches done leaves exactly the others, in order |
| Training.LoaderGivesDue | examples/training/resnet_cifar.py:253-275 | the batch at a place in a resumed epoch's loader is the one due at that global step |
| Training.NoImageTwice | examples/training/resnet_cifar.py:135-171 | within an epoch no image is trained on twice, however often it was resumed |
| Training.ScheduleFits | examples/training/resnet_cifar.py:285-286 | the learning-rate schedule follows the step and is never stepped past its end |
| Training.TrainBatch | examples/training/resnet_cifar.py:275-329 | one pass of the inner loop, killed anywhere, stays on the batches due and uploads the periodic checkpoint where one is due |
| Training.TrainEpoch | examples/training/resnet_cifar.py:253-348 | one epoch does too, and ends, at the epoch's end or at the limit, with a checkpoint of where that is |
| Training.Train | examples/training/resnet_cifar.py:239-348 | an attempt trains on exactly the batches due from where it starts, uploads the state of exactly the steps where a checkpoint is due, and ends where it should with a checkpoint of it, unless its steps and uploads use up the number it is given before |
| Training.LatestIsGreatest | packages/server/src/repos/jobs.js:416-427 | the checkpoint offered is of the greatest step |
| Training.EpochsAreKept | examples/training/resnet_cifar.py:331-348 | an attempt that trained past a step where a checkpoint is due has uploaded the state of that step, and the one a retry is offered is no earlier |
| Training.CheckpointsMean | examples/training/resnet_cifar.py:311-348 | of the steps an attempt went past, the states uploaded are exactly those at an epoch's end, at every so many steps short of the end of the schedule, and from the limit on |
| Training.KilledEpochResumes | examples/training/resnet_cifar.py:335-343 | an attempt killed in an epoch it did not begin in has left a checkpoint no earlier than the epoch's start |
| Training.ReachesTargetIff | examples/training/resnet_cifar.py:238-348 | an attempt goes as far as an uninterrupted run exactly when it does not start at the step limit |
| Training.ResumedRunIsTheSameRun | examples/training/resnet_cifar.py:135-348 | over any kills and resumes every step trains on its own batch, and an attempt that ends is in the very state an uninterrupted run ends in |
| Training.ResumingAtTheLimit | examples/training/resnet_cifar.py:328-329 | resuming at the limit, and only that, trains one batch too many |
| Training.OneStepTooMany | examples/training/resnet_cifar.py:328-329 | an instance of it |

## Left out

- Names.JobNameFits: attempts of 47 digits or more, because the attempt is a 32-bit column.
- Names.ServingNamesFit: versions of 42 digits or more, because the version is a 32-bit column.
- Choice.Pick: the shift of a boundary bucket or of a tie that rounding to doubles can cause.
- Resample.ResizeTo: the rounding of doubles inside the sums, because the arithmetic is exact.
- Router.RoutingTable.Handle: request bodies, headers, timeouts and concurrent requests; what a forward does is a function of the version.
- Capacity.NothingIsOverPromised: discovery that takes capacity away, and limits that are lowered, because the jobs already admitted are then over them.
- Capacity.NothingIsOverPromisedIff: the same two, for the same reason.
- Training.ResumedRunIsTheSameRun: the random crops and flips of the images, and checkpoints written without a schedule.
- JobStore.JobTable.LockNextQueuedJob: rows skipped because another transaction has them locked.
- The HTTP routes, JSON schemas, CLI commands, dashboard, metrics and Space scripts.
- The real Kubernetes client, PostgreSQL, S3 and zlib; a chunk's CRC, which the decoder does not look at either.
- That a deleted Job's pods stop some time after it.
- Calls to the cluster that fail half way through an operation on a deployment, and `undeploy`.
- Serving tokens, secrets, API tokens, membership and permissions.
- The simulator advancing jobs by itself, and its service responder.
- The patterns that classify failure reasons, and the text of reasons and logs.
- Two deployments or jobs whose ids agree in their first eight characters.
- Reading the audit trail back for display, and event rows.
- The learning itself, evaluation, and the model upload.
