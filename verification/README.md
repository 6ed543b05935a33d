# MIG slice allocation, modelled and proved

The system hands out slices of NVIDIA GPUs (MIG slices) to pods. This project models the three parts
that have to agree for that to be safe, and proves what they promise.

**The scheduler plugin.** `Filter` places the MIG profiles a pod asks for on the eight slots of a node's
GPUs, greedily and first fit, and stages one `AllocationClaim` per slice; when a claim cannot be placed
or the API server refuses one, it rolls back. `PreBind` promotes the claims on the chosen node and
deletes the rest. `Score` counts free slots. The claims live in the API server (the *store*) and in the
scheduler's informer cache (the *index*).

- `Slots`, `Greedy`: the slot search and the greedy placement. `FirstFit` says what Filter's placement means
  in terms of the index alone.
- `SchedulerSpec`: what one uninterrupted Filter or PreBind does to store and index, and the laws of a
  scheduling cycle.
- `Protocol`: the same as a state machine in which every API call and every index access is a step of
  its own. Filters of one pod run in parallel over the nodes and interleave with the PreBinds of earlier
  pods, the cleanup of deleted pods, the device plugins, the watchers and informer events. A node may be
  filtered again in the same cycle, and a chosen pod may go back to the queue before its PreBind.
  `ProtocolInvariant`, `FilterSteps` and `OtherSteps` prove its invariant; `Runs` states what follows
  for every run.
- `Plugin`: the methods in the form of the source, a class with loops that changes store and index. Each
  is proved against `SchedulerSpec` and records the protocol steps it takes; what it has recorded is a
  run, so what `Runs` says holds of the methods. `Schedule` puts a whole cycle together.
- `Score`, `Capacity`: scoring, and the device counts a node advertises.

**The node agent.** `Allocate` takes created claims, moves them to processing and in use, creates the
slices and writes one CDI spec per container; the watcher reads a removed spec back and releases what
it records. `CdiRecords` holds the text of the records, `NodeAgent` the class. Its ghost field `ledger`
holds the specs whose resources are not released yet. Books are *balanced* when different specs record
different resources and all recorded ones exist, *complete* when every slice and every claim in use is
recorded. Files are *tracked* when every unreleased spec has its file, or was cached before the file went
and has its remove event pending. `NodeSteps` shows that what the agent does to the store is made of
protocol steps: an `Allocate` continues a run, and between two of them the agent may catch up with
whatever the others did.

**Names.** `Naming` has claim names, resource names and the scheduler's profile pattern, `Webhook` the
admission webhook's renaming.

`Findings` holds concrete inputs on which the code does less than one would expect; the exact condition
of each is proved for all inputs by `SchedulerSpec.SuccessIsBacked`, `SchedulerSpec.CycleConserves`,
`NodeAgent.RebootCount`, `Naming.ProfileRoundTrip`, `Naming.ClaimsAreFound`, `Webhook.DemandSurvives` and
`Webhook.RequestsIdempotent`. `Sums` adds up over finite sets.

A requested profile that a node's table lists is assumed to have a placement there, with starts from 0 to
7; without that the slot search indexes out of bounds. Nothing is assumed of the other profiles. Where the comments and the code disagree the model follows
the code: the comment at pkg/scheduler/plugins/mig/mig.go:298 says that GPUs with any staged claim are
skipped, while the code skips those with another pod's staged claim.

## Model

| member | source | states |
|---|---|---|
| Runs.NoDoubleBooking | pkg/scheduler/plugins/mig/mig.go:299-435 | In every state of every run, two live claims on one node and GPU share no slot; every claim lies in slots 0 to 7 and has size 1, 2, 4 or 8 |
| Runs.BookedAsListed | pkg/scheduler/plugins/mig/mig.go:336-351 | In every state of every run, each live claim is booked as the table of its node lists it: on a GPU of the node, at a listed start, with the size listed first for its profile, and so at a listed placement where the profile's sizes are equal |
| Runs.StagingIsExclusive | pkg/scheduler/plugins/mig/mig.go:306-318 | In every state of every run, the claims on one GPU that are not promoted yet belong to one pod |
| Runs.LifecycleStep | pkg/scheduler/plugins/mig/mig.go:525-532 | No step of any participant moves a claim backwards or past a phase, and none changes its placement: a claim is kept, deleted, moved exactly one phase on, or created without status |
| Runs.Lifecycle | pkg/daemonset/deviceplugins/server.go:561-595 | Over any stretch of a run in which a name stays live, its placement is fixed and its phase never falls |
| Runs.IndexIsSuperset | pkg/scheduler/plugins/mig/mig.go:426-431 | In every state of every run, a live claim is indexed with its true placement, and as staged if it is staged, except one that the pod's own Filter call has created but not published yet, or is abandoning |
| Runs.OthersAreIndexed | pkg/scheduler/plugins/mig/mig.go:299-319 | Whatever the Filter calls of the current cycle are doing, on whichever node, every live claim of every other pod is indexed with its true placement |
| Runs.RankNeverFalls | pkg/daemonset/deviceplugins/server.go:561-595 | Over every run, a name that was once promoted is never again live in a lower phase, not even after a deletion: a handed-out claim never comes back as created |
| Runs.TakenOnce | pkg/daemonset/deviceplugins/server.go:561-595 | Over every run no claim is handed out twice: a name a device plugin has taken is never taken again |
| Runs.ListedIsRequested | pkg/scheduler/plugins/mig/mig.go:506-514 | Whatever ran between a Filter that placed every request and the pod's PreBind, when PreBind lists, the pod holds exactly one staged claim of the right profile per request on the chosen node, and the list has exactly those there; if the Filter passed without placing every request, the pod holds nothing there, in store and index |
| Runs.BoundGotItsRequests | pkg/scheduler/plugins/mig/mig.go:515-541 | Conservation over every run: by the end of that PreBind each requested slice has had its claim promoted to created on the chosen node if and only if the Filter there placed every request; the pod owns nothing else anywhere, and nothing at all if it did not |
| Runs.BoundPodsStayOnTheirNode | pkg/scheduler/plugins/mig/mig.go:525-538 | In every state of every run, a bound pod holds claims on its node only, all promoted |
| Runs.NeverOverCapacity | pkg/daemonset/deviceplugins/manager.go:34-46 | In every state of every run, the live claims of a profile on a node are at most the number of devices advertised for it |
| Runs.StepKeepsInv | pkg/scheduler/plugins/mig/mig.go:234-541 | Every step of every participant keeps the protocol invariant |
| Runs.RunKeepsInv | pkg/scheduler/plugins/mig/mig.go:234-541 | The invariant holds in every state of every run from an empty cluster |
| FilterSteps.FilterMoveKeeps | pkg/scheduler/plugins/mig/mig.go:258-457 | Each API call and each index access of a Filter call keeps the invariant, whatever ran in between |
| FilterSteps.ReadGuards | pkg/scheduler/plugins/mig/mig.go:301-319 | A slot table read from a lagging index still marks every live claim of other pods on that GPU, and none of those is staged |
| FilterSteps.NameIsFree | pkg/scheduler/plugins/mig/mig.go:353-368 | Create never meets an existing name: the AlreadyExists branch is dead |
| FilterSteps.PlacingIsSafe | pkg/scheduler/plugins/mig/mig.go:331-360 | A claim at a free start of a usable GPU overlaps no live claim and shares its staging with no other pod |
| OtherSteps.PromotionNeverFails | pkg/scheduler/plugins/mig/mig.go:525-532 | Each claim PreBind still has to visit on the chosen node is live and still staged, so the loose guard never rolls a status back |
| OtherSteps.BindMoveKeeps | pkg/scheduler/plugins/mig/mig.go:504-541 | Each step of a PreBind keeps the invariant, interleaved with the next pods' Filters |
| OtherSteps.CycleMoveKeeps | pkg/scheduler/plugins/mig/mig.go:233-463 | Starting a cycle, giving up, choosing a node and sending a chosen pod back to the queue keep the invariant |
| OtherSteps.OtherMoveKeeps | pkg/scheduler/plugins/mig/mig.go:76-97 | Cleanup of deleted pods, device plugins, watchers and informer events keep the invariant |
| SchedulerSpec.CycleConserves | pkg/scheduler/plugins/mig/mig.go:504-541 | After Filters on any nodes, repeated or not and under any refused Creates and status updates, and PreBind on a node whose last Filter passed: the pod owns exactly one created claim per requested slice, all on that node, in store and index, and no other pod's claim changed, if and only if that Filter did not hide an error |
| SchedulerSpec.BoundWithNothing | pkg/scheduler/plugins/mig/mig.go:361-425 | If it did, PreBind still succeeds whenever the pod has an index entry elsewhere, and leaves the pod bound without any claim |
| SchedulerSpec.PlanNeverChanges | pkg/scheduler/plugins/mig/mig.go:258-319 | No Filter of a cycle changes what any later Filter of the cycle plans, on the same node or another |
| SchedulerSpec.FiltersCommute | pkg/scheduler/plugins/mig/mig.go:258-282 | For one pod and two nodes either order of the Filters gives the same verdicts, store and index, under any API refusals |
| SchedulerSpec.FilterEffect | pkg/scheduler/plugins/mig/mig.go:323-462 | Success means exactly one staged claim per request in store and index; Unschedulable means none in the store and one ghost per placed request in the index; nothing else changes |
| SchedulerSpec.FilterForgets | pkg/scheduler/plugins/mig/mig.go:258-282 | Whatever a Filter left behind on a node, the pod's next Filter there acts as if it had not run: it removes exactly the ghosts |
| SchedulerSpec.PreBindClearsGhosts | pkg/scheduler/plugins/mig/mig.go:533-538 | PreBind removes every index entry and claim of the pod on other nodes, ghosts included, and nothing of other pods |
| SchedulerSpec.PreBindEffect | pkg/scheduler/plugins/mig/mig.go:515-541 | With the requests staged on the node, PreBind succeeds and leaves the pod exactly those claims, created |
| SchedulerSpec.SuccessIsBacked | pkg/scheduler/plugins/mig/mig.go:361-425 | A passing verdict is backed by one staged claim per request, except exactly when the first refused API call comes after at least one placed request: then the rollback hides the error and the node passes with no claim |
| FirstFit.FilterAdmits | pkg/scheduler/plugins/mig/mig.go:301-457 | For n slices of one profile with disjoint placements, Filter without refused calls passes if and only if n is at most the number of pairs of a GPU and a listed placement such that no other pod has a staged claim on the GPU and no claim of another pod there shares a slot with the placement |
| FirstFit.FilterIsFirstFit | pkg/scheduler/plugins/mig/mig.go:297-462 | For any requests, Filter without refused calls places one after the other on the first GPU in node order and the first listed start at which nothing stands in the way, each claim with the listed size; it passes exactly when every request finds such a place |
| FirstFit.FirstFitIsUnique | pkg/scheduler/plugins/mig/mig.go:323-435 | There is only one such plan |
| FirstFit.ChooseIsFirst | pkg/scheduler/plugins/mig/mig.go:327-335 | The GPU loop picks the first usable GPU in node order with a free listed start, and the first such start there; it fails exactly when there is none |
| Greedy.GreedyIsOptimal | pkg/scheduler/plugins/mig/mig.go:323-435 | Greedy places min(n, free listed placements) copies of one profile with disjoint placements |
| Greedy.ChooseUsesOne | pkg/scheduler/plugins/mig/mig.go:327-334 | A spot is found exactly when a free listed placement is left, and taking it uses up exactly one |
| Greedy.MarkUsesOne | pkg/scheduler/plugins/mig/mig.go:427-430 | Marking the first free placement lowers the GPU's free placements by exactly one |
| SlotSearch.GetStartIndex | pkg/scheduler/plugins/mig/mig.go:606-664 | The unrolled search, size 8 without early exit included, computes first fit, wherever it does not index out of bounds |
| SlotSearch.StartIndexIsFirstFit | pkg/scheduler/plugins/mig/mig.go:606-664 | The result is the first listed start whose whole interval is free; it is 9 exactly when none fits, the profile is unknown or the size of its first listed placement, with which all are taken, is not 1, 2, 4 or 8 |
| SlotSearch.BuildAllocatedIndex | pkg/scheduler/plugins/mig/mig.go:702-716 | A slot is 1 exactly when some listed claim of a pod that is not skipped covers it |
| SlotSearch.FreeIsApart | pkg/scheduler/plugins/mig/mig.go:702-716 | An interval free in the table is disjoint from every claim the table marks |
| PluginModel.Plugin.Filter | pkg/scheduler/plugins/mig/mig.go:234-463 | A missing node and node resources that do not parse are errors and an ineligible node is Unschedulable, all without effect; otherwise store, index and verdict are those of the specification for some order of the limits and any refused API calls, and the steps taken are a call of the claim protocol that ends holding its requests exactly when it passed without hiding an error |
| PluginModel.Plugin.FilterNode | pkg/scheduler/plugins/mig/mig.go:258-462 | Purge, read and place together do what the specification of Filter says, from any reachable state |
| PluginModel.Plugin.PurgeOwn | pkg/scheduler/plugins/mig/mig.go:258-282 | Exactly the pod's indexed claims on the node leave the store and the index, one step at a time |
| PluginModel.Plugin.ListGPUAllocations | pkg/scheduler/plugins/mig/mig.go:674-700 | Exactly the indexed claims on the given node and GPU |
| PluginModel.Plugin.ReadSlots | pkg/scheduler/plugins/mig/mig.go:301-319 | The GPU is skipped exactly when another pod has a staged claim on it; otherwise its table marks exactly the other pods' claims |
| PluginModel.Plugin.ReadTables | pkg/scheduler/plugins/mig/mig.go:297-319 | The tables of all usable GPUs of the node |
| PluginModel.FindSpot | pkg/scheduler/plugins/mig/mig.go:327-335 | The GPU loop finds the first usable GPU in node order with a free start |
| PluginModel.Plugin.Place | pkg/scheduler/plugins/mig/mig.go:336-434 | Create, status update and publication put one staged claim into store, index and table, in three protocol steps |
| PluginModel.Plugin.Undo | pkg/scheduler/plugins/mig/mig.go:436-455 | A lack of room deletes the placed claims from the store and leaves the index alone |
| PluginModel.Plugin.Abort | pkg/scheduler/plugins/mig/mig.go:369-425 | A refused call deletes the placed claims from store and index |
| PluginModel.Plugin.PlaceAll | pkg/scheduler/plugins/mig/mig.go:323-457 | The request loop ends as the specification of Filter says, in all of its four ways out |
| PluginModel.ListRequests | pkg/scheduler/plugins/mig/mig.go:323-325 | One request per profile instance of every container, with names that do not repeat |
| PluginModel.RequestsMeetDemand | pkg/scheduler/plugins/mig/mig.go:323-325 | Each container is listed with each profile exactly as often as its limits ask for it |
| PluginModel.Plugin.PreBind | pkg/scheduler/plugins/mig/mig.go:504-541 | Succeeds exactly when it lists a claim and no claim it must promote is missing, which is exactly when it lists a claim; then store and index are those of the specification, and the pod owns exactly the requests of the Filter call that passed if that call holds them, and nothing otherwise; a call that holds requests never fails here |
| PluginModel.ChosenCanPromote | pkg/scheduler/plugins/mig/mig.go:511-532 | In a reachable state nothing PreBind must promote has left the store |
| PluginModel.Plugin.CleanupAllocationClaims | pkg/scheduler/plugins/mig/mig.go:76-97 | Exactly the deleted pod's claims indexed as created leave the store, and those of them that were stored leave the index |
| PluginModel.ChosenConserves | pkg/scheduler/plugins/mig/mig.go:504-541 | In every reachable state PreBind turns what the chosen Filter call holds into exactly its created claims, and leaves nothing for a call that holds nothing |
| PluginModel.Plugin.Schedule | pkg/scheduler/plugins/mig/mig.go:234-541 | Filters on any nodes, the choice of one and PreBind there, as calls of the class: a bound pod owns exactly one created claim per requested slice on that node, or nothing after a hidden error, which takes a refused call; without refusals a chosen node that passed always binds; no other pod's claim changed |
| PluginModel.PathIsRun | pkg/scheduler/plugins/mig/mig.go:234-541 | The steps the methods record are a run of the protocol, so every result about runs holds of them |
| PluginModel.PathKeepsInv | pkg/scheduler/plugins/mig/mig.go:234-541 | Every state the methods record satisfies the protocol invariant |
| PluginModel.Plugin.Score | pkg/scheduler/plugins/mig/mig.go:467-500 | An error exactly when the NodeAccelerator is missing or does not parse; otherwise the node score over all GPUs |
| PluginModel.Plugin.GpuAllocatedSlices | pkg/scheduler/plugins/mig/mig.go:718-726 | The slot table of one GPU with nobody left out |
| Score.ScoreIsFreeCapacity | pkg/scheduler/plugins/mig/mig.go:480-499 | Without overlaps the free slots are eight per GPU less the sizes of the node's live claims, and the score is their percentage rounded down, from 0 to 100 |
| Score.ScoreNeverRises | pkg/scheduler/plugins/mig/mig.go:480-499 | Adding a claim anywhere never raises a node's score |
| Capacity.CountDevices | pkg/daemonset/deviceplugins/manager.go:34-46 | The number of positive placements of the profile times the number of GPUs |
| Capacity.AdvertisedIsPairs | pkg/daemonset/deviceplugins/manager.go:39-45 | The device count is the number of pairs of a GPU and a placement of positive size |
| Capacity.ClaimsWithinCapacity | pkg/daemonset/deviceplugins/manager.go:34-46 | Disjoint non-empty intervals have distinct starts, so the live claims of a profile on a node fit into the advertised count |
| Naming.ExtractProfileNames | pkg/scheduler/plugins/mig/mig.go:548-567 | For every order of the limits, each profile is listed as often as the matching keys ask for it, a quantity below one counting as one |
| Naming.DemandGrows | pkg/scheduler/plugins/mig/mig.go:556-562 | One more in the quantity of a key is one more slice of its profile |
| Naming.ListedAsOften | pkg/scheduler/plugins/mig/mig.go:556-562 | A single key that reads as a profile gets it listed as often as its quantity says, once for a quantity below one |
| Naming.NoDemand | pkg/scheduler/plugins/mig/mig.go:550-563 | A profile no key reads as is not asked for |
| Naming.PlainProfileIs | pkg/scheduler/plugins/mig/mig.go:553-554 | The pattern matches exactly digits, g., digits, gb |
| Naming.ProfileIsRead | pkg/scheduler/plugins/mig/mig.go:552-555 | The profile is read off every key that contains one of the two domains, after a part without digits and before anything |
| Naming.ItoaIsDecimal | pkg/daemonset/deviceplugins/server.go:709-711 | Numbers are written as their decimal digits, without leading zeroes |
| Naming.NamesCollide | pkg/scheduler/plugins/mig/mig.go:353-357 | Two claim names are equal exactly when pod, ordinal and the text node-container agree; on one node never for different claims |
| Naming.NamesDistinctAcrossNodes | pkg/scheduler/plugins/mig/mig.go:353-357 | Names are distinct when no node name extends another by a dash |
| Naming.NamesDoCollide | pkg/scheduler/plugins/mig/mig.go:353-357 | Node n with container x-y and node n-x with container y share a name |
| Naming.ProfileRoundTrip | pkg/daemonset/deviceplugins/device.go:34-42 | Unsanitize undoes sanitize exactly on names that contain neither -plus- nor -plus+ |
| Naming.ResourceNamesDistinct | pkg/daemonset/deviceplugins/device.go:195-199 | Distinct profiles without a dash get distinct resource names |
| Naming.ClaimsAreFound | pkg/daemonset/deviceplugins/server.go:537-539 | The device plugin looks claims up under the profile the scheduler stages them with exactly for plain profiles |
| Webhook.MutateResources | pkg/webhook/webhook.go:96-141 | For every map order: limits renamed, requests rebuilt from renamed GPU limits and non-GPU requests, the scheduler needed exactly for GPU limits |
| Webhook.MutatePod | pkg/webhook/webhook.go:91-166 | Every container is mutated, and scheduler and runtime class are overridden exactly for pods with GPU limits |
| Webhook.RenameIsAdvertised | pkg/webhook/webhook.go:107-113 | The webhook turns a limit on a MIG profile into exactly the resource name the device plugin advertises for it, and for plain profiles the scheduler reads and the plugin looks up that same profile |
| Webhook.RenameElsewhere | pkg/webhook/webhook.go:114-125 | Other nvidia.com names change their domain only, all further names stay |
| Webhook.DemandSurvives | pkg/webhook/webhook.go:104-126 | When no two limit keys collide after renaming, the scheduler reads the same slices of every profile before and after, exactly when no plain nvidia.com key carries a profile pattern |
| Webhook.RenameKeepsProfile | pkg/webhook/webhook.go:107-119 | The scheduler reads the same profile off the old and the new key exactly when the key hides none |
| Webhook.LimitsIdempotent | pkg/webhook/webhook.go:104-137 | Mutating the limits twice is mutating them once |
| Webhook.RequestsIdempotent | pkg/webhook/webhook.go:128-140 | A second pass changes the requests exactly when the limits name an nvidia.com resource and the requests a non-GPU one |
| NodeAgent.Agent.SelectCreated | pkg/daemonset/deviceplugins/server.go:549-571 | Distinct created claims of the node and profile, as many as asked for or all there are |
| NodeAgent.Agent.FetchClaims | pkg/daemonset/deviceplugins/server.go:529-598 | Exactly count distinct created claims, all moved to processing, or none; it succeeds exactly when enough are indexed and none of the selected is missing |
| NodeAgent.Agent.MarkInUse | pkg/daemonset/deviceplugins/server.go:388-415 | The claim is in use in store and index; an error exactly when it has left the store, with the index entry already set |
| NodeAgent.Agent.FillClaimed | pkg/daemonset/deviceplugins/server.go:299-330 | One slice and one annotation entry per claim, each claim in use; fails exactly when a slice cannot be created or a claim has left the store |
| NodeAgent.Agent.ServeClaimed | pkg/daemonset/deviceplugins/server.go:287-349 | The container's spec records exactly its claims and exactly its new slices, and the books stay complete; fails exactly when a slice cannot be created or a claim has left the store |
| NodeAgent.Agent.Allocate | pkg/daemonset/deviceplugins/server.go:261-353 | Every requested device id gets a claim of its own, given to nobody before, or none gets any; given exactly if enough are there; fails exactly when a slice cannot be created; the claims given are in use at their old placement and no other claim changes; each spec records exactly its share of claims and slices, one claim per device id and one for an empty list; other specs are untouched; complete books stay complete and tracked files tracked |
| NodeAgent.SpecRoundTrip | pkg/daemonset/deviceplugins/server.go:299-349 | What the watcher reads out of a spec is exactly the claims and the slice UUIDs that Allocate put in |
| NodeAgent.WriteKeepsBooks | pkg/daemonset/deviceplugins/server.go:331-346 | Writing a spec for resources nobody records yet keeps specs disjoint and backed |
| NodeAgent.ReleaseKeepsBooks | pkg/daemonset/watcher/watcher.go:142-150 | Releasing exactly what a spec records keeps specs disjoint and backed, and complete books complete |
| CdiRecords.SplitJoin | pkg/daemonset/watcher/watcher.go:178-183 | Splitting a joined list at commas gives the list back, for comma-free parts |
| CdiRecords.EnvRoundTrip | pkg/daemonset/deviceplugins/server.go:615-623 | The watcher reads back exactly the device list that was written, and the CUDA list has one index per device |
| CdiRecords.ConvertUUIDsToIndices | pkg/daemonset/deviceplugins/server.go:701-714 | As many consecutive indices as the list has parts |
| CdiRecords.LastDevicesCount | pkg/daemonset/watcher/watcher.go:169-177 | The last variable that names devices counts, under either of its two names, and no other variable matters |
| CdiRecords.ScanEnv | pkg/daemonset/watcher/watcher.go:169-177 | The value of the last variable that names devices |
| NodeAgent.Agent.HandleWrite | pkg/daemonset/watcher/watcher.go:152-155 | The cache follows the file if it is still there |
| NodeAgent.Agent.ProcessDeviceRemoval | pkg/daemonset/watcher/watcher.go:157-195 | Exactly the device's recorded slices and claims go |
| NodeAgent.Agent.HandleRemove | pkg/daemonset/watcher/watcher.go:142-150 | Exactly what the cached spec records is released, once; a spec that never reached the cache releases nothing |
| NodeAgent.MentionsByName | pkg/daemonset/watcher/watcher.go:333-352 | A written spec mentions a pod exactly when it records a claim with the pod's name |
| NodeAgent.Agent.HandlePodDeletion | pkg/daemonset/watcher/watcher.go:325-365 | Exactly the cached spec files that record a claim with the pod's name are removed; repeated paths do no harm |
| NodeAgent.Agent.Drain | pkg/daemonset/watcher/watcher.go:120-135 | Working off the remove events releases exactly the claims and the slices that the cached specs at those paths record, and drops exactly those specs from the ledger |
| NodeAgent.Agent.DeletePod | pkg/daemonset/watcher/watcher.go:325-365 | After a pod's deletion is worked off, no cached spec records a claim with the pod's name, exactly the claims and slices the removed specs recorded are gone, and every spec that recorded no such claim is untouched, on disk and in the cache |
| NodeAgent.Agent.DetectReboot | pkg/daemonset/deviceplugins/server.go:167-218 | Specs against claims in use; in a quiescent node the test fires exactly when the containers of the profile hold a number of slices other than their own number, which for containers served from claims is when some container holds other than one; then exactly that node's and profile's claims in use are deleted, and the books of the other profiles stay balanced |
| NodeAgent.RebootCount | pkg/daemonset/deviceplugins/server.go:167-192 | With complete books the claims in use of a profile are as many as the slices its containers hold together, containers without claims included |
| NodeAgent.RebootTest | pkg/daemonset/deviceplugins/server.go:167-192 | With complete books and containers served from claims, the claims in use are at least as many as the specs, and equal in number exactly when every container holds one slice |
| NodeSteps.FetchKeepsInv | pkg/daemonset/deviceplugins/server.go:581-595 | Selecting claims for Allocate, whichever and however many, keeps the protocol invariant |
| NodeSteps.UsesKeepInv | pkg/daemonset/deviceplugins/server.go:388-415 | Marking claims in use keeps the protocol invariant |
| NodeSteps.RemovalKeepsInv | pkg/daemonset/watcher/watcher.go:184-194 | Releasing everything a spec with balanced books records keeps the protocol invariant |
| NodeSteps.FetchExtendsRun | pkg/daemonset/deviceplugins/server.go:581-595 | The fetch continues a run of the protocol, and what it takes is handed out in that run |
| NodeSteps.GivenStaysGiven | pkg/daemonset/deviceplugins/server.go:561-562 | In every run, no claim that was handed out is created in the last state |
| NodeSteps.UsesExtendRun | pkg/daemonset/deviceplugins/server.go:388-415 | Marking in use continues a run of the protocol |
| NodeSteps.OnwardExtendsRun | pkg/daemonset/deviceplugins/server.go:261-353 | Whatever an Allocate does to the store continues a run of the protocol |
| NodeSteps.AllocateInRun | pkg/daemonset/deviceplugins/server.go:261-353 | An Allocate inside a run continues it to the agent's new store; what it gives was given to nobody before, and all that was ever given is handed out in the longer run |
| NodeSteps.ServeRounds | pkg/daemonset/deviceplugins/server.go:261-353 | Every sequence of Allocates on a node, with any protocol steps of the others in between that leave its claims in use alone, new claims included: no claim is given twice, and each call gives every device id a claim of its own or gives none |
| NodeSteps.CatchUp | pkg/daemonset/deviceplugins/server.go:545-577 | An agent that catches up with a run that went on from its store stays valid: that no claim it gave is created again and that its claims in use are as it left them follows from the run |
| Findings.SuccessWithoutClaims | pkg/scheduler/plugins/mig/mig.go:393-424 | Two slices fit, the second claim is refused: Filter passes and holds nothing |
| Findings.BoundWithoutClaims | pkg/scheduler/plugins/mig/mig.go:361-425 | The same on one of two nodes: PreBind there succeeds and the pod is bound without a claim |
| Findings.TestAfterAllocate | pkg/daemonset/deviceplugins/server.go:192-218 | From a node without containers of the profile, one claim-backed Allocate reaches a quiescent state in which the reboot test fires exactly when the container got a number of slices other than one, and then deletes the claims under the running container |
| Findings.TwoSlicesLookRebooted | pkg/daemonset/deviceplugins/server.go:192-218 | A new node that serves one container two slices is taken for rebooted |
| Findings.UnclaimedLooksRebooted | pkg/daemonset/deviceplugins/server.go:278-281 | A new node that serves one container without a claim is taken for rebooted |
| Findings.RenamingAddsDemand | pkg/webhook/webhook.go:114-119 | The limit nvidia.com/1g.5gb asks for no slice before the webhook and for one after it |
| Findings.PlusSuffixIsLost | pkg/daemonset/deviceplugins/device.go:34-42 | -plus+ does not contain -plus- and still does not round trip |
| Findings.MediaProfileIsNotFound | pkg/scheduler/plugins/mig/mig.go:552-561 | 1g.5gb+me is staged under a profile the device plugin does not look up |
| Findings.SecondAdmissionDropsRequest | pkg/webhook/webhook.go:128-140 | Admitting a pod with a CPU request twice drops the GPU request the first pass added |

## Left out

- String names as map keys: store and index are keyed by pod, node, container and ordinal; the Naming lemmas say exactly when the rendered names are that good, so a cluster whose node names extend one another by a dash is outside the protocol model.
- PluginModel.Plugin.Filter: a Delete either works or finds nothing; the early error returns of a failed Delete are not modelled. Refused Creates and status updates are.
- PluginModel.Plugin.FilterNode: the same.
- PluginModel.Plugin.PurgeOwn: the same.
- PluginModel.Plugin.Undo: the same.
- PluginModel.Plugin.Abort: the same.
- PluginModel.Plugin.PreBind: a status update fails only when the claim is gone, and a Delete never does; an update refused for another reason (pkg/scheduler/plugins/mig/mig.go:527-530) would send a pod with promoted claims back to the queue, which the protocol does not model.
- NodeAgent.Agent.FetchClaims: a status update fails only when the claim is gone; one refused for another reason would leave the index ahead of the store.
- NodeAgent.Agent.MarkInUse: the same.
- NodeAgent.Agent.FillClaimed: the same.
- NodeAgent.Agent.ServeClaimed: the same.
- Failing Bind calls and refused PreBinds: a pod whose claims PreBind has listed does not go back to the queue. A chosen pod may, before its PreBind.
- Informer events that bring back a deleted claim, remove a recreated one, or carry the empty status of a claim that has one by now; events may otherwise be late.
- Changes of a node's resource tables during a run.
- Slot searches for a requested profile with an empty placement list or a start outside 0 to 7, where the code stops with a runtime error.
- Completeness of greedy placement for mixed profiles: it is false, a small slice at start 0 blocks a large one.
- Limits whose keys collide after renaming: which quantity survives depends on map order; `Webhook.DemandSurvives` is about the others.
- Regular, init and ephemeral containers are one list with distinct names; Filter reads the limits once, before the purge, where the code reads them twice after it.
- A pod without GPU limits passes Filter without claims and would then fail in PreBind; SchedulerSpec.CycleConserves and Runs.BoundGotItsRequests are about pods with requests.
- Overlapping Allocate calls, and other participants changing a node's claims during one: the lock is released between selecting and marking claims, so the model takes the calls one at a time.
- The agent's own store and index are not joined with the protocol's state in one object; NodeSteps connects them call by call, a claim belongs to the pod and node in its name (as in every run), and CatchUp assumes that nobody else puts a claim of the node to use or deletes one in use.
- NVML: creating slices is a supply of fresh, non-empty, comma-free UUIDs in which a failure may stand; destroying slices succeeds.
- JSON: claims and annotations are kept as values, an annotation that does not parse is no annotation, and every claim in one has a name and a spec that parses.
- The CDI kind of a spec stands for the profile; validation of class names is not modelled.
- Spec files that cannot be written or removed, temporary files, waiting for an old file to disappear, and the poststop hook itself; spec file names are new, as they come from fresh UUIDs.
- NodeAgent.Agent.HandleRemove: a spec whose write event was never handled releases nothing, as in the code; its claims and slices then leak.
- NodeAgent.Agent.DetectReboot: the deletion of the pods behind the stale claims is not modelled, nor are the device lists sent to the kubelet.
- gRPC serving, registration, polling, timeouts, logging, status conditions and the retry loop of status updates.
- The memory-size rounding of discovered profiles, operator reconciliation, TLS settings, network policies and generated code.
