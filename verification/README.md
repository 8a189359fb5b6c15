# A verified model of the resource tuner

The resource tuner takes tune requests from many clients and decides, for every
system resource, whose value is in force. This project models the parts of it
where that decision, and the life of a request around it, is made, and proves
what they promise. `dafny verify dfyconfig.toml` checks everything.

## How the model is laid out

The **concurrency coordinator** is modelled twice. `DLManager.dfy` and
`CocoTable.dfy` are the code's own shape: intrusive doubly linked lists whose
nodes sit on a request's list and on a table slot's list at once, and a table
object that rewires them in place. `CocoSpec.dfy` says on plain values what one
insertion and one removal do, and every method of the table is proved to do
exactly that. What users are promised is then proved about the values:

- `ListOrder.dfy`: the order the four list policies produce, for all histories.
- `LiveSet.dfy`: every list and every rank is a function of the entries that are
  live, in the order they arrived, whatever was inserted and removed before.
- `Arbitration.dfy`: the register of applied priorities and the value in force
  of a global resource always belong to the head of the highest non-empty level.
  The code applies only in display modes the resource allows, so this holds
  exactly while modes are allowed; the exact condition is proved for each
  operation.
- `Coordinator.dfy`: whole runs. The value in force belongs to the one live
  entry that is better than all others; inserting and removing a request undoes
  itself; tear callbacks come with the last holder; fallback stays within the
  four lists of one instance.
- `Instances.dfy`: resources with several instances, whose one register cell
  lets one instance keep another from being applied.
- `ResourceRegistry.dfy`: rows and slots; exactly when two entries share a slot.

`LinkedTable.dfy` brings the two together over whole runs: a linked table with
any number of requests in it, known by their addresses. Any sequence of
insertions and removals on it does what the same run does on values, so that the
results above are results about the heads of the linked lists.

Appliers and tear callbacks are a log of `Apply` and `Tear` events, and the
value in force is read off that log.

The **life of a request** is a state machine (`Lifecycle.dfy`). Producer threads
verify, register, cancel and enqueue; timers enqueue untunes; one consumer pops,
reads the status, marks, inserts, removes and frees. Every lock-protected body
is one step and steps interleave freely, including between the consumer's own
steps. `LifecycleSafety.dfy`, `LifecycleTable.dfy`, `LifecycleIndex.dfy` and
`LifecycleHistory.dfy` prove what each step keeps; `LifecycleRuns.dfy` states
the results for all runs. `LifecycleFate.dfy` decides, for every reachable
state, which tunes are in the table. `RequestManager.dfy`, `ClientData.dfy`,
`LruCache.dfy` and `RateLimiter.dfy` are the objects the steps work on, and
`RequestQueue.dfy` is the server thread's loop over the linked table, proved to
be a run of the machine's consumer steps. `EarlyUntune.dfy` follows, over whole
runs, an untune that arrives before its tune. `Admission.dfy` is the verification of tunes, and
`RequestHandler.dfy` what a producer thread does with a request from the rate
limits to the queue, proved to be a run of the machine's producer steps.

Around it stand the **block allocator** (`MemoryPool.dfy`), the **wire format**
with its encoder and both decoders (`Bytes.dfy`, `Encoder.dfy`,
`RequestWire.dfy`, `SignalWire.dfy`), the **signal registry** with its two-pass
search (`SignalRegistry.dfy`) and the **classifier's eviction**
(`Classifier.dfy`).

## Where the code and its documentation differ

The model follows the code.

- docs/README.md and `CocoTable.h` call instant apply the default policy; the
  builder starts from lazy apply (`ResourceRegistry.cpp:237`). The model takes
  the policy from the configuration and has no default.
- The untune cache is described by its size, but its set and its queue disagree
  once a value is inserted that is still in it, and then the set can outgrow the
  size: any value twice in a row and maxSize + 1 others do it
  (`LruCaches.TwiceOutgrows`). Set and queue agree throughout if and only if no
  value comes again before maxSize - 1 others (`LruCaches.ExactRunIff`), and the
  set keeps within its size if and only if no absent value is ever inserted while
  the cache is full and its oldest queued value is already gone from the set
  (`LruCaches.FitsRunIff`). The window that untunes rely on holds in any case
  (`LruCaches.Window`).
- `makeAllocation` adds the number of blocks asked for to its counter, not the
  number it obtained. The counter then exceeds the free list by what was not
  obtained, for good (`MemoryPools.MemoryPool.MakeAllocation`); with an excess,
  `getBlock` on an empty list passes its check and follows a null pointer.
- Instances are numbered by the size of a map, which is one to one if and only if
  no identifier is configured twice (`ResourceRegistries.NumberedIff`,
  `ResourceRegistries.RepeatedIdsCollide`). An identifier that was never
  registered is looked up as the first one (`ResourceRegistries.SameIndexIff`).
  So a tune for an unknown cgroup is filed under the first cgroup
  (`ResourceRegistries.UnknownCGroupTakesFirst`), and so are pass-through entries
  for numbers that are not mapped (`Admission.VerifiedHasSlot`).
- Logical core 0 stands for all cores of a cluster, but such an entry is filed
  under core 0 of the table, whichever cluster it is for. So entries for all
  cores of two clusters share a list and a rank, with each other and with entries
  for the core that is number 0 (`Admission.CoresSharedIff`,
  `Admission.AllCoresCollide`); removing the one for the first cluster then falls
  back to the other and resets nothing (`Admission.AllCoresNotTorn`). And the
  appliers cannot tell an entry for core 0 from one for its whole cluster
  (`Admission.CoreZeroReadsAsAll`).
- One register cell serves all cores, clusters or cgroups of a resource. A tune
  for one instance is therefore not applied, although it heads its lists, while
  another instance has a more important level applied
  (`Instances.OtherInstanceBlocks`). As long as the live entries of the resource
  are of one instance at a time, that instance is arbitrated
  (`Instances.OneInstanceArbitrated`).
- Trusted tunes of the server itself skip verification and can have a system
  level for a third-party process (`ContextualClassifier.cpp:589`). So a value of
  a system level in force need not be a system client's: it is exactly if its
  level is one that its client may have (`LifecycleRuns.SystemBeatsThirdParty`).
- An entry for the thread of a process that already has
  `PER_CLIENT_TID_CAP` threads is made although its creation is reported as a
  failure (`ClientData.ClientDataManager.CreateNewClient`).

## Model

| member | source | states |
|---|---|---|
| DLManagers.DLManager.Insert | modula/Components/DLManager.cpp:14-36 | a node not yet on the list goes behind the last one; the list stays a mirrored chain without repeats; a null node is refused |
| DLManagers.DLManager.InsertWithOption | modula/Components/DLManager.cpp:41-106 | a node goes to the front, to the end, or to the given position, with the error codes of the code, and nothing else is reordered |
| DLManagers.DLManager.InsertWithPolicy | modula/Components/DLManager.cpp:117-167 | a node goes in front of the first one the comparator prefers it to, or to the end: stable insertion |
| DLManagers.DLManager.DeleteNode | modula/Components/DLManager.cpp:242-274 | unlinking a node leaves the others in order, keeps the node's links of the other linker, and updates head, tail and size |
| DLManagers.DLManager.IsNodeNth | modula/Components/DLManager.cpp:183-196 | true exactly for the node at that index |
| DLManagers.DLManager.MatchAgainst | modula/Components/DLManager.cpp:212-236 | true exactly when both lists are equally long and all pairs satisfy the comparison, or without a comparison when they are the same nodes |
| DLManagers.OtherListKept | modula/Components/Include/DLManager.h:53-96 | changing one linker of nodes leaves every list of the other linker as it was |
| ListOrder.PlaceIsSplice | modula/Components/DLManager.cpp:117-167 | placing an entry by policy is inserting it at the first position where the policy's comparator holds |
| ListOrder.ArrangePrecedes | resource-tuner/core/CocoTable.cpp:6-48 | for all arrival histories: higher-better and lower-better lists are sorted and stable, lazy is first come first, instant is last come first |
| ListOrder.ValuesDecide | resource-tuner/core/CocoTable.cpp:6-48 | for all arrival histories, in the values themselves: of single-valued entries the only value, of others the second one decides, larger first or smaller first, and equal ones as they arrived |
| ListOrder.PlaceOrdered | resource-tuner/core/CocoTable.cpp:277-318 | insertion keeps the order of the policy |
| ListOrder.WithoutOrdered | resource-tuner/core/CocoTable.cpp:483 | deletion keeps the order of the policy |
| ListOrder.ArrangeWithout | resource-tuner/core/CocoTable.cpp:483 | deleting an entry gives the list that would have come about had it never arrived |
| CocoTables.Request.AddResource | modula/Common/Request.cpp:32-44 | an entry goes behind the request's other entries; the list is created on first use |
| CocoTables.CocoTable.constructor | resource-tuner/core/CocoTable.cpp:53-135 | one empty list for each level of each instance, no priority applied |
| CocoTables.CocoTable.Locate | resource-tuner/core/CocoTable.cpp:203-232 | the slot of an entry, or none when it is skipped, unknown or outside the table |
| CocoTables.CocoTable.InsertInCocoTable | resource-tuner/core/CocoTable.cpp:236-321 | one entry into its slot's list or rank; a pass-through entry is applied at once if the mode is allowed, a listed one when it becomes the head of a level at least as important; all other lists, both linkers, unchanged |
| CocoTables.CocoTable.InsertRequest | resource-tuner/core/CocoTable.cpp:330-386 | all entries of a request in list order; refused exactly when none is taken; only its own listed nodes join the table, every node keeps its place and the links of its own request |
| CocoTables.CocoTable.FallBack | resource-tuner/core/CocoTable.cpp:491-516 | after a list ran empty: the head of the first non-empty level of the same instance is applied, otherwise the default is restored |
| CocoTables.CocoTable.RemoveRequest | resource-tuner/core/CocoTable.cpp:433-530 | every entry leaves its list, visited once each; what was in force is replaced; exactly its nodes leave, all others keep their place and the links of their own requests |
| LinkedTables.LinkedTable.AddRequest | modula/Common/Request.cpp:32-44 | a request with nodes of its own becomes known, without touching the table or any other request |
| LinkedTables.LinkedTable.Insert | resource-tuner/core/CocoTable.cpp:330-386 | on the linked table, whatever other requests are in it: the request goes in as on values, every pass-through entry of it has then been applied if the mode is allowed, and every request, in the table or not, can still be inserted or removed |
| LinkedTables.LinkedTable.Remove | resource-tuner/core/CocoTable.cpp:433-530 | any request in the table comes out as on values, and the others stay as they were |
| LinkedTables.RunOps | resource-tuner/core/CocoTable.cpp:330-530 | any sequence of insertions and removals of requests performed on the linked lists ends in the table that the run on values ends in |
| LinkedTables.ArbitratedHead | resource-tuner/core/CocoTable.cpp:143-186 | in terms of the linked lists: the register names the first level whose list has a head and the hardware holds the value of that head, or the default is in force and all heads are null |
| LinkedTables.RunsApplyHeads | resource-tuner/core/CocoTable.cpp:143-530 | after any such run that holds for every global list-managed resource allowing the modes used, and the entry in force is the best live one |
| CocoSpec.FirstLevel | resource-tuner/core/CocoTable.cpp:502-513 | the scan finds the smallest level whose list is not empty, or tells that there is none |
| CocoSpec.InstanceIsWhole | resource-tuner/core/CocoTable.cpp:495-500 | the four levels of an instance lie side by side inside the table, starting where level 0 of the entry is |
| CocoSpec.PassThroughApplied | resource-tuner/core/CocoTable.cpp:267-275 | inserting an entry of either pass-through policy applies it, whatever is in force, unless the mode is not allowed, and then it is in force; the rank counts it if it has one, and lists and register stay |
| LiveSet.InsertAgrees | resource-tuner/core/CocoTable.cpp:236-321 | insertion keeps all lists and ranks the function of the live entries that they should be |
| LiveSet.RemoveAgrees | resource-tuner/core/CocoTable.cpp:441-528 | so does removal of any live entry |
| Arbitration.InsertArbitratedIff | resource-tuner/core/CocoTable.cpp:143-163 | for any instance of a list-managed resource: insertion leaves the highest level's head applied if and only if the mode is allowed or the new entry does not win |
| Arbitration.RemoveArbitratedIff | resource-tuner/core/CocoTable.cpp:488-527 | removal does if and only if the mode is allowed, the entry was not in force, or it was the only one on the four levels of the instance |
| Arbitration.InsertAllKeepsArbitration | resource-tuner/core/CocoTable.cpp:357-363 | inserting a whole request keeps every global list-managed resource arbitrated |
| Arbitration.RemoveAllKeepsArbitration | resource-tuner/core/CocoTable.cpp:441-528 | removing one does too, after each of its entries |
| Coordinator.RunGood | resource-tuner/core/CocoTable.cpp:236-530 | after any run of insertions and removals the table is the function of the live requests it should be, and all global list-managed resources that allow the modes used are arbitrated |
| Coordinator.RefusedChangesNothing | resource-tuner/core/CocoTable.cpp:365-371 | a request of which no entry is taken leaves the table as it was |
| Coordinator.ListOrdered | resource-tuner/core/CocoTable.cpp:277-318 | in every slot list, one live entry stands before another exactly when the policy ranks it higher by value and arrival |
| Coordinator.InForceIsBest | resource-tuner/core/CocoTable.cpp:143-186 | an entry is in force if and only if it is better than every other live entry of the resource; the default is in force, and the register is -1, if and only if there is none |
| Coordinator.SystemFirst | resource-tuner/core/CocoTable.cpp:502-513 | whatever is in force is at least as important as every live entry |
| Coordinator.InsertThenRemove | resource-tuner/core/CocoTable.cpp:330-530 | inserting a request and removing it restores every list and rank, and for arbitrated resources the register and the value in force |
| Coordinator.TearOnLastHolder | resource-tuner/core/CocoTable.cpp:468-477 | the rank of a pass-through slot is its number of live holders, and removal tears exactly with the last one |
| Coordinator.NotTornWhileShared | resource-tuner/core/CocoTable.cpp:468-516 | as long as another live entry has the same slot, removing one tears nothing |
| Coordinator.AppendedIsTorn | resource-tuner/core/CocoTable.cpp:468-477 | removing an entry of the appending pass-through policy always tears, and changes nothing else |
| Coordinator.NewHeadApplied | resource-tuner/core/CocoTable.cpp:277-318 | for any instance: an inserted listed entry is applied if and only if it heads its list, no more important level is applied and the mode is allowed; exactly then the register takes its level |
| Coordinator.NextHeadApplied | resource-tuner/core/CocoTable.cpp:518-527 | removing the head of a list with others on it applies the next one under the same conditions; removing another entry applies nothing |
| Coordinator.InsertAllPassesOn | resource-tuner/core/CocoTable.cpp:357-363 | inserting a whole request applies every pass-through entry of it, unless the mode is not allowed |
| Coordinator.LivePassedOn | resource-tuner/core/CocoTable.cpp:165-175 | over whole runs in modes that the resource allows: everything live on a pass-through resource has been applied |
| Coordinator.AcceptedIff | resource-tuner/core/CocoTable.cpp:357-371 | a request is refused if and only if none of its entries has a slot |
| Coordinator.GoesLiveIff | resource-tuner/core/CocoTable.cpp:357-371 | a new request becomes live if and only if some entry of it has a slot; otherwise nothing changes |
| Coordinator.FallbackWithinInstance | resource-tuner/core/CocoTable.cpp:491-516 | for every apply type and mode: a removal that empties its list makes the register name the highest non-empty level of the same instance and applies its head if the mode is allowed, or tears if all four levels are empty |
| Coordinator.InstanceLevels | resource-tuner/core/CocoTable.cpp:502-513 | those levels are empty exactly when no live entry remains for them |
| Instances.OneInstanceArbitrated | resource-tuner/core/CocoTable.cpp:143-186 | after any run in allowed modes during which the live entries of a resource are of one instance at a time, the register names the first non-empty level of that instance and its head is in force |
| Instances.OtherInstanceBlocks | resource-tuner/core/CocoTable.cpp:143-163 | for all pairs of instances: a tune for one and then a less important one for the other leave the second, head of its instance, unapplied |
| ResourceRegistries.ResourceRegistry.RegisterResource | resource-tuner/core/ResourceRegistry.cpp:95-129 | codes and rows stay one to one; a configuration with the type and id of a registered one takes its row, any other gets the next row; malformed ones are dropped |
| ResourceRegistries.ResourceRegistry.GetResConf | resource-tuner/core/ResourceRegistry.cpp:150-162 | the registered configuration whose type and id are the two halves of the code; none if and only if there is none |
| ResourceRegistries.CodeHalves | resource-tuner/core/ResourceRegistry.cpp:95-129 | a configuration has a code if and only if its type and its id are the high and the low half of it |
| ResourceRegistries.CodesAgree | resource-tuner/core/ResourceRegistry.cpp:95-129 | codes are equal if and only if type and id are |
| ResourceRegistries.BuildFlatMap | resource-tuner/core/CocoTable.cpp:59-71 | identifiers are numbered as the constructor does |
| ResourceRegistries.FlatMapPositions | resource-tuner/core/CocoTable.cpp:59-71 | distinct identifiers get their positions, one to one |
| ResourceRegistries.NumberedIff | resource-tuner/core/CocoTable.cpp:59-71 | for all identifier lists: they are numbered one to one with 0, 1 and so on if and only if none is repeated |
| ResourceRegistries.RepeatedIdsCollide | resource-tuner/core/CocoTable.cpp:61-64 | one list with a repeated identifier by which two others get the same index |
| ResourceRegistries.SameIndexIff | resource-tuner/core/CocoTable.cpp:214-225 | two different identifiers are looked up as the same index if and only if each is the first registered one or not registered |
| ResourceRegistries.EntryHasSlot | resource-tuner/core/CocoTable.cpp:203-232 | every entry has the slot of its level of the instance it is filed under: its own if that is registered, the first for an unknown cluster or cgroup, and no slot otherwise |
| ResourceRegistries.UnknownCGroupTakesFirst | resource-tuner/core/CocoTable.cpp:220-225 | an entry for an unregistered cgroup has exactly the slot of the first cgroup |
| ResourceRegistries.SlotsShared | resource-tuner/core/CocoTable.cpp:203-232 | two entries share a slot if and only if resource, level and the instance they are filed under agree |
| ResourceRegistries.SlotsDistinct | resource-tuner/core/CocoTable.cpp:203-232 | for registered instances: if and only if resource, instance and level agree |
| LruCaches.MinLRUCache.Insert | modula/CoreModules/AuxRoutines.cpp:283-292 | the oldest value goes when the set is full, the new one is set and queued; the set stays contained in the queue |
| LruCaches.Window | modula/CoreModules/AuxRoutines.cpp:278-296 | a value not queued before stays present through any maxSize - 1 further insertions |
| LruCaches.ExactIff | modula/CoreModules/AuxRoutines.cpp:283-292 | an insertion keeps set and queue in agreement if and only if the value is absent or is the one popped |
| LruCaches.ExactRunIff | modula/CoreModules/AuxRoutines.cpp:278-296 | over any insertions set and queue agree throughout if and only if no value comes again within maxSize - 1 insertions |
| LruCaches.SpreadOutKeepsLast | modula/CoreModules/AuxRoutines.cpp:278-296 | then the cache holds exactly the last maxSize values, in order |
| LruCaches.FitsIff | modula/CoreModules/AuxRoutines.cpp:283-292 | an insertion makes the set outgrow its size if and only if the cache is full, its oldest queued value is gone from the set and the new value is absent |
| LruCaches.FitsRunIff | modula/CoreModules/AuxRoutines.cpp:278-296 | over any insertions the set keeps within its size throughout if and only if that never happens |
| LruCaches.TwiceOutgrows | modula/CoreModules/AuxRoutines.cpp:283-292 | any value inserted twice in a row and then maxSize + 1 others leave maxSize + 1 values in the set |
| ClientData.ClientDataManager.InsertRequestByClientId | resource-tuner/core/ClientDataManager.cpp:144-154 | the handle joins the set of its thread if the thread is known; nothing else changes |
| ClientData.ClientDataManager.DeleteRequestByClientId | resource-tuner/core/ClientDataManager.cpp:156-166 | the handle leaves the set of its thread; nothing else changes |
| ClientData.ClientDataManager.CreateNewClient | resource-tuner/core/ClientDataManager.cpp:50-128 | an existing client keeps its entry; otherwise the thread gets an empty handle set and full health and joins its process, which gets an entry with the permission its status tells when it is new; with 32 threads already the thread is not listed and failure is reported |
| RateLimiters.RateLimiter.ShouldBeProcessed | resource-tuner/core/RateLimiter.cpp:15-51 | the verdict and the new health and timestamp of the thread, every other thread untouched |
| RateLimiters.TimestampIsLastAccepted | resource-tuner/core/RateLimiter.cpp:40-49 | after any calls the stored timestamp is the time of the last accepted one |
| RateLimiters.CallEffect | resource-tuner/core/RateLimiter.cpp:25-49 | after any calls, one less than delta after the last accepted one costs exactly the penalty, a later one earns the reward up to 100, the first does neither; it is accepted if and only if health is left |
| RateLimiters.BurstBlocks | resource-tuner/core/RateLimiter.cpp:27-43 | k + 1 calls, each less than delta after the one before, leave 100 - k * penalty while that is positive; the last is accepted if and only if it is, and otherwise every later call is refused |
| RateLimiters.PatientAccepted | resource-tuner/core/RateLimiter.cpp:32-49 | a client that leaves delta between its calls is always accepted, with full health |
| RateLimiters.HealthBound | resource-tuner/core/RateLimiter.cpp:27-38 | over all call sequences health stays at most 100 and at most 100 plus rewards less penalties |
| RateLimiters.PenaltiesBounded | resource-tuner/core/RateLimiter.cpp:15-51 | an unblocked client has penalty times penalised calls below 100 plus reward times rewarded calls |
| RateLimiters.BlockedForever | resource-tuner/core/RateLimiter.cpp:19-23 | once health is gone, nothing is ever accepted or changed again |
| RequestManagers.RequestManager.MatchItems | resource-tuner/core/RequestManager.cpp:6-38 | two entry lists match if and only if they are equally long and agree entry by entry in code, info, optional info and all values |
| RequestManagers.RequestManager.RequestMatch | resource-tuner/core/RequestManager.cpp:83-141 | true exactly when some active request of the thread makes the same demand; for system clients cancelled and completed ones do not count |
| RequestManagers.AdmittedIff | resource-tuner/core/RequestManager.cpp:163-212 | admitted if and only if handle, priority and ids are in range, the cap is not reached, the handle is neither active nor remembered as untuned, and every active request of the thread differs in source, length, or some entry's code, info words or values, or a system client asks and that one is cancelled or completed |
| RequestManagers.RequestManager.AddRequest | resource-tuner/core/RequestManager.cpp:181-212 | the new map, index and served count; refused at the cap, for an active handle (which is thrown out) and for a handle already untuned |
| RequestManagers.RequestManager.AddToRequestManager | resource-tuner/core/RequestHandler.cpp:244-256 | check and insertion together |
| RequestManagers.RequestManager.RemoveRequest | resource-tuner/core/RequestManager.cpp:214-227 | the entry leaves the map and the handle its thread's set |
| RequestManagers.RequestManager.DisableRequestProcessing | resource-tuner/core/RequestManager.cpp:239-254 | an active handle is marked cancelled, an unknown one remembered |
| RequestManagers.RequestManager.MarkRequestAsComplete | resource-tuner/core/RequestManager.cpp:263-269 | an active handle is marked completed, nothing else changes |
| RequestManagers.EarlyUntuneBlocksTune | resource-tuner/core/RequestManager.cpp:197-200 | a tune whose untune came first is refused, as long as fewer early untunes came in between than the cache holds |
| EarlyUntunes.EarlyUntuneBars | resource-tuner/core/RequestHandler.cpp:303-310 | over all runs: a handle whose untune was remembered before its tune came is active in no later state, if fewer other untunes than the cache has room for are remembered until the tune is up for registration |
| EarlyUntunes.EarlyUntuneForgotten | resource-tuner/core/RequestHandler.cpp:303-310 | the bound is exact: with as many other untunes as the cache has room for, of any different handles, the tune is admitted |
| Admission.AddedMode | modula/Common/Message.cpp:66-68 | adding a processing mode adds exactly that mode and never touches the priority byte |
| Admission.GrantedLevel | resource-tuner/core/RequestHandler.cpp:6-36 | or-ing the granted level into the properties yields the priority asked for if that is a level of the client, and two more otherwise, and keeps the modes |
| Admission.GrantLevel | resource-tuner/core/RequestHandler.cpp:159-169 | the priority is refused if and only if it is neither 0 nor 1, nor, of a third party, 2 or 3; otherwise the word gets that level |
| Admission.OrKeepsBits | modula/Common/Message.cpp:62-64 | or-ing a level yields it if and only if the low byte has no other bits |
| Admission.VerifyIncomingRequest | resource-tuner/core/RequestHandler.cpp:136-242 | accepted if and only if duration, mode, client and asked priority are in order and some resource passes; then the level is the one asked for, or two more for a third party that asks for a system level, and each resource is translated or marked to be skipped |
| Admission.VerifyResource | resource-tuner/core/RequestHandler.cpp:188-231 | a resource passes if and only if it is known, within thresholds, permitted and translatable |
| Admission.ForwardableIff | resource-tuner/core/RequestHandler.cpp:188-231 | in terms of rule and device: a resource passes if and only if it is known, the client may use it, its single value is within both thresholds if they are set, and it names a mapped cluster and core, or all cores, unless it needs no place or passes through |
| Admission.CoresOfCluster | resource-tuner/core/TargetRegistry.cpp:359-377 | the numbers 1 to numCpus of a mapped cluster are, in increasing order, exactly the physical cores from its first one on; every other number is none |
| Admission.TranslatedPlace | resource-tuner/core/RequestHandler.cpp:38-130 | translation stores exactly the physical core and cluster and leaves the rest of the word alone |
| Admission.UnknownClusterPassesThrough | resource-tuner/core/RequestHandler.cpp:107-123 | a pass-through resource for an unmapped cluster ends up with cluster byte 255 |
| Admission.VerifiedFiledUnder | resource-tuner/core/RequestHandler.cpp:64-118 | verification files an entry under the instance that stands for what its logical numbers ask for, all cores of any cluster under core 0; one whose numbers stand for nothing goes astray, to the place given |
| Admission.VerifiedHasSlot | resource-tuner/core/RequestHandler.cpp:224-231 | every entry that passed has the slot of its level of the instance that stands for what it asks for; an entry astray has the slot of some other instance, or none |
| Admission.SharedIff | resource-tuner/core/RequestHandler.cpp:224-231 | two entries of a resource that passed share a slot if and only if they ask for the same, or each asks for core 0 or for all cores of a cluster, or one names nothing and goes astray to where the other is filed |
| Admission.CoresSharedIff | resource-tuner/core/RequestHandler.cpp:44-62 | two mapped core entries share a slot if and only if their physical cores are equal, or each is logical core 0 or has physical core 0 |
| Admission.AllCoresCollide | resource-tuner/core/RequestHandler.cpp:44-62 | entries for all cores of two different clusters always share a slot |
| Admission.AllCoresNotTorn | resource-tuner/core/CocoTable.cpp:468-516 | with both in the table, removing one resets nothing |
| Admission.CoreZeroReadsAsAll | resource-tuner/core/ResourceHooks.cpp:142-165 | verification stores the same core and cluster for the core that is number 0 and for all cores of its cluster |
| RequestHandlers.MeetClient | resource-tuner/core/RequestHandler.cpp:267-291 | below the cap on active requests, and with room in its process, the thread has an entry afterwards, of a process known or new; otherwise the request goes no further |
| RequestHandlers.SubmitTune | resource-tuner/core/RequestHandler.cpp:258-367 | the whole path of a tune is a run of producer steps; it becomes an object exactly when it passes the limits and verification, with the level granted for what it asked, or, if trusted, the limit on active requests and the client entry, with what it asked for; and is queued exactly when it is then admitted |
| RequestHandlers.SubmitHandleRequest | resource-tuner/core/RequestHandler.cpp:293-341 | the whole path of an untune or retune is a run of producer steps; queued exactly when the client is known and within its limit (or trusted), the handle is active and the queue takes the message; a queued untune has cancelled its tune |
| LifecycleSafety.MoveKeepsMap | resource-tuner/core/RequestManager.cpp:181-227 | a step that moves at most two objects, and leaves those two in order, keeps every object at one place and the active map exact |
| LifecycleSafety.AdmittedCore | resource-tuner/core/RequestHandler.cpp:347-352 | registering a tune keeps all memory and map invariants |
| LifecycleSafety.ReadTuneCore | resource-tuner/core/RequestQueue.cpp:31-43 | reading a tune's status keeps them |
| LifecycleSafety.SettledCore | resource-tuner/core/RequestQueue.cpp:45-52 | so does inserting it into the table |
| LifecycleSafety.DropCore | resource-tuner/core/RequestQueue.cpp:38-42 | so does forgetting and freeing it |
| LifecycleSafety.ReadUntuneCore | resource-tuner/core/RequestQueue.cpp:54-72 | so does reading the status of an untune's target |
| LifecycleSafety.TakeCore | resource-tuner/core/RequestQueue.cpp:72 | so does taking a tune out of the table |
| LifecycleSafety.ReleaseCore | resource-tuner/core/RequestQueue.cpp:73-77 | so does forgetting it and freeing both objects |
| LifecycleTable.InsertTable | resource-tuner/core/RequestQueue.cpp:47-52 | the table stays the function of the tunes in it, and arbitrated, when the consumer inserts |
| LifecycleTable.TakeTable | resource-tuner/core/RequestQueue.cpp:72 | and when it removes |
| LifecycleIndex.AdmissionKeepsIndex | resource-tuner/core/RequestManager.cpp:181-212 | admission keeps every thread's handle set equal to its active handles |
| LifecycleIndex.AdmissionKeepsTwinsOut | resource-tuner/core/RequestManager.cpp:83-141 | admission never lets a third-party thread have the same demand active twice, nor exceeds the cap |
| LifecycleIndex.ForgettingKeepsIndex | resource-tuner/core/RequestManager.cpp:214-227 | removal keeps index, cap and absence of twins |
| LifecycleHistory.CancelledStaysOut | resource-tuner/core/RequestQueue.cpp:31-43 | a tune cancelled before its status was read never reaches the table |
| LifecycleHistory.UntunedForGood | resource-tuner/core/RequestQueue.cpp:31-77 | once tune and client untune of a handle are consumed, in either order, it is neither active nor in the table |
| LifecycleHistory.ReadStatusHistory | resource-tuner/core/RequestQueue.cpp:54-70 | an untune that finds its tune not completed is safe to drop: the tune is already cancelled and will be dropped when its turn comes |
| LifecycleRuns.RunInv | resource-tuner/core/RequestQueue.cpp:11-93 | every state reachable by any interleaving satisfies all invariants |
| LifecycleRuns.OwnershipPartition | resource-tuner/core/RequestQueue.cpp:15-93 | an admitted tune is waiting or in the table, never both, and the active map is exactly the union |
| LifecycleRuns.FreedOnceAndOnly | modula/Common/Request.cpp:163-178 | of request objects: none is freed twice, none reachable from map, queue, table or any thread is freed, and none leaks but messages at or below the clean-up priority |
| LifecycleRuns.UntuneSafety | resource-tuner/core/RequestHandler.cpp:303-341 | both untune guarantees in every reachable state |
| LifecycleRuns.Quiescent | resource-tuner/core/RequestQueue.cpp:15-93 | once producers are done and the queue is drained, the active requests are exactly the ones in the table, without any whose untune was consumed |
| LifecycleRuns.IndexAgrees | resource-tuner/core/RequestManager.cpp:163-227 | in every reachable state: cap kept, handle sets exact, no twin demands of third-party threads |
| LifecycleRuns.SystemBeatsThirdParty | resource-tuner/core/RequestHandler.cpp:159-169 | while a tune of a system level holds a global list-managed resource, the value in force comes from a tune of a system level, which is a system client's if and only if its level is one its client may have |
| LifecycleRuns.TableIsArbitrated | resource-tuner/core/CocoTable.cpp:143-186 | in every reachable state the table is the function of the tunes in it and arbitrated |
| LifecycleFates.AppliedIff | resource-tuner/core/RequestQueue.cpp:31-77 | in every reachable state a tune is in the table, or just being taken out, if and only if it has been consumed, was not cancelled before its status was read, has an entry with a slot, and no untune of its handle, a client's or a timer's, has been consumed |
| LifecycleFates.RunFate | resource-tuner/core/RequestQueue.cpp:31-77 | in every reachable state a tune is dropped only if it was cancelled in time or has no entry with a slot, and an untune that has been consumed leaves nothing of its handle behind |
| LifecycleFates.TuneGoesIn | resource-tuner/core/RequestQueue.cpp:31-52 | from any state at rest, an admitted tune with a slot for some entry gets from its producer through queue and consumer into the table, as the newest one |
| LifecycleFates.UntuneTakesOut | resource-tuner/core/RequestHandler.cpp:303-341 | from any state at rest, a client's untune of a tune in the table cancels it, is queued, takes it out, and both objects are freed |
| LifecycleFates.TimerTakesOut | resource-tuner/core/CocoTable.cpp:532-547 | so does the untune of an expired timer |
| RequestQueues.RequestQueue.AddAndWakeup | modula/Components/OrderedQueue.cpp:10-29 | a message is queued unless it is below the clean-up priority; the element count stays the number of queued messages |
| RequestQueues.RequestQueue.PopMessage | modula/Components/OrderedQueue.cpp:54-67 | a queued message of the smallest priority value is taken |
| RequestQueues.RequestQueue.ProcessTune | resource-tuner/core/RequestQueue.cpp:31-52 | if the handle is cancelled or completed the tune is dropped; otherwise it is marked completed and inserted, as the newest one in the table if some entry has a slot, and dropped if none has; dropped means forgotten and freed |
| RequestQueues.RequestQueue.ProcessUntune | resource-tuner/core/RequestQueue.cpp:54-77 | if the handle is active and completed its tune leaves table and active map and both objects are freed; otherwise the untune is dropped and nothing else changes |
| RequestQueues.RequestQueue.OrderedQueueConsumerHook | resource-tuner/core/RequestQueue.cpp:11-93 | the whole loop, working on the linked table, is a run of consumer steps from one reachable state to another; it ends with an empty queue or at a clean-up message |
| RequestQueues.DrainedIsApplied | resource-tuner/core/RequestQueue.cpp:15-93 | after the loop has drained the queue, with no producer at work, the request manager's active requests are exactly those in the table |
| RequestQueues.TabledIff | resource-tuner/core/RequestQueue.cpp:15-93 | of the queue object, between any two messages: a tune is in the table if and only if it has been consumed, was not cancelled in time, has an entry with a slot and no untune of its handle has been consumed |
| MemoryPools.MemoryPool.MakeAllocation | modula/Components/MemoryPool.cpp:13-68 | new blocks go behind the free ones; the counter comes to exceed the free list by the number of blocks that were not obtained |
| MemoryPools.MemoryPool.GetBlock | modula/Components/MemoryPool.cpp:71-113 | the first free block, not held by anyone, leaves the free ones and is held; an exception when the counter is zero; an excess of the counter stays |
| MemoryPools.MemoryPool.FreeBlock | modula/Components/MemoryPool.cpp:115-153 | the block goes behind the free ones and is held no more; null, or anything while none is held, is ignored |
| MemoryPools.RunKeepsPartition | modula/Components/MemoryPool.cpp:71-153 | over all runs free and held blocks are distinct and partition the allocated ones |
| MemoryPools.FirstFreedFirstReused | modula/Components/MemoryPool.cpp:84-147 | a free block with n ahead of it stays free for n requests and is what the next one gets |
| MemoryPools.FreedIsReused | modula/Components/MemoryPool.cpp:115-153 | a freed block is held by no one until as many requests as there were free blocks are served, and is what the next one gets |
| WireBytes.SignedBytes | modula/Components/Include/SafeOps.h:113-117 | every integer that fits a width is read back from its bytes |
| WireBytes.ByteAt | modula/CoreModules/Include/AuxRoutines.h:58-80 | byte i of a number is its i-th digit to the base 256, the lowest first, negative numbers included |
| Encoders.PutTwice | modula/CoreModules/Include/AuxRoutines.h:58-80 | overflow is sticky: appending in pieces is appending at once |
| Encoders.FlatBuffEncoder.Append | modula/CoreModules/Include/AuxRoutines.h:58-80 | the bytes are appended in place if the total stays below the buffer size, otherwise the buffer is never sane again |
| Encoders.SaneIff | modula/CoreModules/AuxRoutines.cpp:247-252 | over any sequence of appended pieces a buffer is sane if and only if they are shorter than 580 bytes all together, and then holds them in order |
| RequestWire.TuneResources | client/APIs/UrmAPIs.cpp:98-176 | malformed calls send nothing, nor do those of 580 bytes or more; all others send a buffer in which the server finds kind, duration, properties, pid, tid and every field of every resource as the caller gave them |
| RequestWire.RetuneResources | client/APIs/UrmAPIs.cpp:180-212 | a valid handle and duration are sent |
| RequestWire.UntuneResources | client/APIs/UrmAPIs.cpp:216-248 | a valid handle is sent |
| RequestWire.Request.Deserialize | modula/Common/Request.cpp:107-161 | the loops over resources and values decode the buffer as specified |
| RequestWire.RequestRoundTrip | modula/Common/Request.cpp:107-143 | decoding the encoding of any request gives it back, whatever follows in the buffer |
| RequestWire.TuneArrives | client/APIs/UrmAPIs.cpp:137-163 | field by field: a tune is sent if and only if 34 bytes and 16 and 4 per value for each resource are less than 580, and then the server decodes kind, handle 0, duration, properties, pid, tid, and code, info, optional info, count and values of each resource |
| RequestWire.HandleArrives | client/APIs/UrmAPIs.cpp:190-235 | retune and untune calls always fit and arrive unchanged |
| RequestWire.HeaderLayout | client/APIs/UrmAPIs.cpp:137-146 | byte by byte, where module, kind, handle, duration, count, properties, pid and tid stand |
| RequestWire.ResourceLayout | client/APIs/UrmAPIs.cpp:148-163 | byte by byte, where the numbers and values of each resource stand, behind those of the resources before it |
| SignalWire.TuneSignal | client/APIs/UrmAPIs.cpp:322-383 | malformed calls send nothing, nor do those of 580 bytes or more; all others send a buffer in which the server finds kind, code, type, duration, both strings, properties, pid, tid and arguments as the caller gave them |
| SignalWire.UntuneSignal | client/APIs/UrmAPIs.cpp:388-427 | a valid handle is sent |
| SignalWire.Signal.Deserialize | modula/Common/Signal.cpp:60-118 | the scans for terminators and the argument loop decode the buffer as specified; a negative argument count fails |
| SignalWire.SignalRoundTrip | modula/Common/Signal.cpp:60-100 | decoding the encoding of any signal gives it back, strings and arguments included |
| SignalWire.SignalArrives | client/APIs/UrmAPIs.cpp:340-371 | field by field: a signal is sent if and only if 44 bytes, both strings and 4 per argument are less than 580, and then the server decodes what the caller passed |
| SignalWire.FrontLayout | client/APIs/UrmAPIs.cpp:342-347 | byte by byte, where module, kind, code, type, handle and duration stand |
| SignalWire.StringsLayout | client/APIs/UrmAPIs.cpp:349-363 | the two strings follow, each up to a zero byte |
| SignalWire.BackLayout | client/APIs/UrmAPIs.cpp:364-371 | byte by byte, where count, properties, pid, tid and arguments stand behind the strings |
| SignalRegistries.FindBestExtraAttrsMatch | resource-tuner/signals/SignalRegistry.cpp:33-84 | the first full match if there is one; otherwise the first variant of the highest near score, if that beats the best exact score, which is kept otherwise |
| SignalRegistries.ChosenIsNearest | resource-tuner/signals/SignalRegistry.cpp:60-83 | whichever pass decided, no variant is in more places within a fifth of what is given than the one returned, which agrees in all places if some variant does |
| SignalRegistries.ChosenHitsMost | resource-tuner/signals/SignalRegistry.cpp:43-83 | as long as no variant is near in more places than some variant is equal in, the one returned is equal in the most places |
| SignalRegistries.ExactCounts | resource-tuner/signals/SignalRegistry.cpp:45-50 | the exact score is the number of places where variant and given attributes are equal |
| SignalRegistries.NearCounts | resource-tuner/signals/SignalRegistry.cpp:62-71 | the near score is the number of places whose distance is a fifth of what is given at most |
| SignalRegistries.OwnAttrsFind | resource-tuner/signals/SignalRegistry.cpp:204-240 | a variant on the list is what its own four attributes find |
| SignalRegistries.StaysUntilOverridden | resource-tuner/signals/SignalRegistry.cpp:108-136 | registering another variant removes it if and only if the attributes are the same |
| SignalRegistries.StaysWhileRegistering | resource-tuner/signals/SignalRegistry.cpp:108-171 | over any sequence of registrations a variant stays on its list if and only if none of them has its key and attributes |
| SignalRegistries.FoundUntilOverridden | resource-tuner/signals/SignalRegistry.cpp:108-240 | so its own attributes find it if and only if none of them has |
| SignalRegistries.SignalRegistry.RegisterSignals | resource-tuner/signals/SignalRegistry.cpp:138-171 | registering any signals one after another has that effect on the lists in memory |
| SignalRegistries.AddToFeaturedSigList | resource-tuner/signals/SignalRegistry.cpp:108-136 | in place: a duplicate is replaced where it stands, anything else goes in front; attributes stay pairwise distinct |
| SignalRegistries.SignalRegistry.RegisterSignal | resource-tuner/signals/SignalRegistry.cpp:138-171 | one entry changes as described, all other lists are untouched, and the total stays the number of registered signals |
| SignalRegistries.SignalRegistry.GetSignalConfigByIdAndType | resource-tuner/signals/SignalRegistry.cpp:204-240 | the plain configuration, the first variant or the best variant, depending on what is given and registered |
| SignalRegistries.KeysDiffer | resource-tuner/signals/SignalRegistry.cpp:146-152 | keys are equal if and only if category, id and type are |
| SignalRegistries.TotalIsSum | resource-tuner/signals/SignalRegistry.cpp:166-170 | the total is the number of plain configurations plus the lengths of all variant lists |
| Classifiers.ContextualClassifier.TrackClient | contextual-classifier/ContextualClassifier.cpp:213-226 | a handle is queued under its client, unless it is none or the client has priority |
| Classifiers.ContextualClassifier.ReShuffle | contextual-classifier/ContextualClassifier.cpp:228-252 | at the threshold all leading handles of the oldest client leave the queue and are untuned |
| Classifiers.ContextualClassifier.ProcessEvent | contextual-classifier/ContextualClassifier.cpp:271-361 | one event has the specified effect on queue, counters and untunes |
| Classifiers.EvictsOldest | contextual-classifier/ContextualClassifier.cpp:233-246 | eviction removes exactly one client, with all its handles |
| Classifiers.RunOk | contextual-classifier/ContextualClassifier.cpp:228-354 | after any events the queue is sorted by client, the count is the number of different clients in it and at most the threshold, and tracked handles are the evicted ones followed by the queued ones |
| Classifiers.UntunedInOrder | contextual-classifier/ContextualClassifier.cpp:233-246 | every tracked handle is still queued or was untuned by eviction, each once and in order |
| Classifiers.UntunesPositive | contextual-classifier/ContextualClassifier.cpp:236-243 | of the evicted entries exactly those with a positive handle are untuned, each once and in their order |
| Classifiers.EntriesAcquired | contextual-classifier/ContextualClassifier.cpp:213-226 | of the acquired handles all but -1 are tracked, each once, in their order and under the client's number |
| Classifiers.StartTracks | contextual-classifier/ContextualClassifier.cpp:271-354 | after any events: the start of a named application without priority, and no other event, tracks what it acquired; client numbers go up as in the code |
| Classifiers.EvictsAtThreshold | contextual-classifier/ContextualClassifier.cpp:228-252 | after any events: such a start, and no other event, evicts, if and only if as many clients as the threshold have tracked handles, and then all handles of the oldest one and nothing else |

## Left out

- Applier and tear callbacks, sysfs, cgroup and IRQ writers: a log of callback events stands for them; a missing callback is not modelled.
- Sockets, netlink, D-Bus, process scanning, logging and the command line.
- YAML parsing and the builders of configurations and signals.
- The classifier's inference, feature extraction and per-application configuration: the handles an application acquires are a parameter of the event.
- Threads, mutexes and timers as such: each lock-protected body is one step, and expiry is a step that can happen for any tune in the table.
- Durations and timers: `updateRequest`, retuning a duration, timer allocation and timer start failure.
- Failing allocations, apart from preallocation of blocks, and garbage collection of dead clients.
- Suspend and resume: the list of active tunes kept for it is never filled by the code.
- What is in force on a core, cluster or cgroup resource while several of its instances have live entries: lists, ranks and fallback are stated for it, and the run that goes wrong.
- Internals of `std::priority_queue`, `unordered_map` and `unordered_set`: multisets, maps and sets; ties in the queue are arbitrary.
- Rounding of health: real numbers.
- Storage of resource values (two inline, more on the heap) and the resource copy constructor: a sequence of values.
- Core numbers above 255: `Admission.Platform` keeps processor numbers within a byte.
- Reads behind the end of a buffer that a malformed message causes: decoding such a buffer is outside the contracts of the two `Deserialize` methods.
- The variant search frees the caller's attributes on one path only; memory of signals is not modelled.
- The wake-up message of `forcefulAwake`: it acts like any message of the clean-up priority.
- RequestQueues.RequestQueue.OrderedQueueConsumerHook: a retune is read and freed, without the change of the tune's duration.
- LifecycleRuns.SystemBeatsThirdParty: for display modes the resource allows, because the code applies nothing in others.
- RequestHandlers.SubmitTune: a trusted tune has one of the four levels, as the only one the code makes has; a known thread is taken to belong to one process, which is known as well. A request that is turned away before it was verified is freed before any other thread can see it, so it is not recorded as an object of the lifecycle.
- DLManagers.DLManager.DeleteNode: for a node that is on the list, as all callers pass; for any other the code would empty or tear a list.
- RequestWire.Request.Deserialize: buffers that hold a whole message, see above.
- SignalWire.Signal.Deserialize: buffers that hold a whole message, see above.
- MemoryPools.MemoryPool.GetBlock: not with an empty free list and a counter above zero, where the code follows a null pointer.
- MemoryPools.MemoryPool.FreeBlock: callers free only blocks they hold; freeing anything else while blocks are held is outside the contract.
- CocoTables.CocoTable.RemoveRequest: takes a request that was inserted with the priority it still has.
- CocoTables.CocoTable.InsertRequest: takes a request that is not in the table and shares no node with one that is.
