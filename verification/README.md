# Kubernetes node and controller protocols, in Dafny

A Dafny 4.11 model of five pieces of Kubernetes 1.22 that keep state across many events, with proofs about
every run, every interleaving or every input. `dafny verify dfyconfig.toml` checks the project. Nothing was
executed: the results are about the model.

- **Pod workers** (`PodLifecycle`, `PodLifecycleInvariant`, `PodLifecycleTheorems`, `PodTermination`,
  `PodSuccess`, `PodRestart`, `PodProgress`, `PodWorkers`). `PodLifecycle` is a step system for one pod UID:
  each section that holds the lock, each channel receive and each start or return of a sync function is one
  step, with any outcome and in any order. The state includes every goroutine ever started, its capacity-1
  channel, the failures a Go channel operation can have, and a history of work generated, handled and run.
  `PodWorkers` is the class with the maps, each method proved to take the matching step for its UID and no
  other.
- **kube-proxy change tracking** (`EndpointSlices`, `EndpointGroups`, `EndpointChanges`, `EndpointUpdates`,
  `EndpointRuns`, `EndpointSources`, `EndpointReports`; `ServiceChanges`, `ServiceRuns`; `Order`). Incremental
  caches, compared with what the live objects say from scratch. The reference is a set of facts (service port,
  endpoint string, locality), which mentions neither caches nor iteration order; `EndpointSources`,
  `EndpointReports` and the end of `ServiceRuns` then say what the maps show and what is reported in terms of
  the fields of the slices and services that the events carried. Map iteration and unstable sorting are
  nondeterministic.
- **Pod status** (`ContainerStatuses`, `PodPhase`, `StatusOutcomes`, `PodStatusRuns`). Conversion of runtime
  reports in four passes, what it shows for each container, the phase, and its merge with the stored and the
  API server's phase.
- **Controller expectations and deletion ranking** (`Expectations`, `ExpectationStores`, `DeletionRanking`).
  Expectations are a step system in which the unlocked counter operations may fall between any two steps of a
  locked one; a lookup and the atomic add that follows it are separate steps. The ranking is compared with
  lexicographic keys.
- **Docker auth field** (`Base64`, `DockerAuth`). Base 64 as in section 4 of RFC 4648 on arbitrary bytes, with
  the two decoders the field is dispatched to.

Where the code does less than its comments say or than one would expect, it is modelled as it is, with a
counterexample and the exact condition beside it:

- The comment on `CompletedCh` says a completion channel is never left open once the pod can have no running
  containers. It is open then, and after the purge, exactly when the request was dropped or a runtime-only
  kill ended the pod it was registered for (`CompletionStaysOpenExactly`). The dropped requests are: an update
  without a kill for a pod known only to the runtime; a create for a terminating pod; any request for a
  finished pod, also one found finished on first sight (`CompletionLeftOpen`); and a kill of a pod known only
  to the runtime for one that is terminated and not yet finished.
- A comment says the grace period can only decrease. It grows exactly when a zero override is read as unset
  and a larger value follows (`GraceGrowsExactly`), and it does so in a run (`RecordedGraceGrows`); with
  nonzero overrides it is a minimum (`GraceOverRun`).
- An idle worker has handled the latest item, but has called a sync function for it only if the status cache
  could be read (`IdleRanLatest`, `IdleWithoutRunning`).
- A pod to be terminated does not always finish by itself: its worker goes idle after a failed status read or
  a failed sync with nothing undelivered (`OutOfWorkHappens`). That is the only case
  (`FinishesByItselfExactly`), one more update helps (`EveryPodCanFinish`), and without failures every run
  finishes (`EveryGoodRunFinishes`).
- A pod stored as Running can be stored as Pending next. That happens exactly when its phase does not become
  terminal and it may not run, or an init container has not ended, or an app container is shown as waiting to
  start although it had started (`WhenARunningPodTurnsPending`). The last has two causes. A container that was
  not shown as running is reported in state unknown, and no report before says it ended
  (`UnknownReportTurnsPending`). Or a container whose newest report says running is marked for restart; since
  the runtime lists reports newest first, that takes reports of one container created at the same instant
  (`MisjudgedContainer`, `SortedReportsAreNotMisjudged`). If the app containers were all running, only the
  second is possible (`WhenARunningPodIsPending`).
- A comment on the deletion comparator puts pods with a higher deletion cost first. The code puts the cheaper
  ones first (`ReadinessCostAndRankDecide`).
- With logarithmic scaling the deletion comparator is not transitive in general (`ScaledIsNotTransitive`). It
  is a strict weak order on pods with different UIDs exactly when no three of them clash, and a strict total
  order exactly when in addition no two are tied (`ScaledIsWeakOrderExactly`, `ScaledIsTotalOrderExactly`).

## Model

| member | source | states |
|---|---|---|
| PodLifecycle.EffectiveGrace | pkg/kubelet/pod_workers.go:740-768 | The effective grace period is at least 1 whatever is recorded or requested. |
| PodLifecycleInvariant.UpdatePreserves | pkg/kubelet/pod_workers.go:524-736 | Every update, for every status, keeps the protocol invariant: one live worker on the registered channel, `working` true exactly when one item is queued or in flight, work in line in order, the last one the latest generated. |
| PodLifecycleInvariant.WorkerPreserves | pkg/kubelet/pod_workers.go:770-868 | Every step of every worker goroutine keeps the invariant, including steps of goroutines of earlier incarnations, which do nothing. |
| PodLifecycleInvariant.HousekeepPreserves | pkg/kubelet/pod_workers.go:1074-1095 | Purging a finished pod keeps the invariant and files a phase-ordered history. |
| PodLifecycleInvariant.RunInv | pkg/kubelet/pod_workers.go:524-1095 | The invariant holds after every sequence of steps in any order and with any outcomes. |
| PodLifecycleTheorems.PodsAreIndependent | pkg/kubelet/pod_workers.go:1039-1068 | In a run of the whole kubelet each pod is in the state its own events and the housekeeping calls alone lead to. |
| PodLifecycleTheorems.NoSyncAfterTermination | pkg/kubelet/pod_workers.go:441-474 | In every reachable state, if containers should be terminating or there can be no running container, then no sync work of that UID is running, held, queued or undelivered. |
| PodLifecycleTheorems.IncarnationsArePhased | pkg/kubelet/pod_workers.go:624-682 | What each incarnation of a UID handles is sync, then terminating, then terminated work, in the order generated. |
| PodLifecycleTheorems.CallsArePhased | pkg/kubelet/pod_workers.go:770-868 | The same order for the sync functions actually called, in the present and in every past incarnation. |
| PodLifecycleTheorems.AtMostOneWorker | pkg/kubelet/pod_workers.go:690-709 | Two goroutines of a UID that have not exited are the same one, and the channel registered is its own; an incarnation starts at most one. |
| PodLifecycleTheorems.IncarnationEndsByPurge | pkg/kubelet/pod_workers.go:1039-1095 | An incarnation ends only by a housekeeping call on a finished pod that is unknown or asked to restart, when every worker has left and the maps hold nothing of it. |
| PodLifecycleTheorems.NoRestartBeforePurge | pkg/kubelet/pod_workers.go:575-592 | While a pod has a status no step starts a second worker and its stage never goes back, even when it is recreated mid-termination. |
| PodLifecycleTheorems.ChannelsAreSafe | pkg/kubelet/pod_workers.go:711-729 | In every run no send meets a full, closed or missing channel, no worker channel is closed twice, no status is nil, and queued plus in-flight items number one exactly when `working`. |
| PodLifecycleTheorems.NoLostWork | pkg/kubelet/pod_workers.go:1006-1015 | Whenever an unfinished worker is idle, nothing is undelivered and the last item handled is the latest generated, however many were coalesced. |
| PodLifecycleTheorems.RanIsReadable | pkg/kubelet/pod_workers.go:785-826 | In every run, the items a sync function was called for are exactly the handled ones whose status read did not fail, in order. |
| PodLifecycleTheorems.IdleRanLatest | pkg/kubelet/pod_workers.go:785-830 | An idle worker has called a sync function for the latest item if and only if the status read for it did not fail; the call is recorded by the step that makes it. |
| PodLifecycleTheorems.IdleWithoutRunning | pkg/kubelet/pod_workers.go:785-830 | A reachable idle state in which the latest item was never run. |
| PodProgress.FinishesByItselfExactly | pkg/kubelet/pod_workers.go:770-868 | From every reachable state of an unfinished terminating pod, some worker steps alone reach finished if and only if its worker is neither idle nor at the end of an iteration with nothing undelivered. |
| PodProgress.OutOfWorkHappens | pkg/kubelet/pod_workers.go:785-802 | A reachable terminating pod whose worker has nothing left to do. |
| PodProgress.EveryGoodRunFinishes | pkg/kubelet/pod_workers.go:770-868 | Every sequence of worker steps in which no read and no sync fails has at most 37 steps and can go on until the pod is finished, and no longer. |
| PodProgress.UpdateSetsUnderway | pkg/kubelet/pod_workers.go:690-729 | An update of a configured pod that is not a create, on a pod to be terminated, always leaves its worker with something to do. |
| PodProgress.EveryPodCanFinish | pkg/kubelet/pod_workers.go:524-1015 | From every reachable state of an unfinished pod, after one kill, worker steps alone can finish it, and every sequence of them without failures does, within 37 steps: the protocol cannot get stuck. |
| PodSuccess.EndsOnlyBySuccess | pkg/kubelet/pod_workers.go:829-858 | In every run, a pod for which work was generated is terminated only if in this incarnation a sync function called for a terminating item returned without error, and finished only if one for a terminated item or a runtime-only kill did. |
| PodSuccess.FailuresEndNothing | pkg/kubelet/pod_workers.go:834-836 | A run in which every sync function fails terminates no pod that work was generated for. |
| PodSuccess.SuccessTerminates | pkg/kubelet/pod_workers.go:834-858 | A termination that returned without error terminates the pod in the next step of its worker; one that failed leaves nothing to complete. |
| PodRestart.PurgesExactly | pkg/kubelet/pod_workers.go:1039-1095 | Housekeeping forgets a pod if and only if it is finished and is no longer desired or was asked to restart, and then leaves nothing of it. |
| PodRestart.RequestIsRemembered | pkg/kubelet/pod_workers.go:575-592 | A request to restart is remembered through every run of steps until the purge. |
| PodRestart.ForgottenPodStartsAfresh | pkg/kubelet/pod_workers.go:690-729 | The next update of a forgotten pod that should run starts a new worker with one item of sync work in its channel and an empty history. |
| PodRestart.RecreatedPodStartsAgain | pkg/kubelet/pod_workers.go:575-592 | A pod recreated while terminating runs again: whatever happens meanwhile, once it is finished the next housekeeping forgets it even if desired, and the next create starts a new worker and incarnation. |
| PodTermination.UpdateChannels | pkg/kubelet/pod_workers.go:575-682 | For every pod and update, whether its completion channel is closed at once, registered or dropped, and the exact effect on registered and closed channels. |
| PodTermination.UpdateTells | pkg/kubelet/pod_workers.go:624-709 | An update that is not dropped generates one item with its own pod and type, of the kind its stage asks for; only a terminating one carries a kill, with the period recorded. |
| PodTermination.CompleteChannels | pkg/kubelet/pod_workers.go:897-956 | A config completion closes every registered channel; a runtime-only one finishes the pod and closes none. |
| PodTermination.CompletionChannelsCloseOnce | pkg/kubelet/pod_workers.go:627-682 | With a channel of its own per request, no completion channel is ever closed twice, and after termination one is still registered only if a runtime-only kill finished the pod. |
| PodTermination.TerminationNotifies | pkg/kubelet/pod_workers.go:897-924 | The step that terminates a pod closes all channels registered if and only if there are none or the item handled last is not a runtime-only kill. |
| PodTermination.DroppedChannelsStayOpen | pkg/kubelet/pod_workers.go:575-592 | A channel neither closed nor registered stays open for the rest of every run that does not request it again. |
| PodTermination.LateKillNeverCompletes | pkg/kubelet/pod_workers.go:589-592 | The channel of a kill that reaches a finished pod is never closed afterwards. |
| PodTermination.CompletionStaysOpenExactly | pkg/kubelet/pod_workers.go:51-54 | For every request with a new channel and every run after it: once the pod of the request can have no running container, or has been purged, the channel is open if and only if the request was dropped, or was registered and a runtime-only kill ended the pod. |
| PodTermination.CompletionLeftOpen | pkg/kubelet/pod_workers.go:51-54 | A concrete run after which a pod is terminated and a requested channel is open and unregistered, against the comment. |
| PodTermination.FirstCauseStands | pkg/kubelet/pod_workers.go:594-622 | In every run the first cause of a termination stands until the purge, and no pod is recorded as both deleted and evicted. |
| PodTermination.CauseExactly | pkg/kubelet/pod_workers.go:594-622 | Which update begins a termination, which one records a deletion and which an eviction. |
| PodTermination.GraceIsLeast | pkg/kubelet/pod_workers.go:740-768 | With nonzero overrides the new period is the least of the recorded one and the overrides, floored at 1. |
| PodTermination.FirstGrace | pkg/kubelet/pod_workers.go:740-768 | The first period is the least override if there is one, else the one in the pod spec, floored at 1. |
| PodTermination.KillIsRegistered | pkg/kubelet/pod_workers.go:646-665 | What a kill leaves in the status: a period of at least 1, the least of the overrides when none is zero, its channel after the earlier ones, and its status function last. |
| PodTermination.GraceGrowsExactly | pkg/kubelet/pod_workers.go:740-768 | The exact overrides for which a recorded period grows. |
| PodTermination.RecordedGraceGrows | pkg/kubelet/pod_workers.go:740-768 | A run in which the recorded period grows from 30 to 60 seconds. |
| PodTermination.GraceOverRun | pkg/kubelet/pod_workers.go:646-665 | Over any run within an incarnation with nonzero overrides the period is the least of its first value and all overrides that reached the pod, floored at 1, and never grows. |
| PodWorkers.PodWorkers.UpdatePod | pkg/kubelet/pod_workers.go:524-736 | The maps after the call are, for this UID, the protocol step of the update, and for every other UID unchanged; the invariant of all pods is kept. |
| PodWorkers.PodWorkers.DispatchWork | pkg/kubelet/pod_workers.go:690-729 | Starts a worker if there is none and sends or holds the work; the send finds the channel open and empty. |
| PodWorkers.PodWorkers.Register | pkg/kubelet/pod_workers.go:646-665 | The period recorded is at least 1 and is the one passed on; with a period on record and no zero override it is the least of them, floored at 1; earlier channels stay registered, in order; the status function given is the last one. |
| PodWorkers.PodWorkers.Transition | pkg/kubelet/pod_workers.go:594-622 | Nothing changes once a pod is terminating; else a deletion or an orphan is recorded as deleted, an evicting kill of a pod not in a terminal phase as evicted, never both, and these, a terminal phase and any kill begin the termination. |
| PodWorkers.PodWorkers.AcknowledgeTerminating | pkg/kubelet/pod_workers.go:873-891 | Records that termination was observed, only for a tracked terminating pod, and returns the status function registered last. |
| PodWorkers.PodWorkers.CompleteTerminating | pkg/kubelet/pod_workers.go:897-924 | Closes the registered channels one by one, in order, and leaves terminated work undelivered. |
| PodWorkers.PodWorkers.CompleteTerminatingRuntimePod | pkg/kubelet/pod_workers.go:931-956 | Finishes the pod and closes its worker channel, which was open. |
| PodWorkers.PodWorkers.CompleteTerminated | pkg/kubelet/pod_workers.go:960-984 | Marks the pod finished and closes its worker channel, which was open. |
| PodWorkers.PodWorkers.CompleteWorkQueueNext | pkg/kubelet/pod_workers.go:1006-1015 | Hands the undelivered item to the empty channel or goes idle. |
| PodWorkers.PodWorkers.ReceiveWork | pkg/kubelet/pod_workers.go:772-775 | Takes the queued item or exits on a closed channel: the protocol step, keeping the invariant of all pods. |
| PodWorkers.PodWorkers.SkipWork | pkg/kubelet/pod_workers.go:785-802 | A failed status read ends the iteration without a sync call: the protocol step, keeping the invariant of all pods. |
| PodWorkers.PodWorkers.StartWork | pkg/kubelet/pod_workers.go:804-823 | Calls the sync function, for a termination after acknowledging it: the protocol step, keeping the invariant of all pods. |
| PodWorkers.PodWorkers.ReturnWork | pkg/kubelet/pod_workers.go:829-838 | An error or a plain sync goes to the end of the iteration, the rest to completion: the protocol step, of which `EndsOnlyBySuccess` says what it is for, keeping the invariant of all pods. |
| PodWorkers.PodWorkers.FinishWork | pkg/kubelet/pod_workers.go:838-858 | Completes a termination; every close it makes finds the channel open: the protocol step, keeping the invariant of all pods. |
| PodWorkers.PodWorkers.RequeueWork | pkg/kubelet/pod_workers.go:861-862 | Hands over the undelivered item or goes idle; the send finds the channel empty: the protocol step, keeping the invariant of all pods. |
| PodWorkers.PodWorkers.ShouldPodContainersBeTerminating | pkg/kubelet/pod_workers.go:463-474 | A true answer means no sync work of the UID is anywhere in the system. |
| PodWorkers.PodWorkers.CouldHaveRunningContainers | pkg/kubelet/pod_workers.go:441-449 | A false answer means no sync work of the UID is anywhere in the system. |
| PodWorkers.PodWorkers.RemoveTerminatedWorker | pkg/kubelet/pod_workers.go:1074-1095 | Forgets a finished pod and files its history; leaves an unfinished or unknown one alone. |
| PodWorkers.PodWorkers.SyncKnownPods | pkg/kubelet/pod_workers.go:1039-1068 | In any order of visits, a pod is forgotten if and only if it is finished and is not desired or was asked to restart; reports of every known pod whether it is syncing, terminating, terminated or terminated and recreated; keeps the invariant of all pods. |
| Order.SortedIsCanonical | pkg/proxy/endpointslicecache.go:389-424 | Two sorted lists of the same elements are equal when ties are equal, whatever the sort did. |
| EndpointSlices.NewEndpointSliceInfo | pkg/proxy/endpointslicecache.go:118-158 | The cached form holds the slice's ports and converted endpoints, each sorted by its key; nothing but ports for a removal. |
| EndpointSlices.InfoIsCanonical | pkg/proxy/endpointslicecache.go:118-158 | Slices with permuted endpoints and ports have the same cached form when keys distinguish. |
| EndpointSlices.InfoIsCanonicalExactly | pkg/proxy/endpointslicecache.go:389-424 | A slice has only one cached form if and only if equal keys mean equal entries. |
| EndpointSlices.InfoSaysWhatSliceSays | pkg/proxy/endpointslicecache.go:118-158 | The cached form says the same facts as the slice. |
| EndpointSlices.DigitsReadBack | pkg/proxy/endpoints.go:137-140 | A port number is written in decimal digits that stand for it, with no leading zero. |
| EndpointSlices.ItoaReadsBack | pkg/proxy/endpoints.go:137-140 | So every number reads back, with a sign if it is negative. |
| EndpointGroups.AddEndpoints | pkg/proxy/endpointslicecache.go:261-306 | A group holds exactly the endpoints said of its port, each local if and only if some copy is local, after adding as before; and each is a copy of an endpoint of one of the slices, in every field. |
| EndpointGroups.EndpointInfoByServicePort | pkg/proxy/endpointslicecache.go:232-258 | Grouping yields exactly what the slices say, for every order of visiting them, and only copies of their endpoints. |
| EndpointGroups.EndpointsMapFromEndpointInfo | pkg/proxy/endpointslicecache.go:344-363 | Each list is strictly sorted, complete, without extras and made of copies of slice endpoints; a port is present if and only if it has an endpoint. |
| EndpointGroups.GetEndpointsMap | pkg/proxy/endpointslicecache.go:226-229 | The map agrees with the facts of the given slices, and every endpoint in it is a copy of one of theirs. |
| EndpointGroups.AgreeingMapsAreEqual | pkg/proxy/endpointslicecache.go:232-363 | Maps that agree with the same facts have the same keys, endpoint strings in the same order, and local flags: iteration order does not show. |
| EndpointChanges.EndpointSliceCache.EndpointSliceUpdate | pkg/proxy/endpoints.go:260-299 | Makes a slice pending exactly when it differs from what is pending or, failing that, applied, and says so; an unsupported address type or a missing name or service label changes nothing. |
| EndpointChanges.EndpointSliceCache.CheckoutChanges | pkg/proxy/endpointslicecache.go:193-223 | One change for each service with pending slices, from the applied slices to those with the pending ones overlaid, and all of them become applied. |
| EndpointUpdates.StaleEndpointsOf | pkg/proxy/endpoints.go:538-555 | Exactly the UDP endpoints listed before with a locality they no longer have after, each once. |
| EndpointUpdates.StaleNamesOf | pkg/proxy/endpoints.go:557-568 | Exactly the UDP ports that went from no endpoints to some, each once. |
| EndpointUpdates.ApplyAllAt | pkg/proxy/endpoints.go:481-511 | Applied in any order, each service port ends as its own service's change leaves it, or untouched. |
| EndpointUpdates.SyncKeepsInStep | pkg/proxy/endpoints.go:481-497 | Unmerging and merging the changes keeps the map equal to what the applied slices say. |
| EndpointUpdates.StaleMeansGone | pkg/proxy/endpoints.go:481-569 | What the individual changes report is what differs between the whole map before and after. |
| EndpointUpdates.EndpointsTable.Update | pkg/proxy/endpoints.go:383-400 | For any map, each report of some change exactly once; for one in step with the cache, the stale endpoints are exactly the UDP (port, endpoint, locality) triples in it before and not after, the stale names exactly the UDP ports newly served, and it stays in step. |
| EndpointUpdates.EndpointsTable.Apply | pkg/proxy/endpoints.go:481-497 | The map after all changes, and each report of some change exactly once. |
| EndpointRuns.RunInvariant | pkg/proxy/endpointslicecache.go:166-223 | In every run applied and pending slices together are the live ones, and the map is in step with the applied ones. |
| EndpointRuns.SyncShowsLiveSlices | pkg/proxy/endpoints.go:481-511 | Right after any sync of any run the map has exactly the ports, sorted endpoint strings and local flags of the live slices. |
| EndpointRuns.SyncPlacementDoesNotShow | pkg/proxy/endpoints.go:383-400 | Two runs that end with the same live slices show the same map, whenever they synced and whatever order they iterated in. |
| EndpointRuns.ResendIsNoChange | pkg/proxy/endpointslicecache.go:314-340 | Re-sending a permuted slice reports no change and leaves applied and pending state as it is, before and after a sync. |
| EndpointSources.RunKeepsBacked | pkg/proxy/endpoints.go:481-511 | In every run each endpoint in the map is a copy of one in an applied slice of its service. |
| EndpointSources.LiveSliceStands | pkg/proxy/endpointslicecache.go:166-190 | A live slice is one that an event sent with IP addresses, namespace, name and service label and no later event changed or removed; `StandingSliceIsLive` is the converse. |
| EndpointSources.StandingSliceIsLive | pkg/proxy/endpointslicecache.go:166-190 | Every slice so sent and not changed or removed since is live. |
| EndpointSources.ListedEndpointStands | pkg/proxy/endpointslicecache.go:261-306 | After any sync of any run every endpoint listed for a port is one of such a slice of its service, behind a port of that name and protocol with a number: address and port joined, local if on this node, ready and serving unless it says it is not, terminating if it says so, with its node name, zone and zone hints. |
| EndpointSources.StandingEndpointIsListed | pkg/proxy/endpointslicecache.go:232-306 | Conversely every endpoint of every such slice with an address of the family is listed once for each such port, and as local if this copy is on the node. |
| EndpointReports.ListedExactly | pkg/proxy/endpoints.go:481-511 | After a sync an endpoint is listed with a locality if and only if some slice that stands has it, and the locality is whether some such copy is on the node. |
| EndpointReports.StaleExactly | pkg/proxy/endpoints.go:538-555 | For two syncs in a row of any run: an endpoint is stale if and only if it is UDP and the slices standing at the first show it with a locality with which those standing at the second do not. |
| EndpointReports.NewlyServedExactly | pkg/proxy/endpoints.go:557-568 | A port is newly served if and only if it is UDP, no slice standing at the first had a usable endpoint for it, and one standing at the second has. |
| ServiceChanges.ServiceToServiceMap | pkg/proxy/service.go:340-367 | Nil exactly for a missing or skipped service or one without a cluster IP; else exactly the names and protocols of the service's ports, each with the settings, field by field, of the last port that has it. |
| ServiceChanges.ApplyAllAt | pkg/proxy/service.go:372-388 | Applied in any order, each service port ends as its own service's change leaves it, or untouched. |
| ServiceChanges.OrderDoesNotShow | pkg/proxy/service.go:372-388 | Every order of applying the accumulated changes gives the same map. |
| ServiceChanges.ServiceChangeTracker.Update | pkg/proxy/service.go:275-305 | Keeps the first previous and the last current map of each service and forgets a service whose changes cancel out. |
| ServiceChanges.ServiceTable.Merge | pkg/proxy/service.go:408-423 | Overlays the entries of the other map. |
| ServiceChanges.ServiceTable.Unmerge | pkg/proxy/service.go:437-450 | Removes the keys and collects exactly the cluster IPs of UDP entries that were present. |
| ServiceChanges.ServiceTable.Filter | pkg/proxy/service.go:426-433 | What remains are the entries of the previous map whose keys are not current. |
| ServiceChanges.ServiceTable.Apply | pkg/proxy/service.go:372-388 | The map is the one the changes give, nothing stays pending, and the stale IPs are those each change makes stale in turn; for changes that speak of their own service, exactly the cluster IPs of UDP ports present before and absent after. |
| ServiceRuns.RunInv | pkg/proxy/service.go:275-305 | In every run each accumulated change ends in what is live, and the map shows each service as it was when its change began. |
| ServiceRuns.ApplyShowsLiveServices | pkg/proxy/service.go:372-388 | Right after an application the map is the union of the maps of the live services, also when changes cancelled out. |
| ServiceRuns.ApplyShowsLastService | pkg/proxy/service.go:340-388 | Right after an application a port is in the map if and only if the last event about its service left one that is not skipped, has a cluster IP and has the port, and the entry has that port's settings, field by field. |
| ServiceRuns.UnseenServiceIsAbsent | pkg/proxy/service.go:340-388 | A service that no event was about has no port in the map. |
| ServiceRuns.PendingExactly | pkg/proxy/service.go:275-305 | In every run a change is pending for a service if and only if its map now differs from its map at the last application, and leads from one to the other. |
| ServiceRuns.BatchingDoesNotShow | pkg/proxy/service.go:318-332 | The same watch events applied one by one, in any batches or once at the end give the same map. |
| ContainerStatuses.ConvertStatuses | pkg/kubelet/kubelet_pods.go:1629-1865 | The four passes over the shared map give each container the status that its own old status, reports and start failure determine. |
| ContainerStatuses.ApplyInOrder | pkg/kubelet/kubelet_pods.go:1790-1814 | The counted loop over all reports equals, per container, taking its newest and second newest report. |
| PodPhase.GetPhase | pkg/kubelet/kubelet_pods.go:1336-1435 | The counters give the phase described by what some or all containers are doing. |
| PodPhase.SucceedsExactly | pkg/kubelet/kubelet_pods.go:1397-1430 | The phase is Succeeded if and only if all init containers have ended, all app containers exited with code 0, and the policy allows it, said of the raw statuses. |
| PodPhase.FailsExactly | pkg/kubelet/kubelet_pods.go:1397-1430 | The phase is Failed if and only if nothing is restarted and an init container failed or all containers stopped and one did not succeed, said of the raw statuses. |
| PodPhase.PendsExactly | pkg/kubelet/kubelet_pods.go:1397-1430 | The phase is Pending if and only if no failed init container ends the pod and an init container has not ended, an app container has not started, or there is none, said of the raw statuses. |
| PodPhase.LostContainerIsRecorded | pkg/kubelet/kubelet_pods.go:1720-1784 | A running container that is no longer reported is recorded as terminated with code 137 and one more restart, unless a termination is on record already or the pod is being deleted. |
| PodPhase.SortStatuses | pkg/kubelet/kubelet_pods.go:1853-1864 | The list is sorted by name, has one status for each name, and looking a name up in it finds that container's status. |
| PodPhase.InSpecOrder | pkg/kubelet/types/types.go:92-101 | Init container statuses come in spec order, one for each. |
| PodPhase.ConvertToAPIContainerStatuses | pkg/kubelet/kubelet_pods.go:1629-1865 | Every container's status is found in the list, which is sorted by name, or in spec order for init containers; the rows of `StatusOutcomes` say what each one shows. |
| PodPhase.NewestReportsDecide | pkg/kubelet/kubelet_pods.go:1790-1814 | The newest report alone gives the status, the second newest the last termination state, and no other report counts. |
| PodPhase.WhenAStartedContainerWaits | pkg/kubelet/kubelet_pods.go:1694-1851 | A container that had started is never shown as unknown, and is shown as waiting to start if and only if its newest report says running and it is marked for restart with a start failure recorded, or its newest report says unknown and it was not shown as running, and in either case no report before says it ended. |
| PodPhase.WhenARunningContainerWaits | pkg/kubelet/kubelet_pods.go:1694-1851 | For a container that was running only the first cause is left, and then its two newest reports say running. |
| PodPhase.MisjudgedContainer | pkg/kubelet/kuberuntime/kuberuntime_container.go:544-545 | The first cause exists, with reports listed newest first as the runtime sorts them. |
| PodPhase.SortedReportsAreNotMisjudged | pkg/kubelet/kuberuntime/helpers.go:51-55 | The first cause does not exist when reports are listed newest first and no two of the container were created at the same instant. |
| PodPhase.WhenAStartedPodIsPending | pkg/kubelet/kubelet_pods.go:1336-1435 | For a pod whose app containers had all started, for every runtime report, the phase is Pending if and only if no failed init container ends it and an init container is pending or an app container is shown as waiting. |
| PodPhase.WhenARunningPodIsPending | pkg/kubelet/kubelet_pods.go:1336-1435 | If the app containers were all running, only the first cause is left. |
| StatusOutcomes.RestartsExactly | pkg/kubelet/container/helpers.go:63-96 | Exactly when a container is to be restarted, said of the reports and the policy. |
| StatusOutcomes.StartFailureShows | pkg/kubelet/kubelet_pods.go:1816-1851 | A start failure on record for a container to be started again is what its status shows, with its end, if it had ended, as the last state; otherwise nothing changes. |
| StatusOutcomes.EndedContainerShows | pkg/kubelet/kubelet_pods.go:1630-1686 | If the newest report says a container ended and no start failure counts, its status is terminated with that report's exit code, reason, message, times and ID, and has its restart count and images. |
| StatusOutcomes.RunningContainerShows | pkg/kubelet/kubelet_pods.go:1630-1686 | If it says running, the status is running since the time reported. |
| StatusOutcomes.UnknownContainerShows | pkg/kubelet/kubelet_pods.go:1659-1683 | If it says unknown, the status is terminated with code 137 and one more restart for a container that was shown running, and else waiting. |
| StatusOutcomes.LastStateShows | pkg/kubelet/kubelet_pods.go:1790-1814 | The last state is what the second newest report says, if it ended with its exit code, reason, message, times and ID; empty if there is none. |
| StatusOutcomes.UnreportedContainerShows | pkg/kubelet/kubelet_pods.go:1694-1784 | A container without reports keeps a terminated status; else it waits to be created, with its restarts and last state. |
| StatusOutcomes.ExitCodesDecide | pkg/kubelet/kubelet_pods.go:1336-1435 | For a pod without init containers whose app containers' newest reports all say exited: Running if always restarted, Succeeded if all reported exit codes are 0, otherwise Failed if never restarted and Running if restarted. |
| PodStatusRuns.MergePhases | pkg/kubelet/kubelet_pods.go:1456-1497 | The step-by-step merge with eviction handlers is the merge function, whose contract says which terminal phase wins. |
| PodStatusRuns.MergePhase | pkg/kubelet/kubelet_pods.go:1456-1497 | A terminal API phase stands; else an eviction gives Failed, else a terminal computed phase wins over a terminal stored one, and anything else is the computed phase. |
| PodStatusRuns.GenerateAPIPodStatus | pkg/kubelet/kubelet_pods.go:1439-1497 | Statuses of both kinds are converted from the stored status, or the API's if none is stored; the phase is merged from them; a phase Running in the result, also after the override, is the phase its own statuses give; and if only app containers exist and all exited, the generated phase is what their reported exit codes say, unless an API phase, an eviction or a stored terminal phase overrules it. |
| PodStatusRuns.FinishedStaysFinished | pkg/kubelet/kubelet.go:1572-1601 | Over any run of generations with or without the not-runnable override, a terminal phase stays terminal, and equals the API server's phase whenever that is terminal. |
| PodStatusRuns.TerminalPhaseSwitches | pkg/kubelet/kubelet_pods.go:1456-1497 | Exactly when one terminal phase turns into the other. |
| PodStatusRuns.TerminalPhaseIsFinal | pkg/kubelet/kubelet_pods.go:1456-1497 | A run without such inputs keeps the terminal phase for good. |
| PodStatusRuns.RunningPodHadStarted | pkg/kubelet/kubelet_pods.go:1439-1497 | A status stored as Running by a generation, with or without the override, shows every app container as started. |
| PodStatusRuns.WhenAStartedPodTurnsPending | pkg/kubelet/kubelet.go:1572-1601 | The same for every pod whose app containers had all started, whatever its stored phase. |
| PodStatusRuns.WhenARunningPodTurnsPending | pkg/kubelet/kubelet.go:1572-1601 | Exactly when a pod stored as Running is stored as Pending next, through conversion, phase, merge and override, in terms of the phases and raw statuses that go in. |
| PodStatusRuns.UnknownReportTurnsPending | pkg/kubelet/kubelet_pods.go:1676-1683 | A pod stored as Running that turns Pending because of one report in state unknown, without ties or start failures. |
| Expectations.NextKeepsInv | pkg/controller/controller_utils.go:338-381 | Every step, also an unlocked one between two steps of a locked operation, keeps the bound of outstanding deletions by outstanding UIDs. |
| Expectations.NextKeepsExact | pkg/controller/controller_utils.go:338-367 | From an ExpectDeletions until anything but observations follows, the outstanding UIDs are the expected ones not yet observed and the counter is their number. |
| Expectations.DeletionsAreNeverOvercounted | pkg/controller/controller_utils.go:221-283 | In every run, with the lock free, the delete count is at most the number of outstanding UIDs, and equal to it in those stretches. |
| Expectations.FulfilledOnlyByAllDeletions | pkg/controller/controller_utils.go:338-367 | After ExpectDeletions, under any interleaving of repeated, foreign and creation observations, expectations are fulfilled if and only if every key was observed. |
| Expectations.NextKeepsCreating | pkg/controller/controller_utils.go:221-256 | From an ExpectCreations until its object is replaced or deleted, the counter is the expected creations less those observed on it, at every step. |
| Expectations.FulfilledOnlyByAllCreations | pkg/controller/controller_utils.go:221-283 | After ExpectCreations, under any interleaving of creation and deletion observations, also of replaced objects and of a deletion in progress, expectations are fulfilled if and only if at least so many creations were observed on that object. |
| ExpectationStores.Collect | pkg/controller/controller_utils.go:338-342 | Keys given twice count once. |
| ExpectationStores.UIDTrackingControllerExpectations.ExpectCreations | pkg/controller/controller_utils.go:227-229 | The two stores take exactly the protocol step for this key and none for others. |
| ExpectationStores.UIDTrackingControllerExpectations.CreationObserved | pkg/controller/controller_utils.go:254-256 | Lowers the creations of the stored expectation, if there is one, and nothing else. |
| ExpectationStores.UIDTrackingControllerExpectations.ExpectDeletions | pkg/controller/controller_utils.go:338-354 | The protocol's steps for this key; the count is the number of distinct keys. |
| ExpectationStores.UIDTrackingControllerExpectations.DeletionObserved | pkg/controller/controller_utils.go:357-367 | The protocol's steps for this key; a key not outstanding leaves both stores as they are. |
| ExpectationStores.UIDTrackingControllerExpectations.DeleteExpectations | pkg/controller/controller_utils.go:371-381 | The protocol's steps for this key: both stores forget it. |
| ExpectationStores.UIDTrackingControllerExpectations.SatisfiedExpectations | pkg/controller/controller_utils.go:185-211 | Before expiry, after ExpectDeletions and observations alone a controller may sync if and only if every expected deletion was observed, and after ExpectCreations if and only if at least as many creations were observed as expected. |
| DeletionRanking.PodReadyTime | pkg/controller/controller_utils.go:921-931 | The loop's search finds the transition time of the condition that makes the pod ready. |
| DeletionRanking.MaxContainerRestarts | pkg/controller/controller_utils.go:933-939 | The largest restart count, at least 0. |
| DeletionRanking.ReadyExactly | pkg/controller/controller_utils.go:921-931 | A pod is ready if its first condition of ready type is true, and its ready time is that condition's. |
| DeletionRanking.PhasesDecide | pkg/controller/controller_utils.go:820-829 | Unassigned pods come before assigned ones; then pods that are neither unknown nor running, then unknown ones, then running ones. |
| DeletionRanking.ReadinessCostAndRankDecide | pkg/controller/controller_utils.go:830-852 | Within a phase, not ready before ready; then, if costs count, the lower cost first; then more ready pods on the same node first. |
| DeletionRanking.TimesAndRestartsDecide | pkg/controller/controller_utils.go:854-894 | After that, without scaling, ready later first, then more restarts, then created later, an unset time counting as latest. |
| DeletionRanking.UnscaledIsLexicographic | pkg/controller/controller_utils.go:820-903 | Without scaling the eight rules are one lexicographic comparison of integer keys. |
| DeletionRanking.UnscaledIsWeakOrder | pkg/controller/controller_utils.go:820-894 | With scaling off or no reference time the comparator is a strict weak order on all pods. |
| DeletionRanking.FloorLog2Exact | pkg/controller/controller_utils.go:907-919 | The rank of an age is the exponent of the largest power of two not above it. |
| DeletionRanking.LogRankExact | pkg/controller/controller_utils.go:907-919 | The rank of a time is the exponent of the largest power of two not above its age, saturated at the longest duration, and -1 if it is not past. |
| DeletionRanking.ScalingKeepsAge | pkg/controller/controller_utils.go:907-919 | Different logarithmic ranks never put the older of two times first. |
| DeletionRanking.ScaledIsLexicographic | pkg/controller/controller_utils.go:856-891 | With scaling, pods with different UIDs that are told apart by ready time, or if not ready by restarts or creation time, compare by one key and then by UID. |
| DeletionRanking.ConnectedUnlessTied | pkg/controller/controller_utils.go:820-894 | With scaling, of two pods with different UIDs exactly one comes first, unless all rules tie. |
| DeletionRanking.FailureIsClash | pkg/controller/controller_utils.go:856-891 | Every failure of transitivity is a clash: two pods with the same deciding time, and a third of the same rank whose UID lies between theirs. |
| DeletionRanking.ScaledIsWeakOrderExactly | pkg/controller/controller_utils.go:820-894 | With scaling, on any pods with different UIDs, the comparator is a strict weak order if and only if no three of them clash. |
| DeletionRanking.ScaledIsTotalOrderExactly | pkg/controller/controller_utils.go:820-894 | It is a strict total order if and only if in addition no two are tied. |
| DeletionRanking.ScaledIsTotalOrder | pkg/controller/controller_utils.go:820-894 | Over pods that are pairwise so, as when UIDs, ready times and creation times differ, the comparator is a strict total order. |
| DeletionRanking.DeletionOrderIsUnique | pkg/controller/controller_utils.go:820-894 | Pods with different UIDs and without ties have one sorted order, however they were listed. |
| DeletionRanking.ScaledIsNotTransitive | pkg/controller/controller_utils.go:856-873 | Three pods, two with the same ready time, form a cycle. |
| Base64.DecodesExactlyItsEncoding | pkg/credentialprovider/config.go:301-309 | Decoding to given bytes with unused bits zero means being their encoding, in both directions, padded or not. |
| Base64.UnpackKeepsBits | pkg/credentialprovider/config.go:325-329 | One to three bytes and their sextets are the same number, up to the zero bits that fill the last sextet. |
| DockerAuth.ChosenDecoderReads | pkg/credentialprovider/config.go:299-309 | The decoder chosen by the trailing character reads back text padded either way and broken into lines anywhere. |
| DockerAuth.AuthRoundTrip | pkg/credentialprovider/config.go:295-329 | An encoded pair in any such form decodes without error, and to the same pair if and only if the user name has no colon. |
| DockerAuth.DecodesWhatIsEncoded | pkg/credentialprovider/config.go:325-329 | The same for the field the encoder writes. |
| DockerAuth.DecodesOnlyEncodings | pkg/credentialprovider/config.go:295-323 | A field with unused bits zero decodes to a pair if and only if the user name has no colon and the field is one of its two encodings. |
| DockerAuth.UnusedBitsAreIgnored | pkg/credentialprovider/config.go:301-309 | Two different fields decode to the same pair when unused bits differ. |

## Left out

- Time in the pod workers: timestamps are set or unset; start times, metrics and back-off are not modelled.
- Contexts: cancelling an in-flight sync is not modelled, so nothing is claimed about how soon it stops.
- Static pods that share a full name (`terminatingStaticPodFullnames`) and mirror pods.
- Status functions of a kill: they are registered and dropped, but what they do to a pod status is not modelled.
- EndpointSlices.NewEndpointSliceInfo: requires port numbers when there are two or more ports, because the source's comparison dereferences them.
- EndpointRuns.ResendIsNoChange: requires that no applied slice is marked as removed, which `RunInvariant` gives for every run.
- A slice whose service label changes stays with its old service until removed there, as in the source; live slices are keyed by label and name.
- Trigger times, the reported health-check ports and local ready IPs, and custom endpoint or service constructors of the proxies.
- ServiceChanges.ServiceToServiceMap: external IPs, ingress IPs and source ranges are given as those of the tracker's IP family, because IP parsing is not modelled.
- The legacy Endpoints path of the endpoint tracker, which a constructed tracker never checks out.
- IP parsing: the family test on an address is a parameter.
- Ephemeral containers, which are converted like app containers, and the readiness the probes add to a container status.
- Pod conditions, IPs, reasons and messages of the pod status, and the message the not-runnable override writes.
- Int64 and int32 overflow of restart counts, expectation counters and grace periods.
- SetExpectations, RaiseExpectations and LowerExpectations called directly with deletions, which can break the bound by design; errors of the in-memory stores.
- DeletionRanking.ScalingKeepsAge: ranks are integer floor logarithms, not `math.Log2` of a rounded float.
- JSON, files and HTTP around the auth field, and the offset in a corrupt-input error.
