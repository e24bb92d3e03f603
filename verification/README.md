# A Dafny model of the concurrent and graph-shaped parts of DoomPi

This project models, in Dafny, the parts of DoomPi whose correctness rests on
interleavings, graphs or text, and proves what they promise. Every asynchronous
component is a state machine whose step is one stretch between two awaits, so a
run is any sequence of events and a statement about all runs covers every
interleaving. The objects and closures that update their fields in place are
classes; their methods keep the invariant, say what the caller gets, and end in
the state the step function gives, so that the theorems about runs hold of them.

| file | what it models |
|---|---|
| `TaskGraph.dfy` | the dependency graph of the task list: cycle search, inverse adjacency, blockers, deadlock |
| `ComputerUse.dfy`, `ComputerUseHost.dfy` | the grant host: request queue, emergency stop, revocation, settings, expiry, replay window, action sequence |
| `BundleTrust.dfy`, `BundleIntegrity.dfy`, `BundleHistory.dfy`, `BundleWorker.dfy` | the service worker that commits signed bundles while lazy downloads and resets race it |
| `AssetPool.dfy` | its fetch semaphore and its bounded worker pool |
| `PathPieces.dfy`, `PathTokens.dfy`, `PathReadings.dfy`, `PathMixtures.dfy`, `PathRoundTrips.dfy` | path tokenization of compiled modules and its inverse, on the strings `replaceAll` works on; what a module reads as, and exactly which modules come back |
| `LogicalInputs.dfy`, `SourceSplice.dfy` | worktree-independent input names and tokens; the splice of `import.meta.url` |
| `NativePackages.dfy`, `RuntimeCopy.dfy` | the worklist over package dependencies; the recursive runtime copy |
| `SharedStore.dfy`, `SharedBuilds.dfy`, `Freshness.dfy` | the content-addressed build store with its index; a module's whole way through it; the freshness check with its memo |
| `LiveTools.dfy` | the re-entrant reconciler of a plugin's live tools |
| `SocketWrites.dfy` | one byte connection of the WebSocket listener and its promise chain |
| `CordisHost.dfy` | the Cordis host: leases, session queue, shutdown |
| `Common.dfy` | options, stable sorting and sequences without repetition |

## What the outside is taken to be

- Hashing is injective: a digest is a constructor over what it digests. Signature
  verification accepts a manifest only at or above the revision floor.
- Ids from `newId` and `randomUUID` are fresh. The clock does not go back. Storage
  operations that the source does not guard do not fail.
- Files, stores, caches and dependency graphs are finite maps with arbitrary
  contents; where the source meets malformed data, so does the model.
- Whatever an external call may do meanwhile is an event of the machine, or, for
  the synchronous callbacks of the live tools, an entry of an arbitrary script.

## Where the code falls short of its promise

Each of these is proved, as an exact condition with an input that meets it:

- A grant is lost, neither active nor stopped, exactly when the enabled callback
  throws on the recheck after `backend.activate`, or an availability listener throws
  while a grant is being stopped (`ComputerUse.GrantsConserved`, `GrantIsLost`). A
  listener that throws inside `revoke` leaves the grant active
  (`ComputerUse.RevocationEmptiesHost`, `GrantSurvivesRevocation`).
- `replaceAll` gives `$$`, `$&` and the two quote forms a meaning in replacements, so
  a path that holds one does not come back (`PathPieces.TokenReadsBackIffDollarPlain`,
  `PathRoundTrips.DollarPathIsLost`).
- A path followed by `:url` comes back as a file URL
  (`PathMixtures.RoundTripIff`, `PathRoundTrips.UrlAfterPathIsLost`).
- A path followed by the rest of a token, `DOOMPI_PATH_` and a name, makes two tokens
  share underscores in storage; where the second one is read first, the first is
  cut short and the module refused, and only there (`PathMixtures.Relocates`,
  `PathRoundTrips.TokenAfterPathIsLost`). `PathMixtures.RoundTripIff` says, for a build of
  any number of paths none of which runs into another, exactly which modules come back;
  `PathRoundTrips.LoneRoundTripIff` does so for one path without asking about lengths.
- A path whose tail begins the token marker, such as one that ends in an underscore,
  can be matched across a token (`PathTokens.WholeOccurrencesIffTokenSafe`,
  `PathRoundTrips.MarkerTailIsLost`).
- A symbolic link to an input shares the input's token, so it comes back as the path it
  leads to: a module returns exactly when no such alias is found in it, where aliases
  are all shorter or all longer than their inputs (`SharedBuilds.CompiledModuleReturnsIff`,
  `PathRoundTrips.AliasIsLost`); lengths that go both ways can cancel
  (`PathReadings.LeaningBothWaysCanCancel`).
- A publish checks neither its entry, its modes nor colliding artifact paths, so it
  can return a build that find refuses (`SharedStore.PublishThenFind`,
  `CollidingArtifactsAreRefused`).
- The freshness memo does not see that a file became readable, or unreadable, under
  the same stat (`Freshness.MemoDiffersIff`, `ReadabilityIsNotSeen`).
- A tool whose registration throws after Pi has taken its callback stays callable as long
  as the plugin lives (`LiveTools.Live`, `LeakedTool`); when the first reconcile throws,
  `mount` aborts the plugin. The comment in the source that a registered tool
  name cannot adopt a new declaration does not describe the code, which retires the
  old entry and registers the new one; the model follows the code.
- `isInside` treats a repository file whose first segment begins with two dots as
  external (`LogicalInputs.DottedNamesAreExternal`).

## Model

| member | source | states |
|---|---|---|
| TaskGraph.DetectCycle | layers/task/doompi-task/src/models/taskGraph.ts:18-46 | the answer is true if and only if the dependency map with the proposed edges merged in holds a directed cycle, absent ids included |
| TaskGraph.CycleSearch.HasCycleFrom | layers/task/doompi-task/src/models/taskGraph.ts:30-40 | grey means a cycle, black means cleared; the recursion ends because the nodes neither grey nor black shrink |
| TaskGraph.TopologicalIsAcyclic | layers/task/doompi-task/src/models/taskGraph.ts:37-45 | once every key has finished in an order in which successors come first, no cycle exists |
| TaskGraph.MergeHasMergedEdges | layers/task/doompi-task/src/models/taskGraph.ts:19-26 | the map the search runs on has a cycle exactly when the list stored after the merge has one |
| TaskGraph.AcyclicNeverStuck | layers/task/doompi-task/src/models/taskGraph.ts:18-78 | with unique ids and no cycle, whenever some work is open some open work is unblocked |
| TaskGraph.AcceptedIffNeverStuck | layers/task/doompi-task/src/models/taskGraph.ts:18-78 | the merges the detector accepts are exactly those after which no assignment of statuses can leave all open work blocked |
| TaskGraph.DeriveBlocks | layers/task/doompi-task/src/models/taskGraph.ts:49-59 | the inverse map has a key exactly for each listed dependency, and under it the dependents in list order |
| TaskGraph.DependentsInvert | layers/task/doompi-task/src/models/taskGraph.ts:49-59 | a task is among the dependents of an id exactly when it lists that id |
| TaskGraph.BlockedMeansOpenBlocker | layers/task/doompi-task/src/models/taskGraph.ts:68-78 | a task is blocked exactly when it lists an existing task that is neither completed nor deleted; a failed one blocks |
| TaskGraph.CompleteListBlocksNothing | layers/task/doompi-task/src/models/taskGraph.ts:7-10 | in a complete list no dependency is unresolved |
| ComputerUse.NeverOverwritten | packages/clients/doompi-desktop/src/services/computerUseHost.ts:297-367 | one step never replaces an active grant by another |
| ComputerUse.ShapeRun | packages/clients/doompi-desktop/src/services/computerUseHost.ts:171-247 | in every reachable state the timer belongs to the active grant, at most 16 finalizations are kept, and no activation is pending beside an active grant |
| ComputerUse.GrantsConserved | packages/clients/doompi-desktop/src/services/computerUseHost.ts:228-247 | over any run, every grant the backend activated is the active one or was stopped exactly once, if and only if no step threw from the enabled callback after activation or from a listener while a grant was being stopped |
| ComputerUse.GrantIsLost | packages/clients/doompi-desktop/src/services/computerUseHost.ts:349-355 | a run in which the enabled callback begins to throw while the backend activates ends with a grant that is neither active nor stopped |
| ComputerUse.LedgerRun | packages/clients/doompi-desktop/src/services/computerUseHost.ts:349-360 | for each grant id: resolved at most once, stopped at most as often, and lost exactly when one of those two steps dropped it |
| ComputerUse.RevocationEmptiesHost | packages/clients/doompi-desktop/src/services/computerUseHost.ts:238-247 | revoked implies no active grant in every state of a run, if and only if no listener threw inside the revoke call while a grant was active |
| ComputerUse.GrantSurvivesRevocation | packages/clients/doompi-desktop/src/services/computerUseHost.ts:238-247 | a run in which a listener throws inside revoke ends revoked with its grant still active |
| ComputerUse.CommitsAreUninterrupted | packages/clients/doompi-desktop/src/services/computerUseHost.ts:301-360 | a grant becomes active only if nothing stopped or revoked between its own activation start and its commit, across all three awaits |
| ComputerUse.UsedIsOrder | packages/clients/doompi-desktop/src/services/computerUseHost.ts:369-375 | the used set is exactly the order queue, which has no repeats and at most 1024 entries |
| ComputerUse.WindowRun | packages/clients/doompi-desktop/src/services/computerUseHost.ts:305-307 | the order queue is always the last 1024 accepted ids, and accepted ids do not repeat within that distance |
| ComputerUse.ReplaySeparation | packages/clients/doompi-desktop/src/services/computerUseHost.ts:369-375 | two accepted uses of one request id lie more than 1024 acceptances apart, with pairwise distinct ids between |
| ComputerUse.ActsAreSequential | packages/clients/doompi-desktop/src/services/computerUseHost.ts:395-413 | under one grant the backend receives exactly the sequence numbers 1, 2, ..., k |
| ComputerUseHosting.ComputerUseHost.constructor | packages/clients/doompi-desktop/src/services/computerUseHost.ts:189-197 | a new host is valid: no grant, nothing accepted, every account with the backend even |
| ComputerUseHosting.ComputerUseHost.RememberFinalization | packages/clients/doompi-desktop/src/services/computerUseHost.ts:434-445 | the grant is stopped once, and the 16 newest outcomes are remembered in order |
| ComputerUseHosting.ComputerUseHost.RememberConfirmation | packages/clients/doompi-desktop/src/services/computerUseHost.ts:369-375 | the id counts as used; only when 1024 others are remembered is the oldest forgotten |
| ComputerUseHosting.ComputerUseHost.StopActive | packages/clients/doompi-desktop/src/services/computerUseHost.ts:228-236 | no grant and no timer remain, activations under way are outdated, and the grant is stopped once unless a listener throws |
| ComputerUseHosting.ComputerUseHost.Revoke | packages/clients/doompi-desktop/src/services/computerUseHost.ts:238-247 | the host is revoked for good; the grant is retired unless a listener throws, and a second call changes nothing |
| ComputerUseHosting.ComputerUseHost.RefreshAvailability | packages/clients/doompi-desktop/src/services/computerUseHost.ts:214-220 | the setting is noticed, and a host that has become disabled stops its grant; otherwise no grant is touched |
| ComputerUseHosting.ComputerUseHost.ExpiryTimerFires | packages/clients/doompi-desktop/src/services/computerUseHost.ts:467-477 | the grant retired is the one the timer was set for, and it is stopped once |
| ComputerUseHosting.ComputerUseHost.BeginRequest | packages/clients/doompi-desktop/src/services/computerUseHost.ts:249-258 | the oldest request is taken; past the expiry check only a grant that has not expired is active, and an expired one was stopped once |
| ComputerUseHosting.ComputerUseHost.ResumeAfterExpiry | packages/clients/doompi-desktop/src/services/computerUseHost.ts:259-291 | a disabled host retires its grant and begins no activation; no request makes a grant active here |
| ComputerUseHosting.ComputerUseHost.StartActivation | packages/clients/doompi-desktop/src/services/computerUseHost.ts:297-311 | an activation begins only beside no grant, with valid fields and an id not used, which then counts as used; what it awaits carries the current generation |
| ComputerUseHosting.ComputerUseHost.ResumeAfterSelection | packages/clients/doompi-desktop/src/services/computerUseHost.ts:312-335 | only an uninterrupted, enabled activation whose window was chosen goes on, valid at that time |
| ComputerUseHosting.ComputerUseHost.ResumeAfterConfirmation | packages/clients/doompi-desktop/src/services/computerUseHost.ts:336-349 | only a confirmed, uninterrupted, enabled activation goes on, for a grant id the backend has never activated, with its first sequence number |
| ComputerUseHosting.ComputerUseHost.ResumeAfterActivate | packages/clients/doompi-desktop/src/services/computerUseHost.ts:350-366 | the grant becomes active exactly if nothing interrupted it; otherwise it is stopped, unless the enabled callback throws, when it is neither |
| ComputerUseHosting.ComputerUseHost.PerformAct | packages/clients/doompi-desktop/src/services/computerUseHost.ts:395-409 | the backend receives exactly the next sequence number, under the authorized grant, for a valid action; otherwise nothing changes |
| ComputerUseHosting.ComputerUseHost.PerformStop | packages/clients/doompi-desktop/src/services/computerUseHost.ts:415-428 | a remembered outcome is repeated, an authorized grant is retired and its outcome remembered, anything else is refused |
| ComputerUseHosting.ComputerUseHost.Deliver | packages/clients/doompi-desktop/src/services/computerUseHost.ts:171-483 | every event keeps the object valid and moves it by the machine's step |
| BundleIntegrity.ActiveBundleIsIntact | packages/clients/doompi-web/src/pwa/serviceWorker.ts:567-692 | in every interleaving with no reset pending, the active record's cache exists and holds verified bytes for every asset that is not optional |
| BundleIntegrity.CacheNameDeterminesManifest | packages/clients/doompi-web/src/pwa/serviceWorker.ts:594 | two records ever active under one cache name have the same manifest digest, manifest and optional list |
| BundleIntegrity.RunInv | packages/clients/doompi-web/src/pwa/serviceWorker.ts:215-226 | queue epochs, the running operation, lazy downloads, storage and record agree in every reachable state |
| BundleIntegrity.LazyDeletesInv | packages/clients/doompi-web/src/pwa/serviceWorker.ts:352-361 | undoing a stale lazy download never removes a required asset of the active record |
| BundleIntegrity.CacheSweptInv | packages/clients/doompi-web/src/pwa/serviceWorker.ts:671-679 | cleanup after a commit never removes the active cache |
| BundleIntegrity.StagingDeletedInv | packages/clients/doompi-web/src/pwa/serviceWorker.ts:688-691 | a failed activation, a rejected commit included, deletes only its own staging cache |
| BundleIntegrity.CommitLandsInv | packages/clients/doompi-web/src/pwa/serviceWorker.ts:660-670 | what is committed is complete and verified, on the full path and on the reuse path |
| BundleHistory.SignerPinnedRevisionsMonotone | packages/clients/doompi-web/src/pwa/serviceWorker.ts:567-592 | between two resets the committed signer never changes, revisions never go back, and equal revisions mean equal manifests |
| BundleHistory.CommitsStartInTheirEpoch | packages/clients/doompi-web/src/pwa/serviceWorker.ts:215-226 | every commit is started in the epoch its request was queued in |
| BundleHistory.ResetIsFinal | packages/clients/doompi-web/src/pwa/serviceWorker.ts:694-717 | after a reset has run no record is active until an operation queued after that reset commits |
| BundleHistory.HistoryRun | packages/clients/doompi-web/src/pwa/serviceWorker.ts:215-226 | operations take effect in the order they were queued, and the record is what the last entry left |
| BundleWorkers.BundleWorker.constructor | packages/clients/doompi-web/src/pwa/serviceWorker.ts:215-216 | a worker starts valid on whatever record and caches the last one left |
| BundleWorkers.BundleWorker.QueueTrustOperation | packages/clients/doompi-web/src/pwa/serviceWorker.ts:218-226 | the operation goes last in the queue, under the current epoch, and starts nothing |
| BundleWorkers.BundleWorker.HandleReset | packages/clients/doompi-web/src/pwa/serviceWorker.ts:713-718 | every operation queued before a reset, and every lazy download under way, belongs to an older epoch from then on |
| BundleWorkers.BundleWorker.StartNextOperation | packages/clients/doompi-web/src/pwa/serviceWorker.ts:567-569 | the oldest operation starts; an activation goes on if and only if it was queued in the current epoch |
| BundleWorkers.BundleWorker.ResumeRefresh | packages/clients/doompi-web/src/pwa/serviceWorker.ts:730-734 | a refresh goes on only pinned to the active record's signer and revision, in the current epoch, and for the record it expects |
| BundleWorkers.BundleWorker.ResumeWithPrevious | packages/clients/doompi-web/src/pwa/serviceWorker.ts:569-572 | an activation goes on exactly when no other signer is pinned, and remembers the record that is active |
| BundleWorkers.BundleWorker.ResumeWithManifest | packages/clients/doompi-web/src/pwa/serviceWorker.ts:574-595 | what is staged never goes below the requested or the active revision, never reuses a revision for other bytes, and has a cache name that no active record ever had |
| BundleWorkers.BundleWorker.ResumeWithPolicy | packages/clients/doompi-web/src/pwa/serviceWorker.ts:601-619 | the staging cache holds the verified policy, whose list decides exactly what remains to be copied |
| BundleWorkers.BundleWorker.CheckAsset | packages/clients/doompi-web/src/pwa/serviceWorker.ts:620-623 | as long as the check counts as complete, every asset checked is held verified by the cache to be reused |
| BundleWorkers.BundleWorker.FinishChecks | packages/clients/doompi-web/src/pwa/serviceWorker.ts:624-639 | a reuse is committed only in its own epoch, under the active cache, and with every required asset held verified there |
| BundleWorkers.BundleWorker.CopyAsset | packages/clients/doompi-web/src/pwa/serviceWorker.ts:640-645 | every asset copied so far is staged verified, and the active bundle stays complete |
| BundleWorkers.BundleWorker.FinishOptional | packages/clients/doompi-web/src/pwa/serviceWorker.ts:647-669 | a new record is committed only in its own epoch, under its own cache, and with every required asset staged verified |
| BundleWorkers.BundleWorker.FailStage | packages/clients/doompi-web/src/pwa/serviceWorker.ts:688-691 | a failed or rejected activation goes on to delete a cache that no record ever had |
| BundleWorkers.BundleWorker.LandCommit | packages/clients/doompi-web/src/pwa/serviceWorker.ts:670 | with no reset pending the record that has become active is complete |
| BundleWorkers.BundleWorker.SweepOne | packages/clients/doompi-web/src/pwa/serviceWorker.ts:671-679 | the cache is gone and the active bundle as complete as before |
| BundleWorkers.BundleWorker.DeleteStaging | packages/clients/doompi-web/src/pwa/serviceWorker.ts:688-691 | only the failed activation's own cache name goes, and the active bundle stays complete |
| BundleWorkers.BundleWorker.ClearRecord | packages/clients/doompi-web/src/pwa/serviceWorker.ts:694-695 | no record is active, and the reset no longer pending unless another one is queued |
| BundleWorkers.BundleWorker.ClearOne | packages/clients/doompi-web/src/pwa/serviceWorker.ts:703-708 | a reset deletes caches only while no record is active |
| BundleWorkers.BundleWorker.LazyVerifiedResponse | packages/clients/doompi-web/src/pwa/serviceWorker.ts:330-340 | at most one download per cache, digest and path, in the current epoch, and no other is touched |
| BundleWorkers.BundleWorker.ResumeLazy | packages/clients/doompi-web/src/pwa/serviceWorker.ts:341-361 | a download caches only while its own record is active in its own epoch; it deletes the cache only when its epoch is over, and otherwise only its asset |
| BundleWorkers.BundleWorker.PutForLazy | packages/clients/doompi-web/src/pwa/serviceWorker.ts:351 | the optional asset is cached verified, and the active bundle stays complete |
| BundleWorkers.BundleWorker.UndoLazy | packages/clients/doompi-web/src/pwa/serviceWorker.ts:358-360 | undoing a stale download leaves the active bundle complete unless a reset is pending |
| BundleWorkers.BundleWorker.Deliver | packages/clients/doompi-web/src/pwa/serviceWorker.ts:215-734 | every event keeps the worker valid and moves it by the machine's step |
| AssetFetches.SlotsAreCounted | packages/clients/doompi-web/src/pwa/serviceWorker.ts:228-263 | the counter equals the slots held, hand-offs included, and never exceeds 4 |
| AssetFetches.WaitersMeanFull | packages/clients/doompi-web/src/pwa/serviceWorker.ts:230-232 | a fetch waits only while all four slots are held, so no wakeup is lost |
| AssetFetches.FirstComeFirstAdmitted | packages/clients/doompi-web/src/pwa/serviceWorker.ts:257-262 | fetches are admitted in the order they arrived, each once, and the rest wait in that order |
| AssetFetches.NobodyIsForgotten | packages/clients/doompi-web/src/pwa/serviceWorker.ts:257-262 | when the last holder leaves, every fetch that arrived has been admitted |
| AssetFetches.AssetGate.Enter | packages/clients/doompi-web/src/pwa/serviceWorker.ts:229-232 | a fetch waits, at the end, exactly when all four slots are held |
| AssetFetches.AssetGate.LeaveSlot | packages/clients/doompi-web/src/pwa/serviceWorker.ts:257-262 | a slot no longer held goes to the fetch that has waited longest, and is free only if none waits; the count is right again |
| AssetFetches.AssetGate.Woken | packages/clients/doompi-web/src/pwa/serviceWorker.ts:231-236 | a woken fetch goes on exactly in its own epoch; otherwise its slot is passed on at once |
| AssetFetches.AssetGate.Deliver | packages/clients/doompi-web/src/pwa/serviceWorker.ts:228-263 | every event keeps the gate valid and moves it by the machine's step |
| BoundedPool.StartedAtMostOnce | packages/clients/doompi-web/src/pwa/serviceWorker.ts:276-289 | values are started in order, each at most once, and no two workers share one |
| BoundedPool.AllOrFailure | packages/clients/doompi-web/src/pwa/serviceWorker.ts:279-297 | when all workers are over, either one threw or every value was started and succeeded |
| BoundedPool.NothingStartsAfterFailure | packages/clients/doompi-web/src/pwa/serviceWorker.ts:280-289 | after a failure is seen no further value is started |
| BoundedPool.BoundedRun.Advance | packages/clients/doompi-web/src/pwa/serviceWorker.ts:281-283 | a worker starts a value no worker has started before, or ends because of a failure or because every value was started |
| BoundedPool.BoundedRun.OperationSettled | packages/clients/doompi-web/src/pwa/serviceWorker.ts:283-288 | a success completes its value; a failure raises the flag, completes nothing, and with the flag raised nothing more starts |
| BoundedPool.BoundedRun.Deliver | packages/clients/doompi-web/src/pwa/serviceWorker.ts:276-297 | every event keeps the pool valid and moves it by the machine's step |
| PathMixtures.RoundTrip | packages/cli/doompi/src/compiler/index.ts:880-905 | tokenizing a module and materializing it gives the module back, for any number of nested or prefix-related paths and any order of either list, whenever the reader has the same spelling of every path found in it, its paths hold no dollar escape, no path runs into another in the module, the marker is not in it, no tokens mix, and no path is found in it with ":url" after it |
| PathMixtures.RoundTripIff | packages/cli/doompi/src/compiler/cache.ts:353-369 | for a build of any number of paths, where the reader's spellings are none shorter, or none longer, than the paths found: the trip succeeds exactly when the marker is not in the module, no tokens mix, no path is found with ":url" after it, and none is read back in another spelling |
| PathMixtures.Relocates | packages/cli/doompi/src/compiler/cache.ts:353-369 | what a stored module reads as on any machine, exactly: nothing if tokens mix or the marker is in the result, otherwise the source with that machine's spelling of every path found, aliases included |
| PathMixtures.WholeStep | packages/cli/doompi/src/compiler/cache.ts:361-366 | beside nothing or a token cut short, a JavaScript replacement of a token acts on exactly that token, unless a plain token runs into it |
| PathMixtures.MixedStep | packages/cli/doompi/src/compiler/cache.ts:361-366 | where a plain token runs into the token that is replaced, the plain token is cut short and the path stands after it |
| PathMixtures.ReadsExactly | packages/cli/doompi/src/compiler/cache.ts:361-369 | a reader of any pieces gets their expansion, or nothing where at some replacement tokens mix: a token cut short keeps its marker to the end |
| PathMixtures.MixedIsThere | packages/cli/doompi/src/compiler/cache.ts:361-366 | whether tokens mix at a replacement can be told from the stored text before any is made |
| PathMixtures.MixedInCode | packages/cli/doompi/src/compiler/index.ts:887-901 | tokens mix in the stored text exactly where, in the code, a path is found whose token is not replaced before the given one, with the rest of that one after it, in full or up to underscores that the token of a path found there brings |
| PathMixtures.UnmixedNeverMixes | packages/cli/doompi/src/compiler/cache.ts:361-366 | no tokens mix in a module in which no path is found with the beginning of the rest of a reader's token after it |
| PathReadings.RereadIsRewritten | packages/cli/doompi/src/compiler/cache.ts:353-366 | the stored pieces as the reader takes them, expanded, are the code with each path found, in the order of the replacements, in the reader's spelling |
| PathReadings.SameIffNothingMisread | packages/cli/doompi/src/compiler/cache.ts:353-366 | where the spellings lean one way, that is the code itself exactly if no path found has another spelling |
| PathReadings.LeaningBothWaysCanCancel | packages/cli/doompi/src/compiler/cache.ts:353-366 | where they do not, two paths can be misread and the text be the same |
| PathTokens.SpoiledIffFollowed | packages/cli/doompi/src/compiler/index.ts:892-901 | a token is followed by a text in storage exactly when its path is found with it in the code, looking for the paths in their order and from left to right |
| PathTokens.FollowedPath | packages/cli/doompi/src/compiler/index.ts:892-901 | a path found with a text after it occurs in the code with it |
| PathTokens.NoPathSurvives | packages/cli/doompi/src/compiler/index.ts:880-905 | no path and no file URL of the publishing machine occurs in the stored text |
| PathTokens.LongestPathWins | packages/cli/doompi/src/compiler/index.ts:887-901 | longest first: a token never stands inside an occurrence of a longer path around it |
| PathTokens.WholeOccurrencesIffTokenSafe | packages/cli/doompi/src/compiler/index.ts:896-901 | a path is matched only whole beside every possible token exactly when no proper tail of it begins the marker |
| PathTokens.LongestComeFirst | packages/cli/doompi/src/compiler/index.ts:887 | the stable sort by descending length |
| PathTokens.TokenizeArtifact | packages/cli/doompi/src/compiler/index.ts:880-905 | the loop over one chunk computes the stored text |
| PathTokens.MaterializeArtifact | packages/cli/doompi/src/compiler/cache.ts:353-374 | the loop over one module computes the text read back, or fails when a token is left |
| PathPieces.SwapKeepsSpelling | packages/cli/doompi/src/compiler/index.ts:896-901 | every replacement of a path by its token keeps what the text spells |
| PathPieces.SpelledExpands | packages/cli/doompi/src/compiler/cache.ts:361-366 | where the reader's paths are the ones that occur, expanding every token gives the code |
| PathPieces.FillPreservesExpansion | packages/cli/doompi/src/compiler/cache.ts:361-366 | every replacement of a token by its path preserves what the text expands to |
| PathPieces.SwapText | packages/cli/doompi/src/compiler/index.ts:892-901 | a JavaScript replacement of a path that runs into no token acts on whole runs of characters and never touches a token |
| PathPieces.ReplaceAllIsReplace | packages/cli/doompi/src/compiler/cache.ts:361-366 | with a replacement free of dollar escapes, replaceAll inserts it verbatim at each leftmost match |
| PathPieces.TokenReadsBackIffDollarPlain | packages/cli/doompi/src/compiler/cache.ts:361-366 | a token comes back as its path exactly when the path holds no dollar escape, because replaceAll interprets them |
| PathRoundTrips.LoneRoundTripIff | packages/cli/doompi/src/compiler/cache.ts:353-369 | a module of a build with one path comes back if and only if the marker does not occur in it and the path is nowhere found with ":url" after it, nor with the rest of a URL token that its own token's underscores would begin |
| PathRoundTrips.LoneTextIff | packages/cli/doompi/src/compiler/cache.ts:353-369 | where the URL does not occur and the path cannot overlap itself, the same condition on plain occurrence in the text |
| PathRoundTrips.UrlAfterPathIsLost | packages/cli/doompi/src/compiler/cache.ts:361-366 | every path followed by ":url" alone comes back as its file URL |
| PathRoundTrips.UrlAfterPathInstance | packages/cli/doompi/src/compiler/cache.ts:361-366 | the module "/o:url" comes back as "file:///o" |
| PathRoundTrips.TokenAfterPathIsLost | packages/cli/doompi/src/compiler/cache.ts:361-369 | an input's path followed by the rest of the output's token cannot be read back at all |
| PathRoundTrips.TokenAfterPathInstance | packages/cli/doompi/src/compiler/cache.ts:361-369 | with the output at "/o" and an input at "/a", the module "/aDOOMPI_PATH_OUTPUT__" is refused |
| PathRoundTrips.MarkerTailIsLost | packages/cli/doompi/src/compiler/index.ts:892-901 | a path ending in an underscore, its front standing before the output's path, cannot be read back at all |
| PathRoundTrips.MarkerTailInstance | packages/cli/doompi/src/compiler/index.ts:892-901 | with the output at "/a" and an input at "/x_", the module "/x/a" is refused |
| PathRoundTrips.DollarPathIsLost | packages/cli/doompi/src/compiler/cache.ts:361-366 | with the output at "/a$$b", the module "/a$$b" comes back as "/a$b" |
| PathRoundTrips.AliasIsLost | packages/cli/doompi/src/compiler/index.ts:868-876 | with a link "/l" to the input "/f", the module "/l" comes back as "/f" |
| LogicalInputs.InputsRelocate | packages/cli/doompi/src/compiler/index.ts:587-615 | an input of the repository resolves in any worktree to the same relative place, an external one to itself |
| LogicalInputs.NamesResolveBack | packages/cli/doompi/src/compiler/index.ts:587-615 | naming an input and resolving the name gives the input |
| LogicalInputs.NamesIgnoreTheWorktree | packages/cli/doompi/src/compiler/index.ts:587-600 | the same file of two worktrees gets the same logical input |
| LogicalInputs.NamesAreDistinct | packages/cli/doompi/src/compiler/index.ts:587-600 | two files never share a logical path |
| LogicalInputs.DottedNamesAreExternal | packages/cli/doompi/src/compiler/index.ts:305-308 | a repository file is taken for an external one exactly when its first segment begins with two dots |
| LogicalInputs.TokenizedInputs | packages/cli/doompi/src/compiler/index.ts:849-878 | one valid token per input file: aliases share it, different files never do, none takes the root's; each file is shared once under its name and token, and the root beside them |
| SourceSplice.Splice | packages/cli/doompi/src/compiler/index.ts:1188-1198 | the right-to-left splices equal replacing all ranges at once, and leave every other character |
| SourceSplice.OrderIsIrrelevant | packages/cli/doompi/src/compiler/index.ts:1142-1170 | the order in which the syntax tree yields the ranges does not matter |
| NativePackages.NativePackageDirectories | packages/cli/doompi/src/compiler/index.ts:341-376 | terminates on cyclic dependencies and returns exactly the native packages reachable through packages that are not native, each once |
| NativePackages.Dependencies | packages/cli/doompi/src/compiler/index.ts:371-374 | the dependencies that resolve, in the order of the manifest |
| NativePackages.ClosedHoldsPath | packages/cli/doompi/src/compiler/index.ts:345-348 | a visited set that holds the starts and is closed under dependencies holds everything reachable |
| RuntimeCopy.CopyRuntimePackages | packages/clients/doompi-desktop/scripts/desktopRuntimePlugin.ts:280-322 | terminates on cyclic graphs; a finished artifact holds every declared package and everything its deep members need, and a failure names a package somebody in it asked for that does not load |
| RuntimeCopy.Copier.Copy | packages/clients/doompi-desktop/scripts/desktopRuntimePlugin.ts:290-319 | one recursive copy: what it added has all it needs, or the name is left to its declared root |
| RuntimeCopy.Copier.CopyDependencies | packages/clients/doompi-desktop/scripts/desktopRuntimePlugin.ts:308 | all dependencies of the copied package are settled |
| RuntimeCopy.Copier.CopyPeers | packages/clients/doompi-desktop/scripts/desktopRuntimePlugin.ts:309-318 | all peers are settled, an optional one only where it resolves |
| RuntimeCopy.DeclaredRootWins | packages/clients/doompi-desktop/scripts/desktopRuntimePlugin.ts:292-294 | a declared package is always the root's version and a root version is always declared |
| RuntimeCopy.EveryCopyIsNeeded | packages/clients/doompi-desktop/scripts/desktopRuntimePlugin.ts:290-321 | every copied package hangs on a chain of needs from a declared one |
| LiveTools.Live | packages/core/doompi-core/src/extensions/piExtension.ts:258-341 | over every run with every re-entrant change, abort and disposal, and however registrations end: a dead plugin has no callable tool; a live one has its leaked tools and, after a reconcile that did not throw, exactly the collection, once each; a tool leaks exactly when its own registration throws after Pi has taken the callback while the entry is active, and for good; an entry that lost its name is never callable later unless leaked |
| LiveTools.LeakedTool | packages/core/doompi-core/src/extensions/piExtension.ts:308-334 | a plugin that starts without tools gets one whose registration throws late: the subscription swallows that, the plugin stays alive, and the tool callable |
| LiveTools.CallableIsTheCollection | packages/core/doompi-core/src/extensions/piExtension.ts:275-327 | a matching registry makes exactly the collection's declarations callable, with no lost update |
| LiveTools.CallableAfterThrowing | packages/core/doompi-core/src/extensions/piExtension.ts:321-324 | after a throwing reconcile the callable entries are exactly those whose registration was seen to throw after Pi had taken the callback, with the entry active |
| LiveTools.SupersededStays | packages/core/doompi-core/src/extensions/piExtension.ts:298-307 | an entry that lost its name does not get it back, and does not begin to leak, for the rest of the run |
| LiveTools.Reconciler.Reconcile | packages/core/doompi-core/src/extensions/piExtension.ts:275-327 | nested calls only mark or deactivate; an outermost one ends matching the collection, or retires everything |
| LiveTools.Reconciler.Round | packages/core/doompi-core/src/extensions/piExtension.ts:284-320 | one round leaves the registry matching its snapshot unless something changed meanwhile |
| LiveTools.Reconciler.Register | packages/core/doompi-core/src/extensions/piExtension.ts:305-318 | a new entry takes over its name before Pi is called, gives it up when registering throws, and the ending is logged with whether it was active |
| LiveTools.Reconciler.RetireStale | packages/core/doompi-core/src/extensions/piExtension.ts:292-297 | no entry outside the snapshot stays active |
| LiveTools.Reconciler.Deactivate | packages/core/doompi-core/src/extensions/piExtension.ts:265-270 | every registered entry ends inactive, whatever its abort listeners do |
| LiveTools.Reconciler.CallOut | packages/core/doompi-core/src/extensions/piExtension.ts:286 | outside code can only mark, abort or dispose while a reconcile waits for it |
| LiveTools.Reconciler.Start | packages/core/doompi-core/src/extensions/piExtension.ts:328-341 | notifications during subscribing are kept for the first reconcile |
| LiveTools.Reconciler.DisposePlugin | packages/core/doompi-core/src/extensions/piExtension.ts:335-339 | disposal leaves no tool callable |
| SocketWrites.WritesFollowSends | packages/core/doompi-core/src/pi/piWebSocketListener.ts:94-117 | the chunks attempted are a prefix of the accepted sends, and the final chunk comes only after all of them were delivered |
| SocketWrites.NothingAfterFailure | packages/core/doompi-core/src/pi/piWebSocketListener.ts:103-115 | after one attempted write has failed nothing is ever written again |
| SocketWrites.BytesBalance | packages/core/doompi-core/src/pi/piWebSocketListener.ts:96-110 | the queued bytes are exactly those of the unsettled accepted chunks and never exceed 64 MiB |
| SocketWrites.OneNotification | packages/core/doompi-core/src/pi/piWebSocketListener.ts:67-74 | the handler gets at most one terminal notification, and it is of the first cause |
| SocketWrites.OrderlyCloseLosesNothing | packages/core/doompi-core/src/pi/piWebSocketListener.ts:75-89 | a connection ended by its own close has delivered everything it accepted and attempted its last word |
| SocketWrites.PiConnection.Notify | packages/core/doompi-core/src/pi/piWebSocketListener.ts:67-74 | the first cause stays, the handler hears of that one and of no other, and only if it is installed |
| SocketWrites.PiConnection.Accept | packages/core/doompi-core/src/pi/piWebSocketListener.ts:119-126 | the handler is decided once; a connection whose acceptor threw is not open and never notifies |
| SocketWrites.PiConnection.Send | packages/core/doompi-core/src/pi/piWebSocketListener.ts:94-116 | accepted exactly when the connection is neither closed nor closing, the socket is ready and the bytes fit the budget |
| SocketWrites.PiConnection.RunLink | packages/core/doompi-core/src/pi/piWebSocketListener.ts:103-107 | an open connection writes the chunks in order, each after all earlier ones were delivered; a closed one writes nothing |
| SocketWrites.PiConnection.ReleaseLink | packages/core/doompi-core/src/pi/piWebSocketListener.ts:108-110 | the settled chunk gives its bytes back, which leaves exactly the bytes of the unsettled ones |
| SocketWrites.PiConnection.FinishLink | packages/core/doompi-core/src/pi/piWebSocketListener.ts:111-114 | a failed link ends the connection, once; a delivered one changes nothing of its end |
| SocketWrites.PiConnection.Close | packages/core/doompi-core/src/pi/piWebSocketListener.ts:75-78 | only the first close of a connection that has not ended does anything |
| SocketWrites.PiConnection.ContinueClose | packages/core/doompi-core/src/pi/piWebSocketListener.ts:79-89 | the final chunk follows all accepted chunks, delivered; a connection that ends here had lost nothing |
| SocketWrites.PiConnection.Deliver | packages/core/doompi-core/src/pi/piWebSocketListener.ts:60-130 | every event keeps the connection valid and moves it by the machine's step |
| CordisHost.AtMostOneSession | packages/core/doompi-core/src/pi/cordisHost.ts:263-285 | at most one session fiber is live in every interleaving |
| CordisHost.GenerationsIncrease | packages/core/doompi-core/src/pi/cordisHost.ts:272-281 | session generations strictly increase |
| CordisHost.NewSessionReplacesOld | packages/core/doompi-core/src/pi/cordisHost.ts:271-282 | a session fiber is made only when no earlier one is live |
| CordisHost.ShutdownIsFinal | packages/core/doompi-core/src/pi/cordisHost.ts:221-232 | once shutdown resolves no session fiber remains, none is made again and no lease is given out |
| CordisHost.LeasesBalance | packages/core/doompi-core/src/pi/cordisHost.ts:241-255 | the lease count equals the leases handed out and not released |
| CordisHost.ShutsDownAfterLastLease | packages/core/doompi-core/src/pi/cordisHost.ts:247-253 | unless asked to, a host shuts down exactly when it is standalone and its last lease was released |
| CordisHost.HostController.BeginTask | packages/core/doompi-core/src/pi/cordisHost.ts:264-270 | a queued start goes on exactly while shutdown has not been called, and is dropped otherwise |
| CordisHost.HostController.ReplaceSession | packages/core/doompi-core/src/pi/cordisHost.ts:271-281 | a fiber is made exactly when the old one is gone and the new one can be plugged; it is then the only live one, and newer than every fiber before |
| CordisHost.HostController.ShutDown | packages/core/doompi-core/src/pi/cordisHost.ts:221-231 | after the call shutdown has begun, and a second call changes nothing |
| CordisHost.HostController.ReadQueue | packages/core/doompi-core/src/pi/cordisHost.ts:224-225 | shutdown waits for exactly the starts queued so far, among them any start already past its check |
| CordisHost.HostController.AfterSession | packages/core/doompi-core/src/pi/cordisHost.ts:226-227 | the root is disposed only when no session fiber is live, and a failed disposal keeps its fiber |
| CordisHost.HostController.AcquireLease | packages/core/doompi-core/src/pi/cordisHost.ts:241-243 | a lease is given out exactly while shutdown has not been called, and is then among the unreleased ones |
| CordisHost.HostController.ReleaseLease | packages/core/doompi-core/src/pi/cordisHost.ts:248-253 | the lease is no longer out, a second release changes nothing, and shutdown begins exactly when the last lease of a standalone host goes |
| CordisHost.HostController.Deliver | packages/core/doompi-core/src/pi/cordisHost.ts:215-285 | every event keeps the host valid and moves it by the machine's step |
| Freshness.MemoIsTransparent | packages/cli/doompi/src/compiler/inputs.ts:72-96 | over any sequence of calls and file changes the memo answers what the memo-free check would, where every change of content or readability changes size or mtime |
| Freshness.FreshMeansUnchanged | packages/cli/doompi/src/compiler/inputs.ts:72-96 | for honestly recorded inputs the answer is whether every recorded digest still matches |
| Freshness.PlainCheckIsTheTruth | packages/cli/doompi/src/compiler/inputs.ts:72-93 | comparing digests only where the stat moved agrees with comparing them all |
| Freshness.VerdictsWereReached | packages/cli/doompi/src/compiler/inputs.ts:25-29 | a remembered verdict was reached for exactly that receipt under exactly those stats |
| Freshness.MemoDiffersIff | packages/cli/doompi/src/compiler/inputs.ts:72-96 | over any history in which readings under one stat agree, the memo answers differently from the memo-free check if and only if some input moved, and at one of the question's first asking and now everything that moved matches while at the other some of it cannot be read |
| Freshness.ReadabilityIsNotSeen | packages/cli/doompi/src/compiler/inputs.ts:31-39 | a file that becomes readable again under the same stat keeps the verdict it had |
| Freshness.FreshnessMemo.InputsAreFresh | packages/cli/doompi/src/compiler/inputs.ts:72-96 | the loop, the key and the map update compute the answer and the new memo |
| SharedStore.FindSharedBuild | packages/cli/doompi/src/compiler/cache.ts:213-250 | from any store, corrupt ones included: the first listed build that is self-consistent, for this lookup, with matching artifacts and inputs, or none if none is; an artifact may be reached through links that stay inside the object |
| SharedStore.FirstServingIsUnique | packages/cli/doompi/src/compiler/cache.ts:213-250 | that answer is determined by the store and the machine |
| SharedStore.ResolveInputs | packages/cli/doompi/src/compiler/cache.ts:226-246 | all inputs resolve and match, and the token map is theirs |
| SharedStore.PublishThenFind | packages/cli/doompi/src/compiler/cache.ts:288-351 | right after a publish, find returns exactly that key if and only if the entry is a safe path, digests and modes are well formed, no two artifacts collide on a path with different contents, none takes the manifest's place, and the inputs still match |
| SharedStore.CollidingArtifactsAreRefused | packages/cli/doompi/src/compiler/cache.ts:288-351 | two artifacts "a" and "./a" with different contents: the publish returns and find gives nothing |
| SharedStore.PublishedServes | packages/cli/doompi/src/compiler/cache.ts:288-351 | a publish that returned leaves a build the store may serve exactly under those conditions |
| SharedStore.FoundBytesWerePublished | packages/cli/doompi/src/compiler/cache.ts:196-211 | whatever the store went through, a build found under a key holds the very bytes published under it |
| SharedBuilds.FoundIsServed | packages/cli/doompi/src/compiler/cache.ts:213-250 | what find returns under a published key is the published manifest, intact, with the token map of its inputs |
| SharedBuilds.ReaderResolves | packages/cli/doompi/src/compiler/cache.ts:225-247 | the token map resolves every token the publisher used |
| SharedBuilds.ModuleArrives | packages/cli/doompi/src/compiler/index.ts:1335-1362 | from any store that serves the build, a published module materializes to its code with the reader's spelling of every path found, or to nothing if tokens mix or the marker is in that |
| SharedBuilds.ModuleReturns | packages/cli/doompi/src/compiler/index.ts:1335-1362 | served in the worktree it was published from, a module is exactly what was compiled, if no path found in it has another spelling there |
| SharedBuilds.TokenMapPlaces | packages/cli/doompi/src/compiler/index.ts:1332-1339 | in any worktree the token map leads the root's token to that worktree and every file's token to its place there |
| SharedBuilds.CompiledModuleReturns | packages/cli/doompi/src/compiler/index.ts:1335-1362 | from the compiler's inputs on, symbolic links among them: a module in which no alias is found is read back, in its own worktree, byte for byte as compiled |
| SharedBuilds.CompiledModuleReturnsIff | packages/cli/doompi/src/compiler/index.ts:1335-1362 | where aliases are all shorter, or all longer, than their inputs, a module is read back as compiled if and only if the marker is not in it, no tokens mix, no path is found with ":url" after it, and no alias is found, as a path or as a URL |
| SharedBuilds.MisreadIffAlias | packages/cli/doompi/src/compiler/index.ts:1332-1348 | in its own worktree the paths found that are read back in another spelling are exactly the aliases |
| SharedBuilds.CompiledModuleArrives | packages/cli/doompi/src/compiler/index.ts:1335-1362 | from the compiler's inputs on: read in another worktree a module has that worktree's files in the place of its own, and files outside where they were, or is refused if tokens mix or the marker is in that |
| SharedStore.KeptObjectServes | packages/cli/doompi/src/compiler/cache.ts:282-286 | an object that is kept because it matches has every property the publish itself does not check |
| SharedStore.PublishKeepsServing | packages/cli/doompi/src/compiler/cache.ts:318-349 | no publish, even a failing one, takes away a build the store could serve |
| SharedStore.OtherLookupsAreUntouched | packages/cli/doompi/src/compiler/cache.ts:349 | publishing under one lookup key changes nothing found under another |
| SharedStore.IndexNeverForgets | packages/cli/doompi/src/compiler/cache.ts:182-189 | the index stays duplicate-free, keeps every key and puts the published one first, once |
| SharedStore.MostRecentBuildWins | packages/cli/doompi/src/compiler/cache.ts:182-189 | over any run of publishes, find returns the latest build whose inputs hold |
| SharedStore.SafePathsStayInside | packages/cli/doompi/src/compiler/cache.ts:74-78 | a safe path consists of names only and is its own normal form |
| SharedStore.SharedBuildCache.PublishSharedBuild | packages/cli/doompi/src/compiler/cache.ts:288-351 | checks, removal of a mismatching object, the write loop and the index update compute the published store |
| SharedStore.SharedBuildCache.PromoteKey | packages/cli/doompi/src/compiler/cache.ts:182-189 | the key is first and listed once, all others keep their order, no duplicate appears, and neither other lookups nor any object change |

## Left out

- ComputerUse.ReplaySeparation: an id may be accepted again once 1024 others have been, because the source forgets it then.
- BundleIntegrity.ActiveBundleIsIntact: a worker that starts on a record whose cache was already incomplete is covered from its first commit on; a reset that was queued but not run when the previous worker died is not remembered.
- BundleHistory.SignerPinnedRevisionsMonotone: plugin compositions have no monotone revision in the source, and their records are not modelled.
- PathMixtures.RoundTrip: stated for POSIX paths, whose import specifier is the path. It asks that no path of the build runs into another one in the module and that the reader's paths hold no dollar escape; `PathPieces.TokenReadsBackIffDollarPlain` and `PathTokens.WholeOccurrencesIffTokenSafe` say for one path when that is needed.
- PathMixtures.RoundTripIff: asks that what a module without the marker reads as holds no beginning of one of the reader's tokens, which only a path or URL that itself holds or completes the marker could bring.
- PathTokens.NoPathSurvives: asks that no path of the build can run into another one in the module, because a path ending like the marker's beginning may reappear across a token.
- SocketWrites.OneNotification: an end before the acceptor returned its handler is not delivered to it, as in the source.
- The legacy path that serves unsigned bundles, and the fetching and serving of plugin assets.
- Re-entrant calls into the grant host from its own availability listeners; listeners are only allowed to throw.
- Several connections of one listener: `close` of the listener is the close of each, and each is one machine.
- The discovery protocol between Cordis hosts, and what a session fiber provides.
- Mutual exclusion of `withSharedBuildLock`: the owner file is written after the directory, and removal of a stale lock is check-then-delete, so the code does not decide it.
- Two publishers racing on one object directory, where the loser of the rename keeps the winner's object; and bounded runs over lists that hold undefined values.
- File copying, permissions and temporary names behind the store and the runtime copy: a write happens entirely or throws.
- Payload validators beyond an accept or reject verdict, option parsing, rendering, proxies, schemas and result writing of the command line, which hold no state and no interleaving.
