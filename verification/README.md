# Pliego: verified core

This project models the parts of Pliego whose correctness depends on many steps or many functions at once, and proves
their properties with Dafny. `dafny verify dfyconfig.toml` checks all of it.

- **Adapter lifecycle** (`AdapterProtocol`, `AdapterRuntimes`, `Drains`, `AdapterSafety`, `AdapterUpdates`,
  `AdapterOwnCleanup`, `AdapterStranded`, `AdapterDrains`, `AdapterTheorems`, `AdapterOverlap`, `AdapterBlocks`): the
  mount, update and unmount protocol of a root. One action is one synchronous block between two awaits; plugin,
  importer and connection answers are parameters of the actions; promise handlers may run in any order the promises
  allow. `AdapterRuntimes` has the runtime as a class with its weak maps, one method per block, each proved to be a
  transition of `AdapterProtocol`; `Perform` runs any block and keeps every root reachable. The theorems hold for
  every run over any number of roots; `AdapterBlocks` says what each block decides, in both directions.
- **Artifacts** (`Text`, `Namespaces`, `Sorting`, `Receipts`, `BuildGraphs`, `PathPrefixes`, `DiskTrees`,
  `DiskCounts`, `DiskLayouts`, `DiskNamespaces`, `DiskVerification`, `DiskExactness`): portable paths, the output
  namespace, canonical receipts and reports, the causal graph, and the verification of a tree on disk.
- **Adaptive assets** (`Budgets`, `Planner`, `PlannerAgreement`, `FileSearch`, `Publish`, `Finalize`): worst-case
  budgets and delivery, the planner against the independent plan validator, the chunked search, and the publication of
  staged files over a file store, with input and output faults at every point.
- **Request scope** (`RequestScope`): cancellation, cleanup registration, closing and waiting as an interleaving of
  atomic steps, and the same operations as a class.
- **Command line** (`Reachability`, `Rebuild`): the Cargo worklist and the rebuild impact analysis.

`Prelude` and `Sums` hold shared facts about sequences, permutations and finite sums.

A Rust string is modelled by its UTF-8 bytes, one character per byte, so lengths and order are those of the code.
Normalisation, case folding, blankness, hashes, JSON decoding and format probes are uninterpreted functions that the
operations receive; machine integers are bounded or checked explicitly. Where a statement needs a fact about one of
these functions it says so: `PathPrefixes.NfcByComponent` asks that normalisation form C works component by component
(sections 1.2 and 1.3 of UAX #15), from which `PortableIsStable` derives what `DiskExactness.Stable` asks of the
parser besides a canonical ledger name; `Finalize.HexDigests` asks for 64 lower-case hexadecimal digits (section 6.2
of FIPS 180-4); `Rebuild.Rendered` asks for deterministic rendering.

Eight results show where the code does less than one might expect, each with an instance and the exact condition
that delimits it:

- a cleanup may still run when the next plugin.mount is called (`AbandonedCleanupMayOverlapMount`): what an unmount
  tears down can be unfinished at a later plugin.mount iff plugin.mount of it was pending at the unmount
  (`UnmountMayOverlapIff`). Everything a dispose took, and everything a mount took that was the first to clean up, has
  settled by then (`MountWaitsForTeardown`, `MountWaitsForOwnCleanup`); what can be left is the returned cleanup of
  such an interrupted mount, and nothing else (`UnfinishedAtMount`);
- a callback registered after the cleanup of a mount that found its root disconnected is never run
  (`RegistrationMayBeStranded`); a waiting callback can still be taken iff its record is not stranded
  (`WaitingTakenIff`);
- a cleanup registration that passed the closed check can be accepted and never run (`AcceptedCleanupMayNeverRun`); an
  accepted one runs iff close has not taken the list when it is pushed (`AcceptedRunsIff`);
- a failed namespace insert can leave directories behind (`FailedInsertMayLeaveDirectories`); it leaves the namespace
  alone iff it fails before its ancestors are looked at, or none of them is both the first unregistered one and
  registrable (`FailedInsertChangesNothingIff`); `AcceptedIff` is about runs up to the first failure;
- an artifact may name a route that does not list it (`NamedRouteNeedNotList`); every artifact with a route is listed
  by it iff as many paths are listed as artifacts name a route (`AllListedIff`);
- a recipe that validates cannot be planned when an asset is named after a device (`ValidRecipeWithoutPlan`, exactly
  `PlannedJobsValidIff`), and a plan that validates cannot be published when a variant is (`ValidPlanNeverPublished`,
  exactly `PublishableIff`);
- a finalisation that failed cannot be resumed once one file has been published (`OneFaultStrands`): the same plan can
  be finalised again iff the first staged file is there still and no broken copy lies at its destination (`RetryIff`);
- a changed dependency list can hide a changed artifact from the impact analysis (`NewDependencyIsMissed`); an
  artifact is missed iff every reported source is known and neither its old nor its new dependency list touches one
  (`MissedIff`).

## Model

| member | source | states |
|---|---|---|
| `AdapterTheorems.MountWaitsForTeardown` | crates/pliego-adapters/src/runtime-v1.js:244-257 | in every run, when mountInternal calls plugin.mount every callback that any earlier dispose of the root took has settled and has run exactly once |
| `AdapterTheorems.MountWaitsForOwnCleanup` | crates/pliego-adapters/src/runtime-v1.js:370-393 | nor is plugin.mount called while anything is unfinished in a lifecycle that mountInternal itself was the first to clean up, because plugin.mount threw or the root was disconnected: the task slot, or the barrier of a dispose in between, waits for it |
| `AdapterTheorems.UnfinishedAtMount` | crates/pliego-adapters/src/runtime-v1.js:244-301 | in every run, a drain that is unfinished when plugin.mount is called is the second and last of its lifecycle, was taken by mountInternal after a dispose took the first, and holds the returned cleanup only |
| `AdapterTheorems.UninterruptedMountComesLast` | crates/pliego-adapters/src/runtime-v1.js:321-393 | in every run in which no unmount comes while plugin.mount of a record is pending, every drain of that record has settled whenever plugin.mount is called |
| `AdapterOverlap.InterruptedMountMayOverlap` | crates/pliego-adapters/src/runtime-v1.js:370-393 | from every reachable state, an unmount that comes while plugin.mount is pending has a continuation in which the next plugin.mount is called while a cleanup of the interrupted record is unfinished |
| `AdapterOverlap.UnmountMayOverlapIff` | crates/pliego-adapters/src/runtime-v1.js:487-514 | in every reachable state, for the record an unmount tears down: some continuation calls plugin.mount while its cleanup is unfinished iff its plugin.mount was pending at the unmount |
| `AdapterOverlap.SettleBarriers` | crates/pliego-adapters/src/runtime-v1.js:244-257 | from every reachable state the teardown barriers can settle one after the other, by steps of drains and barriers only: the chain of barriers and drains never deadlocks |
| `AdapterTheorems.DisposeTakesAll` | crates/pliego-adapters/src/runtime-v1.js:487-514 | a dispose leaves nothing waiting in the lifecycle it tears down, aborts its controller, empties the slots and leaves a barrier for the next mount |
| `AdapterTheorems.AbandonedCleanupMayOverlapMount` | crates/pliego-adapters/src/runtime-v1.js:370-376 | a concrete reachable run of the one case that is left: the returned cleanup of a mount disposed while plugin.mount was pending is still running when the next plugin.mount is called |
| `AdapterTheorems.CleanupOncePerCallback` | crates/pliego-adapters/src/runtime-v1.js:259-301 | over every run each hook, returned cleanup and registered callback of a lifecycle runs at most once, in the order taken, each drain in the order hook, return, registered in reverse |
| `AdapterTheorems.CleanupNeverOverlaps` | crates/pliego-adapters/src/runtime-v1.js:280-297 | at most one drained callback of a lifecycle is running at any time, whichever path started its drain |
| `AdapterTheorems.RegistrationInOnePlace` | crates/pliego-adapters/src/runtime-v1.js:303-319 | each onCleanup callback is in exactly one place, once: waiting, taken by a drain, or run at once because the controller was aborted already |
| `AdapterTheorems.WaitingTakenIff` | crates/pliego-adapters/src/runtime-v1.js:303-319 | in every run, some continuation takes a waiting callback iff its record is not stranded, that is, its mount has not ended or a slot still holds the record |
| `AdapterTheorems.RegistrationMayBeStranded` | crates/pliego-adapters/src/runtime-v1.js:374-376 | a concrete reachable run: a mount that found its root disconnected cleans up without aborting, and a callback registered afterwards waits for ever |
| `AdapterTheorems.TakenCallbackRuns` | crates/pliego-adapters/src/runtime-v1.js:280-297 | over every run, with any other actions in between: what is left up to the drain that took a callback falls by one with each start or settle of those drains and never rises; while something is left one of them can move; when nothing is left the callback has run exactly once |
| `AdapterDrains.StepLeft` | crates/pliego-adapters/src/runtime-v1.js:259-301 | every action keeps the drains of a record, may only append to them, and changes what is left up to one of them only by starting or settling a callback of it or of an earlier one |
| `AdapterTheorems.InstalledIsLive` | crates/pliego-adapters/src/runtime-v1.js:234-238 | at every step boundary an installed lifecycle comes from the one record of the current generation and its controller is not aborted; no other record is current |
| `AdapterTheorems.SupersededForever` | crates/pliego-adapters/src/runtime-v1.js:216-238 | a superseded record never becomes current again and never installs, over every further run |
| `AdapterTheorems.DisposeAndMountSupersede` | crates/pliego-adapters/src/runtime-v1.js:395-424 | every dispose and every mount that starts supersedes all records before it |
| `AdapterTheorems.UpdatesRunInCallOrder` | crates/pliego-adapters/src/runtime-v1.js:465-485 | updates of one epoch execute one at a time in call order: a later one has not begun before every earlier one has finished |
| `AdapterTheorems.NoWriteAfterUnmount` | crates/pliego-adapters/src/runtime-v1.js:226-232 | an update enqueued before an unmount never writes lifecycle.props or the root props after it, through plugin awaits, waiting mounts and the dispose-and-remount branch |
| `AdapterBlocks.MountStartsIff` | crates/pliego-adapters/src/runtime-v1.js:395-424 | in every reachable state a mount starts iff nothing is installed and no mount is under way, with one new record in both slots; it waits iff a teardown is under way, and otherwise goes on as its root says |
| `AdapterBlocks.MountBeginsIff` | crates/pliego-adapters/src/runtime-v1.js:321-342 | after the teardown a mount imports iff its record is current and the root allows it; a skipped or misconfigured root aborts the controller, a disconnected or superseded one does not |
| `AdapterBlocks.PluginMountCalledIff` | crates/pliego-adapters/src/runtime-v1.js:343-366 | plugin.mount is called, with a fresh lifecycle, iff the import succeeded and the record is current and connected; a failed import aborts only in its own generation |
| `AdapterBlocks.InstallsIff` | crates/pliego-adapters/src/runtime-v1.js:367-393 | in every reachable state, after plugin.mount the lifecycle is installed iff it returned and the record is current and connected, then with no drain added and the returned cleanup kept; otherwise everything that waits is taken at once |
| `AdapterBlocks.FirstMountInstalls` | crates/pliego-adapters/src/runtime-v1.js:395-424 | a concrete run of a new root that ends with its first record installed |
| `AdapterBlocks.CanAlwaysInstall` | crates/pliego-adapters/src/runtime-v1.js:216-514 | from every reachable state some continuation ends with a lifecycle installed that has not been cleaned up |
| `AdapterBlocks.UnmountDoes` | crates/pliego-adapters/src/runtime-v1.js:487-514 | in every reachable state unmount empties every slot, advances both counters, aborts exactly the pending and the installed controller, and tears down the installed lifecycle or else the pending one, under one new barrier that follows the last |
| `AdapterBlocks.RegistrationWaitsIff` | crates/pliego-adapters/src/runtime-v1.js:303-319 | in every reachable state a registered callback waits, before all that were registered earlier, iff the controller is not aborted; otherwise it runs at once and nothing more waits |
| `AdapterBlocks.CallDecides` | crates/pliego-adapters/src/runtime-v1.js:465-485 | a call of update goes behind the latest update, or waits for the mount under way, mounts, calls plugin.update or remounts, as it finds the root |
| `AdapterBlocks.UpdateDecides` | crates/pliego-adapters/src/runtime-v1.js:426-446 | at each of its three turns an update ends iff an unmount came since it was enqueued; otherwise it waits, mounts once, calls plugin.update, or disposes, writes the given props to the root and mounts again |
| `AdapterBlocks.UpdateWritesIff` | crates/pliego-adapters/src/runtime-v1.js:447-463 | after plugin.update the lifecycle's props are written iff that lifecycle is still installed, the epoch is the update's own and it did not throw; the root's props are written iff also they were given; nothing else is written |
| `AdapterBlocks.UpdateGoesThrough` | crates/pliego-adapters/src/runtime-v1.js:426-485 | in every reachable state with an installed lifecycle and an empty queue, an update has a continuation that writes exactly what it should |
| `AdapterBlocks.TaskHandlerFreesMount` | crates/pliego-adapters/src/runtime-v1.js:416-422 | the handler of the latest mount task makes way for the next mount, and that of any other task changes nothing |
| `AdapterBlocks.UpdateHandlerFreesQueue` | crates/pliego-adapters/src/runtime-v1.js:478-483 | once the handler of the latest update has run the next update does not queue, and the handler of any other update changes nothing |
| `AdapterBlocks.DrainHandlerFreesLifecycle` | crates/pliego-adapters/src/runtime-v1.js:292-299 | once the handler of the latest drain has run, a later cleanup of the lifecycle can start at once, and the handler of any other drain changes nothing |
| `AdapterTheorems.EveryRootReachable` | crates/pliego-adapters/src/runtime-v1.js:395-424 | in every interleaving over any number of roots each root is in a reachable state of its own machine, so all of the above holds for each |
| `AdapterTheorems.WorldStartsReachable` | crates/pliego-adapters/src/runtime-v1.js:395-424 | the same for every run of a runtime that starts without entries |
| `AdapterTheorems.ReachableInv` | crates/pliego-adapters/src/runtime-v1.js:216-514 | the whole invariant of the protocol holds in every reachable state |
| `AdapterSafety.StepCore` | crates/pliego-adapters/src/runtime-v1.js:216-424 | every action keeps the generation, slot, barrier and teardown-coverage invariants |
| `AdapterUpdates.StepInv` | crates/pliego-adapters/src/runtime-v1.js:426-485 | every action keeps the update-queue and epoch invariants of the write history |
| `AdapterOwnCleanup.StepOwn` | crates/pliego-adapters/src/runtime-v1.js:259-424 | every action keeps the invariant that a drain taken first by mountInternal has settled, is awaited by its mount task, or is covered by a barrier, and that after a dispose only the returned cleanup is left to take |
| `AdapterStranded.StepWait` | crates/pliego-adapters/src/runtime-v1.js:303-424 | every action keeps the invariant that nothing waits under an aborted controller and that an unfinished mount is aborted or held by the pending slot |
| `Drains.CleanupLifecycleInv` | crates/pliego-adapters/src/runtime-v1.js:259-301 | taking the callbacks of a lifecycle keeps conservation of callbacks and the chaining of its drains |
| `Drains.StartedIsPrefix` | crates/pliego-adapters/src/runtime-v1.js:280-297 | what has run is a prefix of what was taken, and all of it once every drain has settled |
| `Drains.ExactlyOnce` | crates/pliego-adapters/src/runtime-v1.js:259-301 | after all drains have completed a taken callback has run exactly once |
| `Drains.DrainsComplete` | crates/pliego-adapters/src/runtime-v1.js:280-297 | n steps of the drains, in any order they allow, complete them exactly when n is the remaining amount |
| `AdapterRuntimes.AdapterRuntime.StartMount` | crates/pliego-adapters/src/runtime-v1.js:395-424 | the weak-map updates of mount are the mount transition of its root; no other root changes |
| `AdapterRuntimes.AdapterRuntime.MountInternal` | crates/pliego-adapters/src/runtime-v1.js:321-342 | the first block of mountInternal is its transition; no other root changes |
| `AdapterRuntimes.AdapterRuntime.ContinueAfterImport` | crates/pliego-adapters/src/runtime-v1.js:343-366 | the block after the import is its transition: abort only in the current generation, lifecycle only for a current connected record |
| `AdapterRuntimes.AdapterRuntime.ContinueAfterPluginMount` | crates/pliego-adapters/src/runtime-v1.js:367-393 | the block after plugin.mount installs, or cleans up the abandoned or failed lifecycle, as the transition says |
| `AdapterRuntimes.AdapterRuntime.TaskResolved` | crates/pliego-adapters/src/runtime-v1.js:405-423 | the task handler clears pending and mountTasks only where they still hold this record |
| `AdapterRuntimes.AdapterRuntime.TakeCleanups` | crates/pliego-adapters/src/runtime-v1.js:259-301 | the popping loop collects hook, return and the registered callbacks in reverse into one drain behind the previous one |
| `AdapterRuntimes.AdapterRuntime.TrackTeardown` | crates/pliego-adapters/src/runtime-v1.js:244-257 | the new barrier chains the previous one and becomes the root's teardown |
| `AdapterRuntimes.AdapterRuntime.DisposeRoot` | crates/pliego-adapters/src/runtime-v1.js:487-514 | dispose aborts both controllers, advances generation and epoch, empties the slots and tears both lifecycles down, as the transition says |
| `AdapterRuntimes.AdapterRuntime.OnCleanup` | crates/pliego-adapters/src/runtime-v1.js:303-319 | onCleanup appends, or runs at once when the controller is aborted |
| `AdapterRuntimes.AdapterRuntime.PerformUpdate` | crates/pliego-adapters/src/runtime-v1.js:426-464 | the plugin.update block and the dispose-and-remount block are the transition of the update |
| `AdapterRuntimes.AdapterRuntime.UpdateRoot` | crates/pliego-adapters/src/runtime-v1.js:465-485 | update enqueues behind the latest update of the root, or runs its first block before it sets the queue |
| `AdapterRuntimes.AdapterRuntime.ContinueAfterPluginUpdate` | crates/pliego-adapters/src/runtime-v1.js:447-456 | the props are written only if the lifecycle is still installed, not aborted, of the same epoch, and the update did not throw |
| `AdapterRuntimes.AdapterRuntime.UpdateAfterOwnMount` | crates/pliego-adapters/src/runtime-v1.js:431-440 | the block of an update after the mount it started itself re-checks the epoch and the installed lifecycle before it goes on |
| `AdapterRuntimes.AdapterRuntime.RunNextCallback` | crates/pliego-adapters/src/runtime-v1.js:280-291 | one turn of the drain loop calls the next callback in order |
| `AdapterRuntimes.AdapterRuntime.DrainResolved` | crates/pliego-adapters/src/runtime-v1.js:296-299 | the handler of a drain clears the lifecycle barrier only if it is still its own |
| `AdapterRuntimes.AdapterRuntime.BarrierResolved` | crates/pliego-adapters/src/runtime-v1.js:253-255 | the handler of a teardown barrier deletes the entry only if it is still its own |
| `AdapterRuntimes.AdapterRuntime.UpdateResolved` | crates/pliego-adapters/src/runtime-v1.js:478-483 | the handler of an update deletes the queue entry only if it is still its own |
| `AdapterRuntimes.AdapterRuntime.Perform` | crates/pliego-adapters/src/runtime-v1.js:216-514 | whatever call or continuation runs next, in any order over any roots, is its transition, changes no other root, and keeps every root in a reachable state |
| `RequestScope.CancelledHasReason` | crates/pliego-data/src/context.rs:489-498 | in every interleaving a set cancelled flag implies a recorded reason |
| `RequestScope.ReasonNeverChanges` | crates/pliego-data/src/context.rs:489-512 | the first reason is final; cancelled and closed are never undone |
| `RequestScope.FirstReasonWins` | crates/pliego-data/src/context.rs:489-511 | over every run the recorded reason is the one that the first cancel or close to reach the lock brought: the caller's for a cancel, scope closed for a close |
| `RequestScope.CancelRecords` | crates/pliego-data/src/context.rs:489-498 | the locked step of a cancel records the caller's reason iff none is recorded, and changes nothing else |
| `RequestScope.CloseRecords` | crates/pliego-data/src/context.rs:500-511 | the locked step of a close records scope closed iff none is recorded, and goes on with what is recorded then |
| `RequestScope.ClosingBodyRunsOnce` | crates/pliego-data/src/context.rs:500-519 | at most one thread is ever in the body of close, and it is the recorded one |
| `RequestScope.CloserNeverChanges` | crates/pliego-data/src/context.rs:500-503 | the call that won the closed swap stays the closing one over every further run |
| `RequestScope.CleanupsRunInReverse` | crates/pliego-data/src/context.rs:512-517 | nothing runs before the list is taken; then the taken cleanups run in reverse registration order with the final reason |
| `RequestScope.CancelReasonIsCallers` | crates/pliego-data/src/context.rs:489-522 | a cleanup that has run was run with the recorded reason, which is the caller's when a cancel came first |
| `RequestScope.RegistrationDecides` | crates/pliego-data/src/context.rs:348-361 | a registration fails iff it finds the scope closed or, at its push, the list full; otherwise it is appended |
| `RequestScope.CleanupRunsAtMostOnce` | crates/pliego-data/src/context.rs:348-361 | every cleanup runs at most once in every interleaving |
| `RequestScope.CleanupRunsIffTaken` | crates/pliego-data/src/context.rs:500-519 | once close has returned an accepted cleanup has run exactly once if it was pushed before the list was taken, and not at all otherwise |
| `RequestScope.RegisteredInTimeRunsOnce` | crates/pliego-data/src/context.rs:348-361 | a cleanup that is registered while the scope is open, or while close has not taken the list, has run exactly once in every later state in which close has returned |
| `RequestScope.RegisteredLateNeverRuns` | crates/pliego-data/src/context.rs:512-517 | a cleanup that is not registered when close takes the list never runs, over every further run |
| `RequestScope.AcceptedRunsIff` | crates/pliego-data/src/context.rs:348-361 | an accepted cleanup has run, once, when close has returned iff the list had not been taken at the moment of its push |
| `RequestScope.AcceptedCleanupMayNeverRun` | crates/pliego-data/src/context.rs:348-361 | a concrete run in which a registration that passed the closed check is accepted after the list was taken and never runs |
| `RequestScope.NoLostWakeup` | crates/pliego-data/src/cancellation.rs:48-57 | once the flag is set a parked waiter can go on at once or right after the pending notification |
| `RequestScope.NobodyParkedAfterCancel` | crates/pliego-data/src/cancellation.rs:48-70 | when no cancel is between swap and notify, every parked waiter can go on and then returns |
| `RequestScope.WaiterReturnsOnlyWhenCancelled` | crates/pliego-data/src/cancellation.rs:48-57 | a waiter gets past its wait only when the flag is set |
| `RequestScope.RequestContext.CancelScope` | crates/pliego-data/src/context.rs:489-496 | cancel keeps the first reason, sets the flag and notifies only the first time |
| `RequestScope.RequestContext.Register` | crates/pliego-data/src/context.rs:348-361 | a closed context and a full list are refused; otherwise the cleanup is appended |
| `RequestScope.RequestContext.CloseScope` | crates/pliego-data/src/context.rs:498-520 | the first close takes the list, runs it in reverse with the final reason and clears the loader cells; later ones change nothing |
| `RequestScope.ClosingLoopAlone` | crates/pliego-data/src/context.rs:515-517 | an uninterrupted run of the closing steps of the machine has the effect of the popping loop |
| `Namespaces.AcceptedIff` | crates/pliego-artifact/src/lib.rs:203-283 | a sequence of inserts from an empty namespace is accepted in full iff its paths are pairwise compatible, their components fit, and the bytes of the distinct directory prefixes fit; the index then represents exactly those paths |
| `Namespaces.RejectedAtFirstMisfit` | crates/pliego-artifact/src/lib.rs:203-283 | a rejected sequence stops at the first path that does not fit with the ones before it, which are represented by then, and ends in what that one failed insert leaves |
| `Namespaces.RejectionIsReal` | crates/pliego-artifact/src/lib.rs:203-283 | the first rejected path is rejected for what is the case: a collision names it and the spelling of something inserted before that has its key or the key of one of its ancestors, otherwise one of the two budgets is exceeded |
| `Namespaces.FilesRecordEntries` | crates/pliego-artifact/src/lib.rs:203-283 | the index holds every accepted path under its key with its own spelling and its own owner |
| `Namespaces.ParseFields` | crates/pliego-artifact/src/lib.rs:103-131 | a parsed path is the normal form of a relative text, of components that do not climb, with one case-folded key for each; a text that does not parse is named in the error |
| `Namespaces.AncestorText` | crates/pliego-artifact/src/lib.rs:203-283 | the spelling of an ancestor is the front of the path's, and its key the front of the path's key |
| `Namespaces.OrderIndependent` | crates/pliego-artifact/src/lib.rs:203-283 | acceptance does not depend on the order of insertion |
| `Namespaces.IndexIsOracle` | crates/pliego-artifact/src/lib.rs:219-278 | the three map lookups of insert decide the pairwise test against everything inserted before |
| `Namespaces.InsertSpec` | crates/pliego-artifact/src/lib.rs:203-283 | one insert into a represented namespace succeeds iff the extended set fits, and represents it |
| `Namespaces.FailedInsertKeeps` | crates/pliego-artifact/src/lib.rs:203-283 | a failed insert keeps files and component count and leaves at most the first few ancestors of its path |
| `Namespaces.FailedInsertChangesNothingIff` | crates/pliego-artifact/src/lib.rs:203-283 | a failed insert leaves the namespace as it was iff the component budget or the file test rejects it, or no ancestor is the first unregistered one, free and within the byte limit |
| `Namespaces.FailedInsertMayLeaveDirectories` | crates/pliego-artifact/src/lib.rs:264-269 | three texts that parse, one of them with a fullwidth solidus whose NFKC form is '/': the rejected second insert leaves a directory behind that rejects a third path agreeing with the only accepted one |
| `Namespaces.OutputNamespace.Insert` | crates/pliego-artifact/src/lib.rs:203-283 | the maps and counters after insert, and its error, are those of the specification, error branches included |
| `Namespaces.OutputNamespace.RegisterDirectories` | crates/pliego-artifact/src/lib.rs:229-272 | the loop with its two growing prefix strings registers the ancestors level by level |
| `Namespaces.OutputNamespace.InsertStr` | crates/pliego-artifact/src/lib.rs:193-201 | a path that does not parse leaves the namespace alone; otherwise insert of the parsed path |
| `Receipts.ReceiptIsCanonical` | crates/pliego-artifact/src/lib.rs:535-573 | an accepted input has the same receipt as another input iff both differ in the order of their lists only; then the other is accepted too |
| `Receipts.FromContextFilesAndPrevious` | crates/pliego-artifact/src/lib.rs:542-573 | succeeds iff the sorted context and the sorted outputs validate, and returns the canonical receipt |
| `Receipts.FreshReportValidIff` | crates/pliego-artifact/src/lib.rs:585-594 | the report of a freshly built receipt validates iff the named previous owner is well formed, of the same project, and another receipt |
| `Receipts.FreshReportValid` | crates/pliego-artifact/src/lib.rs:585-594 | without a previous owner the report of a freshly built receipt always validates |
| `Receipts.ValidReportRebuilds` | crates/pliego-artifact/src/lib.rs:919-997 | a report validates iff rebuilding it from its own context and files yields it again and its previous owner is admissible |
| `Receipts.NewReport` | crates/pliego-artifact/src/lib.rs:585-594 | BuildReport::new succeeds iff the report validates |
| `Receipts.ValidateReport` | crates/pliego-artifact/src/lib.rs:919-997 | accepts exactly the reports that satisfy every stated condition, the recomputed aggregates and hashes included |
| `Receipts.NormalizeContext` | crates/pliego-artifact/src/lib.rs:1177-1297 | succeeds iff the sorted context satisfies every condition, and returns the sorted context |
| `Receipts.NormalizeIdempotent` | crates/pliego-artifact/src/lib.rs:1177-1297 | normalising a valid context changes nothing |
| `Receipts.ValidateOutputs` | crates/pliego-artifact/src/lib.rs:1345-1391 | accepts exactly the strictly ordered canonical outputs within all limits that the namespace accepts together with the ledger |
| `Receipts.ValidateEvidenceSet` | crates/pliego-artifact/src/lib.rs:1323-1343 | accepts exactly the strictly ordered canonical evidence that the namespace accepts |
| `Receipts.CountInputs` | crates/pliego-artifact/src/lib.rs:1220-1240 | the checked sum fails exactly when the exact number of input files is over the limit |
| `Receipts.TotalIsSum` | crates/pliego-artifact/src/lib.rs:941-951 | the byte total of an output list is the exact sum over its positions |
| `Receipts.FilesIsSum` | crates/pliego-artifact/src/lib.rs:1220-1240 | the input count of a material list is the exact sum over its positions |
| `Receipts.OutputRunFits` | crates/pliego-artifact/src/lib.rs:1345-1391 | the namespace run of the output validator goes through iff ledger and outputs fit pairwise |
| `Receipts.EvidenceRunFits` | crates/pliego-artifact/src/lib.rs:1323-1343 | the namespace run of the evidence validator goes through iff the files fit pairwise |
| `Sorting.SortIsCanonical` | crates/pliego-artifact/src/lib.rs:1190-1204 | two lists sort to the same strictly ordered list iff they are permutations of each other |
| `Text.LessIff` | crates/pliego-artifact/src/lib.rs:1356-1361 | the order by which lists are checked is the byte-wise one: the first difference decides, and a proper prefix is smaller |
| `BuildGraphs.ValidateBuildGraph` | crates/pliego-artifact/src/lib.rs:1393-1500 | accepts exactly the graphs whose sources, routes, artifacts and route-to-artifact edges are valid |
| `BuildGraphs.ListedAtMostOnce` | crates/pliego-artifact/src/lib.rs:1477-1498 | in a valid graph an artifact path is listed by at most one route, and once |
| `BuildGraphs.ListedNode` | crates/pliego-artifact/src/lib.rs:1477-1498 | a listed path names exactly one node, which points back to the route and has equal dependencies |
| `BuildGraphs.NamedRouteNeedNotList` | crates/pliego-artifact/src/lib.rs:1455-1463 | a concrete valid graph with an artifact naming a route that does not list it: the edge check runs one way |
| `BuildGraphs.AllListedIff` | crates/pliego-artifact/src/lib.rs:1477-1498 | in a valid graph every artifact that names a route is listed by that route iff the listed paths are as many as the artifacts that name a route |
| `BuildGraphs.ListedByItsRouteIff` | crates/pliego-artifact/src/lib.rs:1477-1498 | in a valid graph an artifact is listed by the route it names iff any route lists it |
| `BuildGraphs.ValidateAgainstReport` | crates/pliego-artifact/src/lib.rs:1541-1600 | accepts exactly the valid graphs that match a valid report in identity and sources and cover its payload |
| `BuildGraphs.CountAndLookups` | crates/pliego-artifact/src/lib.rs:1570-1598 | equal counts plus the membership lookups decide equality of the two path sets |
| `BuildGraphs.ArtifactsAreTheOutputs` | crates/pliego-artifact/src/lib.rs:1541-1600 | an accepted graph has exactly one node per receipt output, the graph file aside, with that output's kind, producer and hash |
| `BuildGraphs.ValidateRouteEdges` | crates/pliego-artifact/src/lib.rs:1477-1498 | the find loop accepts exactly the routes all of whose artifacts have an agreeing node |
| `DiskExactness.VerifiedIffExact` | crates/pliego-artifact/src/lib.rs:721-763 | verification succeeds iff the ledger reads as a valid report, the tree holds exactly the declared singly linked files with their sizes and hashes and exactly their strict ancestor directories, nothing else, and the declared files, those directories and the ledger stay within the layout limits |
| `DiskExactness.LimitsOnReport` | crates/pliego-artifact/src/lib.rs:1733-1753 | in an exact tree the counters of the collection stay within their limits iff the report's files, the directories above them and the ledger do: the limits depend on the report alone |
| `DiskExactness.FullReportNeverVerified` | crates/pliego-artifact/src/lib.rs:1786-1791 | a valid report with as many outputs as a report may have is verified by no tree, because the collection counts the ledger and the directories too |
| `DiskCounts.ListCounted` | crates/pliego-artifact/src/lib.rs:1774-1850 | the three counters of a collected tree are the number, the components and the bytes of the paths it lists, plus one entry per ledger |
| `DiskCounts.LedgersAtRoot` | crates/pliego-artifact/src/lib.rs:1774-1850 | a tree holds at most one ledger, the file of that name at its root |
| `DiskVerification.VerifyBuildReport` | crates/pliego-artifact/src/lib.rs:721-763 | the steps of the verification succeed exactly when their specification does, and report the file and byte counts |
| `DiskExactness.ExpectedFits` | crates/pliego-artifact/src/lib.rs:1890-1930 | for a valid report expected_output_directories never fails |
| `DiskExactness.OutputsFit` | crates/pliego-artifact/src/lib.rs:1852-1857 | the declared files of a valid report always pass the namespace check of the layout |
| `DiskExactness.AncestorsFit` | crates/pliego-artifact/src/lib.rs:1858-1888 | the ancestors of the declared files always pass the directory part of that check |
| `DiskExactness.LedgerNotDeclared` | crates/pliego-artifact/src/lib.rs:1352-1353 | a valid report never declares its own ledger |
| `DiskVerification.ExpectedOutputDirectories` | crates/pliego-artifact/src/lib.rs:1890-1930 | returns the strict ancestors of what the paths normalise to, or fails exactly when a path or an ancestor does not parse or a limit is exceeded |
| `DiskVerification.CheckContent` | crates/pliego-artifact/src/lib.rs:1943-1969 | accepts a declared file iff it is a singly linked regular file with the declared size and hash |
| `DiskVerification.CheckMissing` | crates/pliego-artifact/src/lib.rs:733-737 | reports a declared path that is not on disk, iff there is one |
| `DiskVerification.CheckExtra` | crates/pliego-artifact/src/lib.rs:738-748 | reports an undeclared path on disk, iff there is one |
| `DiskVerification.ReadBuildReport` | crates/pliego-artifact/src/lib.rs:637-659 | succeeds iff the ledger is a bounded singly linked regular file that decodes to a valid report |
| `DiskLayouts.OutputLayout.CollectDirectory` | crates/pliego-artifact/src/lib.rs:1774-1850 | the recursive collection succeeds iff every entry is good, no path repeats and no limit is exceeded, and collects exactly the listing of the tree |
| `DiskLayouts.OutputLayout.AccountStoredPath` | crates/pliego-artifact/src/lib.rs:1733-1753 | counts the components and bytes of a path, or fails exactly when a limit would be exceeded |
| `DiskTrees.ListOkIff` | crates/pliego-artifact/src/lib.rs:1774-1850 | the listing of a tree is good iff everything that can be looked up in it is a canonical file or directory |
| `DiskTrees.ListedAtRoot` | crates/pliego-artifact/src/lib.rs:1774-1850 | the listed files and directories are exactly those that can be looked up, the ledger aside |
| `DiskTrees.AncestorIsDirectory` | crates/pliego-artifact/src/lib.rs:2094-2121 | whatever can be opened lies in directories that can be opened |
| `DiskNamespaces.ValidateOutputLayoutNamespace` | crates/pliego-artifact/src/lib.rs:1852-1888 | accepts a layout iff its files fit pairwise and every directory agrees with all files and all other directories |
| `DiskNamespaces.AnyOrderFits` | crates/pliego-artifact/src/lib.rs:1852-1857 | the result does not depend on the order in which the set of files is inserted |
| `PathPrefixes.PortableIsStable` | crates/pliego-artifact/src/lib.rs:1890-1930 | the portable parser has the one property the verification of a tree needs: re-parsing an ancestor of a canonical path yields that ancestor |
| `PathPrefixes.AsciiMeetsAssumptions` | crates/pliego-artifact/src/lib.rs:103-131 | the assumptions about Unicode can be met: they hold where normalisation and folding do nothing |
| `PathPrefixes.PrefixParses` | crates/pliego-artifact/src/lib.rs:103-131 | the directories above a canonical path parse to themselves, with the front of its keys |
| `FileSearch.FileContains` | crates/pliego-assets/src/adaptive.rs:1809-1835 | for every way to split the file into reads the search over the chunks finds the needle iff the whole file contains it, keeping at most needle length minus one bytes |
| `FileSearch.ChunkStep` | crates/pliego-assets/src/adaptive.rs:1817-1832 | searching the kept tail with the next chunk decides the search of everything read so far |
| `Budgets.PassesIff` | crates/pliego-assets/src/adaptive.rs:1017-1030 | a tier passes iff every selection of all ungrouped variants and one per group stays within all seven limits |
| `Budgets.PassesByField` | crates/pliego-assets/src/adaptive.rs:1017-1030 | the same, with each of the seven loads compared to its own limit |
| `Budgets.SelectionIff` | crates/pliego-assets/src/adaptive.rs:989-1016 | a selection is a set of positions of variants offered to the tier, with every ungrouped one and exactly one of each group |
| `Budgets.LoadByField` | crates/pliego-assets/src/adaptive.rs:2049-2066 | one more variant adds its bytes to the one total its delivery names, its estimates to theirs, and one preload when it asks for one |
| `Budgets.EvaluationFailsIff` | crates/pliego-assets/src/adaptive.rs:982-1039 | an evaluation fails iff some selection of some tier loads more than 64 bits can hold, or 32 bits for the preloads |
| `Budgets.ResultsInOrder` | crates/pliego-assets/src/adaptive.rs:982-1039 | there is one result per tier of each profile, in their order, with that profile's name, the tier, the exact totals each in its field, and the verdict of all seven comparisons |
| `Budgets.OverflowsIff` | crates/pliego-assets/src/adaptive.rs:2042-2080 | an exact total exceeds its integer type iff the load of some selection does |
| `Budgets.ExactAttained` | crates/pliego-assets/src/adaptive.rs:998-1016 | in every dimension some selection reaches the exact total: the bound is tight |
| `Budgets.ChoiceBounded` | crates/pliego-assets/src/adaptive.rs:998-1016 | no choice of applicable variants, at most one per group, exceeds the exact total |
| `Budgets.DeliveryFits` | crates/pliego-assets/src/adaptive.rs:503-529 | whatever a client picks from its delivery, at most one per group, stays within a passed budget of its tier |
| `Budgets.DeliveryOrigins` | crates/pliego-assets/src/adaptive.rs:503-529 | delivery returns the directives of exactly the variants that its three filters let through, in order |
| `Budgets.DeliveryFields` | crates/pliego-assets/src/adaptive.rs:503-529 | a client receives exactly the variants of its tier, under Save-Data only static initial ones and under reduced motion only static ones; each directive carries its variant's fields, and is eager, lazy or on interaction as the delivery is initial, deferred or on demand |
| `Budgets.EvaluateBudgets` | crates/pliego-assets/src/adaptive.rs:982-1039 | errs iff some exact total of some profile and tier overflows; otherwise the results are the exact totals and verdicts, in order |
| `Budgets.EvaluateTier` | crates/pliego-assets/src/adaptive.rs:989-1016 | the two loops over variants and groups compute the exact totals, or fail exactly when one overflows |
| `Budgets.CollectGroups` | crates/pliego-assets/src/adaptive.rs:989-1002 | the first loop sums the ungrouped variants and files the others under their group |
| `Budgets.AccumulateVariant` | crates/pliego-assets/src/adaptive.rs:2049-2066 | adds the weights of a variant in all seven dimensions, or fails exactly when one sum overflows |
| `Budgets.AddTotals` | crates/pliego-assets/src/adaptive.rs:2068-2080 | adds two totals in all seven dimensions, or fails exactly when one sum overflows |
| `Budgets.WorstOf` | crates/pliego-assets/src/adaptive.rs:1003-1015 | the loop over a group yields the maximum per dimension |
| `PlannerAgreement.PlannedJobsValidIff` | crates/pliego-assets/src/adaptive.rs:1041-1141 | for every recipe whose assets validate and whose estimates fit, job ids and staging paths are distinct, and the sorted jobs pass the validator's job checks iff they are within the job limit and no asset id is a device name |
| `Planner.AppendFailsIff` | crates/pliego-assets/src/adaptive.rs:1442-1543 | append_jobs fails iff the exact decoded size of some output exceeds u64 (three frames for video) |
| `PlannerAgreement.ValidRecipeWithoutPlan` | crates/pliego-assets/src/adaptive.rs:532-607 | a concrete recipe whose asset is called "con" meets every asset check and every estimate fits, yet its jobs fail the validator |
| `PlannerAgreement.ValidPlanWithDeviceVariant` | crates/pliego-assets/src/adaptive.rs:1109-1139 | a concrete recipe and its jobs pass every check although a variant is called "con" |
| `PlannerAgreement.PlanAdaptiveAssets` | crates/pliego-assets/src/adaptive.rs:532-607 | planning a recipe succeeds iff its assets validate, no exact decoded size exceeds u64, the outputs are within the job limit and no asset is named after a device; the result is the sorted jobs |
| `PlannerAgreement.SoundJobOkIff` | crates/pliego-assets/src/adaptive.rs:1109-1139 | a job made by push_job passes all job checks iff its asset id is no device name |
| `PlannerAgreement.JobOkIffPlannable` | crates/pliego-assets/src/adaptive.rs:1109-1139 | the validator, which sees no recipe, accepts exactly the jobs that planning some valid asset can yield, of the plan's sources, save those of an asset named after a device |
| `PlannerAgreement.StagePathOkIff` | crates/pliego-assets/src/adaptive.rs:1837-1884 | the staging path is a safe relative path iff the asset id is no device name |
| `PlannerAgreement.NamesDistinct` | crates/pliego-assets/src/adaptive.rs:1545-1577 | all planned jobs have pairwise distinct ids and staging paths |
| `PlannerAgreement.AssetPlanned` | crates/pliego-assets/src/adaptive.rs:1325-1440 | every job planned for a valid asset satisfies the independently recomputed contract, policy and pin checks |
| `Planner.AppendJobs` | crates/pliego-assets/src/adaptive.rs:1442-1543 | the loops append one job per output in order, or stop at the first estimate that does not fit |
| `Planner.JobsCarryOutputs` | crates/pliego-assets/src/adaptive.rs:1442-1577 | there is one job per output, in order, that carries every parameter of it, its policy, its names, its tools and its exact estimates, for each of the four kinds |
| `Planner.JobsTellAsset` | crates/pliego-assets/src/adaptive.rs:1442-1577 | the asset can be read back from its jobs: two assets with the same jobs have the same id and the same outputs |
| `Planner.PlanJobs` | crates/pliego-assets/src/adaptive.rs:532-607 | all jobs in id order, or failure exactly when an estimate overflows or there are too many jobs |
| `Planner.ValidateJobs` | crates/pliego-assets/src/adaptive.rs:1109-1139 | accepts exactly the job lists within the limit with distinct ids all of whose jobs pass |
| `Planner.ValidateAssets` | crates/pliego-assets/src/adaptive.rs:1041-1075 | accepts exactly the asset lists that satisfy the recipe contract |
| `Planner.ValidateTransform` | crates/pliego-assets/src/adaptive.rs:1216-1294 | accepts exactly the transforms whose outputs have distinct ids and valid parameters and whose tools are pinned |
| `Finalize.AllOrNothing` | crates/pliego-assets/src/adaptive.rs:843-968 | without input/output faults finalisation succeeds iff every check passes, and otherwise leaves every file unchanged |
| `Finalize.NothingAlteredOrLost` | crates/pliego-assets/src/adaptive.rs:843-968 | whatever faults happen, a failed check changes nothing, no existing file is altered, and a staged file is gone only when its digest is at its destination |
| `Finalize.SuccessIsComplete` | crates/pliego-assets/src/adaptive.rs:953-956 | on success every destination hashes to its digest and every staged file is gone |
| `Finalize.OtherFilesUntouched` | crates/pliego-assets/src/adaptive.rs:953-956 | no file other than staged files and destinations appears, disappears or changes |
| `Finalize.CandidatesSeparate` | crates/pliego-assets/src/adaptive.rs:880-914 | staged files and destinations of a validated plan are pairwise different |
| `Finalize.PublishableIff` | crates/pliego-assets/src/adaptive.rs:843-952 | a plan that passes every other check is publishable iff no variant id is a device name and every destination is free or holds what belongs there |
| `Finalize.RetryIff` | crates/pliego-assets/src/adaptive.rs:843-968 | after a finalisation that failed, at any point and by any faults, the same plan is publishable again iff the first staged file is still there and no broken copy lies at its destination |
| `Finalize.OneFaultStrands` | crates/pliego-assets/src/adaptive.rs:953-956 | for every publishable plan of two files or more, one staged file that cannot be removed, and nothing else going wrong, leaves a store on which the plan is not publishable |
| `Finalize.ManifestDescribes` | crates/pliego-assets/src/adaptive.rs:893-914 | each candidate and manifest entry has the bytes, digest and content-addressed path of its staged file, the media type of its format, and the policy and estimates of its job, in job order |
| `Finalize.AcceptedDelivery` | crates/pliego-assets/src/adaptive.rs:1296-1323 | of an accepted plan, clients with reduced motion, with Save-Data or of the universal tier never receive a video or a scene; images and fonts reach every tier they are offered to; what is preloaded or of high priority is eager |
| `Finalize.DeviceVariantNeverPublished` | crates/pliego-assets/src/adaptive.rs:936-939 | a validated plan with a variant id that is a device name is rejected by the destination check on every store |
| `Finalize.ValidPlanNeverPublished` | crates/pliego-assets/src/adaptive.rs:843-968 | a concrete plan of a valid recipe passes all job checks and is not publishable on any store, under any budgets and probes |
| `Finalize.DestinationSafeIff` | crates/pliego-assets/src/adaptive.rs:936-939 | the destination is a safe relative path iff the variant id is no device name |
| `Finalize.FinalizeAssets` | crates/pliego-assets/src/adaptive.rs:843-968 | the new store and the verdict are those of the specification: checks first, then publication in order up to the first fault |
| `Finalize.Prepare` | crates/pliego-assets/src/adaptive.rs:843-952 | everything before publication only reads, and succeeds iff the plan is publishable on this store |
| `Publish.FileStore.PublishOpenFile` | crates/pliego-assets/src/lib.rs:429-492 | the store after publishing one file, for every fault |
| `Publish.NothingLost` | crates/pliego-assets/src/lib.rs:429-492 | after any run of any faults each candidate's bytes are at its staged path or its digest is at its destination |
| `Publish.NothingAltered` | crates/pliego-assets/src/lib.rs:429-492 | a file that was there keeps its bytes, destinations included; only staged files go away |
| `Publish.NothingElseIsLeft` | crates/pliego-assets/src/lib.rs:429-492 | after any run of any faults, a file that was not there before lies at a destination and has its digest, or is a broken copy that could not be deleted |
| `Publish.FailedRemovalKeepsBoth` | crates/pliego-assets/src/lib.rs:488-491 | where a staged file cannot be removed the run fails, and it and its copy are both there at the end |
| `Publish.ClearSucceeds` | crates/pliego-assets/src/lib.rs:429-492 | without faults publishing succeeds once the destinations have been checked |
| `Rebuild.RebuildSound` | crates/pliego-cli/src/development.rs:114-169 | given deterministic rendering and all differing sources reported, an artifact with unchanged declared dependencies whose hash changed is reported as affected, and so is every route listing it |
| `Rebuild.NewDependencyIsMissed` | crates/pliego-cli/src/development.rs:114-169 | a concrete pair of valid graphs in which an artifact that now depends on another unchanged source changes without being reported |
| `Rebuild.ImpactMonotone` | crates/pliego-cli/src/development.rs:114-144 | both affected sets grow with the reported changes |
| `Rebuild.AffectedIffTouched` | crates/pliego-cli/src/development.rs:129-144 | in a valid graph an artifact is affected iff its own dependencies are touched: going through the routes adds nothing |
| `Rebuild.ReportedIff` | crates/pliego-cli/src/development.rs:114-144 | a path is reported as affected iff its node before or its node after is touched by the changes, unknown ones counting as touching everything |
| `Rebuild.RouteReportedIff` | crates/pliego-cli/src/development.rs:114-144 | a route is reported iff its node before or its node now is invalidated: by a path that neither graph knows, by any change if it depends on all sources, else by a change of a path it names |
| `Rebuild.ArtifactReportedIff` | crates/pliego-cli/src/development.rs:114-144 | the same for an artifact of valid graphs |
| `Rebuild.MissedIff` | crates/pliego-cli/src/development.rs:114-144 | an artifact present before and after is missed iff every reported source is known and touches neither its old nor its new dependency list |
| `Rebuild.ExplainRebuild` | crates/pliego-cli/src/development.rs:114-169 | the loops compute the impact of both graphs and exactly the artifacts whose hash differs |
| `Rebuild.ChangedSourcePaths` | crates/pliego-cli/src/development.rs:309-334 | returns exactly the source paths whose hashes differ, added and removed ones included |
| `Rebuild.ChangedIff` | crates/pliego-cli/src/development.rs:146-155 | of valid graphs, a source path or an artifact is changed iff some hash belongs to it in only one of them |
| `Reachability.CollectReachable` | crates/pliego-cli/src/main.rs:2962-2982 | the worklist ends on every graph, returns exactly the reachable ids, and errs iff some reachable id has no node, naming one |
| `Reachability.ReachablePackageIds` | crates/pliego-cli/src/main.rs:2921-2982 | exactly one site package and at most one client package are the roots; then the worklist |
| `Reachability.RootIdsIff` | crates/pliego-cli/src/main.rs:2929-2961 | the search starts iff exactly one package below the project root has the site's name and, where a client is configured, exactly one has the client's; it starts from their ids |
| `Reachability.GraphIsLast` | crates/pliego-cli/src/main.rs:2967-2970 | of several nodes with one id the last one counts |
| `Reachability.ReachableIsLeast` | crates/pliego-cli/src/main.rs:2962-2982 | the result is the least set that contains the roots and is closed under dependencies |

## Left out

- Which error is returned: the validators are proved to fail exactly when they should; the text of a message, and which of several violated conditions is reported first, is specified only for the namespace, the missing and extra files, and the worklist.
- Adapter runtime: DOM events, status attributes, observers, trigger scheduling, policies, module paths and diagnostics; synchronous re-entry of plugin callbacks into the runtime.
- AdapterTheorems.CleanupOncePerCallback: speaks of callbacks, not of what they do; a callback that never settles blocks the drains behind it, as it does in the code.
- RequestScope.NoLostWakeup: takes from the notification primitive that a future created before a notification receives it.
- RequestScope.RequestContext.CloseScope: that a panic of one cleanup does not reach the others; a cleanup that panics counts as run. Of the loader cells only the keys are kept.
- Request context: receipts, telemetry and option limits other than the cleanup limit.
- Namespaces.Parse: Unicode tables are parameters; the control characters above U+007F are recognised by their two-byte encodings.
- Receipts: capture of sources and materials from a project directory, build invocations, and JSON encoding and size limits of the written files.
- DiskVerification.VerifyBuildReport: the tree does not change while it is verified, so the checks for a file that grows or changes during hashing are not modelled; opening a path is looking it up.
- DiskNamespaces.ValidateOutputLayoutNamespace: iterates over sets in any order, where the code iterates in byte order.
- Planner.ValidateAssets: covers the assets of a recipe; its schema, version, toolchain pins and budget profiles are not checked, and only the set of pins matters here.
- Planner.PlanJobs: the jobs only; the closing validation is in PlannerAgreement.PlanAdaptiveAssets.
- PlannerAgreement.PlanAdaptiveAssets: the source files of the assets (existence, links, sizes, hashes), and the version, toolchain, profile and source checks of the closing plan validation.
- Planner.ValidateJobs: covers the job checks of a plan; plan versions, sources and profiles are parameters.
- Finalize.Prepare: the directories that the code creates before it looks at the destinations.
- Finalize.FinalizeAssets: symbolic links, permissions and the creation of directories; format and codec probes are one uninterpreted test; a device fault may leave a partial file only at a destination that did not exist.
- Rebuild.ExplainRebuild: the choice of a hot-reload update and the written records.
- Raster building, widths and quality mapping, the ffmpeg backend, GLB parsing, HTTP serving, watchers, project scaffolding, diagnostics and argument parsing: single-function facts or input and output.
- The Cloudflare adapter, SDK host, capability CLI and runtime crates: they depend on code that is not part of this model.
