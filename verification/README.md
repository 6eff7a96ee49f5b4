# Rally-CI in Dafny

Rally-CI is a continuous-integration daemon for Gerrit: one asyncio event loop starts a task per
patch set, a task starts jobs, a job gets virtual machines from a provider and runs scripts on
them, and the verdict goes back to Gerrit as a review. This project models the parts of it whose
correctness depends on interleaving, and proves what holds of every run.

| files | part |
|---|---|
| `EventLoop`, `Lifecycle`, `Shutdown`, `Quiescence`, `WakeUps`, `GenuineWakes`, `ShutdownBound`, `JobsFirst`, `Publication`, `LostTask`, `RootTables` | objects, cleanups and shutdown on the event loop |
| `Images`, `ImageInvariant`, `ImageCoherence`, `ImageTheorems`, `ImageBackends`, `ImageProgress`, `ImageRebuild` | the image cache of a host |
| `Bridges`, `BridgeNames`, `BridgeNaming`, `BridgeBasics`, `BridgeInvariant`, `BridgeTheorems`, `BridgeCounting`, `BridgeLinks`, `TwoBridges`, `BridgeCancel`, `StaleEntry`, `HostTables` | dynamic bridges and their reference counts |
| `Verdict`, `Vote` | from script outcomes to the vote |
| `Dedup`, `DedupExactly`, `RefKeys` | at most one task per patch set |
| `Admission` | choice of a host, spacing of admissions |
| `HumanTime`, `Decimal` | the printer of durations |
| `Options`, `Sequences` | helpers |

## How concurrency is modelled

Each coroutine is split at its `yield from` points, locks are explicit, and a run is a sequence of
actions, each enabled where it is taken. Whatever the code leaves open is part of the action: which
coroutine moves, whether a remote command succeeds, in which order a set or a dictionary is
iterated. A theorem about every run is therefore a theorem about every interleaving and every
behaviour of the environment. The steps and the lines they are taken from:

- `EventLoop`: the ready queue is FIFO, a future queues its callbacks in registration order when it
  completes, and `asyncio.wait` reports every future that is done when the waiter resumes.
  `StartAll` is `start_obj` (rallyci/root.py:52-56), `StepCleanupCb` is `schedule_cleanup`
  (rallyci/root.py:65-68), `TaskWait` and `StepTask` are `Task.run` with `wait_fs`
  (rallyci/task.py:97-111, rallyci/root.py:78-90), `StepRoot`, `EnterDrain` and `EnterCleanups` are
  `Root.run` after the signal (rallyci/root.py:98-106).
- `Images`: `StepOk` and `StepFail` are the commands of `build_image` and their failures
  (rallyci/providers/virsh.py:204-239), `Return` and `Abort` the two ways out of its locks,
  `CloneSource` and `Sealed` the two storage backends (rallyci/providers/virsh.py:64-81, 120-138).
  The content of a volume is the list of operations that made it; `Spec` is the recursive definition
  of what an image contains.
- `Bridges`: `TakeNet`, `List`, `Add`, `Up`, `Boot` are `get_vms` and `_get_bridge`
  (rallyci/providers/virsh.py:271-299, 312-328), `Detach` is the loop of `VM.destroy`
  (rallyci/providers/virsh.py:480-483), `CleanStart`, `CleanVisit`, `CleanEnd` are `cleanup_net`
  (rallyci/providers/virsh.py:301-310). `GiveUp`, `CleanAbort` and `CleanCancel` are cancellations: of a
  request anywhere, also while it holds the lock in `_get_bridge`, and of `cleanup_net` inside its loop or
  before it.

Code that updates tables in place has an imperative counterpart, proved against the functions of the
transition system: `RootTables.Root` for rallyci/root.py, `HostTables` for `br_vm`, `Verdict.Job` for
a job with its runner, `Dedup.Stream` for the Gerrit stream, `Admission.Host` for a host's statistics.

## What turned out to be false

- A finished object is always cleaned up: false during shutdown. `wait_fs` and `schedule_cleanup`
  delete from the same dictionary, and the one can overtake the other
  (`LostTask.ShutdownCanLoseTask`). It is true exactly of the runs in which it does not
  (`Shutdown.CleanupExactlyOnce`), and unconditionally of objects that finish before the stop sweep
  (`Quiescence.FinishedBeforeStop`).
- README.rst:178 says an image may be deleted by hand at any moment. True on zfs
  (`ImageTheorems.ZfsCoherence`), false on btrfs, where a clone copies the live volume of a parent that
  is being rebuilt (`ImageBackends.BtrfsDeletionBreaksCache`). The exact condition is
  `ImageCoherence.Harmless`, a guard on the state before the step: the cache is coherent after the step, and
  after every further run of steps that meet it, if and only if the step meets it
  (`ImageTheorems.HarmlessExactly`, `ImageTheorems.CoherenceExactly`).
- Reference counting of bridges fails for a VM with two placeholders, because it is registered under the
  last bridge only. The bridge of the other placeholder is never deleted: in all runs in which `cleanup_net`
  is not cancelled after a deletion, requests that are over leave no bridge behind if and only if no VM
  configuration names two placeholders (`BridgeCounting.CountingExactly`). And the link of a running VM can be
  deleted (`TwoBridges.TwoBridgesBreakCounting`): in all those runs links of running VMs exist if and only if
  no configuration ends with a placeholder that occurs, but not last, in another (`BridgeLinks.OnLinksExactly`).
- Entries of `br_vm` name links: false after `cleanup_net` is cancelled at its second deletion
  (`StaleEntry.CancelledPassLeavesEntry`), and true of a run if and only if no cancellation comes after a
  deletion (`BridgeBasics.KeysLiveExactly`). The entry that stays makes a later pass delete the bridge of a
  request in progress: requests are sure of their bridges if and only if there is no such cancellation
  (`BridgeCancel.KeptExactly`).
- `Task.run` returns only when the jobs are done: false for a task that is cancelled a second time, in its
  second wait, with a job running, and true of a run if and only if no such cancellation is delivered
  (`JobsFirst.JobsFirstExactly`, `Publication.SecondCancelLeavesJob`). The daemon does not do it: the only
  code that cancels tasks is the one sweep at shutdown, so in its own runs publication always comes after
  the jobs (`Publication.PublicationAfterJobs`).
- The vote agrees with the published statuses: false when all voting jobs pass and the update handler
  that announces one of them raises (`Vote.VoteMatchesStatus`, `Vote.HandlerCanSplitVote`).
- One live task per key: false for events without a ref, whose empty key is freed by any ref-updated
  task (`Dedup.EmptyKeyBreaksDedup`). It is sure throughout a run if and only if no cleanup releases the key of
  another live task (`DedupExactly.DedupExactly`); the key set is what live tasks and leaks reserve if and only
  if no ref-updated cleanup finds its key in the set (`DedupExactly.KeySetExactly`).
- Admissions five seconds apart, as the constant suggests: four, because sleeps of at most a second
  are skipped (`Admission.SpacingIsExact`).
- Bridge names are new for every prefix: only for prefixes of letters
  (`BridgeNames.AllocationIsFreshExactly`).
- Every task is published when it is cleaned up: not a ref-updated one, whose cleanup raises first
  (`Dedup.RefUpdatedNeutral`), and not one with a job that never started (`Vote.Publish`).

The model also follows the code in that the build scripts of a downloaded image are not run
(rallyci/providers/virsh.py:219-222).

## Model

| member | source | states |
|---|---|---|
| `Lifecycle.NextKeeps` | rallyci/root.py:52-106 | every step keeps the invariant: an unfinished object is in the running table with its cleanup callback registered once, a finished one has at most one cleanup callback queued, nothing is cleaned up twice |
| `Lifecycle.RunKeeps` | rallyci/root.py:92-106 | the invariant holds of every state of every run |
| `Lifecycle.ResumeIsLive` | rallyci/root.py:52-56 | only unfinished objects take steps, so whoever starts an object is still in the running table |
| `Shutdown.LostStep` | rallyci/root.py:65-90 | one step loses exactly the finished futures that wait_fs deletes before their cleanup callback has run |
| `Shutdown.LostRun` | rallyci/root.py:65-90 | over a run, the objects that will never be cleaned up are exactly those overtaken; none is if and only if the run is in order |
| `Shutdown.CleanupExactlyOnce` | rallyci/root.py:52-68 | in every run each object is cleaned up at most once and only when done; every finished object has its cleanup if and only if no callback was overtaken |
| `Shutdown.StoppedIsClean` | rallyci/root.py:98-106 | when the loop stops every object started is done and every scheduled cleanup has finished; all objects are cleaned up exactly in runs that are in order |
| `Quiescence.QueueGrows` | rallyci/root.py:78-90 | a step takes at most the head off the ready queue and appends at its end, which is what fixes the order of callbacks |
| `Quiescence.QuiescenceIsStable` | rallyci/root.py:98-106 | once the table of running objects is empty, no continuation starts or resumes an object or schedules a cleanup, so the cleanups waited for are final |
| `Quiescence.FinishedBeforeStop` | rallyci/root.py:98-106 | an object that finishes before the stop sweep is cleaned up exactly once in every continuation, whatever the callback order |
| `Quiescence.NothingLostBeforeStop` | rallyci/root.py:65-68 | before the stop sweep no cleanup is ever lost |
| `LostTask.ShutdownCanLoseTask` | rallyci/root.py:65-90 | a concrete run in which every object obeys its cancellation at once and yet a task is never cleaned up |
| `LostTask.StopIsReachable` | rallyci/root.py:98-106 | a run in which the loop stops |
| `LostTask.DoneBeforeStopIsReachable` | rallyci/root.py:65-68 | a run in which an object is done before the stop sweep |
| `Publication.JobsDoneBeforeCleanup` | rallyci/task.py:97-111 | in every run, a task that is done after at most one cancellation, wherever it landed, has only finished jobs, and a cleanup is scheduled only for what is done |
| `Publication.TaskWaitsForAll` | rallyci/task.py:99-104 | the first turn of a task starts its jobs, records them and waits for all of them |
| `Publication.EveryJobHasTask` | rallyci/task.py:100-102 | in every run each job is among the jobs of some task |
| `Publication.PublicationAfterJobs` | rallyci/root.py:98-106 | in every run in which only the shutdown cancels tasks, the cleanup of a task begins after all its jobs are done |
| `Publication.SecondCancelLeavesJob` | rallyci/task.py:103-111 | cancelled again in its second wait, which no caller in the daemon does, a task queues its cleanup while its job is running |
| `JobsFirst.FirstCancelReachesJobs` | rallyci/task.py:105-111 | a task cancelled in its first wait cancels exactly the unfinished jobs it waits for, each once, and waits for the same jobs again |
| `JobsFirst.AbandonExactly` | rallyci/task.py:97-111 | where finished tasks have only finished jobs, a step keeps it so if and only if it does not deliver a cancellation to a task in its second wait that has a job running |
| `JobsFirst.JobsFirstExactly` | rallyci/task.py:97-111 | throughout a run finished tasks have only finished jobs if and only if no such cancellation is delivered |
| `WakeUps.NextWoken` | rallyci/root.py:85-90 | every step keeps: a waiter with a finished future has its step queued or a callback that queues it, a cancelled task is woken, an object that has not begun is queued |
| `WakeUps.NoLostWakeUp` | rallyci/root.py:98-106 | in every reachable state something is queued, or the loop waits for the outside, or it has stopped; after the signal, with all objects and cleanups finished and nothing queued, it has stopped |
| `GenuineWakes.NextGenuine` | rallyci/root.py:85-90 | every step keeps: a task or Root.run that asyncio.wait has resumed finds a finished future among those it waits for |
| `ShutdownBound.ShutdownIsBounded` | rallyci/root.py:98-106 | after the sweep, if services and jobs end when their cancellation reaches them, every turn of the loop lowers a potential, so that their number is bounded, plus three for each command of a cleanup |
| `ShutdownBound.PromptShutdown` | rallyci/root.py:98-106 | so from any run up to the signal the loop makes a bounded number of turns, and once nothing is queued and the scheduled cleanups are over it has stopped |
| `RootTables.Root.StartObjs` | rallyci/root.py:70-72 | the loop that starts objects leaves the tables, futures and queue of StartEach |
| `RootTables.Root.ScheduleCleanup` | rallyci/root.py:65-68 | the callback is StepCleanupCb, and raises exactly when the entry is gone |
| `RootTables.Root.DeleteDone` | rallyci/root.py:88-90 | the inner loop of wait_fs removes exactly the futures reported done |
| `RootTables.Root.CancelFutures` | rallyci/root.py:100-101 | the sweep cancels each future once, queues a wake-up for those that have none, and leaves finished ones alone |
| `RootTables.Root.RegisterWait` | rallyci/root.py:86-87 | asyncio.wait registers a callback on each future, or queues it at once for one that is done |
| `RootTables.StartEachIsAll` | rallyci/root.py:52-56 | starting futures one by one is the one step of the event loop |
| `RootTables.CancelEachIsAll` | rallyci/task.py:107-109 | cancelling futures one by one is the one step of the event loop |
| `RootTables.RegisterEachIsAll` | rallyci/root.py:86-87 | registering on futures one by one is the one step of the event loop |
| `ImageInvariant.NextLocks` | rallyci/providers/virsh.py:207-216 | every step keeps mutual exclusion and the parent chain: a request holds its own locks, all but the innermost waiting in build_image of the next |
| `ImageCoherence.CloneIsSpec` | rallyci/providers/virsh.py:64-67 | a clone copies the finished content of its source exactly when the source is settled |
| `ImageCoherence.NextStore` | rallyci/providers/virsh.py:204-239 | a harmless step keeps every volume what its build phase, or the recursive definition, says |
| `ImageCoherence.InvExactly` | rallyci/providers/virsh.py:204-239 | a step keeps every volume at what its build phase expects if and only if it is harmless: no failure that leaves a volume behind, no clone of an unsettled source |
| `ImageCoherence.ResidueIsIncoherent` | rallyci/providers/virsh.py:214-225 | a failure outside the try leaves an unlocked image with the wrong content |
| `ImageTheorems.HarmSurfaces` | rallyci/providers/virsh.py:214-239 | after a step that is not harmless, harmless steps without failures and deletions lead to an unlocked image or a disk with the wrong content |
| `ImageTheorems.HarmlessExactly` | rallyci/providers/virsh.py:204-239 | a step is harmless if and only if the cache, snapshots and disks included, is coherent after it and after all further harmless steps |
| `ImageTheorems.CoherenceExactly` | rallyci/providers/virsh.py:204-239 | over a run, the cache stays coherent from each of its states on if and only if each of its steps is harmless |
| `ImageTheorems.ZfsCoherence` | rallyci/providers/virsh.py:63-81 | on zfs the cache is coherent in every interleaving of requests and hand deletions whose failures are inside the try |
| `ImageTheorems.CoherenceWithoutDeletions` | rallyci/providers/virsh.py:204-239 | without hand deletions it is coherent on either backend |
| `ImageBackends.BackendsAgree` | rallyci/providers/virsh.py:119-138 | every zfs run whose failures are inside the try is a btrfs run with the same images and disks |
| `ImageBackends.BackendsAgreeBack` | rallyci/providers/virsh.py:63-81 | without hand deletions, with every image defined and no failure that leaves a volume on zfs, every btrfs run is a zfs run with the same images and disks |
| `ImageBackends.BtrfsDeletionBreaksCache` | README.rst:177-178 | on btrfs one hand deletion, without any failure, makes a finished image with the wrong content |
| `ImageProgress.NoDeadlock` | rallyci/providers/virsh.py:207-216 | while requests are in progress some request is not blocked: the lock it wants is free, or it has a command in flight, or it is about to clone its disk |
| `ImageProgress.BuildTerminates` | rallyci/providers/virsh.py:204-239 | however requests interleave, fail and delete, a request takes a bounded number of steps |
| `ImageProgress.OnlyHolderWrites` | rallyci/providers/virsh.py:207-208 | a volume changes only by hand or by the request that holds its lock |
| `ImageRebuild.FailedBuildLeavesNothing` | rallyci/providers/virsh.py:224-235 | a failed build script changes no other image, and whatever others do before the handler ends, it then leaves no volume of the image and no lock of the request, and every other image and lock as it was |
| `ImageRebuild.FailedBuildIsRebuilt` | rallyci/providers/virsh.py:224-239 | in every harmless run after that, once the image is present and unlocked again it equals its recursive definition |
| `ImageRebuild.BeginsFromScratch` | rallyci/providers/virsh.py:214-221 | a volume that was absent begins as an empty download or as a clone of the parent, made by the holder of its lock |
| `ImageRebuild.RebuildSucceeds` | rallyci/providers/virsh.py:204-255 | from any good idle store, a request for any image that has a content, with commands that succeed, ends with that image finished and unlocked, down the whole parent chain, and then with a disk that has the content of that image |
| `ImageRebuild.DiskIsWhatWasAsked` | rallyci/providers/virsh.py:248-255 | in every harmless run, whatever others do, a request made for image n gets a disk of n with the recursively defined content of n, and no other disk changes |
| `BridgeNames.UsedNumbers` | rallyci/providers/virsh.py:315-321 | the loop over the interface list collects exactly the numbers used with the prefix |
| `BridgeNames.Pigeonhole` | rallyci/providers/virsh.py:322-325 | a set that contains 0 to n-1 has n elements, so the search over len+1 numbers finds a free one |
| `BridgeNames.FirstFree` | rallyci/providers/virsh.py:322-325 | the search always breaks, at the least free number |
| `BridgeNames.GetBridge` | rallyci/providers/virsh.py:312-325 | the chosen name is the prefix with the least free number |
| `BridgeNames.NameSplits` | rallyci/providers/virsh.py:38 | a name built from letters and a number is split into the same two parts |
| `BridgeNames.BridgeIsFresh` | rallyci/providers/virsh.py:312-325 | for prefixes of letters the name differs from every listed interface, and all smaller numbers are taken |
| `BridgeNames.AllocationIsFreshExactly` | rallyci/providers/virsh.py:312-325 | the name is new on every host if and only if the prefix consists of letters |
| `BridgeInvariant.DetachEntry` | rallyci/providers/virsh.py:480-483 | destroying a VM takes it out of the lists of its own bridges and changes no other list, however often its nets repeat a bridge |
| `BridgeInvariant.NextKeeps` | rallyci/providers/virsh.py:271-328 | every step of get_vms, _get_bridge, destroy and cleanup_net, cancellations included, keeps the bridge invariant |
| `BridgeBasics.NextBasic` | rallyci/providers/virsh.py:271-328 | however many placeholders a VM names, every step keeps: requests in progress own the bridges of their placeholders, which differ, and their entries are not empty |
| `BridgeBasics.EntriesNameBridges` | rallyci/providers/virsh.py:296-310 | however many placeholders a VM names: static bridges exist, each entry names a live dynamic bridge, the None entry is not empty |
| `BridgeNaming.NextNamed` | rallyci/providers/virsh.py:278-328 | in every run, whatever is cancelled, every step keeps: dynamic links, entries and replaced placeholders have names that _get_bridge chose for their prefix |
| `BridgeTheorems.ReferenceCounting` | rallyci/providers/virsh.py:280-310 | with at most one placeholder per VM, in addition to what entries name, every net of a running VM is on an existing link |
| `BridgeBasics.KeysLiveExactly` | rallyci/providers/virsh.py:301-310 | entries name links throughout a run if and only if no pass of cleanup_net is cancelled after it has deleted a link |
| `StaleEntry.CancelledPassLeavesEntry` | rallyci/providers/virsh.py:304-310 | a run with two empty entries, cancelled at the second deletion: the first entry is left without its link, and a continuation without cancellations takes the bridge of a request in progress away |
| `BridgeCancel.BenignExactly` | rallyci/providers/virsh.py:301-328 | a step does not cancel a pass after a deletion if and only if requests in progress keep their own bridges after it and in all continuations that do not either |
| `BridgeCancel.KeptExactly` | rallyci/providers/virsh.py:301-328 | over a run, requests in progress are sure of their own bridges if and only if no pass is cancelled after a deletion |
| `BridgeTheorems.DeletionIsSafe` | rallyci/providers/virsh.py:301-310 | a link goes away only by cleanup_net, is not static, belongs to a request that has all its VMs, and has no running VM on it |
| `BridgeTheorems.Conservation` | rallyci/providers/virsh.py:355-361 | once a request has succeeded and its VMs are destroyed, in any interleaving, none of its bridges is left and the remaining links are static or of other requests |
| `BridgeTheorems.LiveRequestsAreDisjoint` | rallyci/providers/virsh.py:271-299 | with at most one placeholder per VM, running VMs of different requests never share a dynamic bridge |
| `BridgeTheorems.ProgressIsDisjoint` | rallyci/providers/virsh.py:271-299 | with at most one placeholder per VM, a request in progress has no bridge of a running VM of another request |
| `BridgeBasics.RequestsAreDisjoint` | rallyci/providers/virsh.py:312-328 | two requests in progress never have a bridge in common, however many placeholders their VMs name |
| `BridgeNaming.PlaceholdersExactly` | rallyci/providers/virsh.py:278-294 | in every run, within a request and also within one VM, two dynamic nets are on one bridge if and only if their placeholders are equal; static nets and MAC addresses are unchanged |
| `BridgeNaming.AllVmsReturned` | rallyci/providers/virsh.py:278-299 | in every run a request that has succeeded has one VM for each configuration it was made for, in order, with the nets of that configuration |
| `BridgeCounting.TwoPlaceholdersLeak` | rallyci/providers/virsh.py:282-310 | for every VM with two placeholders there is a run that boots it, destroys it and cleans up, and leaves a bridge behind |
| `BridgeCounting.CountingExactly` | rallyci/providers/virsh.py:280-310 | for the VM configurations of a provider: in every run requests that are over leave no bridge, and links of running VMs exist as well, if and only if no configuration names two placeholders |
| `BridgeLinks.CrossedBreaks` | rallyci/providers/virsh.py:282-310 | for every two configurations of which one ends with a placeholder that occurs, but not last, in the other, a run that deletes the link of a running VM |
| `BridgeLinks.OnLinksExactly` | rallyci/providers/virsh.py:280-310 | in every run links of running VMs exist if and only if there are no two such configurations |
| `TwoBridges.TwoBridgesBreakCounting` | rallyci/providers/virsh.py:282-310 | a run that deletes the link of a running VM with two dynamic bridges |
| `HostTables.Host.RegisterVm` | rallyci/providers/virsh.py:296-297 | setdefault and append are Register |
| `HostTables.Host.DetachVm` | rallyci/providers/virsh.py:480-483 | the loop of destroy is Detach |
| `HostTables.Host.CleanupNet` | rallyci/providers/virsh.py:301-310 | without interference, exactly the empty entries are deleted and reported |
| `HostTables.TakePlaceholder` | rallyci/providers/virsh.py:286-292 | a new placeholder gets a bridge under a new name with its own prefix, a known one keeps its bridge |
| `HostTables.PrepareNets` | rallyci/providers/virsh.py:281-294 | the loop replaces placeholders injectively, copies all other nets, adds only the bridges of new placeholders, and ends with the bridge of the last dynamic net |
| `Verdict.Job.SetStatus` | rallyci/job.py:63-65 | the status is set before the update handlers run, and what they raise is passed on |
| `Verdict.Job.GetVms` | rallyci/runners/ssh.py:49 | any failure to get VMs, an SSHError included, is raised |
| `Verdict.Job.RunScript` | rallyci/runners/ssh.py:53-58 | a script that is not clean ends the runner, with 1 for an SSHError only |
| `Verdict.Job.RunScripts` | rallyci/runners/ssh.py:46-58 | the runner's result is decided by the first step, over all VMs and scripts in order, that is not clean |
| `Verdict.Job.Run` | rallyci/job.py:67-91 | the status, error and start of the job are those of Ended |
| `Vote.StartedExactly` | rallyci/job.py:70-71 | a job has started, whatever becomes of it then, exactly when it took its first step and its first update raised nothing |
| `Vote.FlatAdds` | rallyci/runners/ssh.py:50-51 | the scripts run VM after VM in order |
| `Vote.ElapsedAdds` | rallyci/job.py:78 | the time against the timeout is the sum of the times of all steps |
| `Vote.PassesInTime` | rallyci/job.py:49 | a job passes only within its timeout in minutes, or within 5400 seconds without one |
| `Vote.RunnerExactly` | rallyci/runners/ssh.py:46-58 | the runner returns None exactly when the VMs came, every script on every VM passed in time and no update raised |
| `Vote.ErrorExactly` | rallyci/job.py:76-90 | the error is cleared exactly when the job began, all scripts passed in time and the updates so far were quiet |
| `Vote.StatusExactly` | rallyci/job.py:79 | the status is SUCCESS exactly when in addition the final update was quiet |
| `Vote.StatusMeaning` | rallyci/job.py:77-88 | with quiet updates each final status stands for exactly one way the first step that was not clean can end |
| `Vote.Publish` | rallyci/task.py:131-154 | a review is sent exactly when the stream is not silent, header and template are set, the event has a patch set and every job has started; it votes +1 exactly when no voting job has an error, and the line of a job is its status, with " (non-voting)" for a job that does not vote |
| `Vote.RunTask` | rallyci/task.py:97-154 | a review is sent exactly when it is configured and every job took its first step with a quiet first update, whatever became of it then; when it votes, it is +1 if and only if every voting job ran all its scripts without error in time, and -1 otherwise |
| `Vote.VoteEndToEnd` | rallyci/task.py:139-141 | a task is accepted exactly when every voting job passes |
| `Vote.VoteMatchesStatus` | rallyci/task.py:139-146 | the vote agrees with the statuses if and only if it is not so that all voting jobs pass and the last update of one raises |
| `Vote.OnlyVotersCount` | rallyci/task.py:139 | non-voting jobs never affect the verdict |
| `Vote.HandlerCanSplitVote` | rallyci/job.py:76-90 | a job accepted with +1 and published as ERROR |
| `Dedup.Stream.HandleEvent` | rallyci/services/gerrit.py:54-105 | events of projects that are not configured, comments that ask for no recheck and other kinds of event change nothing; a patch set or a recheck of a configured project whose key is free reserves it and starts a task, a ref-updated event starts one without a key |
| `Dedup.OthersIgnored` | rallyci/services/gerrit.py:63-64 | the same over the states of a run |
| `Dedup.LiveIsProper` | rallyci/services/gerrit.py:63-91 | in every run each live task is for a configured project, and for a patch set, a recheck or an updated ref |
| `Dedup.Stream.BeginCleanup` | rallyci/task.py:113-117 | the key is released; without it the cleanup raises and the set is unchanged |
| `Dedup.StepExactly` | rallyci/services/gerrit.py:67-91 | a step keeps "the key set is what live tasks and leaks reserve, one live task per key" if and only if it is not a ref-updated cleanup whose key is in the set |
| `DedupExactly.KeySetExactly` | rallyci/task.py:116-117 | the same over whole runs |
| `DedupExactly.TheftExactly` | rallyci/task.py:116-117 | a step releases no key of another live task if and only if there is one live task per key after it and in all continuations without such a step |
| `DedupExactly.DedupExactly` | rallyci/services/gerrit.py:67-91 | over a run, whatever events come and whatever raises, one live task per key is sure if and only if no cleanup releases the key of another live task |
| `Dedup.OneTaskPerKey` | rallyci/services/gerrit.py:67-91 | in every run of well-formed events in which nothing raises, the key set is exactly the keys of live patch-set and recheck tasks, one task per key |
| `Dedup.AcceptedExactly` | rallyci/services/gerrit.py:67-91 | in such a run an event for a known project starts a task exactly when no live task has its key; a ref-updated event always does |
| `Dedup.RefUpdatedNeutral` | rallyci/task.py:116-117 | ref-updated tasks change the key set neither at their start nor at their cleanup, which raises |
| `Dedup.RaiseBlocksKey` | rallyci/services/gerrit.py:100-105 | once a constructor or start handler has raised, no later event with that key is accepted in any run |
| `Dedup.EmptyKeyBreaksDedup` | rallyci/task.py:43-47 | a run that starts two live tasks with the same, empty key |
| `RefKeys.KeyInjective` | rallyci/task.py:43-47 | project and ref are recovered from their concatenation for all project names |
| `RefKeys.KeyIs` | rallyci/task.py:43-47 | an event without project or ref has the empty key, a patch-set event never has |
| `RefKeys.DuplicateExactly` | rallyci/services/gerrit.py:69-75 | two patch-set events have the same key if and only if they have the same project and patch set |
| `RefKeys.OneTaskPerPatchSet` | rallyci/services/gerrit.py:67-88 | in every run, whatever raises, two live deduplicated tasks differ in project or patch set |
| `Admission.MemoryRequired` | rallyci/providers/virsh.py:372-374 | the demand is the reserve, 1024 if none is set, plus the total of all VMs; an unknown VM is an error |
| `Admission.TotalAdds` | rallyci/providers/virsh.py:373-374 | the total of two lists of VMs together is the sum of their totals |
| `Admission.TotalOne` | rallyci/providers/virsh.py:373-374 | the total of one VM is its memory |
| `Admission.CheckRound` | rallyci/providers/virsh.py:384-389 | a round ends at the first host that fits, and the loop variable is that host |
| `Admission.ChooseHost` | rallyci/providers/virsh.py:381-395 | the host used is the first to fit in the first round where one does, with the statistics of that check, which meet demand and load limit |
| `Admission.FitsExactly` | rallyci/providers/virsh.py:386 | a host fits exactly when it has the demand free and a load below the limit, which is 4 if none is set |
| `Admission.PickHost` | rallyci/providers/virsh.py:368-395 | the host used had reserve and memory of all VMs free and a load below the limit at its latest check; while none is used, no check of any round was such |
| `Admission.AdmissionsSpaced` | rallyci/providers/virsh.py:376-394 | over all interleavings of callers with a monotone clock, admissions are at least four seconds apart |
| `Admission.SpacingIsExact` | rallyci/providers/virsh.py:378-380 | a spacing holds of all runs if and only if it is at most four seconds |
| `Admission.EarlyCallersSleep` | rallyci/providers/virsh.py:378-380 | exactly the callers that come less than four seconds after the last admission sleep, until five seconds after it |
| `HumanTime.HumanTime` | rallyci/task.py:32-40 | the text of a duration that is not negative parses back to its whole seconds, the number n with n <= x < n + 1; below one second, and for negative durations, it is empty |
| `HumanTime.PrintIs` | rallyci/task.py:25-40 | the text in full: days, hours, minutes and seconds as n / 86400, n / 3600 % 24, n / 60 % 60 and n % 60, those that are not zero, with their names |
| `HumanTime.Decomposition` | rallyci/task.py:32-40 | the parts are the only list of positive counts of decreasing units, each below the next unit, that adds up to the duration |
| `HumanTime.SingularExactly` | rallyci/task.py:26-38 | the units are named s, m and h, and "day" for one day and "days" for every other count |
| `HumanTime.PrintRoundTrip` | rallyci/task.py:40 | the printed text parses back to the duration |
| `HumanTime.PrintInjective` | rallyci/task.py:32-40 | two durations print alike exactly when they are equal or neither is positive |
| `Decimal.RoundTrip` | rallyci/task.py:40 | reading a printed numeral gives the number back |
| `Decimal.NumeralExactly` | rallyci/task.py:40 | the printed number is the only numeral without leading zeros that reads as it |

## Left out

- SSH, scp and subprocesses: a remote command is a step that succeeds or fails.
- The metadata server, the status service and its page: input and output only.
- XML, MAC addresses and random names: VM and disk names are assumed fresh.
- Parsing of `uptime`, `free`, `zfs list`, `btrfs subvolume list` and ARP tables: the parsed result is an input. Of `ip link` only the split of a name into letters and digits is modelled.
- The text of the review comment apart from verdict, vote and job statuses: it is string formatting; the duration in it is HumanTime.
- The configuration: an immutable, well-formed input, with an acyclic parent relation of images; scripts named by jobs exist.
- `VM.shutdown` timing and `get_ip` polling: their outcome is part of the success or failure of a build or a script.
- `Root.tasks` and the start and end handlers, except for whether a start handler raises.
- VMs without an `image` setting, which are cloned from a volume of their own name without building it (rallyci/providers/virsh.py:252-253).
- Removal of the callbacks of an earlier `asyncio.wait`: they stay registered in the model and do nothing when they run.
- rallyci/cr.py, rallyci/streams, rallyci/environments, the lxc provider, the fake runner and the periodic task: stale or stub code.
- A command that is cancelled while its process goes on (rallyci/common/asyncssh.py:86-94 re-raises without killing it): a cancelled command is a command that failed without effect, or that had its effect just before, so that a late `zfs create`, clone or `ip link add` is not modelled.
- BridgeTheorems.ReferenceCounting: `ip link` commands succeed, no VM is registered while `cleanup_net` iterates over the table (the code has no lock there), one host is modelled for the lock that all hosts share; VMs have at most one placeholder and `cleanup_net` is not cancelled after a deletion, which BridgeCounting.CountingExactly and BridgeBasics.KeysLiveExactly show to be needed.
- BridgeTheorems.Conservation: for the same runs as ReferenceCounting, and once every due `cleanup_net` has run to its end; a request that fails half-way may leave its bridges behind.
- BridgeBasics.RequestsAreDisjoint: for runs in which `cleanup_net` is not cancelled after a deletion, which BridgeCancel.KeptExactly shows to be needed.
- BridgeTheorems.LiveRequestsAreDisjoint: for the runs of ReferenceCounting, since a bridge that is deleted under a running VM can be given to another request.
- BridgeTheorems.ProgressIsDisjoint: for the runs of ReferenceCounting, for the same reason.
- BridgeCounting.CountingExactly: among runs in which `cleanup_net` is not cancelled after a deletion; the same holds for BridgeLinks.OnLinksExactly.
- ShutdownBound.PromptShutdown: how long services, jobs and cleanups themselves take is not modelled; a service or job that goes on after its cancellation has no bound.
- Publication.JobsDoneBeforeCleanup: at most one cancellation of the task; JobsFirst.JobsFirstExactly has the exact condition.
- ImageBackends.BackendsAgreeBack: without hand deletions, as ImageBackends.BtrfsDeletionBreaksCache shows, and for configurations in which every image has a parent or a url.
- ImageTheorems.ZfsCoherence: failures outside the try leave a volume behind and are excluded, as ImageCoherence.ResidueIsIncoherent shows they must be.
- Dedup.OneTaskPerKey: what becomes of a task between its start and its cleanup is the matter of the event loop model; a task lost in shutdown never releases its key.
- Admission.AdmissionsSpaced: time.time() and the clock of the loop are one monotone clock, and a sleep ends at most a second early.
- Vote.RunTask: a runner that goes on after its cancellation was delivered is not modelled; it could change the status but not the error of its job.
