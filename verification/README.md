# CiV VM manager: a verified model

The CiV VM manager is a daemon that starts, stops and lists Android guests under QEMU. A command-line client talks
to it through shared memory. This project models the parts of it whose correctness is not visible in any single
function, and proves what they promise.

| file | what it models |
|---|---|
| `Handshake.dfy` | one `Notify` call per client and the server's message loop, as a step system: two mutexes, two condition variables, the flag, the named message, timeouts, spurious wakeups, throwing handlers, external stops; any number of calls |
| `HandshakeSafety.dfy` | what every run of it keeps |
| `HandshakeExactlyOnce.dfy`, `HandshakeOutcomes.dfy` | exactly-once delivery in calm runs, and what `Notify` returns in them |
| `HandshakeTruth.dfy` | what a true return value proves in every run, and when the server leaves its loop |
| `HandshakeRuns.dfy` | progress, and runs that show which hypotheses are needed |
| `CidPool.dfy` | the pool of vsock context ids |
| `QemuBuilder.dfy` | the builder of one guest: staged build, teardown, wait for readiness |
| `VmRegistry.dfy`, `StartupListener.dfy` | the server's vector of instances; the listener guests report to |
| `Lifecycle.dfy` | requests, VM threads, start latch, listener and pool together, as a step system |
| `LifecycleBase.dfy`, `LifecycleSafety.dfy` | its invariants of every run: registry and listener; threads, states, latch and readiness |
| `LifecycleOwnership.dfy` | its invariant of every run in which no import clobbers a started VM and no start is misled: threads work on existing builders |
| `LifecycleTheorems.dfy`, `LifecycleDrift.dfy` | what follows for every run; what an index into the shrinking registry still denotes |
| `LifecycleProgress.dfy` | what starts achieve: reports make VMs running, and starts come to their end |
| `LifecycleCids.dfy`, `LifecycleRuns.dfy` | exclusivity of context ids; runs that show which hypotheses are needed |
| `Aaf.dfy`, `AafLaws.dfy` | merging pending settings into `mixins.spec`, and the laws of that merge |
| `Text.dfy` | splitting and trimming of strings |
| `PassthroughList.dfy`, `GuestListing.dfy` | two printer/parser pairs |
| `HugePages.dfy`, `FlashDisk.dfy` | huge-page accounting; splitting and sizing for the flash disk |
| `Options.dfy`, `VmStates.dfy` | shared small types |

Sequential code that updates an object or loops is a class or a method with a loop, proved against a function on
values. Code whose meaning is an interleaving (the message loop, `Notify`, the request handlers, the VM threads)
is a step system: a run is a sequence of actions, each enabled where it is taken, and a theorem about `Reachable`
states holds after every run, one about `SafelyReached` states after every run in which no import clobbers a started
VM and no start is misled (both explained below). Both step systems use the functions the classes are proved against
(`Lifecycle` builds with `QemuBuilder.Build`, searches with `VmRegistry.Find`, hears with `StartupListener.Next`, and
so on).

Assumptions about the environment:

- Every access to shared memory, and every operation of the registry, listener, pool and latch, is one atomic step.
  The source searches the registry without its lock (src/services/server.cc:63, 142, 219, 273). Other threads may act
  between any two operations of a request: an import is a search, a state test, a deletion, a build and an insertion;
  a start is a search, a build, an insertion, a read of the inserted builder with the launch of its thread, and a
  wait; a stop is a search and a stop. What a search found, and where an insertion went, is kept as an index.
- A failed build is one step with the release that undoes its grant: only the server thread grants ids, and a release by
  another thread in between has the same effect right after it.
- `try_count_down` decrements and answers whether zero was reached.
- A freshly constructed message holds the zero type and an empty payload; copying the payload is one step.
- Reading the state of a destroyed builder, or of an instance past the end of the registry, yields an arbitrary
  answer; a ready callback fired on a destroyed builder changes no VM; a thread launched on no builder changes no VM.
  Each such touch is recorded as a fault. What the program does after one is undefined, and the model goes on with
  the step's plain effect.
- Handlers, process exits, shutdown results, sysfs contents and the outcome of each build stage are arbitrary inputs.

Where the code does less than one would expect, the model follows the code, and the project states how far the
guarantee goes:

- A request picked up in the hundredth wait is reported as not responding even when it succeeded (`LateAnswer`). One
  picked up earlier and answered never is (`TimeoutBudget`); one whose handler throws is not answered, since the
  server leaves its loop, and its client runs out of retries.
- A spurious wakeup of the client returns failure with nothing dispatched and leaves the flag up
  (`SpuriousClient`); a spurious wakeup of the server may dispatch a half-written message (`SpuriousServer`). No
  command ever runs twice (`AtMostOnce`).
- A stop releases the context id and the destructor releases it again. That is harmless exactly if nobody holds the
  id by then (`SecondReleaseHarmless`); otherwise two guests can share it (`SharedCid`).
- A call that runs out of retries leaves the flag up, and the server may then run the next call's command before its
  payload is written, without any spurious wakeup (`LeftoverFlag`). A `Notify` that returned true had its command run
  exactly once in any case (`TrueMeansRanOnce`).
- After a failed wait, `StartVm` reads the state of a destroyed builder and may report a success nobody reported
  (`BlindReport`); so may a misled start (`MisledStart`); `ReadyWaitExact` says that these are the only ways. If that
  guest reports later, its callback is fired on the destroyed builder (`LateCallback`, `LateReadyExact`).
- Without `wait_ready`, a start may report failure although the guest comes up (`NoWaitUnderreports`), exactly if the
  report is made before the thread marks the VM running (`ReportExact`).
- `StopVm`, `ImportVm` and `StartVm` remember a place in the registry while VM threads delete entries. An index that a
  search found denotes the instance named exactly if no thread deleted that instance or one before it
  (`IndexDenotesNamed`). Otherwise a stop may stop another VM or none (`StopHitsOther`, `StopGoesAstray`), and an
  import may take the state of another VM for that of a running one and *clobber* the running one, that is, destroy
  it under its thread (`ClobberedVm`). The place where a start inserted its VM holds that VM exactly if no thread
  deleted any entry since (`LaunchHitsInserted`); otherwise the start is *misled*: it launches its thread on no
  builder (`MisledStart`).
- That VM threads own their entries is therefore a theorem about runs without these two. A step of a request destroys
  an instance that has a thread exactly if it is a clobbering deletion (`ImportSparesThreads`), which is fatal
  (`ClobberFaults`); and both need a deletion under a remembered index (`SteadyRunsAreSafe`).
- A failed build gives back its context id but not the GPU (`FailedBuildConserves`, `FailedBuildKeepsGpu`).
- A pending value with a newline is not read back (`FileOverrides`); a guest whose name holds a colon is listed but
  its state cannot be queried (`ListingRoundTrip`).

## Model

| member | source | states |
|---|---|---|
| `HandshakeExactlyOnce.ExactlyOnce` | src/services/client.cc:84-129 | in every run without spurious wakeups, external stop or exhausted retries, over any number of calls, a completed `Notify` had its complete message (type and clipped payload) dispatched exactly once, got exactly one answer, and returns true iff that answer is the success type |
| `HandshakeOutcomes.ReturnsOutcome` | src/services/server.cc:330-375 | in every calm run, a completed `Notify` for list, import, start, stop or info had exactly one handler return, and returns true iff that one succeeded; a stop of the server returns true without a handler; any other type returns false, unless it is the success type itself |
| `HandshakeExactlyOnce.KeepsCalm` | src/services/server.cc:319-378 | every calm action of either side keeps the invariant behind it: the flag is up exactly from notification to answer, and each call's log is empty, dispatched once, or dispatched and answered once |
| `HandshakeSafety.KeepsInv` | src/services/server.cc:319-378 | every action whatsoever keeps lock ownership, message ownership, wakeups, at-most-once and the retry budget |
| `HandshakeSafety.AtMostOnce` | src/services/server.cc:330-375 | no two entries of the dispatch log are commands of the same call, under any wakeups and timeouts; and a command that ran is the one its call asked for |
| `HandshakeTruth.TrueMeansRanOnce` | src/services/client.cc:117-128 | after every run, under any wakeups, timeouts, throws and stops, a `Notify` that returned true asked for a command, had it run exactly once and within its retries, and its one handler succeeded, only a stop of the server having none; unless what it asked for was itself a response type |
| `HandshakeTruth.StopIsExact` | src/services/server.cc:319-336 | after every run, the server leaves its loop at the next test iff a request to stop it was dispatched or it was stopped from outside |
| `Handshake.ClipIsPrefix` | src/services/client.cc:98-102 | the payload keeps its first 1023 characters |
| `HandshakeSafety.NoStaleMessage` | src/services/client.cc:93-126 | the message object is never touched after its destruction, a handler only works on the message of a call that has not returned, and a client never finds the name taken |
| `HandshakeSafety.NoLostWakeup` | src/services/server.cc:320-377 | an un-notified server waiter implies the flag is down; an un-notified client waiter implies it is up unless the server is inside its critical section; no message exists while the client mutex is free |
| `HandshakeSafety.TimeoutBudget` | src/services/client.cc:108-123 | a handler of any duration costs the waiting client at most one retry, so a call picked up in one of its first 99 waits and answered is never reported as not responding |
| `HandshakeRuns.SleepIsShort` | src/services/server.cc:319-378 | in every run through which a client sleeps, whatever the handlers return and whoever else acts, the server is never blocked and takes at most eight actions before the one that wakes the client, unless it exits |
| `HandshakeRuns.LateAnswer` | src/services/client.cc:110-123 | a run in which a request picked up in the hundredth wait is answered with success and reported as not responding |
| `HandshakeRuns.SpuriousClient` | src/services/client.cc:111-121 | a run in which one spurious wakeup makes `Notify` return false with nothing dispatched and the flag left up |
| `HandshakeRuns.SpuriousServer` | src/services/server.cc:321-330 | a run in which one spurious wakeup makes the dispatcher run a command whose payload is not written |
| `HandshakeRuns.LeftoverFlag` | src/services/client.cc:108-126 | a run without spurious wakeups or external stops in which a call out of retries leaves the flag up and the next call's command runs before its payload is written |
| `CidPool.NextFree` | src/guest/vsock_cid_pool.cc:15-17 | the least available id at or after the given one, or the size of the pool |
| `CidPool.GrantIsExact` | src/guest/vsock_cid_pool.cc:13-31 | an explicit request is granted the id it names, narrowed to 32 bits, iff that lies in [3, 10000) and is available, and nothing otherwise; an automatic one the least available id from 1000 on, and nothing iff there is none |
| `CidPool.GrantThenRelease` | src/guest/vsock_cid_pool.cc:13-39 | a grant followed by its release restores the pool, for every request including refused ones |
| `CidPool.VsockCidPool.constructor` | src/guest/vsock_cid_pool.h:37-37 | every id starts available |
| `CidPool.VsockCidPool.GetCid` | src/guest/vsock_cid_pool.cc:13-20 | takes the least available id from 1000 on, refuses iff there is none, and changes no other bit |
| `CidPool.VsockCidPool.GetGivenCid` | src/guest/vsock_cid_pool.cc:22-31 | takes the id, narrowed to 32 bits, iff it is in [3, 10000) and available, refuses otherwise, and changes no other bit |
| `CidPool.VsockCidPool.ReleaseCid` | src/guest/vsock_cid_pool.cc:33-39 | makes an id in range available and ignores any other |
| `QemuBuilder.TeardownOnce` | src/guest/vm_builder_qemu.cc:981-1002 | for a built VM and any number of stops before destruction, each queued callback runs once in queue order, each device handed over is restored exactly once, repeated devices and a listed GPU included, the id is remembered and the pool is as before the build |
| `QemuBuilder.StopIsComplete` | src/guest/vm_builder_qemu.cc:981-998 | one stop, in whatever state, runs the whole queue, makes the id available and keeps it in the builder |
| `QemuBuilder.BuiltQueue` | src/guest/vm_builder_qemu.cc:440-457 | after a successful build the devices are those handed over, and the queue is the sound, restore and socket callbacks that apply, in that order |
| `QemuBuilder.FailedBuildConserves` | src/guest/vm_builder_qemu.cc:847-912 | whichever stage fails, destroying the builder leaves the pool as it was before the build; only a build that fails at its firmware held an id |
| `QemuBuilder.BuildSucceeds` | src/guest/vm_builder_qemu.cc:847-912 | a build succeeds iff every fallible stage does and the id asked for is available |
| `QemuBuilder.BuildTakesOne` | src/guest/vm_builder_qemu.cc:629-654 | a successful build takes exactly one id, in range and available before |
| `QemuBuilder.FailedBuildKeepsGpu` | src/guest/vm_builder_qemu.cc:740-744 | after a failed build and destruction a device is left handed over iff the GPU stage was reached and succeeded |
| `QemuBuilder.VmBuilderQemu.BuildVmArgs` | src/guest/vm_builder_qemu.cc:847-912 | runs the fallible stages in order against the pool and leaves the builder and pool the specification gives |
| `QemuBuilder.VmBuilderQemu.BuildVgpuCmd` | src/guest/vm_builder_qemu.cc:719-780 | GPU passthrough queues the sound callback before the device is handed over; other modes change nothing |
| `QemuBuilder.VmBuilderQemu.BuildVsockCmd` | src/guest/vm_builder_qemu.cc:629-654 | holds the granted id or 0, and fails on 0 and on a malformed id, which leaves id and pool alone |
| `QemuBuilder.VmBuilderQemu.BuildPtPciDevicesCmd` | src/guest/vm_builder_qemu.cc:429-437 | the device set grows by exactly the devices whose handover succeeded |
| `QemuBuilder.VmBuilderQemu.StopVm` | src/guest/vm_builder_qemu.cc:981-998 | releases the id without forgetting it and drains the callback queue front to back |
| `QemuBuilder.VmBuilderQemu.RunEndCall` | src/guest/vm_builder_qemu.cc:443-448 | the restore callback gives back every device of the set once, the others none |
| `QemuBuilder.WaitVmReady` | src/guest/vm_builder_qemu.cc:952-964 | ready iff Running was seen in one of 200 tries up to which the emulator was always alive |
| `VmRegistry.Registry.FindVmInstance` | src/services/server.cc:41-47 | the index of the first instance of that name, or the length |
| `VmRegistry.Registry.DeleteVmInstance` | src/services/server.cc:49-55 | erases the first instance of that name and nothing else |
| `VmRegistry.DeleteIsExact` | src/services/server.cc:49-55 | with distinct names, deleting by name removes exactly that entry and keeps the others, their order and distinctness |
| `StartupListener.StartupListenerImpl.VmReady` | src/services/startup_listener_impl.cc:19-42 | accepts iff the peer parses and is pending, then fires and forgets exactly that callback |
| `StartupListener.StartupListenerImpl.AddPendingVM` | src/services/startup_listener_impl.cc:44-48 | registers the callback, replacing one under the same id |
| `StartupListener.FiresAtMostOnce` | src/services/startup_listener_impl.cc:19-48 | over every history, callbacks fired plus callbacks outstanding never exceed registrations |
| `StartupListener.OutstandingExact` | src/services/startup_listener_impl.cc:29-48 | over every history, a callback is outstanding under an id iff it was registered under it and nothing was registered or reported under that id since |
| `LifecycleBase.KeepsBase` | src/services/server.cc:49-264 | every action of server thread, VM threads and listener, without exception, keeps: names distinct, registry equal to the existing builders but for one about to be inserted, the name of a build free, the place of an insertion holding the new VM or past the end, the listener following its history |
| `LifecycleBase.StopsAgree` | src/guest/vm_builder_qemu.cc:981-1002 | a stop and a destruction in the lifecycle change the pool as a stop of any builder with that id does |
| `LifecycleSafety.KeepsInv` | src/services/server.cc:169-264 | every action, without exception, keeps what each thread's place says about its VM's state, the latch, the listener and the reports |
| `LifecycleOwnership.KeepsAlive` | src/services/server.cc:142-264 | every action but a clobbering deletion and a misled launch keeps the builder of every thread that still needs it |
| `LifecycleTheorems.NamesStayDistinct` | src/services/server.cc:118-264 | in every run names are pairwise distinct and the registry lists exactly the existing builders, but for one the server thread is about to insert |
| `LifecycleTheorems.ThreadsStayValid` | src/services/server.cc:169-193 | in every run in which no import clobbers and no start is misled, no thread touches a builder or latch that is not there |
| `LifecycleTheorems.ImportSparesThreads` | src/services/server.cc:142-164 | in every run, a step of an import or start leaves an instance that has a thread as it was and registered, iff it is not a deletion by the name of that instance, started |
| `LifecycleTheorems.ClobberFaults` | src/services/server.cc:144-150 | in every run, such a deletion destroys the builder of a running thread, whose next step touches what is gone |
| `LifecycleTheorems.OverwriteFreesName` | src/services/server.cc:149-151 | in every run, the deletion of an import removes the instance of its name and nothing else, and the import goes on with its own configuration |
| `LifecycleTheorems.ThreadDeletesOwn` | src/services/server.cc:174-192 | in every run, the deletion by name at the end of a thread removes exactly the instance that thread runs iff that instance still exists, which it does if no import clobbered and no start was misled |
| `LifecycleTheorems.StatesOnlyAdvance` | src/guest/vm_builder_qemu.cc:909-969 | in every run, over every action, the state of a VM stays or moves to the next of Empty, Created, Booting, Running |
| `LifecycleTheorems.MarkIsBoot` | src/guest/vm_builder_qemu.cc:940-950 | in every run, what counts as after reaching Booting is what the listener heard after the action that took the VM from Created to Booting |
| `LifecycleTheorems.SearchIsExact` | src/services/server.cc:57-80 | a start goes on from its search iff its name is given and not registered, an import iff its name is given, a stop iff its name is registered; what was found is the instance of that name |
| `LifecycleTheorems.FailedStartLeavesNoTrace` | src/services/server.cc:224-236 | a build that fails leaves registry, pool and everything else unchanged, whatever other threads did since the search |
| `LifecycleDrift.IndexDenotesNamed` | src/services/server.cc:57-80 | in every run, over every stretch of other threads' actions after the search of a stop or an import, the index denotes the instance named iff no thread deleted it or one before it, and denotes none iff as many were deleted as stood from it on |
| `LifecycleDrift.StopHitsNamed` | src/services/server.cc:63-74 | in every run, a stop the guest does not answer stops the VM named if no such deletion came, and otherwise leaves that VM alone |
| `LifecycleDrift.AnsweredStopSparesAll` | src/services/server.cc:72-74 | a stop the guest answers leaves every VM, every id and the registry alone |
| `LifecycleDrift.TestAsksNamed` | src/services/server.cc:142-148 | in every run, without such a deletion the state test of an import passes iff the VM named has not been started |
| `LifecycleDrift.LaunchHitsInserted` | src/services/server.cc:224-256 | in every run, over every stretch of other threads' actions after the insertion of a start, its thread is launched on the new VM iff no entry was deleted, and otherwise on none |
| `LifecycleDrift.SteadyRunsAreSafe` | src/services/server.cc:142-256 | a run in which no thread deletes an entry at or before the index of an import between search and state test, or of a start between insertion and launch, has no clobbering import and no misled start |
| `LifecycleTheorems.ReadyWaitSafety` | src/services/server.cc:248-263 | with `wait_ready`, in every run, a reported success implies a `VmReady` call from this VM's id, accepted after it reached Booting, or was read from a builder destroyed by its failed wait, or came from a misled start |
| `LifecycleTheorems.ReadyWaitExact` | src/services/server.cc:181-192 | in every run, when a waiting start returns, every possible report of success implies that call iff it was not misled and its wait did not end unready, or the call came after all |
| `LifecycleTheorems.ReportExact` | src/services/server.cc:258-263 | in every run, a start that launched its thread reports, from an existing builder, success iff the thread is past marking the VM running, which only a start without waiting can miss, and anything from another; if no import clobbered and no start was misled, the builder exists iff its thread has not ended |
| `LifecycleProgress.ReportMakesRunning` | src/services/startup_listener_impl.cc:29-42 | in every run, an accepted report of a guest whose builder exists makes exactly that VM running, spends exactly its callback and changes nothing else |
| `LifecycleProgress.RunningIffReported` | src/guest/vm_builder_qemu.cc:952-970 | in every run, a VM whose start waits and whose builder exists is running iff its guest reported ready under its id after it reached Booting |
| `LifecycleProgress.ReadyStartSucceeds` | src/services/server.cc:185-188 | in every run, a start whose VM is waited for and running goes on to report success and leaves it running |
| `LifecycleProgress.UnreadyStartCleansUp` | src/services/server.cc:189-192 | in every run, a start whose wait ends unready takes its VM out of the registry, gives its id back and reports whatever the late read yields |
| `LifecycleProgress.PlainStartSucceeds` | src/services/server.cc:171-175 | in every run, a start without waiting reports success if its thread marks the VM running first |
| `LifecycleProgress.WaitingStartRegisters` | src/services/server.cc:171-184 | in every run, a start that waits reaches its wait with its callback pending under its VM's id |
| `LifecycleTheorems.PendingIsExact` | src/services/startup_listener_impl.cc:29-54 | in every run a callback is pending under an id iff its VM registered under it and nothing was registered or reported under that id since; each VM registers at most once and its callback fires at most once |
| `LifecycleTheorems.LeftoversAreUnready` | src/services/server.cc:181-192 | in every run, a pending callback belongs to a VM still waiting or to one whose wait ended unready; if no import clobbered and no start was misled, that is the only way its builder can be gone |
| `LifecycleTheorems.LateReadyExact` | src/services/startup_listener_impl.cc:29-42 | if no import clobbered and no start was misled, an accepted report fires its callback on a destroyed builder iff that VM's wait ended unready and its thread deleted the builder |
| `LifecycleCids.CidsAreExclusive` | src/guest/vsock_cid_pool.cc:13-39 | in every run in which no new VM gets an id between a stop and the destruction of its last owner, a bit in [3, 10000) is clear iff exactly one existing, unstopped builder holds that id |
| `LifecycleCids.SecondReleaseHarmless` | src/guest/vm_builder_qemu.cc:992-1002 | destroying a stopped builder keeps the pool exact iff nobody holds the id it remembers |
| `LifecycleRuns.SharedCid` | src/guest/vm_builder_qemu.cc:981-1002 | a run in which the second release lets two existing, unstopped builders share an id |
| `LifecycleRuns.BlindReport` | src/services/server.cc:189-192 | a run in which a start with `wait_ready` reports success though no guest ever reported ready |
| `LifecycleRuns.NoWaitUnderreports` | src/services/server.cc:174-175 | a run in which a start without `wait_ready` reports failure and the VM then runs |
| `LifecycleRuns.ReadyStart` | src/services/server.cc:181-188 | a run in which the guest of a waiting start reports and the start succeeds |
| `LifecycleRuns.StopHitsOther` | src/services/server.cc:63-74 | a run in which a stop of one VM stops another |
| `LifecycleRuns.StopGoesAstray` | src/services/server.cc:63-74 | a run in which a stop indexes past the end of the registry and leaves its VM unstopped |
| `LifecycleRuns.ClobberedVm` | src/services/server.cc:142-150 | a run in which an import destroys a running VM, whose thread then touches the destroyed builder |
| `LifecycleRuns.MisledStart` | src/services/server.cc:229-263 | a run in which a deletion between insertion and read-back leaves the new VM without a thread, and its start reports that the guest is ready |
| `LifecycleRuns.LateCallback` | src/services/server.cc:181-192 | a run in which a guest reports ready after its failed wait and the callback is fired on the destroyed builder |
| `Aaf.AafConfig.constructor` | src/guest/aaf.cc:88-92 | the three known keys start with nothing pending |
| `Aaf.AafConfig.Set` | src/guest/aaf.cc:21-26 | sets a known key and ignores any other |
| `Aaf.AafConfig.Flush` | src/guest/aaf.cc:28-86 | without a usable directory nothing changes; otherwise the file is the merge of old lines and pending values, and nothing is left pending |
| `Aaf.AafConfig.MergeFile` | src/guest/aaf.cc:51-70 | rewrites the old file line by line and clears each value it uses |
| `Aaf.AafConfig.AppendPending` | src/guest/aaf.cc:78-83 | appends what is still pending in key order and clears it |
| `Aaf.GetLine` | src/guest/aaf.cc:56-56 | reads the next piece between newlines, and reports the end of the stream with the last |
| `Aaf.KeyIsExact` | src/guest/aaf.cc:60-64 | the key is what stands before the first colon, or the whole line |
| `Aaf.KeyedIsFilter` | src/guest/aaf.cc:55-64 | the lines kept are those neither empty nor beginning with a colon, in order |
| `Aaf.AppendedInOrder` | src/guest/aaf.cc:78-83 | one line for each key still pending, in the order of the walk |
| `AafLaws.MergedAt` | src/guest/aaf.cc:55-69 | every keyed line keeps its place and text, except that the first line of a pending key becomes its assignment |
| `AafLaws.FlushOverrides` | src/guest/aaf.cc:55-83 | first-match lookup in the new lines is lookup in the old ones overridden by the non-empty pending values, for every file and every key |
| `AafLaws.FileOverrides` | src/guest/aaf.cc:48-83 | the same of the file read back, for all keys, iff no pending value holds a newline |
| `AafLaws.SecondFlushIsIdle` | src/guest/aaf.cc:55-83 | with newline-free values a second flush with nothing set leaves the text unchanged |
| `AafLaws.LastFlushWins` | src/guest/aaf.cc:21-86 | set and flush twice on the same keys gives the same text as only the last set and flush |
| `AafLaws.ProgramFlushes` | src/guest/aaf.cc:21-92 | both laws for the three keys the program has |
| `PassthroughList.PassthroughString` | src/guest/tui.cc:275-287 | prints the addresses of the items that hold a space, each but that of the very last item followed by a comma |
| `PassthroughList.PrintedIsJoined` | src/guest/tui.cc:275-287 | what is printed is the addresses with a comma between each two, and one more at the end iff some item counts and the last does not |
| `PassthroughList.AddressIsExact` | src/guest/tui.cc:278-283 | an item counts iff it holds a space, and its address is what stands before the first one |
| `PassthroughList.TokensAreExact` | src/guest/vm_builder_qemu.cc:419-430 | for every value, the non-empty tokens are the non-empty pieces between commas, each trimmed; trimming the whole value and compressing commas change nothing |
| `Text.TrimIsExact` | src/guest/vm_builder_qemu.cc:421-430 | trimming takes all white space off both ends and nothing else |
| `PassthroughList.RoundTrip` | src/guest/vm_builder_qemu.cc:419-430 | parsing the printed list yields, in order, the non-empty addresses of the selected items, for addresses without comma or white space |
| `GuestListing.ListVm` | src/services/server.cc:110-113 | one line per instance: name, colon, state |
| `GuestListing.GetGuestState` | src/vm_manager.cc:60-87 | -1 for an empty name or without a server, otherwise what the first line that splits in two and names a known state says about the name |
| `GuestListing.LineIsExact` | src/vm_manager.cc:72-83 | a line answers for a name iff it is that name without a colon, a colon and a known state |
| `GuestListing.SearchIsFirst` | src/vm_manager.cc:72-86 | the answer is that of the first line that answers, or Unknown if none does |
| `VmStates.StateTable` | src/guest/vm_builder.h:60-70 | the six states with their numbers and names |
| `GuestListing.ListingRoundTrip` | src/vm_manager.cc:72-86 | querying the printed list for a registered VM yields its exact state, whatever the other names, iff its own name holds no colon or its state is Unknown |
| `GuestListing.AbsentIsUnknown` | src/vm_manager.cc:72-86 | querying it for an unregistered VM yields Unknown |
| `HugePages.SetupHugePages` | src/guest/vm_builder_qemu.cc:150-207 | a positive number ending in a digit, A-F or M in either case needs half as many pages, one ending in G at most 2^31/1024 needs 512 times as many, anything else is refused; enough free pages succeed at once; otherwise it succeeds iff the required count is the one read first or seen in the first 200 polls, after at most 201 |
| `HugePages.AccountingFits` | src/guest/vm_builder_qemu.cc:187-188 | the 32-bit accounting is exact for every size iff at most 2^30 pages are in use |
| `HugePages.SuccessLeavesEnough` | src/guest/vm_builder_qemu.cc:183-206 | with the used pages constant, success leaves exactly the pages the guest needs free and the used pages untouched |
| `FlashDisk.PartsJoin` | src/guest/vm_flash.cc:38-49 | the parts of a file concatenate to it and all but the last have exactly the size asked for |
| `FlashDisk.StoredShape` | src/guest/vm_flash.cc:35-49 | an image under 4 GB stays one file; a larger one becomes parts of 4 GB less one byte, but for the last |
| `FlashDisk.ResultFits` | src/guest/vm_flash.cc:35-52 | every resulting file is under 4 GB and no byte is added or lost |
| `FlashDisk.CheckImages` | src/guest/vm_flash.cc:28-54 | succeeds iff `split` is found and every needed split succeeds; the total is the size of every image plus that of each part the iterator revisits, so it covers all files, and is exact if none is revisited |
| `FlashDisk.BlockCountIsLeast` | src/guest/vm_flash.cc:96-98 | the block count is the least covering the total and 1 GB iff the sum fits 64 bits |
| `FlashDisk.DiskIsLargeEnough` | src/guest/vm_flash.cc:93-98 | the disk holds all resulting files and 1 GB more |

## Left out

- Terminal UI layout and events, gRPC stubs, Android services, the app launcher, daemonizing, signal handlers and configuration paths.
- What happens to the shared memory after the server loop ends: the model keeps the synchronisation block while remaining clients run out of retries.
- Text of the QEMU command line, co-processes, log directories, sysfs writes and driver binding: each stage is its success or failure and its effect on the pool, the device set and the callback queue.
- Which socket path the power-control callback removes: the path is one static string shared by all VMs, so only that the callback runs is stated.
- `RemovePendingVM`, `PauseVm` and `GetVmInfo`: no caller, no body, and a plain lookup by index.
- A listing printed while VM threads delete entries: `ListVm` is modelled on one registry value.
- Which guest a stop asks to shut down: the name and id it reads through its index first; what the index denotes then is what `IndexDenotesNamed` says.
- Exceptions thrown in the middle of a build stage, and file-system errors while the settings file is renamed or opened.
- Reading a configuration file: a request arrives with the name and the outcome of every stage; the refusals before that change nothing.
- Lifecycle.Apply: the handlers and VM threads are steps of a transition system on values, not methods on a shared object, because their statements interleave; aliasing of builder pointers is replaced by identities and a `live` flag.
- Lifecycle.Poll: the wait for readiness may end unready at any time; `QemuBuilder.WaitVmReady` models the bounded loop itself.
- Number parsing of sizes and context ids: the parsed value is an input.
- Names of split parts, and a part that overwrites a file that already has its name.
- Strings with a NUL character in VM names.
