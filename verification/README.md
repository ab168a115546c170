# Spinbox in Dafny

A model of the stateful core of Spinbox (a containerd shim that runs each container in a QEMU
virtual machine), with proofs of what that core promises over whole runs. The outside
world (QEMU, the guest's kernel, lock files, CNI plugins, clocks) enters as parameters of the steps:
every outcome that it may have is an input, and the theorems hold for all of them.

| part | model | proofs | objects and methods |
|---|---|---|---|
| exits of guest processes | `ExitTracking`, `ExitDelivery`, `ExitOrdering` | `ExitDeliverySafety`, `ExitDeliveryLimits`, `ExitOrderingSafety`, `ExitOrderingLimits`, `TrackerRuns` | `ExitTracker` |
| memory hotplug | `MemHotplug`, `Resources` | `MemHotplugSafety`, `MemDemand`, `MemMargin`, `Hysteresis` | `MemController` |
| CPU hotplug | `CpuHotplug`, `CpuSet`, `CpuResources` | `CpuHotplugSafety`, `CpuDemand`, `Hysteresis` | `CpuController`, `CpuSet` |
| CNI single flight | `CniSingleFlight` | `CniSafety`, `CniLimits` | `CniManager` |
| vsock CIDs | `VsockAllocator`, `VsockLeases` | `VsockLeases` | `VsockAllocator` |
| rootfs mounts, host and guest | `HostMounts`, `GuestMounts`, `Templates` | `HostMountLaws`, `GuestMountLaws`, `TemplateLemmas`, `OverlayTemplates`, `OverlayEndToEnd` | `HostManager`, `GuestManager`, `Templates` |
| kernel command line, host and guest | `KernelCmdline`, `Text` | `CmdlineRoundTrip`, `KernelReader` | `KernelCmdline` |
| shim lifecycle | `ShimLifecycle` | `ShimSafety` | `ShimObjects` |

How it is put together. Code that several goroutines or processes run is a transition system: a state,
steps that are one critical section, one atomic operation or one call each, an invariant, a lemma that
every step keeps it, and theorems about every state of every run (`IsRun`). Objects whose methods change
their fields are classes, and each method is proved to do to the object what a function of the model does
to its value; the theorems are about those functions. Transformations are functions with loops as methods
proved against them.

`dafny verify dfyconfig.toml` checks the project.

## Results that are not what the code's comments suggest

- Start is accepted for a process that was started before, and may register it again: an init while another
  Start of it is under way or after its exit was notified, and an exec unless its start was given up. Its exit
  is then handed out twice, or another process's exit as its own (`ExitDeliveryLimits.OverlappingStarts`,
  `ExitDeliveryLimits.StartAfterExit`, `ExitDeliveryLimits.SecondStartOfExec`,
  `ExitDeliveryLimits.StartOfExitedExec`). `ExitDeliverySafety.ExactlyOnce` is about runs without such Starts,
  and `ExitDeliveryLimits.OrderlyIsExact` gives the exact condition on every Start of a known process.
- An exec whose start fails, or which exits before its start has returned, takes the exec counter down
  without having taken it up. There are runs in which the init's exit is then never published
  (`ExitOrderingLimits.FailedStartHoldsInitBack`), is published before an exec's at once
  (`ExitOrderingLimits.FailedStartLetsInitPass`), or is woken too early after it was decided to wait
  (`ExitOrderingLimits.FailedStartWakesTooEarly`). `ExitOrderingLimits.GoodIsExact` and
  `ExitOrderingLimits.WaitIsExact` say exactly when nothing of the kind can follow.
- A container that is deleted while its init's exit waits for execs never gets that exit published
  (`ExitOrderingLimits.CleanupWhileWaiting`, `ExitOrderingLimits.CleanupLosesExit`), and
  `ExitOrderingLimits.CleanupIsExact` says that this is the only harm. An init that exits inside its start
  window is published without waiting (`ExitOrderingLimits.EarlyExitPasses`); its exit is last if and only if
  every exec was published by then (`ExitOrderingSafety.EarlyExitIsLast`).
- A DIMM that the guest does not have online counts as free memory, so a scale-down can leave the guest less
  than the OOM margin (`MemMargin.LeakEatsMargin`); `MemMargin.MarginIsExact` says exactly when.
- A setup can run again after a successful one with no teardown in between (`CniSafety.SecondSetup`), exactly
  when a result was stored between the caller's look into the cache and its lock
  (`CniLimits.SecondSetupExactly`). A setup and a teardown of one container can overlap
  (`CniSafety.SetupMeetsTeardown`), exactly when one takes the lock while the other runs
  (`CniLimits.OverlapExactly`), and never if callers keep them apart (`CniLimits.ApartNeverOverlap`).
- A Create that stores its container after shutdown has taken the clean-ups leaves one that never runs
  (`ShimSafety.LateStoreIsLost`, `ShimSafety.LostExactly`).
- A supervisor value with white space is quoted by the host but split by the guest:
  `CmdlineRoundTrip.SupervisorRoundTrip` is an if-and-only-if.
- A Delete that fails leaves the shim in the state Deleting until shutdown
  (`ShimSafety.FailedDeleteIsFinal`), although the comment on the transitions lists only ShuttingDown as
  terminal.
- The CID scan of a range that ends at the last 32-bit number never ends when it finds nothing
  (`VsockAllocator.ScanEnds`), and goes on below the range (`VsockAllocator.ScanLeavesRange`); without a
  cooldown the start of an allocation says nothing about releases (`VsockLeases.NoCooldownNoGap`).
- Sizes are 64-bit: above 2^62 - 2^27 bytes the doubled memory limit is no longer positive
  (`Resources.SizesAreAligned`), and an accepted increment_size_mb can wrap to an increment that is not
  (`Resources.StartedControllersAreSound`).
- A CPU list with a range that ends at the largest integer is never parsed to its end
  (`CpuSet.RangeEnds`, `CpuSet.PrintedListCounts`).
- A container with a CPU limit never gets a CPU hotplug controller
  (`CpuResources.StartedControllersAreSound`).

## Model

| member | source | states |
|---|---|---|
| `ExitDeliverySafety.ExactlyOnce` | internal/guest/vminit/task/exit_tracker.go:74-187 | in every run of starts, restarts, refused starts of known execs, exits, notifications, failed starts and deletions, in which no PID is given out again before its exit is notified or while a start window waits for it, and every Start of a known process is orderly: each hand-out is the process's own exit, no process gets two, a registered or handed-out process has exactly one if and only if its exit was notified, and the open subscriptions are exactly the open windows |
| `ExitDeliverySafety.StepKeeps` | internal/guest/vminit/task/events.go:35-80 | every step of that system keeps the delivery invariant |
| `ExitDeliverySafety.NotifyFinds` | internal/guest/vminit/task/exit_tracker.go:90-105 | the registry yields, for an exit, the process that exited if it is registered, and nothing else |
| `ExitDeliverySafety.StartFinds` | internal/guest/vminit/task/exit_tracker.go:161-181 | at HandleStart the window holds exactly the process's own exit if that was notified, nothing otherwise, and its PID is free in the registry if it still runs |
| `ExitDeliveryLimits.OrderlyIsExact` | internal/guest/vminit/task/lifecycle.go:103-130 | the condition on a Start of a known process is exact: in every state of the invariant it is orderly (an init: its exit not notified, registered or given up; an exec: given up, with a window that holds just what was notified of it and its PID not taken again) if and only if no continuation with orderly Starts hands the process two exits or one that is not its own |
| `ExitDeliveryLimits.DisorderlyStartBreaks` | internal/guest/vminit/task/lifecycle.go:117-129 | every other Start of a known init or exec has a continuation, with no further such Start, that breaks the delivery |
| `ExitDeliveryLimits.SecondWindowDoubles` | internal/guest/vminit/task/exit_tracker.go:161-181 | a live process that is in a window, or an exec that is registered, is registered once more by another Start, and its one exit is handed out twice, with no PID reused |
| `ExitDeliveryLimits.StaleStartMistakes` | internal/guest/vminit/task/exit_tracker.go:90-105 | an init or exec started after its exit is registered again, and the next exit with its PID goes to it |
| `ExitDeliveryLimits.OverlappingStarts` | internal/guest/vminit/task/exit_tracker.go:74-86 | a run from the start with two overlapping Starts of one init and two hand-outs of its exit |
| `ExitDeliveryLimits.StartAfterExit` | internal/guest/vminit/task/exit_tracker.go:74-86 | a run from the start in which an init that had been handed its exit is started again and handed another one |
| `ExitDeliveryLimits.SecondStartOfExec` | internal/guest/vminit/task/lifecycle.go:117-129 | a run from the start with one exec, started twice one after the other, and two hand-outs of its exit |
| `ExitDeliveryLimits.StartOfExitedExec` | internal/guest/vminit/task/lifecycle.go:117-129 | a run from the start in which an exec that had been handed its exit is started again and handed another process's |
| `ExitOrderingSafety.InitExitIsLast` | internal/guest/vminit/task/events.go:95-140 | in every run, for a container without unmatched decrements that was not deleted while its init's exit was on the way: the counter is the number of outstanding execs until the container is deleted, accounted execs were published, a waiting init is woken once none is outstanding, and its published exit comes after those of all execs registered at the decision |
| `ExitOrderingSafety.EarlyExitIsLast` | internal/guest/vminit/task/events.go:38-51 | in every run, for an init that exits inside its start window: its exit comes after those of all execs registered by then if and only if they were all published by then |
| `ExitOrderingSafety.LastMeansLater` | internal/guest/vminit/task/events.go:103-117 | the order that InitExitIsLast speaks of is that of positions in the event log |
| `ExitOrderingSafety.ClosedOnce` | internal/guest/vminit/task/exit_tracker.go:329-348 | in every run no waiter channel is closed twice |
| `ExitOrderingSafety.DecisionIsRight` | internal/guest/vminit/task/exit_tracker.go:312-326 | the decision alone: an init exit is published at once iff the container was deleted or the outstanding execs are as many as the unmatched decrements; exact condition for that to be right at that moment |
| `ExitOrderingSafety.WokenExactly` | internal/guest/vminit/task/exit_tracker.go:329-348 | the wake-up, in every run: a decrement closes the channel of a waiting init exactly when the container was not deleted and no more execs are outstanding than there were unmatched decrements |
| `ExitOrderingLimits.GoodIsExact` | internal/guest/vminit/task/events.go:95-140 | in every state of the invariant: no continuation of a decision, without further unmatched decrements and without a deletion while the init waits, publishes the init before an exec registered at the decision, or leaves it waiting with nothing that can wake it, if and only if there was no unmatched decrement, or all registered execs were published and one is still to be accounted for; for a deleted container, if and only if all registered execs were published |
| `ExitOrderingLimits.WaitIsExact` | internal/guest/vminit/task/exit_tracker.go:329-348 | the same for every moment of the wait: the container is there, something is outstanding, and there was no unmatched decrement or all that the init waits for was published |
| `ExitOrderingLimits.BadDecisionBreaks` | internal/guest/vminit/task/exit_tracker.go:312-348 | from every other decision some continuation breaks the promise |
| `ExitOrderingLimits.LateDecrementBreaks` | internal/guest/vminit/task/lifecycle.go:125-127 | while an exec that the init waits for runs, one unmatched decrement has a continuation that publishes the init before it |
| `ExitOrderingLimits.CleanupIsExact` | internal/guest/vminit/task/exit_tracker.go:375-380 | a container in which all is well may be deleted exactly when its init does not wait: then, and only then, no continuation breaks the promise |
| `ExitOrderingLimits.CleanupLosesExit` | internal/guest/vminit/task/lifecycle.go:175-180 | after a deletion while the init waits, whatever follows, its exit is never published |
| `ExitOrderingLimits.CleanupWhileWaiting` | internal/guest/vminit/task/lifecycle.go:175-180 | a run to such a deletion, with no unmatched decrement |
| `ExitOrderingLimits.EarlyExitPasses` | internal/guest/vminit/task/events.go:45-50 | a run in which an init that exits inside its start window is published before a running exec |
| `ExitOrderingLimits.NothingWakes` | internal/guest/vminit/task/exit_tracker.go:329-348 | an init that waits with nothing outstanding is woken by no step but another unmatched decrement, and one whose container was deleted by no step |
| `ExitOrderingLimits.FailedStartWakesTooEarly` | internal/guest/vminit/task/lifecycle.go:125-127 | a run in which it is decided to wait, and two of three exits wake the init while the third exec runs |
| `ExitOrderingLimits.FailedStartHoldsInitBack` | internal/guest/vminit/task/lifecycle.go:125-127 | a run in which a failed exec start leaves the init waiting although nothing is outstanding |
| `ExitOrderingLimits.FailedStartLetsInitPass` | internal/guest/vminit/task/lifecycle.go:125-127 | a run in which a failed exec start lets the init's exit pass a running exec |
| `ExitOrderingSafety.StepKeeps` | internal/guest/vminit/task/exit_tracker.go:293-380 | every step of any number of interleaved containers keeps the ordering invariant |
| `TrackerRuns.CountsRunningExecs` | internal/guest/vminit/task/exit_tracker.go:161-181 | in every run of the tracker's own calls (Subscribe, HandleStart, Cancel, NotifyExit, NotifyExecExit, ShouldDelayInitExit, GetInitExit, Cleanup), for a container that is there and has no unmatched decrements: the exec counter is the number of execs that HandleStart registered, with a PID and without an early exit, and that are not accounted for yet |
| `TrackerRuns.DelayedWhileExecsRun` | internal/guest/vminit/task/exit_tracker.go:312-326 | in the same runs, the init's exit is delayed if and only if such an exec is running |
| `TrackerRuns.InitExitComesLast` | internal/guest/vminit/task/events.go:95-140 | in the same runs, a waiting init has such an exec running, and a published init's exit comes after those of all execs registered at the decision |
| `TrackerRuns.InitExitIsLatest` | internal/guest/vminit/task/exit_tracker.go:90-105 | in the same runs, InitHasExited holds exactly of the containers whose registered init's exit was notified and neither taken nor cleaned up, and GetInitExit answers the latest such exit |
| `TrackerRuns.CallKeeps` | internal/guest/vminit/task/exit_tracker.go:142-187 | every call keeps the tracker's coordinator in step with what happened, and the registry free of processes of deleted containers |
| `ExitTracker.EarlyExitDetector.Subscribe` | internal/guest/vminit/task/exit_tracker.go:204-217 | a new empty subscription under a fresh id |
| `ExitTracker.EarlyExitDetector.NotifyExit` | internal/guest/vminit/task/exit_tracker.go:220-227 | every open subscription collects the exit under its PID |
| `ExitTracker.EarlyExitDetector.Remove` | internal/guest/vminit/task/exit_tracker.go:230-234 | the subscription is closed and keeps what it collected; the others stay |
| `ExitTracker.ProcessRegistry.Add` | internal/guest/vminit/task/exit_tracker.go:396-401 | the process is appended under its PID |
| `ExitTracker.ProcessRegistry.RemoveByPID` | internal/guest/vminit/task/exit_tracker.go:404-411 | returns and removes all processes of a PID |
| `ExitTracker.ProcessRegistry.Filter` | internal/guest/vminit/task/exit_tracker.go:424-430 | the entries of other containers, in order |
| `ExitTracker.ProcessRegistry.RemoveByContainer` | internal/guest/vminit/task/exit_tracker.go:414-436 | one PID loses the container's entries, and goes when none is left |
| `ExitTracker.ProcessRegistry.CleanupContainer` | internal/guest/vminit/task/exit_tracker.go:439-458 | every PID loses the container's entries, and goes when none is left |
| `ExitTracker.ExitCoordinator.IncrementExecCount` | internal/guest/vminit/task/exit_tracker.go:294-300 | one more running exec, with a fresh state if there was none |
| `ExitTracker.ExitCoordinator.StashInitExit` | internal/guest/vminit/task/exit_tracker.go:303-309 | the init exit is kept |
| `ExitTracker.ExitCoordinator.ShouldDelayInitExit` | internal/guest/vminit/task/exit_tracker.go:312-326 | no delay without a state or at count zero, otherwise a new channel as waiter |
| `ExitTracker.ExitCoordinator.NotifyExecExit` | internal/guest/vminit/task/exit_tracker.go:329-348 | one exec fewer, and at zero or below the waiter is closed and cleared |
| `ExitTracker.ExitCoordinator.GetInitExit` | internal/guest/vminit/task/exit_tracker.go:351-363 | returns and clears the stashed exit |
| `ExitTracker.ExitCoordinator.InitHasExited` | internal/guest/vminit/task/exit_tracker.go:366-372 | whether an exit is stashed |
| `ExitTracker.ExitCoordinator.Cleanup` | internal/guest/vminit/task/exit_tracker.go:375-380 | the container's state is gone |
| `ExitTracker.Tracker.Subscribe` | internal/guest/vminit/task/exit_tracker.go:74-86 | opens a subscription and, on a restart, takes the old init out of the registry |
| `ExitTracker.Tracker.NotifyExit` | internal/guest/vminit/task/exit_tracker.go:90-105 | broadcasts, removes the PID from the registry, stashes the init exits among its processes |
| `ExitTracker.Tracker.HandleStart` | internal/guest/vminit/task/exit_tracker.go:161-181 | early exits, also those of a subscription closed before, or registration; the exec counter goes up by one exactly when an exec is registered, which is what TrackerRuns.CountsRunningExecs rests on |
| `ExitTracker.Tracker.Cancel` | internal/guest/vminit/task/exit_tracker.go:185-187 | closes the subscription |
| `ExitTracker.Tracker.Cleanup` | internal/guest/vminit/task/exit_tracker.go:142-145 | forgets the container in coordinator and registry |
| `MemHotplugSafety.RunsAreSafe` | internal/shim/memhotplug/controller.go:239-496 | from boot, in every run with any failures: used slots form a prefix, removals are LIFO, counted hysteresis, every size a multiple of 128 MiB, total within boot and max memory, also with leaked DIMMs |
| `MemHotplugSafety.RunsAreCounted` | internal/shim/memhotplug/controller.go:291-338 | from boot, at every state of every run: each scaling operation so far was asked for by the latest Stability counted readings, and operations of one direction are a cooldown apart |
| `MemDemand.RunsFollow` | internal/shim/memhotplug/controller.go:239-341 | from boot, in every run, each tick does to VM and history exactly what total, usage, history and the answers of QEMU and guest ask for: which reading counts, what is plugged or unplugged, in which slot and of what size, and what stays behind when something fails |
| `MemDemand.ReadingsAreAsked` | internal/shim/memhotplug/controller.go:276-341 | from boot, the counted readings of every run are exactly those that usage and total ask for (high: at the upper threshold and within the margin; low: otherwise below the lower threshold; neutral: the rest), after the first sample and without the high and low ones inside their cooldown |
| `MemDemand.ChangesAreAsked` | internal/shim/memhotplug/controller.go:291-338 | from boot, a DIMM is added or removed only after the configured number of latest such readings asked for it |
| `MemDemand.GrowthHappens` | internal/shim/memhotplug/controller.go:291-310 | from boot, a tick whose reading asks for growth, with counter and cooldown ready and nothing failing, plugs one increment, capped at max memory, into the next slot and has it online |
| `MemDemand.ShrinkingHappens` | internal/shim/memhotplug/controller.go:313-331 | from boot, a tick whose reading asks for less, with the margin kept, counter and cooldown ready and nothing failing, unplugs the DIMM that was added last |
| `MemDemand.NeutralResets` | internal/shim/memhotplug/controller.go:334-337 | from boot, a reading between the thresholds changes nothing and starts both counts again |
| `MemDemand.TargetIsExact` | internal/shim/memhotplug/controller.go:276-341 | the target is above, or below, the current size if and only if the reading asks for it and counter, cooldown, size limits and margin allow it, and is then one increment away, capped at max and boot memory |
| `MemHotplugSafety.SlotsFormAStack` | internal/shim/memhotplug/controller.go:479-496 | used slots are 0 to k-1 with k at most MaxSlots, the free slot found is k, and the highest used slot is the last one added |
| `MemHotplugSafety.RequestsAreAccepted` | internal/shim/memhotplug/controller.go:303-306 | every size ever requested is positive, aligned, in a slot below MaxSlots and within max memory |
| `MemMargin.MarginSurvivesUnplug` | internal/shim/memhotplug/controller.go:426-476 | the DIMM a scale-down removes is no larger than planned; afterwards at least the OOM margin is free by QEMU's count, what the guest can use is less by exactly the bytes that are plugged but offline, and so it has the margin too if every DIMM left is online |
| `MemMargin.MarginIsExact` | internal/shim/memhotplug/controller.go:313-331 | in every safe state in which the counters let a tick shrink: the guest keeps the margin, whatever the next reading and failures, if and only if the bytes left offline are no more than what a scale-down at the highest usage leaves above the margin |
| `MemMargin.LeakEatsMargin` | internal/shim/memhotplug/controller.go:404-416 | a run from boot in which a DIMM that could be neither onlined nor unplugged lets a scale-down leave the guest 12 MiB of a margin of 128 MiB |
| `MemHotplugSafety.NeverOscillates` | internal/shim/memhotplug/controller.go:276-341 | under constant usage no run both grows and shrinks, for every increment, margin, cap and pattern of failures |
| `MemHotplugSafety.StepKeepsSafe` | internal/shim/memhotplug/controller.go:239-272 | one tick keeps all of Safe |
| `MemHotplugSafety.ScaleUpKeeps` | internal/shim/memhotplug/controller.go:369-422 | a completed scale-up fills the next slot; a failed one changes nothing or leaks one DIMM above the used slots |
| `MemHotplugSafety.ScaleDownKeeps` | internal/shim/memhotplug/controller.go:426-476 | a scale-down removes the top of the stack or nothing |
| `MemController.Qmp.HotplugMemory` | internal/host/vm/qemu/qmp_memory.go:31-106 | alignment check, object-add, device_add, rollback of the backend, and the error that leaves the DIMM plugged when the query afterwards shows no growth |
| `MemController.Qmp.UnplugMemory` | internal/host/vm/qemu/qmp_memory.go:112-135 | device_del, then object-del whose failure is no error |
| `MemController.Controller.FindFreeSlot` | internal/shim/memhotplug/controller.go:479-486 | the lowest slot not in use, or none |
| `MemController.Controller.FindUsedSlot` | internal/shim/memhotplug/controller.go:489-496 | the highest slot in use, or none |
| `MemController.Controller.CalculateTargetMemory` | internal/shim/memhotplug/controller.go:276-341 | the target and the counters after one reading, with sums and products of 64 bits: it goes up only on a high reading, down only on a low one, by one capped increment, and a reading between the thresholds clears both counters |
| `MemController.Controller.ScaleUp` | internal/shim/memhotplug/controller.go:369-422 | the controller, the VM and the guest's online memory after a scale-up, for every outcome of plugging and onlining |
| `MemController.Controller.ScaleDown` | internal/shim/memhotplug/controller.go:426-476 | the controller, the VM and the guest's online memory after a scale-down, for every outcome of offlining, unplugging and onlining again |
| `MemController.Controller.CheckAndAdjust` | internal/shim/memhotplug/controller.go:239-272 | one tick of the controller is one step of the model |
| `Hysteresis.OperationsAreEarned` | internal/shim/memhotplug/controller.go:291-338 | at every operation of a disciplined history the latest Stability counted readings all asked for it |
| `Hysteresis.OperationsAreSpaced` | internal/shim/cpuhotplug/controller.go:427-440 | two operations of one direction are a cooldown apart |
| `Hysteresis.StreakMeansLatestReadings` | internal/shim/cpuhotplug/controller.go:249-304 | a stability counter counts the latest readings of its direction |
| `Hysteresis.DisciplineCounts` | internal/shim/memhotplug/controller.go:291-338 | a disciplined history is one of counted hysteresis, for all its operations |
| `Resources.SizesAreAligned` | internal/shim/resources/config.go:47-82 | boot and max memory are multiples of 128 MiB, and both positive iff there is no limit or it is at most 2^62 - 2^27; then boot memory is the limit, or 512 MiB without a positive one, rounded up, and max memory is twice that if there is a limit, but not more than the host's memory rounded up, and without one the latter |
| `Resources.AlignRoundsUp` | internal/shim/resources/config.go:213-226 | alignment rounds up by less than 128 MiB, or wraps to -2^63 |
| `Resources.StartedControllersAreSound` | internal/shim/resources/hotplug.go:147-226 | for every accepted settings file, limit and host, a controller that is started meets the hypotheses of the run theorems iff increment_size_mb modulo 2^44 is above 0 and below 2^43, that is, iff the increment in bytes is positive after wrapping to 64 bits, and it has the settings of the file |
| `Resources.AcceptedSettings` | internal/config/validation.go:117-177 | the memory section is accepted if and only if the thresholds are in order within 0 and 100, both stabilities and the margin are positive, and the increment is a positive multiple of 128 MiB |
| `CpuHotplugSafety.RunsAreSafe` | internal/shim/cpuhotplug/controller.go:225-308 | from boot, at every state of every run: the vCPU count is within boot and max, CPU 0 is there, and each scaling operation so far was asked for by the latest Stability counted readings, a cooldown after the last one of its direction |
| `CpuHotplugSafety.RunsStaySafe` | internal/shim/cpuhotplug/controller.go:225-308 | the same invariant from every state that meets it, and each tick plugs the lowest free id, unplugs one id other than 0, or changes nothing |
| `CpuDemand.TargetIsExact` | internal/shim/cpuhotplug/controller.go:312-355 | the target is one more if and only if the sample is usable, not throttled at the limit, at the upper threshold of all CPUs, and there are fewer than max; one less if and only if it is usable, not throttled at the limit, within the lower threshold of one CPU fewer, scale-down is enabled and there are more than boot; all from the raw counters |
| `CpuDemand.RunsFollow` | internal/shim/cpuhotplug/controller.go:225-308 | from boot, in every run, each tick does to the CPUs and the history exactly what the cgroup counters since the last sample, the history and QEMU's answers ask for: which reading counts, and which id is plugged or unplugged |
| `CpuDemand.ReadingsAreAsked` | internal/shim/cpuhotplug/controller.go:249-304 | from boot, the counted readings of every run are exactly what the samples ask for, without those inside their cooldown |
| `CpuDemand.ChangesAreAsked` | internal/shim/cpuhotplug/controller.go:249-304 | from boot, a CPU is added or removed only after the configured number of latest such readings asked for it |
| `CpuDemand.GrowthHappens` | internal/shim/cpuhotplug/controller.go:249-275 | from boot, a tick whose sample asks for growth, with counter and cooldown ready and no plug failing, adds the lowest free id |
| `CpuDemand.ShrinkingHappens` | internal/shim/cpuhotplug/controller.go:276-300 | from boot, a tick whose sample asks for less, with counter and cooldown ready, removes the last listed id, other than 0, whose unplug works |
| `CpuDemand.ThrottledStays` | internal/shim/cpuhotplug/controller.go:331-338 | from boot, a tick that finds the container throttled at the limit changes no CPU and counts as neutral |
| `CpuDemand.UnplugsLast` | internal/shim/cpuhotplug/controller.go:526-570 | a scale-down by one tries the listed ids from the last to the first, without CPU 0, until an unplug works |
| `CpuHotplugSafety.NeverOscillates` | internal/shim/cpuhotplug/controller.go:312-355 | under constant absolute load no run goes both ways, whatever throttling suppresses, and at most max - boot steps change the count |
| `CpuHotplugSafety.PlugsLowestFree` | internal/shim/cpuhotplug/controller.go:457-506 | a scale-up by one plugs the lowest id that is free, which exists |
| `CpuHotplugSafety.SomeIdIsFree` | internal/shim/cpuhotplug/controller.go:457-480 | with fewer CPUs than max some id below max is free |
| `CpuHotplugSafety.HighestIdFirst` | internal/shim/cpuhotplug/controller.go:526-546 | with an ascending query the removal candidates are descending |
| `CpuHotplugSafety.CandidatesAreNonBoot` | internal/shim/cpuhotplug/controller.go:526-546 | CPU 0 is never a candidate for removal, every other listed id is |
| `CpuResources.StartedControllersAreSound` | internal/shim/resources/config.go:54-133 | for every spec, host and accepted settings file: at least one boot CPU, a CPU controller is started iff the container has no CPU limit and the host more than one CPU, and it then has one boot CPU, may grow to all of the host's, has the settings of the file and meets the hypotheses of the run theorems |
| `CpuResources.QuotaRoundsDown` | internal/shim/resources/config.go:110-121 | a quota asks for as many CPUs as it pays for in full, and for one at least |
| `CpuResources.ListIsCounted` | internal/shim/resources/config.go:122-132 | without a quota a list asks for the CPUs it names, for one if it is malformed, names none or is not there, and never returns iff its parsing does not |
| `CpuResources.AcceptedSettings` | internal/config/validation.go:117-160 | the CPU section is accepted if and only if the thresholds are in order within 0 and 100, both stabilities are positive and the throttle limit is within 0 and 100 |
| `CpuController.Controller.SampleCPU` | internal/shim/cpuhotplug/controller.go:357-424 | the sample, or none, and the state kept for the next one |
| `CpuController.Controller.CalculateTargetCPUs` | internal/shim/cpuhotplug/controller.go:312-355 | one more than the current count if and only if the raw counters ask for it, one less likewise, and otherwise the current count |
| `CpuController.Controller.ScaleUp` | internal/shim/cpuhotplug/controller.go:443-508 | controller and CPUs after plugging, for every failing id |
| `CpuController.Controller.ScaleDown` | internal/shim/cpuhotplug/controller.go:512-578 | controller and CPUs after unplugging, for every failing id |
| `CpuController.Controller.RemovableCPUs` | internal/shim/cpuhotplug/controller.go:526-546 | all listed ids but CPU 0, in reverse |
| `CpuController.Controller.CheckAndAdjust` | internal/shim/cpuhotplug/controller.go:225-308 | one tick of the controller is one step of the model |
| `CpuSet.PrintedListCounts` | internal/shim/resources/config.go:141-189 | for every printed list of ids and ranges, with duplicates and overlaps: the CPUs are the union of what the items name iff the loop of every range ends, and otherwise the parser never returns |
| `CpuSet.RangeEnds` | internal/shim/resources/config.go:175-177 | the 64-bit loop over a range ends iff the range stops short of the largest integer |
| `CpuSet.FirstBadPartDecides` | internal/shim/resources/config.go:150-186 | the first part that names no CPUs makes the whole list malformed, or is never left |
| `CpuSet.MalformedPart` | internal/shim/resources/config.go:150-186 | a part is malformed if and only if, trimmed, it is not blank, not a numeral within 64 bits, and not two such numerals, the second not below the first, around its first dash |
| `CpuSet.MalformedList` | internal/shim/resources/config.go:141-189 | a list is malformed, and counts 0 CPUs, if and only if some part is and no range before it loops for ever |
| `CpuSet.AddPart` | internal/shim/resources/config.go:150-186 | one part adds its CPUs, or is refused, if its loop ends |
| `CpuSet.AddRange` | internal/shim/resources/config.go:175-177 | all CPUs of a range whose loop ends |
| `CpuSet.ParseCPUSet` | internal/shim/resources/config.go:141-189 | for every list on which it returns: the number of distinct CPUs of all parts, 0 for a blank or malformed list |
| `CniSafety.SingleFlight` | internal/host/network/manager_cni.go:100-183 | in every interleaving: one caller at most leads an operation on a container, from joining it through plugins and cache to the removal of its tracker; whoever returns through a tracker returns its worker's outcome; done is closed at most once and not before there is an outcome; and a key is in flight iff a caller leads it |
| `CniSafety.NextCallHits` | internal/host/network/manager_cni.go:102-112 | after a successful setup and until a teardown clears it, a call that starts takes the latest stored result and does no setup |
| `CniSafety.NextCallMisses` | internal/host/network/manager_cni.go:319-420 | after a teardown, whatever its plugins answered, and until a setup stores a result again, a setup that starts finds none in the cache |
| `CniSafety.CachedIsStored` | internal/host/network/manager_cni.go:102-112 | what the cache holds for a container is what the latest successful setup stored, with no teardown since |
| `CniSafety.StepKeeps` | internal/host/network/manager_cni.go:274-315 | every step of setups, teardowns, waiters and cancellations keeps the invariant |
| `CniSafety.OneLeader` | internal/host/network/manager_cni.go:115-144 | two leaders of one key are the same caller |
| `CniSafety.SetupMeetsTeardown` | internal/host/network/manager_cni.go:274-300 | a run in which setup and teardown of one container overlap |
| `CniSafety.SecondSetup` | internal/host/network/manager_cni.go:100-144 | a run in which a caller with an early cache miss sets up again |
| `CniLimits.SecondSetupExactly` | internal/host/network/manager_cni.go:100-144 | in every run: a caller starts the plugins of a setup although a result is stored if and only if no setup is in flight when it takes the lock and a result was stored, and not cleared, since it looked into the cache |
| `CniLimits.OverlapExactly` | internal/host/network/manager_cni.go:115-144 | in every run: two callers run plugins at once if and only if one of them took the lock as a leader while the other ran them, and neither has come to an end since |
| `CniLimits.ApartNeverOverlap` | internal/host/network/manager_cni.go:274-300 | if no setup of a container is called while a teardown of it is under way, nor the other way round, the two never run at once |
| `CniManager.Manager.EnsureNetworkResources` | internal/host/network/manager_cni.go:100-183 | uncontended: a cached result, a tracker to wait for, or join, plugins, store, settle, close and delete in that order |
| `CniManager.Manager.ReleaseNetworkResources` | internal/host/network/manager_cni.go:274-315 | uncontended: a tracker to wait for, or join, plugins, clear, settle, close and delete in that order |
| `CniManager.Manager.JoinSetup` | internal/host/network/manager_cni.go:115-144 | the tracker in flight, or a new one led by the caller |
| `CniManager.Manager.JoinTeardown` | internal/host/network/manager_cni.go:276-298 | the same for teardowns, in their own map |
| `CniManager.Manager.Finish` | internal/host/network/manager_cni.go:147-152 | outcome set, done closed, tracker out of its map |
| `VsockLeases.LeasesAreExclusive` | internal/vsock/allocator.go:47-112 | in every run of many processes with crashes and failing writes: no two live leases share a CID, and with a cooldown a cleanly released CID is granted again only to an Allocate that started that much after the release |
| `VsockLeases.PastCooldown` | internal/vsock/allocator.go:137-156 | an allocation that gets past the cooldown started late enough after the last clean release, also when the metadata cannot be read |
| `VsockLeases.GrantedExactly` | internal/vsock/allocator.go:54-91 | the cooldown is exact: in every run, of the Allocates that probe a cleanly released CID, one that started before the cooldown was over does not get it, and the first that started later does, if nothing fails, also when the metadata cannot be read |
| `VsockLeases.GrantedAfterCrash` | internal/vsock/allocator.go:137-156 | the same for a CID whose holder crashed: the cooldown counts from the start of the Allocate that got it, or, when the metadata cannot be read, from the time it was written |
| `VsockLeases.StepKeeps` | internal/vsock/allocator.go:47-156 | every step keeps the lease invariant |
| `VsockLeases.NoCooldownNoGap` | internal/vsock/allocator.go:137-140 | for every cooldown that is not positive, a run that grants a CID to an Allocate that started before its release |
| `VsockLeases.GapNeedsCooldown` | internal/vsock/allocator.go:137-140 | every grant of a released CID, in every run, is to an Allocate that started after the release if and only if the cooldown is positive |
| `VsockAllocator.Allocator.Allocate` | internal/vsock/allocator.go:47-92 | whenever it returns: the CID of the first probe that finds one eligible, and an error only if the range was left without one |
| `VsockAllocator.ReturnsExactly` | internal/vsock/allocator.go:54-91 | it returns iff maxCID is below 2^32 - 1 or some probe succeeds |
| `VsockAllocator.LowestIsTaken` | internal/vsock/allocator.go:54-91 | in a range below 2^32 - 1 the CIDs are probed in order and once each, so the one taken is the lowest eligible one, and an error comes after all of them |
| `VsockAllocator.ScanLeavesRange` | internal/vsock/allocator.go:54-54 | with maxCID 2^32 - 1 the k-th probe is of minCID + k modulo 2^32, which goes on below minCID |
| `VsockAllocator.ScanEnds` | internal/vsock/allocator.go:54-54 | a fruitless scan ends iff maxCID is below 2^32 - 1 |
| `VsockAllocator.LockFile.WriteMetadata` | internal/vsock/allocator.go:125-135 | the file after a write that works, fails before, or fails after truncation |
| `VsockAllocator.Lease.Release` | internal/vsock/allocator.go:95-112 | release time written and lock dropped whatever the write comes to; a second call does nothing |
| `OverlayEndToEnd.OverlayIsMounted` | internal/shim/platform/mounts/linux.go:349-417 | for 1 to 9 EROFS layers and an ext4 disk: host accepts, the k-th device letter names the k-th disk, the layers are attached read-only and the ext4 disk is too if and only if its options say ro or readonly, and the guest mounts layers at mdir/k and an overlay with lowerdir the layers in order and upper and work on the ext4 mount, both made first, or one of its operations failed |
| `OverlayEndToEnd.TmpfsOverlayIsMounted` | internal/shim/platform/mounts/linux.go:237-308 | the same for 1 to 10 layers under an overlay of the request, with its options in any order and any further options among them: upper and work move to a tmpfs mounted behind the layers, and the other options reach the mount in place |
| `OverlayEndToEnd.TooManyLayers` | internal/shim/platform/mounts/linux.go:73-75 | ten layers and an ext4 disk are refused |
| `OverlayEndToEnd.DirsAreMoved` | internal/shim/platform/mounts/linux.go:194-308 | host directories of an overlay become templates on the mount behind the layers, wherever they stand among the options, and the other options stay |
| `OverlayEndToEnd.Generated` | internal/shim/platform/mounts/linux.go:349-417 | the overlay is added behind EROFS mounts and a last ext4 mount, with indices of just those |
| `OverlayEndToEnd.DirectoriesAccepted` | internal/host/mountutil/mount.go:32-97 | both mkdir paths are accepted, and only the overlay's own options remain |
| `OverlayTemplates.ExpandMount` | internal/host/mountutil/mount.go:366-401 | the printed mount template expands to the mount point |
| `OverlayTemplates.ExpandOverlay` | internal/host/mountutil/mount.go:306-356 | the printed overlay template expands to the mount points in order |
| `TemplateLemmas.FormatIsSimultaneous` | internal/host/mountutil/mount.go:366-401 | if every value needed holds a slash and no brace, formatString succeeds exactly when expanding all templates at once does with no marker left, with the same text |
| `TemplateLemmas.FourPassesAreOne` | internal/host/mountutil/mount.go:284-356 | four passes, each over the output of the last, are one simultaneous substitution |
| `TemplateLemmas.SafeMountsAreTame` | internal/host/mountutil/mount.go:374-391 | mounts whose source, target and mount point are brace-free paths make every text meet that condition |
| `Templates.BuildOverlayDirs` | internal/host/mountutil/mount.go:306-324 | the mount points from start to end in either direction, or an error out of bounds |
| `HostMountLaws.LettersNameDisks` | internal/shim/platform/mounts/linux.go:57-182 | for every accepted request the j-th device of the guest is the j-th disk added and the j-th disk-backed mount, under letter 'a' + j; the disk is read-only iff the mount is EROFS or asks for ro or readonly, and VMDK iff it is EROFS and its file ends in .vmdk; no two disks have one name |
| `HostMountLaws.AcceptedExactly` | internal/shim/platform/mounts/linux.go:57-109 | a request is accepted iff every type is supported and it needs at most ten disks |
| `HostMountLaws.GuestOptions` | internal/shim/platform/mounts/linux.go:136-150 | the guest sees every option but loop and, for EROFS, device paths |
| `HostMountLaws.OtherMountsPass` | internal/shim/platform/mounts/linux.go:89-109 | a mount of an accepted request that is neither disk-backed nor an overlay reaches the guest as it is |
| `HostMountLaws.OverlayMovesExactly` | internal/shim/platform/mounts/linux.go:194-308 | an overlay of the request gets a tmpfs for its upper and work directories iff it names both, one of them as a host path, and its lower directories by a range of mounts; otherwise it reaches the guest as it is |
| `HostMountLaws.ErofsDisk` | internal/shim/platform/mounts/linux.go:111-134 | the disk is attached as VMDK iff its file is one, and the merged VMDK next to the metadata file is used in its place iff it is there |
| `HostManager.HandleEROFS` | internal/shim/platform/mounts/linux.go:111-153 | guest mount and disk of an EROFS layer, and the next letter |
| `HostManager.HandleExt4` | internal/shim/platform/mounts/linux.go:156-182 | guest mount and disk of an ext4 file, the disk read-only iff the options say ro or readonly, the next letter, and the request's options filtered in place |
| `HostManager.FilterOut` | internal/shim/platform/mounts/linux.go:326-336 | options without loop |
| `HostManager.TransformOne` | internal/shim/platform/mounts/linux.go:89-109 | one mount of the request, whether it takes a letter, and what is left of it |
| `HostManager.TransformEach` | internal/shim/platform/mounts/linux.go:57-71 | all mounts of the request with consecutive letters, as they were before the loop even if one object appears twice |
| `HostManager.LeftIsTransformed` | internal/shim/platform/mounts/linux.go:156-182 | a mount whose options were filtered in place is transformed as before |
| `HostManager.AddDisksToVM` | internal/shim/platform/mounts/linux.go:310-324 | exactly the disks before the first failure are added, in order |
| `HostManager.Transform` | internal/shim/platform/mounts/linux.go:57-87 | the plan if every disk is added; no disk when the request is refused, and those before the first failure when AddDisk fails |
| `GuestMountLaws.AllOrNothing` | internal/host/mountutil/mount.go:167-258 | whatever fails: either every component is mounted at its point, or, if every unmount worked, nothing is left but components of type mkdir, which clean-up skips |
| `GuestMountLaws.CleanupUndoesAll` | internal/host/mountutil/mount.go:148-161 | the clean-up of a successful run unmounts everything |
| `GuestMountLaws.NewestFirst` | internal/host/mountutil/mount.go:148-161 | clean-up unmounts the k-th newest component k-th |
| `GuestMountLaws.MkdirRoundTrip` | internal/host/mountutil/mount.go:32-77 | path:mode:uid:gid is read back as written if the text of the base directory is a prefix of the path, and refused otherwise |
| `GuestMountLaws.MkdirPathOnly` | internal/host/mountutil/mount.go:32-77 | a path alone gets mode 0755 and keeps its owner |
| `GuestMountLaws.MkdirWithMode` | internal/host/mountutil/mount.go:32-77 | path:mode is read back as written and keeps its owner |
| `GuestMountLaws.MkdirWithUser` | internal/host/mountutil/mount.go:32-77 | path:mode:uid is read back as written and keeps its group |
| `GuestMountLaws.ModeRoundTrip` | internal/host/mountutil/mount.go:32-77 | an octal mode is read back exactly when it has 32 bits at most |
| `GuestManager.Guest.CleanupMounts` | internal/host/mountutil/mount.go:148-161 | unmounts newest first, goes on after failures and reports them |
| `GuestManager.Guest.ApplyMkdirSpecs` | internal/host/mountutil/mount.go:100-112 | directories and owners in order, up to the first failure |
| `GuestManager.Guest.MountComponent` | internal/host/mountutil/mount.go:176-250 | one component: directory, templates, mkdirs, mount |
| `GuestManager.Guest.All` | internal/host/mountutil/mount.go:167-258 | all components in order, with clean-up on the first failure |
| `GuestManager.FormatOptions` | internal/host/mountutil/mount.go:115-127 | every option expanded, or an error |
| `GuestManager.ProcessMkdirOptions` | internal/host/mountutil/mount.go:80-97 | mkdir options parsed, the others kept in order |
| `CmdlineRoundTrip.NetworkRoundTrip` | internal/host/vm/qemu/kernel_cmdline.go:48-129 | for plain network fields, whatever the init arguments, every part of the ip= parameter that the guest finds is the configured one by its position in the kernel's nfsroot documentation: client, no server, gateway, netmask, no host name, eth0, none and the first two DNS servers; and the guest's own readers recover the gateway and those servers |
| `KernelReader.LineIsRead` | internal/host/vm/qemu/utils.go:160-183 | splitting the printed line at white space outside double quotes gives back every word, arguments with spaces included, if console and network hold no white space or quotes and no argument is empty or holds a quote |
| `KernelReader.KernelConfiguresNetwork` | internal/host/vm/qemu/kernel_cmdline.go:96-118 | of that line the kernel, which reads up to the two dashes, configures exactly the network of the configuration, part by part, or none |
| `KernelReader.KernelTakesOptions` | internal/host/vm/qemu/kernel_cmdline.go:48-93 | and takes console, log level, quiet and the init program from the configuration |
| `KernelReader.InitReadsVsock` | internal/host/vm/qemu/kernel_cmdline.go:121-129 | and init, which gets the words behind the dashes, reads RPC port, stream port and CID each from the flag of that name |
| `CmdlineRoundTrip.SupervisorRoundTrip` | internal/guest/vminit/supervisor/supervisor.go:58-97 | the guest recovers the four printed supervisor values iff none holds white space |
| `CmdlineRoundTrip.QuotedSecretIsLost` | internal/host/vm/qemu/utils.go:160-183 | a quoted secret with a space is not recovered |
| `KernelCmdline.BuildNetworkParam` | internal/host/vm/qemu/kernel_cmdline.go:96-118 | the ip= parameter that NetworkRoundTrip and KernelReader.KernelConfiguresNetwork read back part by part; nothing without a network or address |
| `KernelCmdline.FormatInitArgs` | internal/host/vm/qemu/utils.go:160-174 | the arguments, quoted where needed, joined by spaces |
| `KernelCmdline.ConfigureDNS` | internal/guest/vminit/system/init.go:304-322 | the nameservers of the first ip= parameter |
| `KernelCmdline.FindGateway` | internal/guest/vminit/system/init.go:208-220 | the gateway of the first ip= parameter |
| `KernelCmdline.ParseFromCmdline` | internal/guest/vminit/supervisor/supervisor.go:58-97 | the supervisor values seen last, with the default address, if any was seen |
| `ShimSafety.CreatingIsOwned` | internal/shim/task/create.go:75-109 | in every interleaving: at most one Create owns the state, it is Creating iff one does unless shutting down, and every change is a valid transition |
| `ShimSafety.StateIsHistory` | internal/shim/lifecycle/state.go:97-150 | in every interleaving the state is what the steps so far make it: ShuttingDown from the first shutdown on, before that Deleting from the first admitted Delete on, Running once a Create succeeded, Creating while one is under way, and Idle otherwise |
| `ShimSafety.AdmittedExactly` | internal/shim/lifecycle/state.go:122-130 | a Delete is admitted iff a Create succeeded, no Delete was admitted before and no shutdown has begun; a Create iff none succeeded or is under way and no shutdown has begun |
| `ShimSafety.WorkIsChecked` | internal/shim/task/create.go:75-109 | in every interleaving a Create sets up mounts or stores its container only after it found no VM instance, no container and a valid ID |
| `ShimSafety.ShutdownIsFinal` | internal/shim/lifecycle/state.go:114-118 | ShuttingDown is absorbing |
| `ShimSafety.NoCreateAfterSuccess` | internal/shim/task/create.go:369-424 | after a Create succeeded none is admitted again |
| `ShimSafety.CleanupsRunOnce` | internal/shim/task/service.go:375-385 | a stored mount clean-up runs at most once across rollback, Delete, failed Delete and shutdown, and one that still waits has not run |
| `ShimSafety.LostExactly` | internal/shim/task/service.go:375-385 | in every run, once all calls have come to an end, a clean-up has not run if and only if it was stored in the container after the last step that takes one out |
| `ShimSafety.RefusedDeleteCleansUp` | internal/shim/task/service.go:632-643 | in every run, a Delete that the guest refused has, by its end, taken the mount clean-up out of the container, and it has run |
| `ShimSafety.AcceptedDeleteCleansUp` | internal/shim/task/service.go:645-739 | in every run, a Delete that the guest accepted has, by its end, removed the container it was for and run its mount clean-up |
| `ShimSafety.LateStoreIsLost` | internal/shim/task/create.go:369-424 | a run in which a Create stores its container after shutdown took the clean-ups, and its clean-up never runs |
| `ShimSafety.FailedDeleteIsFinal` | internal/shim/task/service.go:742-798 | from Deleting only ShuttingDown can follow |
| `ShimSafety.StepKeeps` | internal/shim/task/service.go:632-739 | every step of Create, Delete and shutdown keeps ownership of the state and of clean-ups |
| `ShimObjects.StateMachine.Transition` | internal/shim/lifecycle/state.go:97-110 | moves iff the pair is valid and the state is the expected one |
| `ShimObjects.StateMachine.ForceTransition` | internal/shim/lifecycle/state.go:114-118 | moves whatever the state is, and returns it |
| `ShimObjects.StateMachine.TryStartCreating` | internal/shim/lifecycle/state.go:122-124 | Idle to Creating, a valid transition, or nothing |
| `ShimObjects.StateMachine.TryStartDeleting` | internal/shim/lifecycle/state.go:128-130 | Running to Deleting, a valid transition, or nothing |
| `ShimObjects.StateMachine.MarkCreated` | internal/shim/lifecycle/state.go:134-140 | Creating to Running, a valid transition, or nothing |
| `ShimObjects.StateMachine.MarkCreationFailed` | internal/shim/lifecycle/state.go:144-150 | Creating to Idle, a valid transition, or nothing |
| `ShimObjects.CleanupOrchestrator.ExecuteFrom` | internal/shim/lifecycle/cleanup.go:96-126 | runs the registered phases from start that are not done, in order, marks them done, and reports those that fail |
| `ShimObjects.CleanupOrchestrator.ExecutePartial` | internal/shim/lifecycle/cleanup.go:86-93 | the same from a phase, or from the first if it is unknown |
| `ShimObjects.PhasesRunOnce` | internal/shim/lifecycle/cleanup.go:96-126 | over any series of calls no phase runs twice, and each call runs its phases in canonical order |
| `ShimObjects.CreateCleanup.Rollback` | internal/shim/task/create.go:45-53 | every step is undone, the last one added first |
| `ShimObjects.ReversedAt` | internal/shim/task/create.go:45-53 | what last in, first out means position by position |

## Left out

- Lock-level exit delivery: `HandleStart` completes its subscription and registers the process under two
  locks; an exit between them reaches neither side. Delivery is stated with each tracker call as one step.
- PID reuse: a PID is not given out again, to any process, before the exit of its last holder is notified, nor
  while a start window waits for a process with it; the code's own comment names the first case as one it
  cannot handle.
- After `Cleanup` a container's processes no longer register and its init's exit is no longer notified in the
  ordering model and in `TrackerRuns`, and its id is not used again; of an init's exits the ordering model
  follows the first; a process whose start window was closed without it
  (HandleStart with PID 0, or Cancel), or whose container was deleted, counts as given up, and nothing is
  promised about its exit.
- Float rounding: percentages and loads are real numbers.
- Memory blocks: a DIMM is online or offline as a whole, as the guest's answers say; which blocks of the
  guest's sysfs belong to it is not modelled.
- Asynchronous device removal: an unplug that reports success has taken effect by the next query; commands
  that report an error have had no effect other than those modelled.
- Durations of the settings are taken as already parsed, and the defaults used when the settings file cannot
  be read are left out.
- CpuSet.ParseCPUSet: stated for the lists on which the code returns, which RangeEnds and
  PrintedListCounts tell apart.
- CpuSet.AddPart: stated for the parts on which the code returns, as CpuSet.AddRange is for the ranges.
- KernelReader.LineIsRead: double quotes group white space wherever they stand in a word, and are dropped; this is
  more than the kernel's parser does for quotes inside a word, which the printed line never has.
- KernelReader.InitReadsVsock: for extra arguments that do not begin with a flag, which could set a number again.
- VsockAllocator.Allocator.Allocate: stated for the scans that end, which ReturnsExactly tells apart.
- VsockLeases.LeasesAreExclusive: takes a Stat on the open lock file to succeed, and the clock not to go
  backwards.
- GuestMounts: the directory of the i-th component is mdir, a slash and i, which is what joining them gives
  for the cleaned absolute path that callers pass; mount options are not interpreted further.
- Overlays of a request whose template does not cover exactly the mounts before it, generated overlays
  behind mounts that are not all EROFS: modelled, with nothing proved about the resulting indices.
- CNI plugins, IPAM verification, network namespaces and error classification: one step with any outcome.
- Panics in clean-up functions, contexts and time-outs other than the cancellation of a waiter.
- QMP sockets, vsock dialling, TTRPC, I/O forwarding, inotify, VMDK extents, logging and metrics.
- Stopping hotplug controllers, I/O shutdown and network clean-up as phases: only that each phase runs at
  most once and in order, and that mount clean-ups run at most once.
