# USB HAL model

Two Android HAL services drive USB on this device. The Type-C and DisplayPort service (`usb/usb/Usb.cpp`)
runs request threads, a uevent thread, a DisplayPort poll worker and short-lived shutdown helpers over
shared fields, five mutexes, one eventfd and two timers. The gadget service (`usb/gadget/UsbGadget.cpp`)
tears the USB gadget down and sets it up again on request. This project models both in Dafny and proves
what their protocols, loops and error paths keep.

How the code is rendered:

- Interleaved threads are state machines whose steps are single accesses to shared state. Results about
  them hold in every state of every run (`WorkerProtocol`, `WorkerStops`, `WorkerJoins`,
  `WorkerWaits`, `RoleSwitch`, `LockOrder`, `UsbLocks`, `UsbCycles`).
- Routines that change fields are methods of classes with those fields (`DisplayPortPoll.Usb`,
  `GadgetService.UsbGadget`, `PortRoles.PortManager`, `PortStatus.StatusQuery`, `CallbackThread.Usb`,
  `UsbData.Usb`). Each is proved equal to a function of the old state, and the lemmas are about that
  function on whole sequences of events, calls or requests. Loops are loops with invariants, and the
  gotos of the poll worker are labelled blocks that end where its cleanup labels stand.
- The file system, the kernel and the libraries choose the outcome of every read, write and call. They
  appear as parameters, so each result covers every pattern of failures.

What turned out not to hold is kept as it is in the code and stated:

- `DISPLAYPORT_SHUTDOWN_CLEAR` is 0, and writing it to an eventfd clears nothing
  (`WorkerProtocol.StaleShutdownStopsNewWorker`). The counter acts as a message channel exactly when no two
  messages meet (`EventFd.RunRefinesChannel`); in every run a read stops its worker exactly when one single
  shutdown is unread (`WorkerStops.ReadStopsIff`), so a shutdown that meets an IRQ check is lost, and one
  left unread stops the next worker exactly when nothing else is posted first (`WorkerStops.FirstReadStops`).
- A second shutdown before the helper of the first has joined makes two helpers join one thread
  (`WorkerJoins.SecondHelperJoinsTwice`); without one, each worker is joined at most once.
- At most one poll worker is live only if a setup that waits resumes after the old worker has exited. A
  wait that times out breaks it. A signal breaks it exactly when the wait begins for a live worker while
  some helper can signal before that worker exits (`WorkerWaits.SignalDecision`).
- The signal a setup waits for can come before it waits. The wait can then end only by its deadline, which
  is so exactly when every helper has finished (`WorkerWaits.DeadlineDecision`).
- Removing the callback joins the uevent thread under `mLock`, which that thread may ask for. A deadlock is
  reachable exactly where callbacks may be both registered and removed (`UsbLocks.DeadlockDecision`), and a
  state is in one exactly when that thread asks for `mLock` while it is joined (`UsbCycles.CycleDecision`).
- A mode switch whose wait timed out reports failure even if its partner has come back by then
  (`RoleSwitch.TimeoutHidesPartner`).
- A gadget request that waits for FunctionFS and whose answer the callback rejects is answered twice
  (`GadgetRequests.OneAnswer`). If a teardown fails while the FunctionFS monitor runs, functions can be
  reported as applied for which the gadget is not set up, exactly when they are not the ones of the links
  and ids that are left (`GadgetRequests.RunIsReal`, `GadgetRequests.UntouchedRunIsReal`).
- After turning USB data off has failed halfway, turning it on again is reported as a success and does
  nothing (`UsbData.EnableAfterBreak`).
- A port whose name has a hyphen is never connected (`PortStatus.HyphenatedPort`), and a role node that
  holds a text of the other kind makes a status query access the wrong member of a union
  (`PortRoles.TagKept`, `PortStatus.PortOutcomeDecision`).

`Text` and `Wrappers` hold string operations and the option type. The bits of `GadgetFunction` are those of
the AIDL interface, whose file is not part of the repository; only that they are distinct matters.

## Model

| member | source | states |
|---|---|---|
| EventFd.CounterDecodes | usb/usb/Usb.cpp:1768-1783 | After any writes between two reads the counter value identifies the merged messages for 0, 1 and 2; 3 is one check or three shutdowns; all else is at least 4, saturation included |
| EventFd.PostDecision | usb/usb/Usb.h:78-80 | A write adds its code's value, 0, 1 or 3, unless that would take the counter beyond its largest value |
| EventFd.WorkerSees | usb/usb/Usb.cpp:1776-1783 | The worker sees the shutdown code exactly for one single unread shutdown, and the check code exactly for one check or three shutdowns |
| EventFd.SignalsAreThePosts | usb/usb/Usb.cpp:1863 | Writing the clear code adds no message and takes none away |
| EventFd.WindowRefinesChannel | usb/usb/Usb.cpp:1768-1783 | In one read window the worker reacts as to a message channel exactly when at most one message is unread |
| EventFd.RunRefinesChannel | usb/usb/Usb.cpp:1768-1783 | Over any run of writes and reads the counter refines a message channel if and only if no two messages are merged into a read |
| WorkerProtocol.InvPreserved | usb/usb/Usb.cpp:1826-1924 | Every step of setup, shutdown, helpers, uevent thread and workers keeps the protocol's invariant, a resumed wait only once no worker is live |
| WorkerProtocol.WorkerExclusion | usb/usb/Usb.cpp:1826-1924 | In every interleaving in which waits end after the old worker's exit: at most one live worker, covered by Starting or Running, and no worker with a destroy flag it did not set by reading the shutdown itself |
| WorkerProtocol.SignalsImplyExit | usb/usb/Usb.cpp:1847-1856 | The hypothesis of the exclusion holds in every run without timeouts in which, whenever a wait for a live worker begins, each unfinished helper has yet to join that worker; helpers of earlier shutdowns of the same worker are no obstacle |
| WorkerProtocol.WaitInvPreserved | usb/usb/Usb.cpp:1881-1891 | Every step keeps that a signalled wait has no live worker, because the helper joined it first |
| WorkerProtocol.EarlyResumeBreaksExclusion | usb/usb/Usb.cpp:1853-1877 | The hypothesis is needed: whatever run leads to a wait beside a live worker, ending the wait then leads to two live workers |
| WorkerProtocol.TimeoutBreaksExclusion | usb/usb/Usb.cpp:1847-1856 | A run with a timed-out wait reaches two live workers |
| WorkerProtocol.OverlapLosesWorker | usb/usb/Usb.cpp:1806 | Then the first worker's exit clears the running flag of the second, which no flag covers |
| WorkerWaits.LateSignalBreaksExclusion | usb/usb/Usb.cpp:1847-1891 | That condition is needed in every run: where a wait for a live worker begins while another helper could signal first, there is a continuation with two live workers and no timeout |
| WorkerWaits.SignalDecision | usb/usb/Usb.cpp:1849-1851 | A wait about to begin can end by a signal beside a live worker if and only if the newest worker is live then and some helper could signal before it exits |
| WorkerWaits.StaleHelperBreaksExclusion | usb/usb/Usb.cpp:1881-1891 | Without any timeout, the signal of a helper of an earlier worker does that |
| WorkerWaits.DeadlineDecision | usb/usb/Usb.cpp:1849-1851 | A wait that has not been signalled can end only by its deadline if and only if every helper has finished, whether the worker is live or not |
| WorkerWaits.SignalIsLost | usb/usb/Usb.cpp:1848-1851 | Such a state is reachable with the worker gone: its helper has signalled between its creation and the beginning of the wait |
| WorkerWaits.SetupWaits | usb/usb/Usb.cpp:1847-1860 | A setup that found a worker running goes on only after its wait has ended, though the worker may be gone or the helper could not be created |
| WorkerWaits.SectionChoices | usb/usb/Usb.cpp:1838-1919 | Setup gives up exactly if a worker is starting and stops one exactly if it runs; it ends with a new worker or, if that fails, no longer starting; an unforced shutdown makes a helper exactly for a running worker whose directory is gone |
| WorkerWaits.CheckSawRunning | usb/usb/Usb.cpp:1272-1277 | An IRQ check is posted only after a worker was seen running |
| WorkerProtocol.MergedShutdownIsLost | usb/usb/Usb.cpp:1275 | A reachable state in which a shutdown that met an unread IRQ check has been lost: the worker polls on and the helper waits for it |
| WorkerStops.EventfdIsUnread | usb/usb/Usb.cpp:1768-1783 | In every run of the protocol the counter holds exactly what the codes written since the last read add up to |
| WorkerStops.ReadStopsIff | usb/usb/Usb.cpp:1776-1779 | In every run a read stops its worker iff the unread messages are one single shutdown; a shutdown that is there is missed iff another message is there with it |
| WorkerStops.FirstReadStops | usb/usb/Usb.cpp:1690-1779 | A worker's first read stops it iff one single shutdown was unread at its creation and nothing was posted since, or nothing was and one single shutdown was posted; by a shutdown older than itself exactly in the first case |
| WorkerStops.StoppedWorkerExits | usb/usb/Usb.cpp:1690-1806 | In every continuation a worker that a read has stopped never polls or reads again, and has exited exactly when it has taken two more steps of its own |
| WorkerStops.WorkerTurns | usb/usb/Usb.cpp:1690-1786 | A live worker can always go on; it polls next exactly at its loop head with the destroy flag down, and leaves exactly with it up or when its setup or wait fails |
| WorkerJoins.EachJoinedOnce | usb/usb/Usb.cpp:1881-1924 | In every run that creates a helper only while none is for the newest worker, no two helpers are for one worker, be it before, during or after the join |
| WorkerJoins.SecondHelperJoinsTwice | usb/usb/Usb.cpp:1881-1924 | The condition is needed in every run: when it is violated, a continuation completes two joins of one worker |
| WorkerJoins.TwoShutdownsJoinTwice | usb/usb/Usb.cpp:1291-1293 | Two change events in a row lead there |
| WorkerProtocol.StaleShutdownStopsNewWorker | usb/usb/Usb.cpp:1863 | A reachable state in which a shutdown left unread has stopped a worker created after every helper had finished, despite the clear in between |
| LockOrder.CycleJoinsHolding | usb/usb/Usb.cpp:1086-1119 | Among any number of threads that nest mutexes by rank, as these do, any wait cycle goes through a thread that joins another while it holds a mutex |
| LockOrder.DeadlockFree | usb/usb/Usb.cpp:1086-1119 | A reachable state in which nobody joins under a mutex has no wait cycle, and some thread can move until all are finished |
| UsbLocks.RoutinesAreDisciplined | usb/usb/Usb.cpp:1086-1119 | Every routine acquires in the order RoleSwitch, Partner, mLock, DisplayPort, DisplayPortCV; only the shutdown helper and the removal of the callback join, and only the removal while holding |
| UsbLocks.RoutinesAcquire | usb/usb/Usb.cpp:1086-1119 | Which mutexes each routine takes and what it holds then, as a table for all routines |
| UsbLocks.SwitchRoleIsDisciplined | usb/usb/Usb.cpp:583-641 | switchRole with switchMode climbs from RoleSwitch over Partner and over mLock |
| UsbLocks.UeventFieldIsDisciplined | usb/usb/Usb.cpp:1231-1297 | A uevent field's locking climbs, its trylock of RoleSwitch after a query included |
| UsbLocks.UsbDeadlockFree | usb/usb/Usb.cpp:1212-1301 | With any number of threads of all routines, callback registration and removal included: a reachable state in which no removal is at its join has no wait cycle, and something moves until all are finished |
| UsbLocks.CyclesNeedRemoval | usb/usb/Usb.cpp:1386-1391 | Every wait cycle goes through a thread that removes the callback and joins under mLock |
| UsbLocks.RemovalDeadlocks | usb/usb/Usb.cpp:1386-1391 | Such a cycle is reachable: the removal and the uevent thread block each other for good |
| UsbLocks.DeadlockDecision | usb/usb/Usb.cpp:1374-1409 | For every choice of routines that may run, a wait cycle is reachable if and only if registration, removal and the uevent thread that registration starts are all among them; likewise a state in which nothing moves |
| UsbCycles.CycleDecision | usb/usb/Usb.cpp:1386-1391 | A reachable state, of any number of threads of all routines, holds a wait cycle if and only if a removal of the callback is at its join while the uevent thread it joins asks for mLock |
| UsbCycles.ScannerAsksHigh | usb/usb/Usb.cpp:1231-1268 | A blocked uevent thread that waits for a blocked thread asks for mLock or higher: it only tries mRoleSwitchLock, and an owner of mPartnerLock is never blocked |
| UsbCycles.RoutinesAreShaped | usb/usb/Usb.cpp:476-504 | Nothing is asked for under mPartnerLock, mLock is never waited on, the removal takes only mLock, and the uevent thread never blocks on mRoleSwitchLock |
| RoleSwitch.InvPreserved | usb/usb/Usb.cpp:460-511 | Every step of switchers and uevent thread keeps that locks, mPartnerUp and port_type agree with what has happened so far |
| RoleSwitch.PhaseMeaning | usb/usb/Usb.cpp:476-484 | What "the partner came" means: an add event after the last clear, with no clear or new switch between |
| RoleSwitch.RoleSwitchSafety | usb/usb/Usb.cpp:460-511 | In every run: switchMode returns true exactly when its latest wakeup was no timeout and a partner came after its own clear; once it has slept it returns false exactly when that wakeup was its deadline; the uevent thread never writes "dual" during a role switch; at unlock port_type is the request on success and "dual" on failure |
| RoleSwitch.SuccessSawPartner | usb/usb/Usb.cpp:485-502 | A success has a partner-add event after the clear that the same switch made |
| RoleSwitch.NoLostWakeup | usb/usb/Usb.cpp:1231-1234 | A switch never sleeps with the flag up, except before the signal of the thread that still holds the lock |
| RoleSwitch.TimeoutHidesPartner | usb/usb/Usb.cpp:491-494 | A run in which the partner comes after the clear and switchMode still reports failure |
| Uevent.DecidingFields | usb/usb/Usb.cpp:1229-1284 | The action and DisplayPort driver fields are recognised exactly by their prefix; no earlier branch takes one |
| Uevent.UeventEvent | usb/usb/Usb.cpp:1212-1301 | The cursor scan of the buffer has exactly the effects of the message's fields up to the first empty one, and none for an empty or a full buffer |
| Uevent.Scan | usb/usb/Usb.cpp:1228-1300 | For every classification and message the scan stays inside the buffer, terminates, and equals a pass over the leading fields |
| Uevent.NextField | usb/usb/Usb.cpp:1299-1300 | Skipping to after the next NUL |
| Uevent.PassIsEffects | usb/usb/Usb.cpp:1278-1297 | The pass with the type seen so far equals: effects of the plain fields before the first driver field, then the one poll effect of the last action before it |
| Uevent.SetupDecision | usb/usb/Usb.cpp:1278-1297 | A message sets the poll up if and only if the last action before its first DisplayPort driver field begins with ACTION=bind |
| Uevent.ShutdownDecision | usb/usb/Usb.cpp:1278-1297 | It shuts the poll down if and only if that action begins with ACTION=change |
| Uevent.PlainDecision | usb/usb/Usb.cpp:1229-1284 | It has any other effect if and only if one of its leading fields before the driver field gives it: "add" or "remove", text on one line and "-partner"; one of the four prefixes of a port change; or the cooling device's driver |
| Uevent.ClassifyGives | usb/usb/Usb.cpp:1229-1284 | Each field has the effect of its own text and no other, whichever branch comes first |
| Uevent.FieldsJoin | usb/usb/Usb.cpp:1299-1300 | The fields have no NUL and joined by NULs are the message |
| Uevent.LeadingIsPrefix | usb/usb/Usb.cpp:1228 | The leading fields are those before the first empty one |
| DisplayPortAttributes.HpdMirrors | usb/usb/Usb.cpp:1479-1538 | After a success for hpd the DRM text starts with "0" iff the Type-C text does; a failure leaves it; "0" is never written over "0" |
| DisplayPortAttributes.PinAndOrientationMirror | usb/usb/Usb.cpp:1519-1537 | A pin call succeeds exactly if its text is read, has a "[" and is accepted, and then the DRM holds the selection; an orientation call exactly if read and accepted, and then the DRM holds the text; a failure leaves the node |
| DisplayPortAttributes.HpdAndCountSucceed | usb/usb/Usb.cpp:1464-1537 | Exactly when an hpd call, a count call and an override succeed |
| DisplayPortAttributes.SelectedText | usb/usb/Usb.cpp:1519-1530 | The selection is the character after the first "[", nothing at the end of the text, and missing without a "[" |
| DisplayPortAttributes.ForwardFrame | usb/usb/Usb.cpp:1479-1538 | A call touches its own node only, and the IRQ cache only for a count |
| DisplayPortAttributes.HpdAgreesWithMirror | usb/usb/Usb.cpp:1464-1503 | After any run of calls and of the overrides that force hpd low after a shutdown, the DRM level is that of the latest one that succeeded, as if no write had been skipped |
| DisplayPortAttributes.CallForwardsChange | usb/usb/Usb.cpp:1504-1518 | One call makes the cache the parsed count and attempts a write exactly for a change |
| DisplayPortAttributes.IrqForwardsChanges | usb/usb/Usb.cpp:1504-1537 | Over any run of calls and overrides with any failures the counts attempted on irq_hpd are exactly the parsed ones that differ from their predecessor, from any initial cache; a failed write still consumes the change |
| DisplayPortWorker.ActivationBound | usb/usb/Usb.cpp:1687-1767 | Over any events: attempts are at most the maximum, attempts plus failed reads are the retry count, and armings are one more than that |
| DisplayPortWorker.ActivationSettlesForGood | usb/usb/Usb.cpp:1741-1767 | The activation timer is armed until a firing retries nothing, and from then on never again |
| DisplayPortWorker.FiringDecision | usb/usb/Usb.cpp:1744-1767 | A firing attempts an activation exactly when the partner's text starts with "no", the port's with "yes" and retries are left; it arms the timer again exactly then or on a failed read, and settles otherwise |
| DisplayPortWorker.HpdIsGuarded | usb/usb/Usb.cpp:1702-1729 | Only an hpd event makes an hpd call, as its last; before it the event has tried the pin and the orientation, each exactly unless it is remembered as set |
| DisplayPortWorker.RememberedIsForwarded | usb/usb/Usb.cpp:1702-1729 | Over any events, pin and orientation are remembered as set exactly if one of the calls for them has succeeded |
| DisplayPortWorker.DebounceDecision | usb/usb/Usb.cpp:1717-1740 | Over any events the debounce timer is armed exactly if an hpd or link event, or a forwarded pin or orientation event, armed it and it has not expired since |
| DisplayPortWorker.ReadObeysEventFd | usb/usb/Usb.cpp:1768-1783 | For every sequence of posts: the worker is told to stop exactly by one single shutdown, and forwards the IRQ count exactly for one check or three shutdowns |
| DisplayPortWorker.ListenDecision | usb/usb/Usb.cpp:1690-1786 | For every sequence of wakeups: exactly what is delivered up to the first shutdown code or empty read is handled, and the loop is left exactly if there is one or a wait fails other than by EINTR |
| DisplayPortWorker.PinSetIsDelivered | usb/usb/Usb.cpp:1702-1723 | In any run pinSet means that the DRM accepted the character after the first "[" of a read pin text |
| DisplayPortWorker.WorkerRunsCalls | usb/usb/Usb.cpp:1701-1785 | The worker's effect on the DRM is that of its writeDisplayPortAttribute calls in order |
| DisplayPortWorker.WorkerForwardsIrqChanges | usb/usb/Usb.cpp:1780-1782 | Over a worker's events the counts attempted are the changes among those read for the check code |
| DisplayPortPoll.DescriptorsBalance | usb/usb/Usb.cpp:1576-1809 | For every setup failure and event sequence a worker that left closed each descriptor it opened exactly once, in reverse order, with the running flag cleared |
| DisplayPortPoll.LifeDisarms | usb/usb/Usb.cpp:1788-1791 | A worker that leaves has both timers disarmed if they were when it started, or if its setup got as far as watching descriptors |
| DisplayPortPoll.LifeFlags | usb/usb/Usb.cpp:1597-1806 | Exactly when a life is over; its running, starting and destroy flags and what it remembers as forwarded then |
| DisplayPortPoll.ChainStartsDisarmed | usb/usb/Usb.cpp:1788-1806 | In any chain of workers that follow one another, wherever each failed or stopped, every one starts with both timers disarmed, announced as starting and without a destroy flag |
| DisplayPortPoll.LifeKeepsPromises | usb/usb/Usb.cpp:1576-1809 | Over a whole life from arbitrary fields: activation bound, delivered pin and IRQ changes together |
| DisplayPortPoll.Usb.constructor | usb/usb/Usb.cpp:519-541 | The fields' initial values, the IRQ cache and nodes arbitrary |
| DisplayPortPoll.Usb.WriteDisplayPortAttribute | usb/usb/Usb.cpp:1479-1538 | The method changes nodes, cache and write record as the forwarding function, error paths included |
| DisplayPortPoll.Usb.HandleHpd | usb/usb/Usb.cpp:1702-1717 | Pin and orientation are tried first unless set, then hpd, then the debounce timer is armed |
| DisplayPortPoll.Usb.HandlePin | usb/usb/Usb.cpp:1718-1723 | Only a success sets pinSet and arms the debounce timer |
| DisplayPortPoll.Usb.HandleOrientation | usb/usb/Usb.cpp:1724-1729 | Only a success sets orientationSet and arms the debounce timer |
| DisplayPortPoll.Usb.HandleActivate | usb/usb/Usb.cpp:1741-1767 | Retry count and activation timer after a firing |
| DisplayPortPoll.Usb.HandleEventFd | usb/usb/Usb.cpp:1768-1783 | The shutdown code sets the destroy flag, the check code forwards the IRQ count, other flags do nothing |
| DisplayPortPoll.Usb.HandleEvent | usb/usb/Usb.cpp:1702-1784 | One event changes fields, timers and locals as the worker function says, and the destroy flag only by a shutdown |
| DisplayPortPoll.Usb.HandleBatch | usb/usb/Usb.cpp:1701-1785 | Of one wakeup's events exactly those up to a shutdown or an eventfd error are handled, and control goes where that says |
| DisplayPortPoll.Usb.Poll | usb/usb/Usb.cpp:1690-1786 | The loop over wakeups handles exactly the events that are listened to, and ends on shutdown or on a failed wait |
| DisplayPortPoll.Usb.SetUpAndPoll | usb/usb/Usb.cpp:1602-1803 | Opens, the loop and the cascade of cleanup labels give the descriptor record and fields of a life |
| DisplayPortPoll.Usb.DisplayPortPollWork | usb/usb/Usb.cpp:1576-1809 | The whole routine is the life of a worker on the shared fields it finds |
| PortRoles.ExtractedIsRolePart | usb/usb/Usb.cpp:430-439 | The edited string is the text itself without both brackets; else what follows the first "[", up to the first "]" if that comes later: the wrap-around of the 64-bit count has no other effect |
| PortRoles.RolePartIsUnique | usb/usb/Usb.cpp:430-439 | That describes one string only |
| PortRoles.ExtractBetween | usb/usb/Usb.cpp:430-439 | For p + "[" + r + "]" + s with no bracket in p and no "]" in r the result is r, for any s |
| PortRoles.ExtractReversed | usb/usb/Usb.cpp:430-439 | With the brackets in the other order all that follows "[" is kept |
| PortRoles.ExtractUnchanged | usb/usb/Usb.cpp:430-439 | Exactly the texts without both brackets are left alone |
| PortRoles.GetCurrentRole | usb/usb/Usb.cpp:721-786 | The status and the union after a read, for each tag, failure and text |
| PortRoles.TagKept | usb/usb/Usb.cpp:721-786 | A read leaves the union at another member exactly when a connected port's node holds a text of the other kind, and then reports success |
| PortRoles.ModeIsRead | usb/usb/Usb.cpp:721-786 | A connected port's mode is an accessory's exactly as its accessory node says, else DFP for "host" and UFP for "device"; when it is an error or unrecognized |
| PortRoles.ModeTextIsPower | usb/usb/Usb.cpp:410-428 | The texts of roles: a mode is asked for by the text of the power role that goes with it, and power and data roles by their own |
| PortRoles.PortManager.SwitchRole | usb/usb/Usb.cpp:583-641 | The outcome, the node written and the one notification of a role switch, its retry after EAGAIN included |
| PortRoles.RoleTextRoundTrip | usb/usb/Usb.cpp:410-428 | Every power or data role, none included, is read back from the text it is written as |
| PortRoles.SwitchRoundTrip | usb/usb/Usb.cpp:602-617 | After a switch reported as a success, reading the connected port from the same contents gives that role with its tag |
| PortRoles.SwitchReported | usb/usb/Usb.cpp:611-619 | A completed write is a success if and only if the node now reads as the requested role |
| PortRoles.SwitchNeedsWrite | usb/usb/Usb.cpp:602-619 | A switch succeeds exactly if the node opens, the write, or after EAGAIN its one retry, is no EOF, and the node reads as the requested role |
| PortRoles.NodePaths | usb/usb/Usb.cpp:395-408 | The paths of the nodes; a mode is read from the data role's |
| PortRoles.NodeNamesDiffer | usb/usb/Usb.cpp:395-408 | Role nodes are equal only for the same port and tag |
| PortRoles.SwitchFrame | usb/usb/Usb.cpp:583-641 | A switch changes what is read for no other port, nor the power role by the data role or the reverse |
| PortStatus.GetTypeCPortNames | usb/usb/Usb.cpp:788-814 | The directory loop builds the map entry by entry, or nothing if the directory does not open |
| PortStatus.PortsAreNamed | usb/usb/Usb.cpp:788-814 | A port is in the map iff a link is about it, and connected iff such a link is a partner's |
| PortStatus.OrderIrrelevant | usb/usb/Usb.cpp:788-814 | Directories with the same entries give the same map in any order |
| PortStatus.PartnerFindsPort | usb/usb/Usb.cpp:805 | The first token of p + "-partner" is p exactly when p is not empty and has no hyphen |
| PortStatus.ConnectedIffPartner | usb/usb/Usb.cpp:788-814 | With hyphen-free port names a port is connected iff its own partner's link is there |
| PortStatus.HyphenatedPort | usb/usb/Usb.cpp:805 | A port with a hyphen in its name is connected in no directory |
| PortStatus.HyphenatedPartner | usb/usb/Usb.cpp:805 | Its own partner's link makes a port of another name connected |
| PortStatus.FillPort | usb/usb/Usb.cpp:838-920 | One port's status describes it in every field, or the first failure or abort is reported |
| PortStatus.AppendDataStatus | usb/usb/Usb.cpp:876-889 | The reasons are appended in order, or ENABLED if there is none |
| PortStatus.GetPortStatus | usb/usb/Usb.cpp:830-923 | Success exactly when every port can be reported, and then one describing status for each name of the map; otherwise the outcome of the first port that cannot |
| PortStatus.StatusMeaning | usb/usb/Usb.cpp:816-920 | What a reported status says, in terms of the node texts it was read from |
| PortStatus.DisconnectedHasNoRoles | usb/usb/Usb.cpp:736-737 | A disconnected port is reported with NONE roles, no role changes and no power brick |
| PortStatus.DataStatusIsReasons | usb/usb/Usb.cpp:876-889 | USB data is [ENABLED] exactly without a dock and a forced disable; otherwise a non-empty list of exactly the reasons that apply |
| PortStatus.PortOutcomeDecision | usb/usb/Usb.cpp:846-879 | A port can be reported iff the pogo text is unread or a number and the port is disconnected or its nodes are readable and hold texts of their own kind |
| PortStatus.StatusQuery.QueryVersion | usb/usb/Usb.cpp:1086-1119 | The callback gets a status exactly for a successful, non-empty query, and only then may it start the DisplayPort poll, never after the first setup |
| CallbackThread.Usb.SetCallback | usb/usb/Usb.cpp:1374-1409 | The callback, the destroy flag and the threads created and joined after a call |
| CallbackThread.CallsBalance | usb/usb/Usb.cpp:1374-1409 | Over any calls, failed creations included: created minus joined is one iff a callback is registered, plus the failed kills |
| CallbackThread.OneThreadPerCallback | usb/usb/Usb.cpp:1386-1390 | A thread exists exactly while a callback is registered if and only if every kill made succeeded |
| CallbackThread.LastCallback | usb/usb/Usb.cpp:1376-1405 | The registered callback is the one given last; none exactly if none was given or its thread could not be created; the destroy flag is raised exactly by a successful kill and lowered exactly by a first callback |
| CallbackThread.NoStaleDestroyFlag | usb/usb/Usb.cpp:1394-1395 | While a callback is registered the destroy flag is down |
| Timers.SetTimespecTimer | usb/usb/Usb.cpp:1811-1824 | The deadline is exactly now plus the delay; normalized for every delay that is not negative, and exactly when for a negative one; no 32-bit overflow |
| Timers.ArmTimerFd | usb/usb/Usb.cpp:1565-1574 | Seconds and nanoseconds recombine to ms; the timer is disarmed iff ms is 0 and refused iff negative |
| UsbData.Usb.EnableUsbData | usb/usb/Usb.cpp:113-214 | Nodes, flag, answer and poll request after turning data on or off, for every pattern of failed writes |
| UsbData.Usb.ResetUsbPort | usb/usb/Usb.cpp:250-273 | A reset pulls the gadget down and leaves the flag alone |
| UsbData.EnableReported | usb/usb/Usb.cpp:122-154 | A success to turn data on means it is on, exactly when the flag told the truth before |
| UsbData.DisableReported | usb/usb/Usb.cpp:155-200 | A success to turn data off means that signaling, pull-up, Vbus and host mode are off |
| UsbData.NodesFollowWrites | usb/usb/Usb.cpp:122-196 | Every node follows its write if that succeeds and keeps its value otherwise, DisplayPort's included; turning on touches neither host mode nor Vbus |
| UsbData.TruthIsKeptUnlessBroken | usb/usb/Usb.cpp:198-200 | A step keeps the flag truthful if and only if it is no reset and no half-failed disable while data counts as enabled |
| UsbData.RunIsTruthful | usb/usb/Usb.cpp:113-214 | A run is truthful throughout if and only if none of its steps is one of those |
| UsbData.EnableAfterBreak | usb/usb/Usb.cpp:122-123 | After such a step turning data on is reported as a success, writes nothing and leaves data off |
| GadgetIds.AdbIsNextProduct | usb/gadget/UsbGadget.cpp:187-363 | For every vendor property and every mask but NONE without ADB: adding ADB is supported iff the mask is and gives the next product id, unless it makes the modem debugging product |
| GadgetIds.IdsTellApart | usb/gadget/UsbGadget.cpp:187-363 | Under every vendor property two supported masks have the same ids exactly when they differ at most in NCM beside RNDIS, the modem debugging ids apart |
| GadgetIds.IdsDecode | usb/gadget/UsbGadget.cpp:187-363 | Those ids can be decoded to the functions, up to NCM beside RNDIS |
| GadgetIds.ModemDebugIds | usb/gadget/UsbGadget.cpp:187-363 | The modem debugging ids are set exactly under "dm" for ADB with nothing but RNDIS and NCM beside it |
| GadgetIds.VendorIds | usb/gadget/UsbGadget.cpp:187-363 | A vendor property supports nothing new and changes ids only for modem debugging with ADB, and for a lone ADB |
| GadgetIds.SupportedMasks | usb/gadget/UsbGadget.cpp:187-363 | Exactly which masks are supported under which vendor property, in terms of its text |
| GadgetLinks.LinkAllKeepsSlots | usb/gadget/UsbGadget.cpp:413-456 | Linking keeps slots contiguous and links a prefix of what was planned, all of it if nothing fails |
| GadgetLinks.SlotsAreContiguous | usb/gadget/UsbGadget.cpp:407-456 | For every mask and vendor a setup uses slots 0..n-1 without gap or repeat, and a successful one links exactly the generic functions and the plan |
| GadgetLinks.LinkedDecision | usb/gadget/UsbGadget.cpp:413-456 | A setup is completely linked exactly if the generic helper succeeds and, slot by slot, so does linkFunction or for ADB its own helper |
| GadgetLinks.NcmOnce | usb/gadget/UsbGadget.cpp:419-456 | ncm.gs9 is linked exactly once iff the NCM bit is set: last and after ADB under "dm", else first after the generic functions and before ADB |
| GadgetRequests.OneAnswer | usb/gadget/UsbGadget.cpp:490-591 | A request with a callback is answered exactly once with its functions and transaction, twice exactly when the answer after the wait is rejected; without a callback never |
| GadgetRequests.SuccessMeansPulledUp | usb/gadget/UsbGadget.cpp:407-591 | SUCCESS is answered if and only if the teardown succeeded and it was NONE, or ids and all links were set and the pull-up is confirmed |
| GadgetRequests.ServeLeaves | usb/gadget/UsbGadget.cpp:407-591 | With or without a callback: when exactly the FunctionFS monitor runs, the gadget is pulled up and the functions count as applied after a request |
| GadgetRequests.ServeLinks | usb/gadget/UsbGadget.cpp:490-591 | The links and ids a request leaves, for every failure |
| GadgetRequests.RunAnswersEachOnce | usb/gadget/UsbGadget.cpp:490-591 | Over any run of requests and monitor reports, with accepting callbacks, each transaction is answered once and in turn |
| GadgetRequests.RunIsReal | usb/gadget/UsbGadget.cpp:121-137 | Over every run of requests and monitor reports: functions reported as applied are throughout those whose generic functions and plan, all of them and nothing else, are linked, named and pulled up, if and only if no failed teardown under a running monitor leaves links and ids that are not those of the new functions |
| GadgetRequests.NextIsReal | usb/gadget/UsbGadget.cpp:490-591 | The same equivalence for one step |
| GadgetRequests.UntouchedRunIsReal | usb/gadget/UsbGadget.cpp:174-185 | Where failed teardowns have unlinked nothing, the run is truthful if and only if each such request asks for the functions already there |
| GadgetRequests.ServeKeepsReal | usb/gadget/UsbGadget.cpp:490-591 | One request keeps or restores that, whatever fails in it |
| GadgetRequests.SetForOne | usb/gadget/UsbGadget.cpp:187-456 | Links and ids determine the functions: a gadget is set up for at most one mask, under every vendor property |
| GadgetLinks.LinksAndIdsTell | usb/gadget/UsbGadget.cpp:187-456 | Two masks with the same planned links and the same ids are equal |
| GadgetRequests.UntouchedMisleads | usb/gadget/UsbGadget.cpp:174-185 | A failed teardown under the monitor that has unlinked nothing misleads exactly when other functions are asked for than before |
| GadgetRequests.StaleMonitorMisreports | usb/gadget/UsbGadget.cpp:121-124 | After every step that misleads, a report of the monitor makes functions count as applied for which the gadget is not set up |
| GadgetIrq.ScanFindsFirst | usb/gadget/UsbGadget.cpp:89-116 | The scan finds the first newline-terminated line with "dwc3", and none exactly if there is none |
| GadgetIrq.PathOfNumber | usb/gadget/UsbGadget.cpp:98-108 | After any lines without it, a line "number:…dwc3…" gives the path of that number, whatever follows |
| GadgetService.UsbGadget.GetUsbGadgetIrqPath | usb/gadget/UsbGadget.cpp:79-119 | The loop terminates and sets the path of the first driver line on success; on error mGadgetIrqPath is unchanged |
| GadgetRequests.ServeForgets | usb/gadget/UsbGadget.cpp:174-185 | After a successful teardown the answers, status and gadget that a request leads to do not depend on anything before it, but for ids it does not set |
| GadgetRequests.RefusedIsUnsupported | usb/gadget/UsbGadget.cpp:533-537 | A request ends as not supported exactly when it is torn down, not NONE and its functions have no ids; the gadget is then empty and pulled down with its old ids, and that status is the one answer |
| GadgetService.UsbGadget.LinkFunctionsOf | usb/gadget/UsbGadget.cpp:407-456 | The branches with their early returns make exactly the links of the plan, up to the first failure |
| GadgetService.UsbGadget.SetupFunctions | usb/gadget/UsbGadget.cpp:407-488 | Links, pull-up, monitor, applied flag, answers and status of a setup |
| GadgetService.UsbGadget.SetCurrentUsbFunctions | usb/gadget/UsbGadget.cpp:490-591 | All fields and answers after a request; ok only after a setup that succeeded, and only then the IRQ moves to the core for its functions and the accessory's current limit is set |
| GadgetService.LimitDecision | usb/gadget/UsbGadget.cpp:556-576 | The current limit is written exactly for an accessory on a charging downstream port without a contract, turned on only after that succeeded, and turned off for everything else |
| GadgetService.FirstPathStays | usb/gadget/UsbGadget.cpp:508-509 | Over any requests the IRQ path is that of the first one that found it, for good |
| GadgetService.IrqIsMoved | usb/gadget/UsbGadget.cpp:544-554 | A known interrupt is moved by one write, to the big core exactly for NCM |

## Left out

- WorkerProtocol.WorkerExclusion: leaves out the setup and shutdown calls that enableUsbData makes without mDisplayPortLock (lines 151 and 187), because with them two setups can run at once.
- WorkerProtocol.SignalsImplyExit: a spurious wakeup of the condition variable is not a step; it would end the wait like a timeout.
- WorkerProtocol.InvPreserved: the read of the shutdown code and the write of the destroy flag after it are one step.
- WorkerProtocol.WaitInvPreserved: a failed creation of the worker thread leaves mDisplayPortPoll undefined in the source; the model keeps the previous worker there.
- UsbLocks.UsbDeadlockFree: covers mutexes, condition waits and joins; waiting for the kernel, for binder or for a message that was lost is not blocking on a mutex.
- UsbLocks.DeadlockDecision: which callback is registered is not part of the runs, so a removal may be called at any time there is a uevent thread to join.
- WorkerJoins.EachJoinedOnce: a join of a thread that was joined before is recorded, not what pthread_join then does.
- RoleSwitch.RoleSwitchSafety: no bound on the total wait, since the deadline is computed anew after each wakeup; the node's content is claimed only when the latest write took effect.
- DisplayPortWorker.ActivationSettlesForGood: assumes that the one-shot timer fires only while it is armed.
- DisplayPortWorker.ActivationBound: the retry counter is unbounded; the source's int would overflow only after 2^31 failed reads.
- DisplayPortPoll.Usb.HandleEvent: the status query after a debounce read that succeeds is only modelled as a lock user in UsbLocks and as PortStatus.StatusQuery.
- DisplayPortPoll.DescriptorsBalance: the removal of the timers and the eventfd from the epoll set is not recorded; closing the epoll descriptor has the same effect.
- PortStatus.GetPortStatus: the nodes do not change during one query, and the vector is empty at first, as in every call.
- PortStatus.StatusQuery.QueryVersion: the status is the one getPortStatusHelper fills; what the contaminant, power-transfer, compliance, data-session and DisplayPort queries then add to it or change in it is not modelled.
- CallbackThread.CallsBalance: that the signal in fact ends the thread (the loop's liveness) is not modelled, nor a thread that ends by itself.
- GadgetRequests.NextIsReal: which generic functions addGenericAndroidFunctions links is some function of the mask, the same throughout a run; a call that fails has linked the first of them.
- GadgetLinks.SlotsAreContiguous: addGenericAndroidFunctions and addAdb are assumed to use the slots they are given and to advance the index by what they link.
- GadgetRequests.RunIsReal: reports of the monitor come between requests, not inside one; a wait that succeeds stands for the report inside it.
- GadgetRequests.OneAnswer: setVidPid is assumed not to fail with the status SUCCESS.
- UsbData.RunIsTruthful: other writers of the pull-up node, such as the gadget service, are not part of the runs.
- PortRoles.PortManager.SwitchRole: the outcome of a mode switch is a parameter, because RoleSwitch has switchMode as a state machine.
- setupDisplayPortPoll and shutdownDisplayPortPoll are steps of WorkerProtocol rather than methods, because what matters about them is how they interleave.
- The pin-assignment, link-training and DisplayPort capability tables, the contaminant query, overheat reports and other single-node reads: one-branch facts.
- determineDisplayPortRetry and the write of mPartnerSupportsDisplayPort: not used by the results.
- getCurrentUsbFunctions, getUsbSpeed and reset of the gadget and the SDP timeout: single reads and writes.
- limitPowerTransfer, enableUsbDataWhileDocked and enableContaminantPresenceDetection: modelled only by how they lock.
- ParseUint, stoi, resetGadget, setVidPid, MonitorFfs and the monitors of other libraries: parameters or small contracts, since their code is not in the repository.
- Partial writes, signals other than the one that stops the uevent thread, and memory reuse after errors.
- Dump, power statistics, health, the Java toggle and all configuration files: no behaviour of their own to prove.
