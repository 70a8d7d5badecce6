/** The life of a DisplayPort poll worker from its first statement to its return (Usb.cpp:1576-1809):
    descriptors, timers, and the imperative routine itself. */
module DisplayPortPoll {
  import opened Wrappers
  import opened Text
  import opened DisplayPortAttributes
  import opened DisplayPortWorker

  datatype Fd = EpollFd | HpdFd | PinFd | OrientationFd | LinkFd

  datatype FdOp = Open(fd: Fd) | Close(fd: Fd)

  /** The first thing that goes wrong while the worker sets up.  NotWatched is any failed epoll_ctl. */
  datatype Setup = NoPath | NoEpoll | NoHpd | NoPin | NoOrientation | NoLink | NotWatched | Complete

  /** The descriptors open when setup stops. */
  function Opened(setup: Setup): seq<Fd> {
    match setup
    case NoPath => []
    case NoEpoll => []
    case NoHpd => [EpollFd]
    case NoPin => [EpollFd, HpdFd]
    case NoOrientation => [EpollFd, HpdFd, PinFd]
    case NoLink => [EpollFd, HpdFd, PinFd, OrientationFd]
    case NotWatched => [EpollFd, HpdFd, PinFd, OrientationFd, LinkFd]
    case Complete => [EpollFd, HpdFd, PinFd, OrientationFd, LinkFd]
  }

  function Opens(fds: seq<Fd>): seq<FdOp> {
    if fds == [] then [] else Opens(fds[..|fds| - 1]) + [Open(fds[|fds| - 1])]
  }

  /** The cleanup labels: the opposite order. */
  function Closes(fds: seq<Fd>): seq<FdOp> {
    if fds == [] then [] else [Close(fds[|fds| - 1])] + Closes(fds[..|fds| - 1])
  }

  /** The start of the thread; the record of DRM writes starts anew with it. */
  function Begin(w: Worker): Worker {
    Worker(Forwarding(w.forwarding.drm.(writes := []), false, false),
           Activation(0, w.activation.armed, 0, 0, 0, false), w.debounceArmed, true, false, w.destroy)
  }

  /** From the cleanup labels on; only the error label disarms the timers. */
  function End(w: Worker, setup: Setup): Worker {
    Cleaned(w, setup).(running := false)
  }

  function Cleaned(w: Worker, setup: Setup): Worker {
    if setup.NotWatched? || setup.Complete? then
      w.(activation := w.activation.(armed := false), debounceArmed := false)
    else w
  }

  /** A life of the thread on the wakeups it got; `left` is false while it is still polling. */
  datatype Lived = Lived(worker: Worker, left: bool, fds: seq<FdOp>)

  function Life(w: Worker, setup: Setup, wakes: seq<Wake>, forward: Forwarder): Lived {
    var opens, closes := Opens(Opened(setup)), Closes(Opened(setup));
    var polled := Polled(w, setup, wakes, forward);
    if setup.Complete? && !Listen(w.destroy, wakes).left then Lived(polled, false, opens)
    else Lived(End(polled, setup), true, opens + closes)
  }

  /** The worker when it has heard all it will hear. */
  function Polled(w: Worker, setup: Setup, wakes: seq<Wake>, forward: Forwarder): Worker {
    if setup.Complete? then
      OnEvents(Begin(w).(activation := StartActivation()), Listen(w.destroy, wakes).events, forward)
    else Begin(w)
  }

  // ---- Descriptors ----

  /** Runs descriptor operations on a stack of open descriptors: None when one is opened twice, or
      closed when it is not the one opened last. */
  function Descriptors(ops: seq<FdOp>): Option<seq<Fd>> {
    if ops == [] then Some([])
    else match Descriptors(ops[..|ops| - 1])
      case None => None
      case Some(stack) => Operate(stack, ops[|ops| - 1])
  }

  function Operate(stack: seq<Fd>, op: FdOp): Option<seq<Fd>> {
    match op
    case Open(fd) => if fd in stack then None else Some(stack + [fd])
    case Close(fd) => if stack == [] || stack[|stack| - 1] != fd then None else Some(stack[..|stack| - 1])
  }

  predicate Distinct(fds: seq<Fd>) {
    forall i, j :: 0 <= i < j < |fds| ==> fds[i] != fds[j]
  }

  lemma {:induction false} OpensPush(fds: seq<Fd>)
    requires Distinct(fds)
    ensures Descriptors(Opens(fds)) == Some(fds)
  {
    if fds != [] {
      var n := |fds| - 1;
      OpensPush(fds[..n]);
      var ops := Opens(fds);
      assert ops[..|ops| - 1] == Opens(fds[..n]) && ops[|ops| - 1] == Open(fds[n]);
      assert fds[n] !in fds[..n] && fds[..n] + [fds[n]] == fds;
    }
  }

  lemma {:induction false} ClosesPop(ops: seq<FdOp>, fds: seq<Fd>)
    requires Descriptors(ops) == Some(fds)
    ensures Descriptors(ops + Closes(fds)) == Some([])
    decreases |fds|
  {
    if fds == [] {
      assert ops + Closes(fds) == ops;
    } else {
      var n := |fds| - 1;
      var longer, rest := ops + [Close(fds[n])], Closes(fds[..n]);
      ClosePops(ops, fds);
      ClosesPop(longer, fds[..n]);
      assert ops + ([Close(fds[n])] + rest) == longer + rest;
    }
  }

  lemma {:induction false} ClosePops(ops: seq<FdOp>, fds: seq<Fd>)
    requires fds != [] && Descriptors(ops) == Some(fds)
    ensures Descriptors(ops + [Close(fds[|fds| - 1])]) == Some(fds[..|fds| - 1])
  {
    var close := Close(fds[|fds| - 1]);
    assert (ops + [close])[..|ops|] == ops && (ops + [close])[|ops|] == close;
  }

  lemma OpenedIsDistinct(setup: Setup)
    ensures Distinct(Opened(setup))
  {
  }

  /** For every failure of setup and every event sequence: a worker that has left has closed each
      descriptor it opened exactly once, in reverse order, and cleared the running flag; one that still
      polls has all of them open. */
  lemma DescriptorsBalance(w: Worker, setup: Setup, wakes: seq<Wake>, forward: Forwarder)
    ensures var life := Life(w, setup, wakes, forward);
            && Descriptors(life.fds) == Some(if life.left then [] else Opened(setup))
            && (life.left ==> !life.worker.running)
  {
    OpenedIsDistinct(setup);
    OpensPush(Opened(setup));
    ClosesPop(Opens(Opened(setup)), Opened(setup));
  }

  // ---- Timers over a chain of workers ----

  predicate Disarmed(w: Worker) {
    !w.debounceArmed && !w.activation.armed
  }

  lemma LifeDisarms(w: Worker, setup: Setup, wakes: seq<Wake>, forward: Forwarder)
    ensures var life := Life(w, setup, wakes, forward);
            life.left && (Disarmed(w) || setup.NotWatched? || setup.Complete?) ==> Disarmed(life.worker)
  {
  }

  datatype Job = Job(setup: Setup, wakes: seq<Wake>)

  /** What setupDisplayPortPoll changes before it creates the next worker. */
  function Prepared(w: Worker): Worker {
    w.(starting := true, destroy := false)
  }

  /** The states in which a chain of workers, each started after the last one left, begin. */
  function Starts(w: Worker, jobs: seq<Job>, forward: Forwarder): seq<Worker>
    decreases |jobs|
  {
    if jobs == [] then []
    else
      var life := Life(Prepared(w), jobs[0].setup, jobs[0].wakes, forward);
      [Prepared(w)] + if life.left then Starts(life.worker, jobs[1..], forward) else []
  }

  /** No worker of a chain inherits an armed timer, wherever its predecessors failed or stopped. */
  lemma {:induction false} ChainStartsDisarmed(w: Worker, jobs: seq<Job>, forward: Forwarder)
    requires Disarmed(w)
    ensures forall start :: start in Starts(w, jobs, forward) ==> Disarmed(start) && start.starting && !start.destroy
    decreases |jobs|
  {
    if jobs != [] {
      var life := Life(Prepared(w), jobs[0].setup, jobs[0].wakes, forward);
      LifeDisarms(Prepared(w), jobs[0].setup, jobs[0].wakes, forward);
      if life.left {
        ChainStartsDisarmed(life.worker, jobs[1..], forward);
      }
    }
  }

  // ---- The results on event sequences, for a life ----

  /** Over a whole life: bounded and counted activation attempts, a delivered pin
      behind pinSet, and the IRQ counts forwarded on change. */
  lemma LifeKeepsPromises(w: Worker, wakes: seq<Wake>, forward: Forwarder, parse: string -> Option<nat>)
    requires Forwards(forward, parse)
    ensures var life := Life(w, Complete, wakes, forward).worker;
            && ActivationCounted(life.activation)
            && (life.forwarding.pinSet ==> PinDelivered(life.forwarding.drm.writes))
            && Attempted(life.forwarding.drm.writes, parse) ==
               Changes(w.forwarding.drm.irqCache, CheckedCounts(Listen(w.destroy, wakes).events, parse))
  {
    var start, heard := Begin(w).(activation := StartActivation()), Listen(w.destroy, wakes);
    ActivationBound(start, heard.events, forward);
    PinSetIsDelivered(start, heard.events, forward, parse);
    WorkerForwardsIrqChanges(start, heard.events, forward, parse);
  }

  /** A life is over exactly if its setup failed, it found the destroy flag up, an event ended its loop, or a
      wait failed.  It has then cleared both flags; the destroy flag is up exactly if it was or the shutdown
      code was heard, and the worker remembers as forwarded only what it has forwarded itself. */
  lemma LifeFlags(w: Worker, setup: Setup, wakes: seq<Wake>, forward: Forwarder)
    ensures var life, heard := Life(w, setup, wakes, forward), Listen(w.destroy, wakes).events;
            var start := Begin(w).(activation := StartActivation());
            && (life.left <==> !setup.Complete? || w.destroy || LoopEnds(Delivered(wakes)) || WaitFails(wakes))
            && !life.worker.starting && life.worker.running == !life.left
            && (life.worker.destroy <==> w.destroy || (setup.Complete? && exists i :: Shuts(heard, i)))
            && (life.worker.forwarding.pinSet <==> setup.Complete? && exists i :: PinForwardedAt(start, heard, forward, i))
            && (life.worker.forwarding.orientationSet <==>
                setup.Complete? && exists i :: OrientationForwardedAt(start, heard, forward, i))
  {
    var heard := Listen(w.destroy, wakes).events;
    var start := Begin(w).(activation := StartActivation());
    if !w.destroy {
      ListenDecision(wakes);
    }
    RememberedIsForwarded(start, heard, forward);
    FlagsOf(start, heard, forward);
  }

  /** Event i is the shutdown code. */
  predicate Shuts(events: seq<Event>, i: int) {
    0 <= i < |events| && events[i].EventFdRead? && events[i].flag == 1
  }

  lemma {:induction false} FlagsOf(w: Worker, events: seq<Event>, forward: Forwarder)
    ensures var after := OnEvents(w, events, forward);
            && after.running == w.running && after.starting == w.starting
            && (after.destroy <==> w.destroy || exists i :: Shuts(events, i))
  {
    if events != [] {
      var n := |events| - 1;
      FlagsOf(w, events[..n], forward);
      if i :| Shuts(events[..n], i) {
        assert Shuts(events, i);
      }
      if i :| Shuts(events, i) && i < n {
        assert Shuts(events[..n], i);
      }
      assert Shuts(events, n) <==> events[n].EventFdRead? && events[n].flag == 1;
    }
  }

  // ---- The imperative routine ----

  /** Closing `held` after `ops` makes `total`. */
  ghost predicate Closing(ops: seq<FdOp>, held: seq<Fd>, total: seq<FdOp>) {
    ops + Closes(held) == total
  }

  lemma OpenStep(fd: Fd, held: seq<Fd>)
    ensures Opens(held + [fd]) == Opens(held) + [Open(fd)]
    ensures Closes(held + [fd]) == [Close(fd)] + Closes(held)
  {
    assert (held + [fd])[..|held|] == held;
  }

  lemma CloseStep(ops: seq<FdOp>, fd: Fd, held: seq<Fd>, total: seq<FdOp>)
    requires Closing(ops, held + [fd], total)
    ensures Closing(ops + [Close(fd)], held, total)
  {
    OpenStep(fd, held);
    assert (ops + [Close(fd)]) + Closes(held) == ops + ([Close(fd)] + Closes(held));
  }

  lemma OpenedInTurn()
    ensures Opened(NoPath) == Opened(NoEpoll) == [] && Opened(Complete) == Opened(NotWatched)
    ensures Opened(NoHpd) == Opened(NoEpoll) + [EpollFd]
    ensures Opened(NoPin) == Opened(NoHpd) + [HpdFd]
    ensures Opened(NoOrientation) == Opened(NoPin) + [PinFd]
    ensures Opened(NoLink) == Opened(NoOrientation) + [OrientationFd]
    ensures Opened(Complete) == Opened(NoLink) + [LinkFd]
  {
  }

  /** What has been opened when setup stops. */
  lemma OpensInTurn()
    ensures Opens(Opened(NoEpoll)) == []
    ensures Opens(Opened(NoHpd)) == Opens(Opened(NoEpoll)) + [Open(EpollFd)]
    ensures Opens(Opened(NoPin)) == Opens(Opened(NoHpd)) + [Open(HpdFd)]
    ensures Opens(Opened(NoOrientation)) == Opens(Opened(NoPin)) + [Open(PinFd)]
    ensures Opens(Opened(NoLink)) == Opens(Opened(NoOrientation)) + [Open(OrientationFd)]
    ensures Opens(Opened(Complete)) == Opens(Opened(NoLink)) + [Open(LinkFd)]
  {
    OpenedInTurn();
    OpenStep(EpollFd, Opened(NoEpoll));
    OpenStep(HpdFd, Opened(NoHpd));
    OpenStep(PinFd, Opened(NoPin));
    OpenStep(OrientationFd, Opened(NoOrientation));
    OpenStep(LinkFd, Opened(NoLink));
  }

  /** What was to be heard at the start is what has been heard and what is still to be heard. */
  predicate Resumes(goal: Heard, heard: seq<Event>, rest: Heard) {
    goal.events == heard + rest.events && goal.left == rest.left
  }

  lemma HandledStops(events: seq<Event>, n: nat)
    requires n < |events| && !ControlOf(events[n]).Onward?
    requires forall i :: 0 <= i < n ==> ControlOf(events[i]).Onward?
    ensures HandledOf(events) == n + 1 && ControlAfter(events[..n + 1]) == ControlOf(events[n])
  {
  }

  lemma HandledAll(events: seq<Event>)
    requires forall i :: 0 <= i < |events| ==> ControlOf(events[i]).Onward?
    ensures HandledOf(events) == |events| && events[..|events|] == events && ControlAfter(events).Onward?
  {
  }

  /** All that a link event or a firing of the debounce timer changes is that timer. */
  lemma DebounceOnly(w: Worker, e: Event, forward: Forwarder)
    requires e.LinkChanged? || e.DebounceFired?
    ensures OnEvent(w, e, forward) ==
            w.(debounceArmed := NextDebounce(w.debounceArmed, w.forwarding, e, forward))
  {
  }

  /** All that a firing of the activation timer changes is the activation. */
  lemma FiringOnly(w: Worker, partner: Option<Active>, port: Option<Active>, forward: Forwarder)
    ensures OnEvent(w, ActivateFired(partner, port), forward) ==
            w.(activation := Fire(w.activation, partner, port))
  {
  }

  /** All that a pin or an orientation event changes is what was forwarded and the debounce timer. */
  lemma ForwardingOnly(w: Worker, io: Io, forward: Forwarder)
    ensures var f := w.forwarding;
            && OnEvent(w, PinChanged(io), forward) ==
               w.(forwarding := TryPin(f, io, forward),
                  debounceArmed := w.debounceArmed || forward(f.drm, PinAssignment, io).success)
            && OnEvent(w, OrientationChanged(io), forward) ==
               w.(forwarding := TryOrientation(f, io, forward),
                  debounceArmed := w.debounceArmed || forward(f.drm, Orientation, io).success)
  {
  }

  lemma ListenReady(events: seq<Event>, wakes: seq<Wake>, goal: Heard, heard: seq<Event>)
    requires wakes != [] && wakes[0] == Ready(events) && Resumes(goal, heard, Listen(false, wakes))
    ensures var handled := events[..HandledOf(events)];
            if ControlAfter(handled).GotoError? then goal == Heard(heard + handled, true)
            else Resumes(goal, heard + handled, Listen(ControlAfter(handled).LeaveBatch?, wakes[1..]))
  {
    var handled := events[..HandledOf(events)];
    if !ControlAfter(handled).GotoError? {
      var rest := Listen(ControlAfter(handled).LeaveBatch?, wakes[1..]);
      assert heard + (handled + rest.events) == (heard + handled) + rest.events;
    }
  }

  lemma {:induction false} OnEventsStep(w: Worker, events: seq<Event>, n: nat, forward: Forwarder)
    requires n < |events|
    ensures OnEvents(w, events[..n + 1], forward) == OnEvent(OnEvents(w, events[..n], forward), events[n], forward)
  {
    assert events[..n + 1][..n] == events[..n] && events[..n + 1][n] == events[n];
  }

  lemma {:induction false} OnEventsAppend(w: Worker, a: seq<Event>, b: seq<Event>, forward: Forwarder)
    ensures OnEvents(w, a + b, forward) == OnEvents(OnEvents(w, a, forward), b, forward)
    decreases |b|
  {
    if b == [] {
      assert a + b == a;
    } else {
      var n := |b| - 1;
      assert (a + b)[..|a| + n] == a + b[..n] && (a + b)[|a| + n] == b[n];
      OnEventsAppend(w, a, b[..n], forward);
    }
  }

  /** The fields of `struct Usb` that the worker uses, the DRM nodes, the two timers, and a record of
      the descriptor operations and DRM writes.  `parseUint` is android::base::ParseUint. */
  class Usb {
    const parseUint: string -> Option<nat>
    var mDisplayPortPollRunning: bool
    var mDisplayPortPollStarting: bool
    var destroyDisplayPortThread: bool
    var mIrqHpdCountCache: nat
    var drmNodes: map<Attr, string>
    var drmWrites: seq<Write>
    var debounceArmed: bool
    var activateArmed: bool

    /** Usb.cpp:520-541 leaves the IRQ cache uninitialised. */
    constructor (parseUint: string -> Option<nat>, cache: nat, drmNodes: map<Attr, string>)
      ensures this.parseUint == parseUint
      ensures Shared() == Worker(Forwarding(Drm(drmNodes, cache, []), false, false),
                                 Activation(0, false, 0, 0, 0, false), false, false, false, false)
    {
      this.parseUint := parseUint;
      this.drmNodes := drmNodes;
      mIrqHpdCountCache, drmWrites := cache, [];
      mDisplayPortPollRunning, mDisplayPortPollStarting, destroyDisplayPortThread := false, false, false;
      debounceArmed, activateArmed := false, false;
    }

    function DrmState(): Drm
      reads this
    {
      Drm(drmNodes, mIrqHpdCountCache, drmWrites)
    }

    /** The shared fields as a worker that has done nothing yet. */
    function Shared(): Worker
      reads this
    {
      Worker(Forwarding(DrmState(), false, false), Activation(0, activateArmed, 0, 0, 0, false),
             debounceArmed, mDisplayPortPollRunning, mDisplayPortPollStarting, destroyDisplayPortThread)
    }

    ghost function Forwarder(): Forwarder {
      (drm, attr, io) => Forward(drm, attr, io, parseUint)
    }

    /** The fields hold the state of the worker value `w`. */
    ghost predicate Holds(w: Worker)
      reads this
    {
      && DrmState() == w.forwarding.drm
      && activateArmed == w.activation.armed
      && debounceArmed == w.debounceArmed
      && mDisplayPortPollRunning == w.running
      && mDisplayPortPollStarting == w.starting
      && destroyDisplayPortThread == w.destroy
    }

    /** The locals of the routine do so too. */
    ghost predicate Agrees(w: Worker, pinSet: bool, orientationSet: bool, retries: nat)
      reads this
    {
      && Holds(w)
      && pinSet == w.forwarding.pinSet
      && orientationSet == w.forwarding.orientationSet
      && retries == w.activation.retries
    }

    /** WriteStringToFile on a DRM node. */
    method WriteDrm(attr: Attr, source: string, text: string, writable: bool) returns (success: bool)
      modifies this`drmNodes, this`drmWrites
      ensures DrmState() == Store(old(DrmState()), attr, source, text, writable) && success == writable
    {
      if writable {
        drmNodes := drmNodes[attr := text];
      }
      drmWrites := drmWrites + [Write(attr, source, text, writable)];
      success := writable;
    }

    /** Usb.cpp:1479-1538. */
    method WriteDisplayPortAttribute(attr: Attr, io: Io) returns (success: bool)
      modifies this`drmNodes, this`drmWrites, this`mIrqHpdCountCache
      ensures Forwarded(DrmState(), success) == Forward(old(DrmState()), attr, io, parseUint)
    {
      if io.usb.None? {
        return false;
      }
      var attrUsb := io.usb.value;
      match attr {
        case Hpd =>
          if "0" <= attrUsb {
            if !io.drmReadable {
              return false;
            }
            if "0" <= Content(DrmState(), Hpd) {
              return true;
            }
          }
          success := WriteDrm(attr, attrUsb, attrUsb, io.drmWritable);
        case IrqHpdCount =>
          var count := parseUint(Trim(attrUsb));
          if count.None? {
            return false;
          }
          if mIrqHpdCountCache == count.value {
            return true;
          }
          mIrqHpdCountCache := count.value;
          success := WriteDrm(attr, attrUsb, attrUsb, io.drmWritable);
        case PinAssignment =>
          var pos := Find(attrUsb, '[', 0);
          if pos == |attrUsb| {
            return false;
          }
          var selected := attrUsb[pos + 1..if pos + 2 <= |attrUsb| then pos + 2 else pos + 1];
          assert selected == if pos + 1 < |attrUsb| then [attrUsb[pos + 1]] else "";
          success := WriteDrm(attr, attrUsb, selected, io.drmWritable);
        case Orientation =>
          success := WriteDrm(attr, attrUsb, attrUsb, io.drmWritable);
      }
    }

    /** Lines 1703-1717. */
    method HandleHpd(pin: Io, orientation: Io, hpd: Io, pinWasSet: bool, orientationWasSet: bool, retries: nat, ghost w: Worker)
      returns (pinSet: bool, orientationSet: bool)
      requires Agrees(w, pinWasSet, orientationWasSet, retries)
      modifies this`drmNodes, this`drmWrites, this`mIrqHpdCountCache, this`debounceArmed
      ensures Agrees(OnEvent(w, HpdChanged(pin, orientation, hpd), Forwarder()), pinSet, orientationSet, retries)
    {
      ghost var f := w.forwarding;
      pinSet, orientationSet := pinWasSet, orientationWasSet;
      if !pinSet || !orientationSet {
        if !pinSet {
          pinSet := WriteDisplayPortAttribute(PinAssignment, pin);
          f := TryPin(f, pin, Forwarder());
        }
        if !orientationSet {
          orientationSet := WriteDisplayPortAttribute(Orientation, orientation);
          f := TryOrientation(f, orientation, Forwarder());
        }
      }
      var _ := WriteDisplayPortAttribute(Hpd, hpd);
      debounceArmed := true;
      assert TryHpd(f, hpd, Forwarder()) == OnHpd(w.forwarding, pin, orientation, hpd, Forwarder());
    }

    /** Lines 1718-1723. */
    method HandlePin(pin: Io, pinWasSet: bool, orientationSet: bool, retries: nat, ghost w: Worker) returns (pinSet: bool)
      requires Agrees(w, pinWasSet, orientationSet, retries)
      modifies this`drmNodes, this`drmWrites, this`mIrqHpdCountCache, this`debounceArmed
      ensures Agrees(OnEvent(w, PinChanged(pin), Forwarder()), pinSet, orientationSet, retries)
    {
      pinSet := pinWasSet;
      ForwardingOnly(w, pin, Forwarder());
      var success := WriteDisplayPortAttribute(PinAssignment, pin);
      if success {
        pinSet := true;
        debounceArmed := true;
      }
    }

    /** Lines 1724-1729. */
    method HandleOrientation(io: Io, pinSet: bool, orientationWasSet: bool, retries: nat, ghost w: Worker)
      returns (orientationSet: bool)
      requires Agrees(w, pinSet, orientationWasSet, retries)
      modifies this`drmNodes, this`drmWrites, this`mIrqHpdCountCache, this`debounceArmed
      ensures Agrees(OnEvent(w, OrientationChanged(io), Forwarder()), pinSet, orientationSet, retries)
    {
      orientationSet := orientationWasSet;
      ForwardingOnly(w, io, Forwarder());
      var success := WriteDisplayPortAttribute(Orientation, io);
      if success {
        orientationSet := true;
        debounceArmed := true;
      }
    }

    /** Lines 1730-1731. */
    method HandleLink(pinSet: bool, orientationSet: bool, retries: nat, ghost w: Worker)
      requires Agrees(w, pinSet, orientationSet, retries)
      modifies this`debounceArmed
      ensures Agrees(OnEvent(w, LinkChanged, Forwarder()), pinSet, orientationSet, retries)
    {
      DebounceOnly(w, LinkChanged, Forwarder());
      debounceArmed := true;
    }

    /** Lines 1732-1740: a read that succeeds takes the expiration. */
    method HandleDebounce(readOk: bool, pinSet: bool, orientationSet: bool, retries: nat, ghost w: Worker)
      requires Agrees(w, pinSet, orientationSet, retries)
      modifies this`debounceArmed
      ensures Agrees(OnEvent(w, DebounceFired(readOk), Forwarder()), pinSet, orientationSet, retries)
    {
      DebounceOnly(w, DebounceFired(readOk), Forwarder());
      if readOk {
        debounceArmed := false;
      }
    }

    /** Lines 1744-1767. */
    method HandleActivate(partner: Option<Active>, port: Option<Active>, pinSet: bool, orientationSet: bool, retried: nat,
                          ghost w: Worker) returns (retries: nat)
      requires Agrees(w, pinSet, orientationSet, retried)
      modifies this`activateArmed
      ensures Agrees(OnEvent(w, ActivateFired(partner, port), Forwarder()), pinSet, orientationSet, retries)
    {
      retries := retried;
      FiringOnly(w, partner, port, Forwarder());
      activateArmed := false;
      if partner.Some? && port.Some? {
        if partner.value.No? && port.value.Yes? && retries < ACTIVATE_MAX_RETRIES {
          retries := retries + 1;
          activateArmed := true;
        }
      } else {
        retries := retries + 1;
        activateArmed := true;
      }
    }

    /** Lines 1769-1783. */
    method HandleEventFd(flag: nat, irq: Io, pinSet: bool, orientationSet: bool, retries: nat, ghost w: Worker)
      requires Agrees(w, pinSet, orientationSet, retries)
      modifies this`drmNodes, this`drmWrites, this`mIrqHpdCountCache, this`destroyDisplayPortThread
      ensures Agrees(OnEvent(w, EventFdRead(flag, irq), Forwarder()), pinSet, orientationSet, retries)
    {
      if flag == SHUTDOWN_SET {
        destroyDisplayPortThread := true;
      } else if flag == IRQ_HPD_COUNT_CHECK {
        var _ := WriteDisplayPortAttribute(IrqHpdCount, irq);
      }
    }

    /** One event of a batch (lines 1702-1784). */
    method HandleEvent(e: Event, pinWasSet: bool, orientationWasSet: bool, retried: nat, ghost w: Worker)
      returns (pinSet: bool, orientationSet: bool, retries: nat)
      requires Agrees(w, pinWasSet, orientationWasSet, retried)
      modifies this`drmNodes, this`drmWrites, this`mIrqHpdCountCache, this`debounceArmed, this`activateArmed,
               this`destroyDisplayPortThread
      ensures Agrees(OnEvent(w, e, Forwarder()), pinSet, orientationSet, retries)
      ensures destroyDisplayPortThread == (old(destroyDisplayPortThread) || Stops(e))
    {
      pinSet, orientationSet, retries := pinWasSet, orientationWasSet, retried;
      match e {
        case HpdChanged(pin, orientation, hpd) =>
          pinSet, orientationSet := HandleHpd(pin, orientation, hpd, pinSet, orientationSet, retries, w);
        case PinChanged(pin) => pinSet := HandlePin(pin, pinSet, orientationSet, retries, w);
        case OrientationChanged(io) => orientationSet := HandleOrientation(io, pinSet, orientationSet, retries, w);
        case LinkChanged => HandleLink(pinSet, orientationSet, retries, w);
        case DebounceFired(readOk) => HandleDebounce(readOk, pinSet, orientationSet, retries, w);
        case ActivateFired(partner, port) => retries := HandleActivate(partner, port, pinSet, orientationSet, retries, w);
        case EventFdRead(flag, irq) => HandleEventFd(flag, irq, pinSet, orientationSet, retries, w);
        case EventFdEmpty(_) =>
      }
    }

    /** The for loop over the events of one wakeup (lines 1701-1785). */
    method HandleBatch(events: seq<Event>, pinWasSet: bool, orientationWasSet: bool, retried: nat, ghost w: Worker)
      returns (pinSet: bool, orientationSet: bool, retries: nat, failed: bool)
      requires Agrees(w, pinWasSet, orientationWasSet, retried) && !w.destroy
      modifies this`drmNodes, this`drmWrites, this`mIrqHpdCountCache, this`debounceArmed, this`activateArmed,
               this`destroyDisplayPortThread
      ensures var handled := events[..HandledOf(events)];
              && Agrees(OnEvents(w, handled, Forwarder()), pinSet, orientationSet, retries)
              && failed == ControlAfter(handled).GotoError?
              && destroyDisplayPortThread == ControlAfter(handled).LeaveBatch?
    {
      pinSet, orientationSet, retries := pinWasSet, orientationWasSet, retried;
      var n := 0;
      assert events[..0] == [];
      while n < |events|
        invariant n <= |events|
        invariant forall i :: 0 <= i < n ==> ControlOf(events[i]).Onward?
        invariant Agrees(OnEvents(w, events[..n], Forwarder()), pinSet, orientationSet, retries)
        invariant !destroyDisplayPortThread
      {
        var e := events[n];
        OnEventsStep(w, events, n, Forwarder());
        pinSet, orientationSet, retries := HandleEvent(e, pinSet, orientationSet, retries, OnEvents(w, events[..n], Forwarder()));
        n := n + 1;
        if !ControlOf(e).Onward? {
          HandledStops(events, n - 1);
          return pinSet, orientationSet, retries, e.EventFdEmpty?;
        }
      }
      assert events[..n] == events;
      HandledAll(events);
      failed := false;
    }

    /** The while loop (lines 1690-1786); `left` is false when the wakeups run out first. */
    method Poll(wakes: seq<Wake>, ghost w: Worker) returns (left: bool)
      requires Agrees(w, false, false, 0)
      modifies this`drmNodes, this`drmWrites, this`mIrqHpdCountCache, this`debounceArmed, this`activateArmed,
               this`destroyDisplayPortThread
      ensures var heard := Listen(w.destroy, wakes);
              left == heard.left && Holds(OnEvents(w, heard.events, Forwarder()))
    {
      var pinSet, orientationSet, retries: nat := false, false, 0;
      ghost var heard: seq<Event>, goal := [], Listen(w.destroy, wakes);
      var i := 0;
      assert wakes[0..] == wakes;
      while !destroyDisplayPortThread
        invariant i <= |wakes|
        invariant Agrees(OnEvents(w, heard, Forwarder()), pinSet, orientationSet, retries)
        invariant Resumes(goal, heard, Listen(destroyDisplayPortThread, wakes[i..]))
        decreases |wakes| - i
      {
        if i == |wakes| {
          assert heard + [] == heard;
          return false;
        }
        assert wakes[i..][1..] == wakes[i + 1..];
        match wakes[i] {
          case WaitFailed(interrupted) =>
            i := i + 1;
            assert heard + [] == heard;
            if !interrupted {
              return true;
            }
          case Ready(events) =>
            ghost var before := heard;
            var failed;
            pinSet, orientationSet, retries, failed :=
              HandleBatch(events, pinSet, orientationSet, retries, OnEvents(w, before, Forwarder()));
            ghost var handled := events[..HandledOf(events)];
            heard := before + handled;
            OnEventsAppend(w, before, handled, Forwarder());
            i := i + 1;
            ListenReady(events, wakes[i - 1..], goal, before);
            if failed {
              return true;
            }
        }
      }
      assert heard + [] == heard;
      return true;
    }

    /** Lines 1658-1791: watch the descriptors, poll, and disarm the timers at the error label. */
    method WatchAndPoll(setup: Setup, wakes: seq<Wake>, ghost w: Worker) returns (left: bool)
      requires Agrees(Begin(w), false, false, 0) && (setup.NotWatched? || setup.Complete?)
      modifies this`drmNodes, this`drmWrites, this`mIrqHpdCountCache, this`debounceArmed, this`activateArmed,
               this`destroyDisplayPortThread
      ensures left == (setup.Complete? ==> Listen(w.destroy, wakes).left)
      ensures var polled := Polled(w, setup, wakes, Forwarder());
              Holds(if left then Cleaned(polled, setup) else polled)
    {
      label error: {
        if setup.NotWatched? { break error; }
        activateArmed := true;
        left := Poll(wakes, Begin(w).(activation := StartActivation()));
        if !left { return; }
      }
      debounceArmed := false;
      activateArmed := false;
      left := true;
    }

    /** Lines 1602-1803: the labelled blocks end where the source's cleanup labels stand. */
    method SetUpAndPoll(setup: Setup, wakes: seq<Wake>, ghost w: Worker) returns (left: bool, fds: seq<FdOp>)
      requires Agrees(Begin(w), false, false, 0)
      modifies this`drmNodes, this`drmWrites, this`mIrqHpdCountCache, this`debounceArmed, this`activateArmed,
               this`destroyDisplayPortThread
      ensures left == (setup.Complete? ==> Listen(w.destroy, wakes).left)
      ensures fds == Life(w, setup, wakes, Forwarder()).fds
      ensures var polled := Polled(w, setup, wakes, Forwarder());
              Holds(if left then Cleaned(polled, setup) else polled)
    {
      ghost var total := Opens(Opened(setup)) + Closes(Opened(setup));
      OpenedInTurn();
      OpensInTurn();
      left, fds := true, [];
      label epollFdError: {
        if setup.NoPath? || setup.NoEpoll? { break epollFdError; }
        fds := fds + [Open(EpollFd)];
        label hpdFdError: {
          if setup.NoHpd? { break hpdFdError; }
          fds := fds + [Open(HpdFd)];
          label pinFdError: {
            if setup.NoPin? { break pinFdError; }
            fds := fds + [Open(PinFd)];
            label orientationFdError: {
              if setup.NoOrientation? { break orientationFdError; }
              fds := fds + [Open(OrientationFd)];
              label linkFdError: {
                if setup.NoLink? { break linkFdError; }
                fds := fds + [Open(LinkFd)];
                left := WatchAndPoll(setup, wakes, w);
                if !left { return; }
                CloseStep(fds, LinkFd, Opened(NoLink), total);
                fds := fds + [Close(LinkFd)];
              }
              CloseStep(fds, OrientationFd, Opened(NoOrientation), total);
              fds := fds + [Close(OrientationFd)];
            }
            CloseStep(fds, PinFd, Opened(NoPin), total);
            fds := fds + [Close(PinFd)];
          }
          CloseStep(fds, HpdFd, Opened(NoHpd), total);
          fds := fds + [Close(HpdFd)];
        }
        CloseStep(fds, EpollFd, Opened(NoEpoll), total);
        fds := fds + [Close(EpollFd)];
      }
    }

    /** displayPortPollWork. */
    method DisplayPortPollWork(setup: Setup, wakes: seq<Wake>) returns (left: bool, fds: seq<FdOp>)
      modifies this
      ensures var life := Life(old(Shared()), setup, wakes, Forwarder());
              left == life.left && Holds(life.worker) && fds == life.fds
    {
      mDisplayPortPollRunning := true;
      mDisplayPortPollStarting := false;
      drmWrites := [];
      left, fds := SetUpAndPoll(setup, wakes, old(Shared()));
      if left {
        mDisplayPortPollRunning := false;
      }
    }
  }
}
