/** The DisplayPort poll worker (displayPortPollWork, Usb.cpp:1576-1809): setup, event loop and the
    cleanup labels, as functions on a worker value.  DisplayPortPoll has the imperative routine. */
module DisplayPortWorker {
  import opened Wrappers
  import opened DisplayPortAttributes
  import EventFd

  const ACTIVATE_MAX_RETRIES: nat := 2
  const SHUTDOWN_SET: nat := EventFd.Value(EventFd.ShutdownSet)
  const IRQ_HPD_COUNT_CHECK: nat := EventFd.Value(EventFd.IrqHpdCountCheck)

  /** writeDisplayPortAttribute on the DRM state: `Forward` for some parser. */
  type Forwarder = (Drm, Attr, Io) -> Forwarded

  /** The text of a mode's active node, by its prefix. */
  datatype Active = No | Yes | OtherText

  function ActiveOf(text: string): Active {
    if "no" <= text then No else if "yes" <= text then Yes else OtherText
  }

  /** What epoll_wait delivered, with what the file system does while the event is handled.  A read of
      the eventfd that fails leaves the flag 0; one that returns 0 bytes is `EventFdEmpty`. */
  datatype Event =
    | HpdChanged(pin: Io, orientation: Io, hpd: Io)
    | PinChanged(pin: Io)
    | OrientationChanged(orientation: Io)
    | LinkChanged
    | DebounceFired(readOk: bool)
    | ActivateFired(partner: Option<Active>, port: Option<Active>)
    | EventFdRead(flag: nat, irq: Io)
    | EventFdEmpty(again: bool)

  datatype Wake = WaitFailed(interrupted: bool) | Ready(events: seq<Event>)

  // ---- The activation of the partner's mode ----

  /** activateRetryCount and the activation timer.  The rest records what happened: writes to the
      partner's active node, failed reads, armings, and whether the activation has settled: a firing that
      retried nothing. */
  datatype Activation = Activation(
    retries: nat,
    armed: bool,
    attempts: nat,
    readFailures: nat,
    armings: nat,
    settled: bool
  )

  function Arm(a: Activation): Activation {
    a.(armed := true, armings := a.armings + 1)
  }

  /** Line 1688: the timer is armed once before the loop. */
  function StartActivation(): Activation {
    Arm(Activation(0, false, 0, 0, 0, false))
  }

  /** Lines 1744-1767. */
  function Fire(a: Activation, partner: Option<Active>, port: Option<Active>): Activation {
    if partner.None? || port.None? then
      Arm(a.(retries := a.retries + 1, readFailures := a.readFailures + 1))
    else if partner.value.No? && port.value.Yes? && a.retries < ACTIVATE_MAX_RETRIES then
      Arm(a.(retries := a.retries + 1, attempts := a.attempts + 1))
    else a.(armed := false, settled := true)
  }

  // ---- Forwarding in the worker ----

  /** The DRM state and the two remembered successes. */
  datatype Forwarding = Forwarding(drm: Drm, pinSet: bool, orientationSet: bool)

  function TryPin(f: Forwarding, io: Io, forward: Forwarder): Forwarding {
    var r := forward(f.drm, PinAssignment, io);
    f.(drm := r.drm, pinSet := f.pinSet || r.success)
  }

  function TryOrientation(f: Forwarding, io: Io, forward: Forwarder): Forwarding {
    var r := forward(f.drm, Orientation, io);
    f.(drm := r.drm, orientationSet := f.orientationSet || r.success)
  }

  function TryHpd(f: Forwarding, io: Io, forward: Forwarder): Forwarding {
    f.(drm := forward(f.drm, Hpd, io).drm)
  }

  /** Lines 1703-1716: pin and orientation go first unless they are already set. */
  function OnHpd(f: Forwarding, pin: Io, orientation: Io, hpd: Io, forward: Forwarder): Forwarding {
    var pinned := if f.pinSet then f else TryPin(f, pin, forward);
    var oriented := if pinned.orientationSet then pinned else TryOrientation(pinned, orientation, forward);
    TryHpd(oriented, hpd, forward)
  }

  // ---- The worker ----

  /** The worker thread with the shared fields and timers it uses. */
  datatype Worker = Worker(
    forwarding: Forwarding,
    activation: Activation,
    debounceArmed: bool,
    running: bool,
    starting: bool,
    destroy: bool
  )

  function NextForwarding(f: Forwarding, e: Event, forward: Forwarder): Forwarding {
    match e
    case HpdChanged(pin, orientation, hpd) => OnHpd(f, pin, orientation, hpd, forward)
    case PinChanged(pin) => TryPin(f, pin, forward)
    case OrientationChanged(orientation) => TryOrientation(f, orientation, forward)
    case EventFdRead(flag, irq) =>
      if flag == IRQ_HPD_COUNT_CHECK then f.(drm := forward(f.drm, IrqHpdCount, irq).drm) else f
    case _ => f
  }

  /** The debounce timer is armed by an hpd or link event, and by a pin or orientation that succeeds.  Its
      own read fails when an earlier event of the batch has armed it again. */
  function NextDebounce(armed: bool, f: Forwarding, e: Event, forward: Forwarder): bool {
    match e
    case HpdChanged(_, _, _) => true
    case LinkChanged => true
    case PinChanged(pin) => armed || forward(f.drm, PinAssignment, pin).success
    case OrientationChanged(orientation) => armed || forward(f.drm, Orientation, orientation).success
    case DebounceFired(readOk) => armed && !readOk
    case _ => armed
  }

  function NextActivation(a: Activation, e: Event): Activation {
    if e.ActivateFired? then Fire(a, e.partner, e.port) else a
  }

  predicate Stops(e: Event) {
    e.EventFdRead? && e.flag == SHUTDOWN_SET
  }

  function OnEvent(w: Worker, e: Event, forward: Forwarder): Worker {
    Worker(NextForwarding(w.forwarding, e, forward), NextActivation(w.activation, e),
           NextDebounce(w.debounceArmed, w.forwarding, e, forward), w.running, w.starting, w.destroy || Stops(e))
  }

  /** Where control goes after an event: on, out of the batch, or to the error label. */
  datatype Control = Onward | LeaveBatch | GotoError

  function ControlOf(e: Event): Control {
    if Stops(e) then LeaveBatch else if e.EventFdEmpty? && !e.again then GotoError else Onward
  }

  function ControlAfter(handled: seq<Event>): Control {
    if handled == [] then Onward else ControlOf(handled[|handled| - 1])
  }

  /** The worker acts on the eventfd as its counter says: it is told to stop exactly by one single unread
      shutdown, and forwards the IRQ count exactly for one check or three shutdowns. */
  lemma ReadObeysEventFd(w: Worker, codes: seq<EventFd.Code>, irq: Io, forward: Forwarder)
    requires !w.destroy
    ensures var signals, after := EventFd.Signals(codes), OnEvent(w, EventFdRead(EventFd.Posted(codes), irq), forward);
            && (after.destroy <==> signals == [EventFd.ShutdownSet])
            && after.forwarding.drm ==
               if signals in {[EventFd.IrqHpdCountCheck], [EventFd.ShutdownSet, EventFd.ShutdownSet, EventFd.ShutdownSet]} then
                 forward(w.forwarding.drm, IrqHpdCount, irq).drm
               else w.forwarding.drm
  {
    EventFd.WorkerSees(codes);
  }

  /** A shutdown read, or a read of no bytes other than EAGAIN. */
  predicate EndsLoop(e: Event) {
    (e.EventFdRead? && e.flag == 1) || (e.EventFdEmpty? && !e.again)
  }

  lemma OnlyShutdownDestroys(w: Worker, e: Event, forward: Forwarder)
    requires !w.destroy
    ensures OnEvent(w, e, forward).destroy <==> e.EventFdRead? && e.flag == 1
    ensures ControlOf(e).Onward? <==> !EndsLoop(e)
  {
  }

  /** The events of one wakeup that are handled: a shutdown and an error drop the rest. */
  function HandledOf(events: seq<Event>): (n: nat)
    ensures n <= |events|
    ensures forall i :: 0 <= i < n - 1 ==> ControlOf(events[i]).Onward?
    ensures n < |events| ==> n > 0 && !ControlOf(events[n - 1]).Onward?
  {
    if events == [] then 0
    else if ControlOf(events[0]).Onward? then 1 + HandledOf(events[1..])
    else 1
  }

  /** A run of events, all handled. */
  function OnEvents(w: Worker, events: seq<Event>, forward: Forwarder): Worker {
    if events == [] then w
    else OnEvent(OnEvents(w, events[..|events| - 1], forward), events[|events| - 1], forward)
  }

  /** All events the loop handles over its wakeups, and whether it has been left. */
  datatype Heard = Heard(events: seq<Event>, left: bool)

  function Listen(destroy: bool, wakes: seq<Wake>): Heard
    decreases |wakes|
  {
    if destroy then Heard([], true)
    else if wakes == [] then Heard([], false)
    else match wakes[0]
      case WaitFailed(interrupted) => if interrupted then Listen(false, wakes[1..]) else Heard([], true)
      case Ready(events) =>
        var handled := events[..HandledOf(events)];
        var control := ControlAfter(handled);
        if control.GotoError? then Heard(handled, true)
        else
          var rest := Listen(control.LeaveBatch?, wakes[1..]);
          Heard(handled + rest.events, rest.left)
  }

  // ---- When the loop is left ----

  /** The events delivered before a wait fails other than by a signal. */
  function Delivered(wakes: seq<Wake>): seq<Event> {
    if wakes == [] then []
    else match wakes[0]
      case WaitFailed(interrupted) => if interrupted then Delivered(wakes[1..]) else []
      case Ready(events) => events + Delivered(wakes[1..])
  }

  predicate WaitFails(wakes: seq<Wake>) {
    exists i :: 0 <= i < |wakes| && wakes[i] == WaitFailed(false)
  }

  predicate LoopEnds(events: seq<Event>) {
    exists i :: 0 <= i < |events| && EndsLoop(events[i])
  }

  /** `heard` is all that is delivered up to the first event that ends the loop, that one included. */
  predicate HeardOf(heard: seq<Event>, delivered: seq<Event>) {
    && heard <= delivered
    && (forall i :: 0 <= i < |heard| - 1 ==> !EndsLoop(heard[i]))
    && (|heard| < |delivered| ==> heard != [] && EndsLoop(heard[|heard| - 1]))
  }

  lemma HandledIsHeard(events: seq<Event>)
    ensures var handled := events[..HandledOf(events)];
            && HeardOf(handled, events)
            && (ControlAfter(handled).Onward? <==> !LoopEnds(events))
            && (ControlAfter(handled).Onward? ==> handled == events)
  {
    var n := HandledOf(events);
    assert forall i :: 0 <= i < |events| ==> (ControlOf(events[i]).Onward? <==> !EndsLoop(events[i]));
    if n > 0 && !ControlOf(events[n - 1]).Onward? {
      assert EndsLoop(events[n - 1]);
    }
  }

  /** For every sequence of wakeups: the loop hears exactly what is delivered up to the first event that ends
      it, and is left exactly if there is one or a wait fails other than by a signal. */
  lemma {:induction false} ListenDecision(wakes: seq<Wake>)
    ensures var heard := Listen(false, wakes);
            && HeardOf(heard.events, Delivered(wakes))
            && (heard.left <==> LoopEnds(Delivered(wakes)) || WaitFails(wakes))
    decreases |wakes|
  {
    if wakes != [] {
      var rest := wakes[1..];
      ListenDecision(rest);
      assert WaitFails(wakes) <==> wakes[0] == WaitFailed(false) || WaitFails(rest) by {
        if i :| 0 <= i < |rest| && rest[i] == WaitFailed(false) {
          assert wakes[i + 1] == WaitFailed(false);
        }
        if i :| 0 <= i < |wakes| && wakes[i] == WaitFailed(false) {
          assert i > 0 ==> rest[i - 1] == WaitFailed(false);
        }
      }
      if wakes[0].Ready? {
        var events := wakes[0].events;
        HandledIsHeard(events);
        HeardAppend(events, Listen(false, rest).events, Delivered(rest));
      }
    }
  }

  lemma HeardAppend(events: seq<Event>, heard: seq<Event>, delivered: seq<Event>)
    requires HeardOf(heard, delivered)
    ensures LoopEnds(events + delivered) <==> LoopEnds(events) || LoopEnds(delivered)
    ensures !LoopEnds(events) ==> HeardOf(events + heard, events + delivered)
    ensures LoopEnds(events) ==> HeardOf(events[..HandledOf(events)], events + delivered)
  {
    HandledIsHeard(events);
    if i :| 0 <= i < |delivered| && EndsLoop(delivered[i]) {
      assert (events + delivered)[|events| + i] == delivered[i];
    }
    if i :| 0 <= i < |events| && EndsLoop(events[i]) {
      assert (events + delivered)[i] == events[i];
    }
  }

  // ---- Properties of every event sequence ----

  /** The retry counter is attempts plus failed reads, attempts never exceed the maximum, and the timer
      has been armed once more than the counter says. */
  predicate ActivationCounted(a: Activation) {
    && a.attempts + a.readFailures == a.retries
    && a.attempts <= ACTIVATE_MAX_RETRIES
    && a.armings == 1 + a.retries
  }

  lemma {:induction false} ActivationBound(w: Worker, events: seq<Event>, forward: Forwarder)
    requires w.activation == StartActivation()
    ensures ActivationCounted(OnEvents(w, events, forward).activation)
  {
    if events != [] {
      var n := |events| - 1;
      ActivationBound(w, events[..n], forward);
      NextActivationCounted(OnEvents(w, events[..n], forward).activation, events[n]);
    }
  }

  lemma NextActivationCounted(a: Activation, e: Event)
    requires ActivationCounted(a)
    ensures ActivationCounted(NextActivation(a, e))
  {
  }

  /** The activation timer is a one-shot timer: it fires only while it is armed. */
  predicate Timely(w: Worker, events: seq<Event>, forward: Forwarder) {
    forall i :: 0 <= i < |events| && events[i].ActivateFired? ==> OnEvents(w, events[..i], forward).activation.armed
  }

  /** The timer is armed until a firing retries nothing; from then on it is never armed again. */
  lemma {:induction false} ActivationSettlesForGood(w: Worker, events: seq<Event>, forward: Forwarder)
    requires w.activation == StartActivation() && Timely(w, events, forward)
    ensures var a := OnEvents(w, events, forward).activation;
            && (a.armed <==> !a.settled)
            && forall i :: 0 <= i <= |events| && OnEvents(w, events[..i], forward).activation.settled ==>
                 a.settled && a.armings == OnEvents(w, events[..i], forward).activation.armings
  {
    if events != [] {
      var n := |events| - 1;
      assert forall i :: 0 <= i <= n ==> events[..n][..i] == events[..i];
      ActivationSettlesForGood(w, events[..n], forward);
      assert events[..|events|] == events;
      SettledStays(OnEvents(w, events[..n], forward).activation, events[n]);
    } else {
      assert events[..0] == [];
    }
  }

  lemma SettledStays(a: Activation, e: Event)
    requires (a.armed <==> !a.settled) && (e.ActivateFired? ==> a.armed)
    ensures var b := NextActivation(a, e);
            && (b.armed <==> !b.settled)
            && (a.settled ==> b.settled && b.armings == a.armings)
  {
  }

  function Activity(text: Option<string>): Option<Active> {
    if text.None? then None else Some(ActiveOf(text.value))
  }

  /** In terms of what the nodes hold: a firing arms the timer again exactly when a node could not be read,
      or the partner's text starts with "no", the port's with "yes", and retries are left; otherwise the
      activation settles. */
  lemma FiringDecision(a: Activation, partner: Option<string>, port: Option<string>)
    ensures var fired := Fire(a, Activity(partner), Activity(port));
            && (fired.armings > a.armings <==>
                partner.None? || port.None? ||
                ("no" <= partner.value && "yes" <= port.value && a.retries < ACTIVATE_MAX_RETRIES))
            && (fired.armings == a.armings ==> fired.settled && !fired.armed)
            && (fired.attempts > a.attempts <==>
                partner.Some? && port.Some? &&
                "no" <= partner.value && "yes" <= port.value && a.retries < ACTIVATE_MAX_RETRIES)
  {
    if port.Some? && "yes" <= port.value {
      assert port.value[0] == 'y';
    }
  }

  /** An event that arms the debounce timer for a status update: hpd and link events always, pin and
      orientation events if they are forwarded. */
  predicate ArmsDebounce(f: Forwarding, e: Event, forward: Forwarder) {
    || e.HpdChanged? || e.LinkChanged?
    || (e.PinChanged? && forward(f.drm, PinAssignment, e.pin).success)
    || (e.OrientationChanged? && forward(f.drm, Orientation, e.orientation).success)
  }

  /** An event armed the timer after step i, or it was armed before the first, and it has not expired since. */
  predicate ArmedSince(w: Worker, events: seq<Event>, forward: Forwarder, i: int) {
    && 0 <= i <= |events|
    && (if i == 0 then w.debounceArmed else ArmsDebounce(OnEvents(w, events[..i - 1], forward).forwarding, events[i - 1], forward))
    && forall k :: i <= k < |events| ==> events[k] != DebounceFired(true)
  }

  lemma {:induction false} ArmedBefore(w: Worker, events: seq<Event>, forward: Forwarder, i: int)
    requires events != [] && i < |events|
    ensures ArmedSince(w, events, forward, i) <==>
            ArmedSince(w, events[..|events| - 1], forward, i) && events[|events| - 1] != DebounceFired(true)
  {
    var n := |events| - 1;
    assert 0 < i <= n ==> events[..n][..i - 1] == events[..i - 1];
  }

  lemma NextDebounceArmed(armed: bool, f: Forwarding, e: Event, forward: Forwarder)
    ensures NextDebounce(armed, f, e, forward) <==>
            ArmsDebounce(f, e, forward) || (armed && e != DebounceFired(true))
  {
  }

  /** Over any events the debounce timer is armed exactly if one of them armed it and it has not expired
      since; no other event touches it. */
  lemma {:induction false} DebounceDecision(w: Worker, events: seq<Event>, forward: Forwarder)
    ensures OnEvents(w, events, forward).debounceArmed <==> exists i :: ArmedSince(w, events, forward, i)
  {
    if events == [] {
      assert ArmedSince(w, events, forward, 0) <==> w.debounceArmed;
    } else {
      var n := |events| - 1;
      var before := events[..n];
      DebounceDecision(w, before, forward);
      NextDebounceArmed(OnEvents(w, before, forward).debounceArmed, OnEvents(w, before, forward).forwarding, events[n], forward);
      if i :| ArmedSince(w, before, forward, i) {
        ArmedBefore(w, events, forward, i);
      }
      if i :| ArmedSince(w, events, forward, i) && i <= n {
        ArmedBefore(w, events, forward, i);
      }
      assert ArmedSince(w, events, forward, n + 1) <==> ArmsDebounce(OnEvents(w, before, forward).forwarding, events[n], forward);
    }
  }

  /** The event's own pin call succeeds. */
  predicate PinForwarded(f: Forwarding, e: Event, forward: Forwarder) {
    || (e.PinChanged? && forward(f.drm, PinAssignment, e.pin).success)
    || (e.HpdChanged? && !f.pinSet && forward(f.drm, PinAssignment, e.pin).success)
  }

  /** The event's own orientation call, which comes after the pin call if there is one, succeeds. */
  predicate OrientationForwarded(f: Forwarding, e: Event, forward: Forwarder) {
    var drm := if e.HpdChanged? && !f.pinSet then forward(f.drm, PinAssignment, e.pin).drm else f.drm;
    || (e.OrientationChanged? && forward(drm, Orientation, e.orientation).success)
    || (e.HpdChanged? && !f.orientationSet && forward(drm, Orientation, e.orientation).success)
  }

  predicate PinForwardedAt(w: Worker, events: seq<Event>, forward: Forwarder, i: int) {
    0 <= i < |events| && PinForwarded(OnEvents(w, events[..i], forward).forwarding, events[i], forward)
  }

  predicate OrientationForwardedAt(w: Worker, events: seq<Event>, forward: Forwarder, i: int) {
    0 <= i < |events| && OrientationForwarded(OnEvents(w, events[..i], forward).forwarding, events[i], forward)
  }

  /** What the worker remembers to be set is what has been forwarded with success before, in any events. */
  lemma {:induction false} RememberedIsForwarded(w: Worker, events: seq<Event>, forward: Forwarder)
    requires !w.forwarding.pinSet && !w.forwarding.orientationSet
    ensures OnEvents(w, events, forward).forwarding.pinSet <==>
            exists i :: PinForwardedAt(w, events, forward, i)
    ensures OnEvents(w, events, forward).forwarding.orientationSet <==>
            exists i :: OrientationForwardedAt(w, events, forward, i)
  {
    if events != [] {
      var n := |events| - 1;
      RememberedIsForwarded(w, events[..n], forward);
      RemembersForwarded(OnEvents(w, events[..n], forward).forwarding, events[n], forward);
      LastPin(w, events, forward);
      LastOrientation(w, events, forward);
    }
  }

  lemma RemembersForwarded(f: Forwarding, e: Event, forward: Forwarder)
    ensures NextForwarding(f, e, forward).pinSet <==> f.pinSet || PinForwarded(f, e, forward)
    ensures NextForwarding(f, e, forward).orientationSet <==> f.orientationSet || OrientationForwarded(f, e, forward)
  {
  }

  lemma {:induction false} LastPin(w: Worker, events: seq<Event>, forward: Forwarder)
    requires events != []
    ensures var n := |events| - 1;
            (exists i :: PinForwardedAt(w, events, forward, i)) <==>
            (exists i :: PinForwardedAt(w, events[..n], forward, i)) ||
            PinForwarded(OnEvents(w, events[..n], forward).forwarding, events[n], forward)
  {
    var n := |events| - 1;
    if i :| PinForwardedAt(w, events, forward, i) && i < n {
      assert events[..n][..i] == events[..i];
      assert PinForwardedAt(w, events[..n], forward, i);
    }
    if i :| PinForwardedAt(w, events[..n], forward, i) {
      assert events[..n][..i] == events[..i];
      assert PinForwardedAt(w, events, forward, i);
    }
    assert PinForwardedAt(w, events, forward, n) <==>
           PinForwarded(OnEvents(w, events[..n], forward).forwarding, events[n], forward);
  }

  lemma {:induction false} LastOrientation(w: Worker, events: seq<Event>, forward: Forwarder)
    requires events != []
    ensures var n := |events| - 1;
            (exists i :: OrientationForwardedAt(w, events, forward, i)) <==>
            (exists i :: OrientationForwardedAt(w, events[..n], forward, i)) ||
            OrientationForwarded(OnEvents(w, events[..n], forward).forwarding, events[n], forward)
  {
    var n := |events| - 1;
    if i :| OrientationForwardedAt(w, events, forward, i) && i < n {
      assert events[..n][..i] == events[..i];
      assert OrientationForwardedAt(w, events[..n], forward, i);
    }
    if i :| OrientationForwardedAt(w, events[..n], forward, i) {
      assert events[..n][..i] == events[..i];
      assert OrientationForwardedAt(w, events, forward, i);
    }
    assert OrientationForwardedAt(w, events, forward, n) <==>
           OrientationForwarded(OnEvents(w, events[..n], forward).forwarding, events[n], forward);
  }

  /** The forwarder in use. */
  ghost predicate Forwards(forward: Forwarder, parse: string -> Option<nat>) {
    forall drm, attr, io :: forward(drm, attr, io) == Forward(drm, attr, io, parse)
  }

  /** The DRM accepted the character that some read pin text selects. */
  predicate PinDelivered(writes: seq<Write>) {
    exists i :: 0 <= i < |writes| && writes[i].attr.PinAssignment? && writes[i].ok &&
                Selected(writes[i].source) == Some(writes[i].text)
  }

  lemma CallKeepsPin(drm: Drm, attr: Attr, io: Io, parse: string -> Option<nat>)
    ensures var r := Forward(drm, attr, io, parse);
            PinDelivered(drm.writes) || (attr.PinAssignment? && r.success) ==> PinDelivered(r.drm.writes)
  {
    var r := Forward(drm, attr, io, parse);
    if r.drm.writes != drm.writes {
      var w := r.drm.writes[|drm.writes|];
      assert r.drm.writes == drm.writes + [w];
      if PinDelivered(drm.writes) {
        var i :| 0 <= i < |drm.writes| && drm.writes[i].attr.PinAssignment? && drm.writes[i].ok &&
                 Selected(drm.writes[i].source) == Some(drm.writes[i].text);
        assert r.drm.writes[i] == drm.writes[i];
      }
    }
  }

  // ---- The DRM calls of an event sequence ----

  /** The writeDisplayPortAttribute calls of one event, in order. */
  function CallsOf(f: Forwarding, e: Event, forward: Forwarder): seq<Call> {
    match e
    case HpdChanged(pin, orientation, hpd) =>
      (if f.pinSet then [] else [Call(PinAssignment, pin)]) +
      (if f.orientationSet then [] else [Call(Orientation, orientation)]) + [Call(Hpd, hpd)]
    case PinChanged(pin) => [Call(PinAssignment, pin)]
    case OrientationChanged(orientation) => [Call(Orientation, orientation)]
    case EventFdRead(flag, irq) => if flag == IRQ_HPD_COUNT_CHECK then [Call(IrqHpdCount, irq)] else []
    case _ => []
  }

  predicate Makes(calls: seq<Call>, attr: Attr) {
    exists k :: 0 <= k < |calls| && calls[k].Call? && calls[k].attr == attr
  }

  /** Only an hpd event makes an hpd call, as its last; before it the same event has tried the pin and the
      orientation, each unless it had been forwarded with success before. */
  lemma HpdIsGuarded(f: Forwarding, e: Event, forward: Forwarder)
    ensures var calls := CallsOf(f, e, forward);
            && (Makes(calls, Hpd) <==> e.HpdChanged?)
            && (e.HpdChanged? ==>
                  && calls[|calls| - 1] == Call(Hpd, e.hpd) && !Makes(calls[..|calls| - 1], Hpd)
                  && (Makes(calls[..|calls| - 1], PinAssignment) <==> !f.pinSet)
                  && (Makes(calls[..|calls| - 1], Orientation) <==> !f.orientationSet))
  {
    var calls := CallsOf(f, e, forward);
    if e.HpdChanged? {
      var pin := if f.pinSet then [] else [Call(PinAssignment, e.pin)];
      var orientation := if f.orientationSet then [] else [Call(Orientation, e.orientation)];
      var before := pin + orientation;
      assert calls == before + [Call(Hpd, e.hpd)] && calls[..|calls| - 1] == before;
      assert !f.pinSet ==> before[0] == Call(PinAssignment, e.pin);
      assert !f.orientationSet ==> before[|before| - 1] == Call(Orientation, e.orientation);
      assert calls[|calls| - 1] == Call(Hpd, e.hpd);
    }
  }

  function AllCalls(w: Worker, events: seq<Event>, forward: Forwarder): seq<Call> {
    if events == [] then []
    else
      var before := events[..|events| - 1];
      AllCalls(w, before, forward) + CallsOf(OnEvents(w, before, forward).forwarding, events[|events| - 1], forward)
  }

  lemma {:induction false} RunLast(drm: Drm, calls: seq<Call>, before: seq<Call>, last: Call, parse: string -> Option<nat>)
    requires calls != [] && calls[..|calls| - 1] == before && calls[|calls| - 1] == last
    ensures Run(drm, calls, parse) == Perform(Run(drm, before, parse), last, parse).drm
  {
  }

  lemma {:induction false} RunAppend(drm: Drm, a: seq<Call>, b: seq<Call>, parse: string -> Option<nat>)
    ensures Run(drm, a + b, parse) == Run(Run(drm, a, parse), b, parse)
    decreases |b|
  {
    if b == [] {
      assert a + b == a;
    } else {
      var n, whole := |b| - 1, a + b;
      var before, last := b[..n], b[n];
      assert whole[..|whole| - 1] == a + before && whole[|whole| - 1] == last;
      RunAppend(drm, a, before, parse);
      RunLast(drm, whole, a + before, last, parse);
      RunLast(Run(drm, a, parse), b, before, last, parse);
    }
  }

  lemma RunOne(drm: Drm, call: Call, parse: string -> Option<nat>)
    ensures Run(drm, [call], parse) == Perform(drm, call, parse).drm
  {
    assert [call][..0] == [];
  }

  lemma EventRunsCalls(f: Forwarding, e: Event, forward: Forwarder, parse: string -> Option<nat>)
    requires Forwards(forward, parse)
    ensures NextForwarding(f, e, forward).drm == Run(f.drm, CallsOf(f, e, forward), parse)
  {
    match e
    case HpdChanged(pin, orientation, hpd) => HpdRunsCalls(f, pin, orientation, hpd, forward, parse);
    case PinChanged(pin) => RunOne(f.drm, Call(PinAssignment, pin), parse);
    case OrientationChanged(orientation) => RunOne(f.drm, Call(Orientation, orientation), parse);
    case EventFdRead(flag, irq) => RunOne(f.drm, Call(IrqHpdCount, irq), parse);
    case _ =>
  }

  lemma HpdRunsCalls(f: Forwarding, pin: Io, orientation: Io, hpd: Io, forward: Forwarder, parse: string -> Option<nat>)
    requires Forwards(forward, parse)
    ensures OnHpd(f, pin, orientation, hpd, forward).drm ==
            Run(f.drm, CallsOf(f, HpdChanged(pin, orientation, hpd), forward), parse)
  {
    var first := if f.pinSet then [] else [Call(PinAssignment, pin)];
    var second := if f.orientationSet then [] else [Call(Orientation, orientation)];
    var pinned := if f.pinSet then f else TryPin(f, pin, forward);
    RunOne(f.drm, Call(PinAssignment, pin), parse);
    assert pinned.drm == Run(f.drm, first, parse) && pinned.orientationSet == f.orientationSet;
    var oriented := if f.orientationSet then pinned else TryOrientation(pinned, orientation, forward);
    RunOne(pinned.drm, Call(Orientation, orientation), parse);
    assert oriented.drm == Run(pinned.drm, second, parse);
    RunAppend(f.drm, first, second, parse);
    RunOne(oriented.drm, Call(Hpd, hpd), parse);
    RunAppend(f.drm, first + second, [Call(Hpd, hpd)], parse);
  }

  /** The worker's effect on the DRM is that of its calls, so the results on runs of calls apply. */
  lemma {:induction false} WorkerRunsCalls(w: Worker, events: seq<Event>, forward: Forwarder, parse: string -> Option<nat>)
    requires Forwards(forward, parse)
    ensures OnEvents(w, events, forward).forwarding.drm == Run(w.forwarding.drm, AllCalls(w, events, forward), parse)
  {
    if events != [] {
      var before, last := events[..|events| - 1], events[|events| - 1];
      WorkerRunsCalls(w, before, forward, parse);
      var f := OnEvents(w, before, forward).forwarding;
      EventRunsCalls(f, last, forward, parse);
      RunAppend(w.forwarding.drm, AllCalls(w, before, forward), CallsOf(f, last, forward), parse);
    }
  }

  /** pinSet means that the DRM accepted the character after the "[" of some pin text. */
  lemma {:induction false} PinSetIsDelivered(w: Worker, events: seq<Event>, forward: Forwarder, parse: string -> Option<nat>)
    requires Forwards(forward, parse) && !w.forwarding.pinSet
    ensures var f := OnEvents(w, events, forward).forwarding; f.pinSet ==> PinDelivered(f.drm.writes)
  {
    if events != [] {
      PinSetIsDelivered(w, events[..|events| - 1], forward, parse);
      EventKeepsPin(OnEvents(w, events[..|events| - 1], forward).forwarding, events[|events| - 1], forward, parse);
    }
  }

  lemma EventKeepsPin(f: Forwarding, e: Event, forward: Forwarder, parse: string -> Option<nat>)
    requires Forwards(forward, parse) && (f.pinSet ==> PinDelivered(f.drm.writes))
    ensures var after := NextForwarding(f, e, forward); after.pinSet ==> PinDelivered(after.drm.writes)
  {
    match e
    case HpdChanged(pin, orientation, hpd) =>
      var pinned := if f.pinSet then f else TryPin(f, pin, forward);
      CallKeepsPin(f.drm, PinAssignment, pin, parse);
      var oriented := if pinned.orientationSet then pinned else TryOrientation(pinned, orientation, forward);
      CallKeepsPin(pinned.drm, Orientation, orientation, parse);
      CallKeepsPin(oriented.drm, Hpd, hpd, parse);
    case PinChanged(pin) => CallKeepsPin(f.drm, PinAssignment, pin, parse);
    case OrientationChanged(orientation) => CallKeepsPin(f.drm, Orientation, orientation, parse);
    case EventFdRead(flag, irq) => CallKeepsPin(f.drm, IrqHpdCount, irq, parse);
    case _ =>
  }

  /** The counts behind the check codes that the worker read. */
  function CheckedCounts(events: seq<Event>, parse: string -> Option<nat>): seq<nat> {
    if events == [] then []
    else
      var last := events[|events| - 1];
      CheckedCounts(events[..|events| - 1], parse) +
      if last.EventFdRead? && last.flag == IRQ_HPD_COUNT_CHECK then CountOf(Call(IrqHpdCount, last.irq), parse) else []
  }

  lemma {:induction false} CountsAppend(a: seq<Call>, b: seq<Call>, parse: string -> Option<nat>)
    ensures Counts(a + b, parse) == Counts(a, parse) + Counts(b, parse)
    decreases |b|
  {
    if b == [] {
      assert a + b == a;
    } else {
      var n := |b| - 1;
      assert (a + b)[..|a| + n] == a + b[..n] && (a + b)[|a| + n] == b[n];
      CountsAppend(a, b[..n], parse);
      Regroup(Counts(a, parse), Counts(b[..n], parse), CountOf(b[n], parse));
    }
  }

  lemma CountsOfEvent(f: Forwarding, e: Event, forward: Forwarder, parse: string -> Option<nat>)
    ensures Counts(CallsOf(f, e, forward), parse) ==
            if e.EventFdRead? && e.flag == IRQ_HPD_COUNT_CHECK then CountOf(Call(IrqHpdCount, e.irq), parse) else []
  {
    var calls := CallsOf(f, e, forward);
    if e.EventFdRead? && e.flag == IRQ_HPD_COUNT_CHECK {
      assert calls[..0] == [];
    } else {
      NoCounts(calls, parse);
    }
  }

  lemma {:induction false} NoCounts(calls: seq<Call>, parse: string -> Option<nat>)
    requires forall call :: call in calls ==> call.Call? ==> !call.attr.IrqHpdCount?
    ensures Counts(calls, parse) == []
  {
    if calls != [] {
      NoCounts(calls[..|calls| - 1], parse);
    }
  }

  lemma {:induction false} CountsOfEvents(w: Worker, events: seq<Event>, forward: Forwarder, parse: string -> Option<nat>)
    ensures Counts(AllCalls(w, events, forward), parse) == CheckedCounts(events, parse)
  {
    if events != [] {
      var before, last := events[..|events| - 1], events[|events| - 1];
      CountsOfEvents(w, before, forward, parse);
      var f := OnEvents(w, before, forward).forwarding;
      CountsAppend(AllCalls(w, before, forward), CallsOf(f, last, forward), parse);
      CountsOfEvent(f, last, forward, parse);
    }
  }

  /** IRQ forwarding of a whole worker life: the counts attempted on irq_hpd are the changes among the
      counts read for the check codes, from whatever the cache held before. */
  lemma WorkerForwardsIrqChanges(w: Worker, events: seq<Event>, forward: Forwarder, parse: string -> Option<nat>)
    requires Forwards(forward, parse)
    ensures var before, after := w.forwarding.drm, OnEvents(w, events, forward).forwarding.drm;
            Attempted(after.writes, parse) ==
            Attempted(before.writes, parse) + Changes(before.irqCache, CheckedCounts(events, parse))
  {
    WorkerRunsCalls(w, events, forward, parse);
    CountsOfEvents(w, events, forward, parse);
    IrqForwardsChanges(w.forwarding.drm, AllCalls(w, events, forward), parse);
  }
}
