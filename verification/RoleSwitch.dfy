/** Mode switching (Usb.cpp:460-511 and 583-641) against the uevent thread (Usb.cpp:1231-1269), as
    interleaved steps over mRoleSwitchLock, mPartnerLock, mPartnerCV, mPartnerUp and the port_type
    nodes.  Any number of threads may call switchRole; mRoleSwitchLock admits one at a time. */
module RoleSwitch {
  import opened Wrappers

  type Port = string

  /** A mode request: the port and the text that its role converts to. */
  datatype Request = Request(port: Port, text: string)

  /** Where the thread that holds mRoleSwitchLock is in switchMode. */
  datatype SwitchPc =
    | Opening
    | WantsPartner
    | HasPartner
    | Cleared
    | Written
    | Sleeping
    | Woken(timedOut: bool)
    | Checking(timedOut: bool)
    | Deciding(result: bool)
    | Released(result: bool)
    | Notifying(result: bool)

  /** The holder of mRoleSwitchLock.  A power or data role request does not touch port_type. */
  datatype RoleLock = Nobody | Switcher(request: Request, pc: SwitchPc) | OtherRole | Restorer

  datatype UeventPc = Idle | WantsAdd | HoldsAdd | UpSet | Signalled | Restoring

  datatype Who = SwitchThread | UeventThread

  /** What a step did that others can see. */
  datatype Event =
    | Quiet
    | Locked(request: Request)
    | OtherLocked
    | OtherUnlocked
    | PartnerCleared
    | PartnerAdded
    | Woke(timedOut: bool)
    | Returned(result: bool)
    | Dual(who: Who, port: Port)
    | Unlocked(request: Request, result: bool, stored: bool, content: string)

  /** `stored` says whether the latest write of the present switch to its node took effect. */
  datatype State = State(
    role: RoleLock,
    uevent: UeventPc,
    partner: Option<Who>,
    partnerUp: bool,
    nodes: map<Port, string>,
    stored: bool
  )

  const DUAL := "dual"

  function Init(nodes: map<Port, string>): State {
    State(Nobody, Idle, None, false, nodes, true)
  }

  datatype Step =
    | BeginSwitch(request: Request)
    | BeginOther
    | EndOther
    | Open(ok: bool)
    | TakePartner
    | ClearPartner
    | WriteText(eof: bool, stores: bool)
    | Sleep
    | Wake(timedOut: bool)
    | Retake
    | Check
    | ReleasePartner
    | Restore(stores: bool)
    | EndSwitch
    | Uevent(move: UeventMove)

  datatype UeventMove =
    | Adds
    | Takes
    | SetsUp
    | Signals
    | Releases
    | TriesRole
    | Restores(port: Port, stores: bool)
    | EndsRestore

  /** What a step leads to: Blocked when its thread cannot take it now. */
  datatype Outcome = Blocked | Did(next: State, event: Event)

  predicate At(s: State, pc: SwitchPc) {
    s.role.Switcher? && s.role.pc == pc
  }

  function Goto(s: State, pc: SwitchPc): State
    requires s.role.Switcher?
  {
    s.(role := s.role.(pc := pc))
  }

  function Store(s: State, port: Port, text: string, stores: bool): State {
    if stores then s.(nodes := s.nodes[port := text]) else s
  }

  function Content(s: State, port: Port): string {
    if port in s.nodes then s.nodes[port] else ""
  }

  function Next(s: State, step: Step): Outcome {
    match step
    case BeginSwitch(request) =>
      if s.role.Nobody? then Did(s.(role := Switcher(request, Opening)), Locked(request)) else Blocked
    case BeginOther => if s.role.Nobody? then Did(s.(role := OtherRole), OtherLocked) else Blocked
    case EndOther => if s.role.OtherRole? then Did(s.(role := Nobody), OtherUnlocked) else Blocked
    case Uevent(move) => NextUevent(s, move)
    case _ => if s.role.Switcher? then NextSwitch(s, step) else Blocked
  }

  /** The uevent thread: a partner-add field, and the try-lock after a port query. */
  function NextUevent(s: State, move: UeventMove): Outcome {
    match move
    case Adds => if s.uevent.Idle? then Did(s.(uevent := WantsAdd), Quiet) else Blocked
    case Takes =>
      if s.uevent.WantsAdd? && s.partner.None? then Did(s.(uevent := HoldsAdd, partner := Some(UeventThread)), Quiet)
      else Blocked
    case SetsUp =>
      if s.uevent.HoldsAdd? then Did(s.(uevent := UpSet, partnerUp := true), PartnerAdded) else Blocked
    case Signals =>
      if s.uevent.UpSet? then
        var t := s.(uevent := Signalled);
        if At(s, Sleeping) then Did(Goto(t, Woken(false)), Woke(false)) else Did(t, Quiet)
      else Blocked
    case Releases => if s.uevent.Signalled? then Did(s.(uevent := Idle, partner := None), Quiet) else Blocked
    // Line 1256: the uevent thread only tries the lock.
    case TriesRole =>
      if s.uevent.Idle? then Did(if s.role.Nobody? then s.(role := Restorer, uevent := Restoring) else s, Quiet)
      else Blocked
    case Restores(port, stores) =>
      if s.uevent.Restoring? then Did(Store(s, port, DUAL, stores), Dual(UeventThread, port)) else Blocked
    case EndsRestore => if s.uevent.Restoring? then Did(s.(role := Nobody, uevent := Idle), Quiet) else Blocked
  }

  /** switchMode, followed by the end of switchRole. */
  function NextSwitch(s: State, step: Step): Outcome
    requires s.role.Switcher?
  {
    match (s.role.pc, step)
    case (Opening, Open(ok)) =>
      if ok then Did(Goto(s, WantsPartner), Quiet) else Did(Goto(s, Released(false)), Returned(false))
    case (WantsPartner, TakePartner) =>
      if s.partner.None? then Did(Goto(s, HasPartner).(partner := Some(SwitchThread)), Quiet) else Blocked
    case (HasPartner, ClearPartner) => Did(Goto(s, Cleared).(partnerUp := false), PartnerCleared)
    case (Cleared, WriteText(eof, stores)) =>
      if eof then Did(Goto(s, Deciding(false)), Quiet)
      else Did(Store(Goto(s, Written).(stored := stores), s.role.request.port, s.role.request.text, stores), Quiet)
    case (Written, Sleep) => Did(Goto(s, Sleeping).(partner := None), Quiet)
    case (Sleeping, Wake(timedOut)) => Did(Goto(s, Woken(timedOut)), Woke(timedOut))
    case (Woken(timedOut), Retake) =>
      if s.partner.None? then Did(Goto(s, Checking(timedOut)).(partner := Some(SwitchThread)), Quiet) else Blocked
    // Lines 491-499: a timeout wins; a wakeup without a partner waits again.
    case (Checking(timedOut), Check) =>
      Did(Goto(s, if timedOut then Deciding(false) else if !s.partnerUp then Written else Deciding(true)), Quiet)
    case (Deciding(result), ReleasePartner) => Did(Goto(s, Released(result)).(partner := None), Returned(result))
    case (Released(result), Restore(stores)) =>
      if result then Did(Goto(s, Notifying(true)), Quiet)
      else Did(Store(Goto(s, Notifying(false)).(stored := stores), s.role.request.port, DUAL, stores),
               Dual(SwitchThread, s.role.request.port))
    case (Notifying(result), EndSwitch) =>
      Did(s.(role := Nobody), Unlocked(s.role.request, result, s.stored, Content(s, s.role.request.port)))
    case _ => Blocked
  }

  // ---- Reading the events ----

  /** What the events say about the partner of the switch in progress. */
  datatype Phase = NotCleared | AwaitingPartner | PartnerCame

  /** What the events so far say: the phase, whether the latest wakeup of the switch in progress was a
      timeout (None before any), and whether a role switch of any kind holds mRoleSwitchLock. */
  datatype Reading = Reading(phase: Phase, timedOut: Option<bool>, switching: bool)

  function After(r: Reading, e: Event): Reading {
    match e
    case Locked(_) => Reading(NotCleared, None, true)
    case PartnerCleared => r.(phase := AwaitingPartner)
    case PartnerAdded => if r.phase.NotCleared? then r else r.(phase := PartnerCame)
    case Woke(timedOut) => r.(timedOut := Some(timedOut))
    case Unlocked(_, _, _, _) => r.(switching := false)
    case OtherLocked => r.(switching := true)
    case OtherUnlocked => r.(switching := false)
    case _ => r
  }

  function Read(events: seq<Event>): Reading {
    if events == [] then Reading(NotCleared, None, false)
    else After(Read(events[..|events| - 1]), events[|events| - 1])
  }

  /** Event k cleared the flag, and no switch began and nothing cleared the flag after it. */
  predicate ClearedAt(events: seq<Event>, k: int) {
    && 0 <= k < |events|
    && events[k].PartnerCleared?
    && forall m :: k < m < |events| ==> !events[m].Locked? && !events[m].PartnerCleared?
  }

  /** The phase in plain terms: a partner came after the clear of the switch in progress, or none did. */
  lemma {:induction false} PhaseMeaning(events: seq<Event>) returns (k: int, j: int)
    ensures !Read(events).phase.NotCleared? ==> ClearedAt(events, k)
    ensures Read(events).phase.PartnerCame? ==> k < j < |events| && events[j].PartnerAdded?
    ensures Read(events).phase.AwaitingPartner? ==> forall m :: k < m < |events| ==> !events[m].PartnerAdded?
  {
    k, j := 0, 0;
    if events != [] {
      var n := |events| - 1;
      k, j := PhaseMeaning(events[..n]);
      match events[n]
      case PartnerCleared => k := n;
      case PartnerAdded => j := n;
      case _ =>
    }
  }

  // ---- Runs ----

  /** `events[i]` is what step i did. */
  datatype Trace = Trace(states: seq<State>, steps: seq<Step>, events: seq<Event>)

  ghost predicate IsRun(run: Trace) {
    && |run.states| == |run.steps| + 1 == |run.events| + 1
    && (exists nodes :: run.states[0] == Init(nodes))
    && forall i {:trigger Next(run.states[i], run.steps[i])} :: 0 <= i < |run.steps| ==>
         Next(run.states[i], run.steps[i]) == Did(run.states[i + 1], run.events[i])
  }

  // ---- The invariant ----

  predicate SwitchHoldsPartner(role: RoleLock) {
    role.Switcher? &&
    (role.pc.HasPartner? || role.pc.Cleared? || role.pc.Written? || role.pc.Checking? || role.pc.Deciding?)
  }

  predicate UeventHoldsPartner(uevent: UeventPc) {
    uevent.HoldsAdd? || uevent.UpSet? || uevent.Signalled?
  }

  predicate LocksAgree(s: State, r: Reading) {
    && (s.partner == Some(SwitchThread) <==> SwitchHoldsPartner(s.role))
    && (s.partner == Some(UeventThread) <==> UeventHoldsPartner(s.uevent))
    && (s.role.Restorer? <==> s.uevent.Restoring?)
    && (s.role.Switcher? || s.role.OtherRole? <==> r.switching)
  }

  /** The switch in progress was woken by something other than its deadline, after its partner came. */
  predicate Confirmed(r: Reading) {
    r.phase.PartnerCame? && r.timedOut == Some(false)
  }

  /** The flag, while a switch that cleared it is undecided, says what the events say. */
  predicate FlagAgrees(s: State, r: Reading) {
    var cleared := r.phase == if s.partnerUp then PartnerCame else AwaitingPartner;
    s.role.Switcher? ==>
      match s.role.pc
      case Opening => r.phase.NotCleared? && r.timedOut == None
      case WantsPartner => r.phase.NotCleared? && r.timedOut == None
      case HasPartner => r.phase.NotCleared? && r.timedOut == None
      case Cleared => cleared && !s.partnerUp && r.timedOut == None
      case Written => cleared && !s.partnerUp && r.timedOut != Some(true)
      case Sleeping => cleared && r.timedOut != Some(true) && (s.partnerUp ==> s.uevent.UpSet?)
      case Woken(timedOut) => cleared && r.timedOut == Some(timedOut)
      case Checking(timedOut) => cleared && r.timedOut == Some(timedOut)
      case Deciding(result) => result == Confirmed(r) && (!result ==> r.timedOut != Some(false))
      case _ => true
  }

  predicate NodeAgrees(s: State) {
    s.role.Switcher? && s.stored ==>
      var text := Content(s, s.role.request.port);
      match s.role.pc
      case Opening => true
      case WantsPartner => true
      case HasPartner => true
      case Cleared => true
      case Deciding(result) => result ==> text == s.role.request.text
      case Released(result) => result ==> text == s.role.request.text
      case Notifying(result) => text == if result then s.role.request.text else DUAL
      case _ => text == s.role.request.text
  }

  predicate Inv(s: State, r: Reading) {
    LocksAgree(s, r) && FlagAgrees(s, r) && NodeAgrees(s)
  }

  /** An event is as it should be, given what the events before it say. */
  predicate EventOk(r: Reading, e: Event) {
    match e
    case Returned(result) => (result <==> Confirmed(r)) && (!result ==> r.timedOut != Some(false))
    case Dual(who, _) => who.UeventThread? ==> !r.switching
    case Unlocked(request, result, stored, content) => stored ==> content == if result then request.text else DUAL
    case _ => true
  }

  /** switchMode up to its wait; the rest is the next lemma. */
  predicate BeforeWait(pc: SwitchPc) {
    pc.Opening? || pc.WantsPartner? || pc.HasPartner? || pc.Cleared? || pc.Written?
  }

  lemma BeforeWaitKeepsInv(s: State, step: Step, r: Reading)
    requires Inv(s, r) && s.role.Switcher? && BeforeWait(s.role.pc) && NextSwitch(s, step).Did?
    ensures EventOk(r, NextSwitch(s, step).event)
    ensures Inv(NextSwitch(s, step).next, After(r, NextSwitch(s, step).event))
  {
  }

  lemma AfterWaitKeepsInv(s: State, step: Step, r: Reading)
    requires Inv(s, r) && s.role.Switcher? && !BeforeWait(s.role.pc) && NextSwitch(s, step).Did?
    ensures EventOk(r, NextSwitch(s, step).event)
    ensures Inv(NextSwitch(s, step).next, After(r, NextSwitch(s, step).event))
  {
  }

  lemma UeventKeepsInv(s: State, move: UeventMove, r: Reading)
    requires Inv(s, r) && NextUevent(s, move).Did?
    ensures EventOk(r, NextUevent(s, move).event)
    ensures Inv(NextUevent(s, move).next, After(r, NextUevent(s, move).event))
  {
  }

  lemma InvPreserved(s: State, step: Step, r: Reading)
    requires Inv(s, r) && Next(s, step).Did?
    ensures EventOk(r, Next(s, step).event)
    ensures Inv(Next(s, step).next, After(r, Next(s, step).event))
  {
    match step
    case BeginSwitch(_) =>
    case BeginOther =>
    case EndOther =>
    case Uevent(move) => UeventKeepsInv(s, move, r);
    case _ => if BeforeWait(s.role.pc) { BeforeWaitKeepsInv(s, step, r); } else { AfterWaitKeepsInv(s, step, r); }
  }

  lemma {:induction false} InvThroughout(run: Trace, i: nat)
    requires IsRun(run) && i < |run.states|
    ensures Inv(run.states[i], Read(run.events[..i]))
  {
    if i > 0 {
      InvThroughout(run, i - 1);
      assert Next(run.states[i - 1], run.steps[i - 1]) == Did(run.states[i], run.events[i - 1]);
      InvPreserved(run.states[i - 1], run.steps[i - 1], Read(run.events[..i - 1]));
      assert run.events[..i][..i - 1] == run.events[..i - 1];
    }
  }

  /** Role-switch safety over every run.  switchMode returns true exactly when its latest wakeup was not
      a timeout and a partner came after this very switch cleared the flag, and once it has slept it returns
      false exactly when that wakeup was its deadline, so never because it woke early; the uevent thread never
      writes "dual" while any role switch holds its lock; and at unlock, if the latest write of the switch
      took effect, the node holds the requested text on success and "dual" on failure. */
  lemma RoleSwitchSafety(run: Trace, i: nat)
    requires IsRun(run) && i < |run.events|
    ensures var before := Read(run.events[..i]);
            match run.events[i]
            case Returned(result) =>
              && (result <==> before.phase.PartnerCame? && before.timedOut == Some(false))
              && (before.timedOut.Some? ==> (result <==> before.timedOut == Some(false)))
            case Dual(who, _) => who.UeventThread? ==> !before.switching
            case Unlocked(request, result, stored, content) =>
              stored ==> content == if result then request.text else DUAL
            case _ => true
  {
    InvThroughout(run, i);
    assert Next(run.states[i], run.steps[i]) == Did(run.states[i + 1], run.events[i]);
    InvPreserved(run.states[i], run.steps[i], Read(run.events[..i]));
  }

  /** No lost wakeup: a switch never sleeps with the flag up, except in the moment before the uevent
      thread, which still holds the lock, signals it. */
  lemma NoLostWakeup(run: Trace, i: nat)
    requires IsRun(run) && i < |run.states|
    ensures var s := run.states[i]; At(s, Sleeping) && s.partnerUp ==> s.uevent.UpSet?
  {
    InvThroughout(run, i);
  }

  /** A switch that reports success saw its partner: the flag was cleared, and later a partner-add event
      set it, with no other switch and no other clear in between. */
  lemma SuccessSawPartner(run: Trace, i: nat)
    requires IsRun(run) && i < |run.events| && run.events[i] == Returned(true)
    ensures exists k, j :: ClearedAt(run.events[..i], k) && k < j < i && run.events[j].PartnerAdded?
  {
    RoleSwitchSafety(run, i);
    var k, j := PhaseMeaning(run.events[..i]);
    assert run.events[j] == run.events[..i][j];
  }

  // ---- A success that is missed ----

  ghost predicate Built(run: Trace, s: State, r: Reading) {
    IsRun(run) && run.states[|run.states| - 1] == s && Read(run.events) == r
  }

  lemma Extend(run: Trace, s: State, r: Reading, step: Step, t: State, e: Event) returns (longer: Trace)
    requires Built(run, s, r) && Next(s, step) == Did(t, e)
    ensures Built(longer, t, After(r, e))
  {
    longer := Trace(run.states + [t], run.steps + [step], run.events + [e]);
    assert longer.events[..|run.events|] == run.events;
  }

  /** A mode switch that has taken mPartnerLock. */
  lemma SwitchBegins(request: Request) returns (run: Trace)
    ensures Built(run, State(Switcher(request, HasPartner), Idle, Some(SwitchThread), false, map[], true),
                  Reading(NotCleared, None, true))
  {
    var s0 := Init(map[]);
    run := Trace([s0], [], []);
    var s1 := s0.(role := Switcher(request, Opening));
    run := Extend(run, s0, Reading(NotCleared, None, false), BeginSwitch(request), s1, Locked(request));
    var r := Reading(NotCleared, None, true);
    run := Extend(run, s1, r, Open(true), Goto(s1, WantsPartner), Quiet);
    var s2 := Goto(s1, HasPartner).(partner := Some(SwitchThread));
    run := Extend(run, Goto(s1, WantsPartner), r, TakePartner, s2, Quiet);
  }

  /** A mode switch up to its sleep. */
  lemma SwitchSleeps(request: Request) returns (run: Trace)
    ensures Built(run, State(Switcher(request, Sleeping), Idle, None, false, map[request.port := request.text], true),
                  Reading(AwaitingPartner, None, true))
  {
    run := SwitchBegins(request);
    var s := State(Switcher(request, HasPartner), Idle, Some(SwitchThread), false, map[], true);
    var r := Reading(AwaitingPartner, None, true);
    run := Extend(run, s, Reading(NotCleared, None, true), ClearPartner, Goto(s, Cleared), PartnerCleared);
    var w := Goto(s, Written).(nodes := map[request.port := request.text]);
    run := Extend(run, Goto(s, Cleared), r, WriteText(false, true), w, Quiet);
    run := Extend(run, w, r, Sleep, Goto(w, Sleeping).(partner := None), Quiet);
  }

  /** A partner-add field is handled while a timed-out switch has not yet taken the lock back. */
  lemma PartnerComesLate(run: Trace, s: State) returns (longer: Trace)
    requires s.role.Switcher? && s.role.pc == Woken(true) && s.uevent.Idle? && s.partner.None?
    requires Built(run, s, Reading(AwaitingPartner, Some(true), true))
    ensures Built(longer, s.(partnerUp := true), Reading(PartnerCame, Some(true), true))
  {
    var r := Reading(AwaitingPartner, Some(true), true);
    longer := Extend(run, s, r, Uevent(Adds), s.(uevent := WantsAdd), Quiet);
    var u := s.(uevent := HoldsAdd, partner := Some(UeventThread));
    longer := Extend(longer, s.(uevent := WantsAdd), r, Uevent(Takes), u, Quiet);
    var v := u.(uevent := UpSet, partnerUp := true);
    longer := Extend(longer, u, r, Uevent(SetsUp), v, PartnerAdded);
    longer := PartnerHandled(longer, v);
    assert v.(uevent := Idle, partner := None) == s.(partnerUp := true);
  }

  lemma PartnerHandled(run: Trace, s: State) returns (longer: Trace)
    requires s.role.Switcher? && s.role.pc == Woken(true) && s.uevent.UpSet?
    requires Built(run, s, Reading(PartnerCame, Some(true), true))
    ensures Built(longer, s.(uevent := Idle, partner := None), Reading(PartnerCame, Some(true), true))
  {
    var r := Reading(PartnerCame, Some(true), true);
    longer := Extend(run, s, r, Uevent(Signals), s.(uevent := Signalled), Quiet);
    longer := Extend(longer, s.(uevent := Signalled), r, Uevent(Releases), s.(uevent := Idle, partner := None), Quiet);
  }

  /** The converse fails: a partner that arrives between the timeout and the check is ignored, and
      switchMode reports failure although the partner came after the clear. */
  lemma TimeoutHidesPartner(request: Request)
    ensures exists run ::
              IsRun(run) && run.events != [] && run.events[|run.events| - 1] == Returned(false) &&
              Read(run.events[..|run.events| - 1]).phase.PartnerCame?
  {
    var run := SwitchSleeps(request);
    var s := State(Switcher(request, Sleeping), Idle, None, false, map[request.port := request.text], true);
    var r := Reading(AwaitingPartner, None, true);
    run := Extend(run, s, r, Wake(true), Goto(s, Woken(true)), Woke(true));
    s := Goto(s, Woken(true));
    run := PartnerComesLate(run, s);
    s := s.(partnerUp := true);
    r := Reading(PartnerCame, Some(true), true);
    var c := Goto(s, Checking(true)).(partner := Some(SwitchThread));
    run := Extend(run, s, r, Retake, c, Quiet);
    var d := Goto(c, Deciding(false));
    run := Extend(run, c, r, Check, d, Quiet);
    FailsNow(run, d, r);
  }

  lemma FailsNow(run: Trace, s: State, r: Reading)
    requires Built(run, s, r) && r.phase.PartnerCame? && At(s, Deciding(false))
    ensures exists longer ::
              IsRun(longer) && longer.events != [] && longer.events[|longer.events| - 1] == Returned(false) &&
              Read(longer.events[..|longer.events| - 1]).phase.PartnerCame?
  {
    var done := Goto(s, Released(false)).(partner := None);
    var longer := Trace(run.states + [done], run.steps + [ReleasePartner], run.events + [Returned(false)]);
    assert longer.events[..|run.events|] == run.events;
    assert IsRun(longer);
  }
}
