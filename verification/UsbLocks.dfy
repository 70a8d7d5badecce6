/** The locking skeletons of the routines of Usb.cpp, and the deadlock results for them. */
module UsbLocks {
  import opened Wrappers
  import opened LockOrder

  /** The timed wait of setupDisplayPortPoll for a running worker (Usb.cpp:1847-1856). */
  const AWAIT_EXIT: Code := Choice(Lock(DisplayPortCV, TimedWait(DisplayPortCV)), Work)

  /** setupDisplayPortPoll (Usb.cpp:1826): gives up, or waits if need be and creates a worker. */
  const SETUP_POLL: Code := Choice(Work, Then(AWAIT_EXIT, Work))

  /** A boot with a connected display runs the setup from queryVersionHelper (Usb.cpp:1099-1106). */
  const FIRST_SETUP: Code := Lock(DisplayPort, Choice(SETUP_POLL, Work))

  /** queryVersionHelper (Usb.cpp:1086). */
  const QUERY_VERSION: Code := Lock(Callback, Then(Work, Choice(Then(FIRST_SETUP, Work), Work)))

  /** The wait of switchMode, at least once (Usb.cpp:485-500). */
  const AWAIT_PARTNER: Code := Then(TimedWait(Partner), Loop(TimedWait(Partner)))

  /** switchMode (Usb.cpp:460). */
  const SWITCH_MODE: Code := Choice(Work, Then(Lock(Partner, Choice(AWAIT_PARTNER, Work)), Work))

  /** The DisplayPort driver field (Usb.cpp:1285-1295): bind, change, or neither. */
  const DRIVER_FIELD: Code := Choice(Choice(Lock(DisplayPort, SETUP_POLL), Lock(DisplayPort, Work)), Work)

  /** One field of a uevent message (Usb.cpp:1231-1297). */
  const UEVENT_FIELD: Code :=
    Choice(Lock(Partner, Work), Choice(Then(QUERY_VERSION, TryLock(RoleSwitch, Work)), DRIVER_FIELD))

  datatype Routine =
    | SwitchRole
    | QueryPortStatus
    | EnableUsbData
    | NotifyAndQuery
    | ResetUsbPort
    | DataSessionMonitor
    | UeventThread
    | PollWorker
    | ShutdownHelper
    | RegisterCallback
    | RemoveCallback

  /** setCallback joins nobody unless it takes a callback away (Usb.cpp:1386-1391); then it joins the uevent
      thread, if it could be signalled.  NotifyAndQuery stands for limitPowerTransfer, enableUsbDataWhileDocked and
      enableContaminantPresenceDetection, which lock alike.  enableUsbData calls the setup without
      mDisplayPortLock (line 151). */
  function Body(routine: Routine): Code {
    match routine
    case SwitchRole => Choice(Work, Lock(RoleSwitch, Then(Choice(SWITCH_MODE, Work), Lock(Callback, Work))))
    case QueryPortStatus => Then(QUERY_VERSION, Lock(Callback, Work))
    case EnableUsbData => Then(Choice(SETUP_POLL, Work), Then(Lock(Callback, Work), QUERY_VERSION))
    case NotifyAndQuery => Then(Lock(Callback, Work), QUERY_VERSION)
    case ResetUsbPort => Then(Work, Lock(Callback, Work))
    case DataSessionMonitor => Loop(QUERY_VERSION)
    case UeventThread => Loop(Loop(UEVENT_FIELD))
    case PollWorker => Then(Work, Then(Loop(Choice(QUERY_VERSION, Work)), Work))
    case ShutdownHelper => Then(Work, Then(Join, Then(Work, Lock(DisplayPortCV, Work))))
    case RegisterCallback => Lock(Callback, Work)
    case RemoveCallback => Lock(Callback, Choice(Work, Join))
  }

  lemma {:induction false} JoinlessIsBare(code: Code, held: set<Mutex>)
    requires !HasJoin(code)
    ensures JoinsBare(code, held)
    decreases code
  {
    match code
    case Lock(m, body) => JoinlessIsBare(body, held + {m});
    case TryLock(m, body) => JoinlessIsBare(body, held + {m});
    case Then(first, second) => JoinlessIsBare(first, held); JoinlessIsBare(second, held);
    case Choice(left, right) => JoinlessIsBare(left, held); JoinlessIsBare(right, held);
    case Loop(body) => JoinlessIsBare(body, held);
    case _ =>
  }

  lemma SetupIsDisciplined(held: set<Mutex>)
    requires Above(DisplayPortCV, held)
    ensures Climbs(SETUP_POLL, held) && !HasJoin(SETUP_POLL)
  {
    assert held + {DisplayPortCV} - {DisplayPortCV} == held;
    assert Climbs(Lock(DisplayPortCV, TimedWait(DisplayPortCV)), held);
    assert Climbs(AWAIT_EXIT, held) && !HasJoin(AWAIT_EXIT);
  }

  lemma QueryVersionIsDisciplined()
    ensures Climbs(QUERY_VERSION, {}) && !HasJoin(QUERY_VERSION)
  {
    SetupIsDisciplined({Callback, DisplayPort});
    assert {Callback} + {DisplayPort} == {Callback, DisplayPort};
    assert Climbs(FIRST_SETUP, {Callback}) && !HasJoin(FIRST_SETUP);
    assert {} + {Callback} == {Callback};
    assert Climbs(Choice(Then(FIRST_SETUP, Work), Work), {Callback});
    assert !HasJoin(Choice(Then(FIRST_SETUP, Work), Work));
  }

  lemma SwitchModeIsDisciplined()
    ensures Climbs(SWITCH_MODE, {RoleSwitch}) && !HasJoin(SWITCH_MODE)
  {
    assert {RoleSwitch} + {Partner} == {RoleSwitch, Partner} && {RoleSwitch, Partner} - {Partner} == {RoleSwitch};
    assert Climbs(AWAIT_PARTNER, {RoleSwitch, Partner}) && !HasJoin(AWAIT_PARTNER);
    assert Climbs(Lock(Partner, Choice(AWAIT_PARTNER, Work)), {RoleSwitch});
    assert !HasJoin(Lock(Partner, Choice(AWAIT_PARTNER, Work)));
  }

  lemma UeventFieldIsDisciplined()
    ensures Climbs(UEVENT_FIELD, {}) && !HasJoin(UEVENT_FIELD)
  {
    QueryVersionIsDisciplined();
    SetupIsDisciplined({DisplayPort});
    assert {} + {DisplayPort} == {DisplayPort};
    assert Climbs(DRIVER_FIELD, {}) && !HasJoin(DRIVER_FIELD);
    assert Climbs(Then(QUERY_VERSION, TryLock(RoleSwitch, Work)), {});
  }

  lemma SwitchRoleIsDisciplined()
    ensures Climbs(Body(SwitchRole), {}) && !HasJoin(Body(SwitchRole))
  {
    SwitchModeIsDisciplined();
    assert {} + {RoleSwitch} == {RoleSwitch};
    assert Climbs(Then(Choice(SWITCH_MODE, Work), Lock(Callback, Work)), {RoleSwitch});
    assert !HasJoin(Then(Choice(SWITCH_MODE, Work), Lock(Callback, Work)));
  }

  /** Every routine climbs the ranks; two join another thread, and only one of them while holding. */
  lemma RoutinesAreDisciplined(routine: Routine)
    ensures Climbs(Body(routine), {})
    ensures HasJoin(Body(routine)) <==> routine.ShutdownHelper? || routine.RemoveCallback?
    ensures JoinsBare(Body(routine), {}) <==> !routine.RemoveCallback?
  {
    QueryVersionIsDisciplined();
    match routine {
      case SwitchRole => SwitchRoleIsDisciplined();
      case EnableUsbData => SetupIsDisciplined({});
      case UeventThread => UeventFieldIsDisciplined();
      case PollWorker =>
        assert Climbs(Loop(Choice(QUERY_VERSION, Work)), {}) && !HasJoin(Loop(Choice(QUERY_VERSION, Work)));
      case ShutdownHelper => assert JoinsBare(Then(Work, Lock(DisplayPortCV, Work)), {});
      case RemoveCallback => assert !JoinsBare(Choice(Work, Join), {Callback});
      case _ =>
    }
    if !HasJoin(Body(routine)) {
      JoinlessIsBare(Body(routine), {});
    }
  }

  // ---- The table of acquisitions ----

  /** The mutexes a thread holds, the latest first. */
  datatype Stack = Free | On(m: Mutex, below: Stack)

  /** An acquisition of m by a thread that holds `held`. */
  datatype Acquisition = Acquisition(held: Stack, m: Mutex)

  /** A timed wait takes its mutex again after it has given it up. */
  function Acquisitions(code: Code, held: Stack): set<Acquisition> {
    match code
    case Work => {}
    case Join => {}
    case TimedWait(m) => {Acquisition(if held.On? && held.m == m then held.below else held, m)}
    case Lock(m, body) => {Acquisition(held, m)} + Acquisitions(body, On(m, held))
    case TryLock(m, body) => {Acquisition(held, m)} + Acquisitions(body, On(m, held))
    case Then(first, second) => Acquisitions(first, held) + Acquisitions(second, held)
    case Choice(left, right) => Acquisitions(left, held) + Acquisitions(right, held)
    case Loop(body) => Acquisitions(body, held)
  }

  const ON_CALLBACK: Stack := On(Callback, Free)

  const QUERY_LOCKS: set<Acquisition> :=
    {Acquisition(Free, Callback), Acquisition(ON_CALLBACK, DisplayPort),
     Acquisition(On(DisplayPort, ON_CALLBACK), DisplayPortCV)}

  const DRIVER_LOCKS: set<Acquisition> :=
    {Acquisition(Free, DisplayPort), Acquisition(On(DisplayPort, Free), DisplayPortCV)}

  /** What each routine takes, and what it holds then. */
  function Table(routine: Routine): set<Acquisition> {
    match routine
    case SwitchRole =>
      {Acquisition(Free, RoleSwitch), Acquisition(On(RoleSwitch, Free), Partner), Acquisition(On(RoleSwitch, Free), Callback)}
    case QueryPortStatus => QUERY_LOCKS
    case EnableUsbData => QUERY_LOCKS + {Acquisition(Free, DisplayPortCV)}
    case NotifyAndQuery => QUERY_LOCKS
    case ResetUsbPort => {Acquisition(Free, Callback)}
    case DataSessionMonitor => QUERY_LOCKS
    case UeventThread => {Acquisition(Free, Partner)} + (QUERY_LOCKS + {Acquisition(Free, RoleSwitch)} + DRIVER_LOCKS)
    case PollWorker => QUERY_LOCKS
    case ShutdownHelper => {Acquisition(Free, DisplayPortCV)}
    case RegisterCallback => {Acquisition(Free, Callback)}
    case RemoveCallback => {Acquisition(Free, Callback)}
  }

  lemma SetupAcquires(held: Stack)
    requires held.On? ==> held.m != DisplayPortCV
    ensures Acquisitions(SETUP_POLL, held) == {Acquisition(held, DisplayPortCV)}
  {
    assert Acquisitions(Lock(DisplayPortCV, TimedWait(DisplayPortCV)), held) == {Acquisition(held, DisplayPortCV)};
    assert Acquisitions(AWAIT_EXIT, held) == {Acquisition(held, DisplayPortCV)};
  }

  lemma QueryAcquires()
    ensures Acquisitions(QUERY_VERSION, Free) == QUERY_LOCKS
  {
    var inner := On(DisplayPort, ON_CALLBACK);
    SetupAcquires(inner);
    assert Acquisitions(FIRST_SETUP, ON_CALLBACK) == {Acquisition(ON_CALLBACK, DisplayPort), Acquisition(inner, DisplayPortCV)};
    assert Acquisitions(Then(Work, Choice(Then(FIRST_SETUP, Work), Work)), ON_CALLBACK) == Acquisitions(FIRST_SETUP, ON_CALLBACK);
  }

  lemma SwitchAcquires()
    ensures Acquisitions(Body(SwitchRole), Free) == Table(SwitchRole)
  {
    var held := On(RoleSwitch, Free);
    assert Acquisitions(AWAIT_PARTNER, On(Partner, held)) == {Acquisition(held, Partner)};
    assert Acquisitions(SWITCH_MODE, held) == {Acquisition(held, Partner)};
  }

  lemma DriverFieldAcquires()
    ensures Acquisitions(DRIVER_FIELD, Free) == DRIVER_LOCKS
  {
    SetupAcquires(On(DisplayPort, Free));
    assert Acquisitions(Lock(DisplayPort, Work), Free) == {Acquisition(Free, DisplayPort)};
    assert Acquisitions(Lock(DisplayPort, SETUP_POLL), Free) == DRIVER_LOCKS;
  }

  lemma ScanAcquires()
    ensures Acquisitions(Then(QUERY_VERSION, TryLock(RoleSwitch, Work)), Free) == QUERY_LOCKS + {Acquisition(Free, RoleSwitch)}
  {
    QueryAcquires();
    assert Acquisitions(TryLock(RoleSwitch, Work), Free) == {Acquisition(Free, RoleSwitch)};
  }

  lemma AnyOfThree(a: Code, b: Code, c: Code, held: Stack)
    ensures Acquisitions(Loop(Loop(Choice(a, Choice(b, c)))), held) ==
            Acquisitions(a, held) + (Acquisitions(b, held) + Acquisitions(c, held))
  {
    assert Acquisitions(Choice(b, c), held) == Acquisitions(b, held) + Acquisitions(c, held);
    assert Acquisitions(Loop(Choice(a, Choice(b, c))), held) == Acquisitions(Choice(a, Choice(b, c)), held);
  }

  lemma UeventAcquires()
    ensures Acquisitions(Body(UeventThread), Free) == Table(UeventThread)
  {
    ScanAcquires();
    DriverFieldAcquires();
    AnyOfThree(Lock(Partner, Work), Then(QUERY_VERSION, TryLock(RoleSwitch, Work)), DRIVER_FIELD, Free);
    assert Acquisitions(Lock(Partner, Work), Free) == {Acquisition(Free, Partner)};
  }

  lemma EnableAcquires()
    ensures Acquisitions(Body(EnableUsbData), Free) == Table(EnableUsbData)
  {
    QueryAcquires();
    SetupAcquires(Free);
    assert Acquisitions(Choice(SETUP_POLL, Work), Free) == {Acquisition(Free, DisplayPortCV)};
    assert Acquisitions(Then(Lock(Callback, Work), QUERY_VERSION), Free) == QUERY_LOCKS;
  }

  /** The routines take exactly the mutexes of the table, holding exactly what it says. */
  lemma RoutinesAcquire(routine: Routine)
    ensures Acquisitions(Body(routine), Free) == Table(routine)
  {
    match routine {
      case SwitchRole => SwitchAcquires();
      case EnableUsbData => EnableAcquires();
      case UeventThread => UeventAcquires();
      case PollWorker =>
        QueryAcquires();
        assert Acquisitions(Loop(Choice(QUERY_VERSION, Work)), Free) == QUERY_LOCKS;
      case ShutdownHelper => assert Acquisitions(Then(Work, Lock(DisplayPortCV, Work)), Free) == Table(ShutdownHelper);
      case _ => QueryAcquires();
    }
  }

  /** A run whose threads execute routines of the service.  A uevent thread starts while a callback is being
      registered (Usb.cpp:1402), helper threads join a poll worker, and the removal of the callback joins a
      uevent thread. */
  predicate Spawns(run: Trace, routines: set<Routine>) {
    && |run.states| == |run.steps| + 1
    && run.states[0] == State([], map[])
    && (forall i :: 0 <= i < |run.steps| ==> Next(run.states[i], run.steps[i]) == Some(run.states[i + 1]))
    && (forall i :: 0 <= i < |run.steps| && run.steps[i].Spawn? ==>
          exists r :: r in routines && run.steps[i].code == Body(r) && MayStart(run.states[i], r, run.steps[i].joins))
  }

  predicate MayStart(s: State, routine: Routine, joins: ThreadId) {
    MayJoin(s, routine, joins) && (routine.UeventThread? ==> exists u :: 0 <= u < |s.threads| && Registers(s, u))
  }

  /** Thread u is registering a callback and holds mLock. */
  predicate Registers(s: State, u: ThreadId) {
    u < |s.threads| && s.threads[u].code == Body(RegisterCallback) && Callback in Held(s.threads[u].rest)
  }

  predicate MayJoin(s: State, routine: Routine, joins: ThreadId) {
    && (routine.ShutdownHelper? ==> joins < |s.threads| && s.threads[joins].code == Body(PollWorker))
    && (routine.RemoveCallback? ==> joins < |s.threads| && s.threads[joins].code == Body(UeventThread))
  }

  lemma SpawnsIsRun(run: Trace, routines: set<Routine>)
    requires Spawns(run, routines)
    ensures IsRun(run)
  {
    RoutinesAreDisciplined(PollWorker);
    RoutinesAreDisciplined(UeventThread);
    forall i | 0 <= i < |run.steps| && run.steps[i].Spawn?
      ensures MaySpawn(run.states[i], run.steps[i].code, run.steps[i].joins)
    {
      var r :| r in routines && run.steps[i].code == Body(r) && MayStart(run.states[i], r, run.steps[i].joins);
      RoutinesAreDisciplined(r);
    }
  }

  /** Thread t was started with one of the routines, and joins as that routine may. */
  predicate Started(s: State, t: ThreadId, routines: set<Routine>)
    requires t < |s.threads|
  {
    exists r :: r in routines && s.threads[t].code == Body(r) && MayJoin(s, r, s.threads[t].joins)
  }

  lemma {:induction false} StartedThroughout(run: Trace, routines: set<Routine>, i: nat, t: ThreadId)
    requires Spawns(run, routines) && i < |run.states| && t < |run.states[i].threads|
    ensures Started(run.states[i], t, routines)
  {
    if i > 0 {
      var s, next, step := run.states[i - 1], run.states[i], run.steps[i - 1];
      assert Next(s, step) == Some(next);
      assert forall u :: 0 <= u < |s.threads| ==>
               next.threads[u].code == s.threads[u].code && next.threads[u].joins == s.threads[u].joins;
      if t < |s.threads| {
        StartedThroughout(run, routines, i - 1, t);
        var r :| r in routines && s.threads[t].code == Body(r) && MayJoin(s, r, s.threads[t].joins);
        assert MayJoin(next, r, next.threads[t].joins);
      } else {
        var r :| r in routines && step.code == Body(r) && MayStart(s, r, step.joins);
        assert MayJoin(next, r, next.threads[t].joins);
      }
    }
  }

  lemma BodiesDiffer(routine: Routine)
    ensures Body(routine) == Body(UeventThread) ==> routine.UeventThread?
    ensures Body(routine) == Body(RegisterCallback) ==> routine.RegisterCallback?
    ensures Body(routine) == Body(RemoveCallback) ==> routine.RemoveCallback?
  {
  }

  /** Where a uevent thread runs, callbacks may be registered. */
  lemma {:induction false} UeventWasRegistered(run: Trace, routines: set<Routine>, i: nat, t: ThreadId)
    requires Spawns(run, routines) && i < |run.states|
    requires t < |run.states[i].threads| && run.states[i].threads[t].code == Body(UeventThread)
    ensures UeventThread in routines && RegisterCallback in routines
  {
    var s, next, step := run.states[i - 1], run.states[i], run.steps[i - 1];
    assert Next(s, step) == Some(next);
    if t < |s.threads| {
      assert next.threads[t].code == s.threads[t].code;
      UeventWasRegistered(run, routines, i - 1, t);
    } else {
      var r :| r in routines && step.code == Body(r) && MayStart(s, r, step.joins);
      BodiesDiffer(r);
      var u :| 0 <= u < |s.threads| && Registers(s, u);
      StartedThroughout(run, routines, i - 1, u);
      var q :| q in routines && s.threads[u].code == Body(q) && MayJoin(s, q, s.threads[u].joins);
      BodiesDiffer(q);
    }
  }

  /** A thread that joins while it holds a mutex is removing the callback, and joins a uevent thread. */
  lemma JoinsHoldingRemoves(run: Trace, routines: set<Routine>, i: nat, t: ThreadId)
    requires Spawns(run, routines) && i < |run.states| && JoinsHolding(run.states[i], t)
    ensures {RegisterCallback, UeventThread, RemoveCallback} <= routines
    ensures run.states[i].threads[t].code == Body(RemoveCallback)
  {
    var s := run.states[i];
    SpawnsIsRun(run, routines);
    InvThroughout(run, i);
    JoinsHoldingIsNotBare(s, t);
    StartedThroughout(run, routines, i, t);
    var r :| r in routines && s.threads[t].code == Body(r) && MayJoin(s, r, s.threads[t].joins);
    RoutinesAreDisciplined(r);
    UeventWasRegistered(run, routines, i, s.threads[t].joins);
  }

  /** The service never deadlocks on its mutexes while no thread that removes the callback is joining: for
      any number of threads of all routines, in any interleaving, there is no wait cycle and some thread
      can move until all are finished.  Callbacks may be registered and replaced throughout. */
  lemma UsbDeadlockFree(run: Trace, routines: set<Routine>, i: nat)
    requires Spawns(run, routines) && i < |run.states|
    requires forall t :: 0 <= t < |run.states[i].threads| && run.states[i].threads[t].code == Body(RemoveCallback) ==>
               !AtJoin(run.states[i].threads[t].rest)
    ensures forall p :: !IsCycle(run.states[i], p)
    ensures Unfinished(run.states[i]) ==> CanMove(run.states[i])
  {
    SpawnsIsRun(run, routines);
    forall t | 0 <= t < |run.states[i].threads| ensures !JoinsHolding(run.states[i], t) {
      if JoinsHolding(run.states[i], t) {
        JoinsHoldingRemoves(run, routines, i, t);
      }
    }
    DeadlockFree(run, i);
  }

  /** Every wait cycle goes through a thread that removes the callback and joins under mLock. */
  lemma CyclesNeedRemoval(run: Trace, routines: set<Routine>, i: nat, p: seq<ThreadId>)
    requires Spawns(run, routines) && i < |run.states| && IsCycle(run.states[i], p)
    ensures exists j :: 0 <= j < |p| && JoinsHolding(run.states[i], p[j]) &&
                        run.states[i].threads[p[j]].code == Body(RemoveCallback)
  {
    SpawnsIsRun(run, routines);
    InvThroughout(run, i);
    CycleJoinsHolding(run.states[i], p);
    var j :| 0 <= j < |p| && JoinsHolding(run.states[i], p[j]);
    JoinsHoldingRemoves(run, routines, i, p[j]);
  }

  // ---- The deadlock of the callback's removal ----

  const CALLBACKS: set<Routine> := {RegisterCallback, UeventThread, RemoveCallback}

  ghost predicate Built(run: Trace, s: State) {
    && Spawns(run, CALLBACKS)
    && run.states[|run.states| - 1] == s
  }

  lemma Extend(run: Trace, s: State, t: ThreadId, left: bool) returns (longer: Trace, next: State)
    requires Built(run, s) && t < |s.threads| && RunThread(s, t, left).Some?
    ensures Built(longer, next) && next == RunThread(s, t, left).value
  {
    next := RunThread(s, t, left).value;
    longer := Trace(run.states + [next], run.steps + [Run(t, left)]);
  }

  lemma Start(run: Trace, s: State, routine: Routine, joins: ThreadId) returns (longer: Trace, next: State)
    requires Built(run, s) && routine in CALLBACKS && MayStart(s, routine, joins)
    ensures Built(longer, next)
    ensures next == s.(threads := s.threads + [NewThread(routine, joins)])
  {
    next := s.(threads := s.threads + [NewThread(routine, joins)]);
    longer := Trace(run.states + [next], run.steps + [Spawn(Body(routine), joins)]);
  }

  function NewThread(routine: Routine, joins: ThreadId): Thread {
    Thread(More(Do(Body(routine)), Done), joins, Body(routine))
  }

  /** A callback has been registered, with a uevent thread, and its removal has been called. */
  lemma Registered() returns (run: Trace, s: State)
    ensures Built(run, s)
    ensures s == State([REGISTERED, NewThread(UeventThread, 0), NewThread(RemoveCallback, 1)], map[])
  {
    s := State([], map[]);
    run := Trace([s], []);
    run, s := Start(run, s, RegisterCallback, 0);
    run, s := Extend(run, s, 0, true);
    assert Registers(s, 0);
    run, s := Start(run, s, UeventThread, 0);
    run, s := Extend(run, s, 0, true);
    run, s := Extend(run, s, 0, true);
    assert s.owner == map[];
    run, s := Start(run, s, RemoveCallback, 1);
  }

  const REGISTERED: Thread := Thread(Done, 0, Body(RegisterCallback))

  /** The uevent thread is about to query the port status for a field it scans. */
  lemma UeventQueries() returns (run: Trace, s: State, tail: Rest)
    ensures Built(run, s)
    ensures s == State([REGISTERED, Thread(More(Do(QUERY_VERSION), tail), 0, Body(UeventThread)),
                        NewThread(RemoveCallback, 1)], map[])
  {
    run, s := Registered();
    run, s := Extend(run, s, 1, true);
    run, s := Extend(run, s, 1, true);
    run, s := Extend(run, s, 1, false);
    run, s := Extend(run, s, 1, true);
    run, s := Extend(run, s, 1, true);
    tail := s.threads[1].rest.rest;
  }

  /** Removing the callback while the uevent thread is about to query the port status deadlocks: one
      thread holds mLock and joins the other, which asks for mLock, and neither can ever move. */
  lemma RemovalDeadlocks() returns (run: Trace, s: State)
    ensures Built(run, s) && IsCycle(s, [1, 2, 1]) && Unfinished(s) && !CanMove(s)
  {
    var tail;
    run, s, tail := UeventQueries();
    run, s := Extend(run, s, 2, true);
    run, s := Extend(run, s, 2, false);
    assert s.owner == map[Callback := 2];
    assert WaitsFor(s, 1, 2) && WaitsFor(s, 2, 1);
    assert IsCycle(s, [1, 2, 1]);
    assert !Finished(s, 1);
  }

  // ---- Exactly when a deadlock is reachable ----

  ghost predicate CycleReachable(routines: set<Routine>) {
    exists run, i, p :: Spawns(run, routines) && 0 <= i < |run.states| && IsCycle(run.states[i], p)
  }

  /** Some thread is unfinished and no thread can move. */
  ghost predicate StandstillReachable(routines: set<Routine>) {
    exists run, i :: Spawns(run, routines) && 0 <= i < |run.states| && Unfinished(run.states[i]) && !CanMove(run.states[i])
  }

  lemma MoreRoutines(run: Trace, routines: set<Routine>, more: set<Routine>)
    requires Spawns(run, routines) && routines <= more
    ensures Spawns(run, more)
  {
  }

  /** For every choice of routines that may run, any number of times each: a wait cycle is reachable if and
      only if callbacks may be registered and removed and the uevent thread runs in between, and so is a
      state in which nothing moves. */
  lemma DeadlockDecision(routines: set<Routine>)
    ensures CycleReachable(routines) <==> CALLBACKS <= routines
    ensures StandstillReachable(routines) <==> CALLBACKS <= routines
  {
    if CALLBACKS <= routines {
      var run, s := RemovalDeadlocks();
      MoreRoutines(run, CALLBACKS, routines);
      assert run.states[|run.states| - 1] == s;
    }
    if run, i, p :| Spawns(run, routines) && 0 <= i < |run.states| && IsCycle(run.states[i], p) {
      CyclesNeedRemoval(run, routines, i, p);
      var j :| 0 <= j < |p| && JoinsHolding(run.states[i], p[j]);
      JoinsHoldingRemoves(run, routines, i, p[j]);
    }
    if run, i :| Spawns(run, routines) && 0 <= i < |run.states| && Unfinished(run.states[i]) && !CanMove(run.states[i]) {
      StandstillNeedsRemoval(run, routines, i);
    }
  }

  lemma StandstillNeedsRemoval(run: Trace, routines: set<Routine>, i: nat)
    requires Spawns(run, routines) && i < |run.states| && Unfinished(run.states[i]) && !CanMove(run.states[i])
    ensures CALLBACKS <= routines
  {
    SpawnsIsRun(run, routines);
    if NobodyJoinsHolding(run.states[i]) {
      DeadlockFree(run, i);
    } else {
      var t :| 0 <= t < |run.states[i].threads| && JoinsHolding(run.states[i], t);
      JoinsHoldingRemoves(run, routines, i, t);
    }
  }
}
