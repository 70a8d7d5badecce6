/** Exactly which states of the service hold a wait cycle. */
module UsbCycles {
  import opened Wrappers
  import opened LockOrder
  import opened UsbLocks

  /** What matters about a thread here. */
  datatype Role = Remover | Scanner | Other

  function RoleOf(code: Code): Role {
    if code == Body(RemoveCallback) then Remover else if code == Body(UeventThread) then Scanner else Other
  }

  /** Nothing is asked for under mPartnerLock, mLock is never waited on, the removal of the callback takes
      only mLock and joins under it, everything else joins without a mutex, and the uevent thread never
      blocks on mRoleSwitchLock. */
  predicate Shaped(code: Code, held: set<Mutex>, role: Role) {
    match code
    case Work => true
    case Join => if role.Remover? then Callback in held else held == {}
    case TimedWait(m) => m != Callback && (role.Scanner? ==> m != RoleSwitch) && (Partner in held ==> m == Partner)
    case Lock(m, body) =>
      && Partner !in held && (role.Remover? ==> m == Callback) && (role.Scanner? ==> m != RoleSwitch)
      && Shaped(body, held + {m}, role)
    case TryLock(m, body) => Partner !in held && !role.Remover? && Shaped(body, held + {m}, role)
    case Then(first, second) => Shaped(first, held, role) && Shaped(second, held, role)
    case Choice(left, right) => Shaped(left, held, role) && Shaped(right, held, role)
    case Loop(body) => Shaped(body, held, role)
  }

  predicate RestShaped(rest: Rest, role: Role) {
    match rest
    case Done => true
    case More(Do(code), tail) => Shaped(code, Held(tail), role) && RestShaped(tail, role)
    case More(Release(m), tail) => (role.Remover? ==> m == Callback) && RestShaped(tail, role)
    case More(Reacquire(m), tail) =>
      && m != Callback && (role.Scanner? ==> m != RoleSwitch) && (Partner in Held(tail) ==> m == Partner)
      && RestShaped(tail, role)
  }

  // ---- The routines and their runs ----

  lemma SetupIsShaped(held: set<Mutex>, role: Role)
    requires Partner !in held && !role.Remover?
    ensures Shaped(SETUP_POLL, held, role)
  {
    assert Shaped(Lock(DisplayPortCV, TimedWait(DisplayPortCV)), held, role);
    assert Shaped(AWAIT_EXIT, held, role);
  }

  lemma QueryIsShaped(role: Role)
    requires !role.Remover?
    ensures Shaped(QUERY_VERSION, {}, role)
  {
    SetupIsShaped({Callback, DisplayPort}, role);
    assert {Callback} + {DisplayPort} == {Callback, DisplayPort} && {} + {Callback} == {Callback};
    assert Shaped(FIRST_SETUP, {Callback}, role);
    assert Shaped(Then(Work, Choice(Then(FIRST_SETUP, Work), Work)), {Callback}, role);
  }

  lemma ScannerIsShaped()
    ensures Shaped(Body(UeventThread), {}, Scanner)
  {
    QueryIsShaped(Scanner);
    SetupIsShaped({DisplayPort}, Scanner);
    assert {} + {DisplayPort} == {DisplayPort};
    assert Shaped(DRIVER_FIELD, {}, Scanner);
    assert Shaped(UEVENT_FIELD, {}, Scanner);
  }

  lemma SwitchRoleIsShaped()
    ensures Shaped(Body(SwitchRole), {}, Other)
  {
    assert {} + {RoleSwitch} == {RoleSwitch};
    assert Shaped(Loop(TimedWait(Partner)), {RoleSwitch} + {Partner}, Other);
    assert Shaped(AWAIT_PARTNER, {RoleSwitch} + {Partner}, Other);
    assert Shaped(SWITCH_MODE, {RoleSwitch}, Other);
  }

  lemma RoutinesAreShaped(routine: Routine)
    ensures Shaped(Body(routine), {}, RoleOf(Body(routine)))
  {
    BodiesDiffer(routine);
    QueryIsShaped(Other);
    match routine {
      case SwitchRole => SwitchRoleIsShaped();
      case UeventThread => ScannerIsShaped();
      case EnableUsbData => SetupIsShaped({}, Other);
      case RemoveCallback =>
        assert Shaped(Join, {} + {Callback}, Remover);
        assert Shaped(Choice(Work, Join), {} + {Callback}, Remover);
      case PollWorker => assert Shaped(Loop(Choice(QUERY_VERSION, Work)), {}, Other);
      case _ =>
    }
  }

  /** One step keeps the shape. */
  lemma StepKeepsShape(s: State, t: ThreadId, left: bool, role: Role)
    requires t < |s.threads| && RunThread(s, t, left).Some? && RestShaped(s.threads[t].rest, role)
    ensures RestShaped(RunThread(s, t, left).value.threads[t].rest, role)
  {
    match s.threads[t].rest {
      case More(Do(code), tail) =>
        match code {
          case Lock(m, body) => assert Held(More(Release(m), tail)) == Held(tail) + {m};
          case TryLock(m, body) => assert Held(More(Release(m), tail)) == Held(tail) + {m};
          case Then(first, second) => assert Held(More(Do(second), tail)) == Held(tail);
          case Loop(body) => assert Held(More(Do(code), tail)) == Held(tail);
          case _ =>
        }
      case _ =>
    }
  }

  lemma {:induction false} ShapedThroughout(run: Trace, routines: set<Routine>, i: nat, t: ThreadId)
    requires Spawns(run, routines) && i < |run.states| && t < |run.states[i].threads|
    ensures RestShaped(run.states[i].threads[t].rest, RoleOf(run.states[i].threads[t].code))
  {
    if i > 0 {
      var s, next, step := run.states[i - 1], run.states[i], run.steps[i - 1];
      assert Next(s, step) == Some(next);
      if t < |s.threads| {
        ShapedThroughout(run, routines, i - 1, t);
        if step.Run? && step.t == t {
          StepKeepsShape(s, t, step.left, RoleOf(s.threads[t].code));
        }
      } else {
        var r :| r in routines && step.code == Body(r) && MayStart(s, r, step.joins);
        RoutinesAreShaped(r);
        assert next.threads[t].rest == More(Do(step.code), Done);
      }
    }
  }

  // ---- What shaped threads hold and ask for ----

  lemma RemoverHolds(rest: Rest)
    requires RestShaped(rest, Remover)
    ensures Held(rest) <= {Callback}
    ensures AtJoin(rest) ==> Callback in Held(rest)
  {
    if rest.More? {
      RemoverHolds(rest.rest);
    }
  }

  /** A thread that holds mPartnerLock is not blocked. */
  lemma PartnerIsLast(s: State, t: ThreadId, u: ThreadId)
    requires t < |s.threads| && WaitsFor(s, t, u) && RestShaped(s.threads[t].rest, RoleOf(s.threads[t].code))
    requires !JoinsHolding(s, t)
    ensures Partner !in Held(s.threads[t].rest)
  {
  }

  /** The state in which thread t removes the callback and joins a thread that asks for mLock. */
  predicate RemovalBlocked(s: State, t: ThreadId) {
    && t < |s.threads| && s.threads[t].code == Body(RemoveCallback) && AtJoin(s.threads[t].rest)
    && s.threads[t].joins < |s.threads| && AsksForCallback(s.threads[s.threads[t].joins].rest)
  }

  predicate AsksForCallback(rest: Rest) {
    rest.More? && rest.item.Do? && rest.item.code.Lock? && rest.item.code.m == Callback
  }

  lemma BlockedIsCycle(run: Trace, routines: set<Routine>, i: nat, t: ThreadId)
    requires Spawns(run, routines) && i < |run.states| && RemovalBlocked(run.states[i], t)
    ensures IsCycle(run.states[i], [t, run.states[i].threads[t].joins, t])
  {
    var s := run.states[i];
    SpawnsIsRun(run, routines);
    InvThroughout(run, i);
    ShapedThroughout(run, routines, i, t);
    RemoverHolds(s.threads[t].rest);
    var u := s.threads[t].joins;
    assert s.owner[Callback] == t;
    assert WaitsFor(s, t, u) && WaitsFor(s, u, t);
  }

  // ---- From a cycle to the removal ----

  lemma Rotated(s: State, p: seq<ThreadId>, j: nat) returns (q: seq<ThreadId>)
    requires IsCycle(s, p) && j < |p|
    ensures IsCycle(s, q) && q[0] == p[j]
  {
    var n := |p| - 1;
    if j == n {
      q := p;
    } else {
      q := p[j..n] + p[..j + 1];
      forall i | 0 <= i < |q| - 1 ensures q[i] < |s.threads| && WaitsFor(s, q[i], q[i + 1]) {
        var k := if i < n - j then j + i else i - (n - j);
        assert WaitsFor(s, p[k], p[k + 1]);
      }
    }
  }

  /** A removal at its join holds mLock and nothing else. */
  lemma RemovalHolds(run: Trace, routines: set<Routine>, i: nat, t: ThreadId)
    requires Spawns(run, routines) && i < |run.states| && JoinsHolding(run.states[i], t)
    ensures var s := run.states[i]; Held(s.threads[t].rest) == {Callback} && Callback in s.owner && s.owner[Callback] == t
  {
    SpawnsIsRun(run, routines);
    InvThroughout(run, i);
    JoinsHoldingRemoves(run, routines, i, t);
    ShapedThroughout(run, routines, i, t);
    assert RoleOf(Body(RemoveCallback)) == Remover;
    RemoverHolds(run.states[i].threads[t].rest);
  }

  /** Only one thread joins under mLock at a time. */
  lemma OneRemoval(run: Trace, routines: set<Routine>, i: nat, t: ThreadId, u: ThreadId)
    requires Spawns(run, routines) && i < |run.states| && JoinsHolding(run.states[i], t) && JoinsHolding(run.states[i], u)
    ensures t == u
  {
    RemovalHolds(run, routines, i, t);
    RemovalHolds(run, routines, i, u);
  }

  /** What waits for a removal at its join asks for mLock. */
  lemma WaitsForRemoval(run: Trace, routines: set<Routine>, i: nat, x: ThreadId, t: ThreadId)
    requires Spawns(run, routines) && i < |run.states| && JoinsHolding(run.states[i], t)
    requires x < |run.states[i].threads| && WaitsFor(run.states[i], x, t)
    ensures AsksForCallback(run.states[i].threads[x].rest)
  {
    SpawnsIsRun(run, routines);
    InvThroughout(run, i);
    JoinsHoldingRemoves(run, routines, i, t);
    RemovalHolds(run, routines, i, t);
    ShapedThroughout(run, routines, i, x);
    NobodyJoinsRemoval(run, routines, i, x);
  }

  lemma NobodyJoinsRemoval(run: Trace, routines: set<Routine>, i: nat, x: ThreadId)
    requires Spawns(run, routines) && i < |run.states| && x < |run.states[i].threads|
    ensures var s := run.states[i];
            AtJoin(s.threads[x].rest) ==>
              s.threads[x].joins < |s.threads| && s.threads[s.threads[x].joins].code != Body(RemoveCallback)
  {
    var s := run.states[i];
    SpawnsIsRun(run, routines);
    InvThroughout(run, i);
    assert ThreadOk(s, x);
    JoinIsLeft(s.threads[x].rest);
    RoutinesAreDisciplined(RemoveCallback);
  }

  /** What a removal joins is a uevent thread, which joins nobody. */
  lemma RemovalJoinsScanner(run: Trace, routines: set<Routine>, i: nat, t: ThreadId)
    requires Spawns(run, routines) && i < |run.states| && JoinsHolding(run.states[i], t)
    ensures var s := run.states[i];
            var u := s.threads[t].joins;
            u < |s.threads| && u != t && s.threads[u].code == Body(UeventThread) && !AtJoin(s.threads[u].rest)
  {
    var s := run.states[i];
    JoinsHoldingRemoves(run, routines, i, t);
    StartedThroughout(run, routines, i, t);
    var r :| r in routines && s.threads[t].code == Body(r) && MayJoin(s, r, s.threads[t].joins);
    BodiesDiffer(r);
    BodiesDiffer(UeventThread);
    ScannerNeverJoins(run, routines, i, s.threads[t].joins);
  }

  lemma ScannerNeverJoins(run: Trace, routines: set<Routine>, i: nat, u: ThreadId)
    requires Spawns(run, routines) && i < |run.states| && u < |run.states[i].threads|
    requires run.states[i].threads[u].code == Body(UeventThread)
    ensures !AtJoin(run.states[i].threads[u].rest)
  {
    var s := run.states[i];
    SpawnsIsRun(run, routines);
    InvThroughout(run, i);
    RoutinesAreDisciplined(UeventThread);
    assert ThreadOk(s, u);
    JoinIsLeft(s.threads[u].rest);
  }

  lemma JoinIsLeft(rest: Rest)
    ensures AtJoin(rest) ==> RestHasJoin(rest)
  {
  }

  /** A uevent thread that asks for a mutex below mLock asks for mPartnerLock, whose owner is not blocked. */
  lemma ScannerAsksHigh(run: Trace, routines: set<Routine>, i: nat, u: ThreadId, v: ThreadId, w: ThreadId)
    requires Spawns(run, routines) && i < |run.states|
    requires u < |run.states[i].threads| && v < |run.states[i].threads|
    requires run.states[i].threads[u].code == Body(UeventThread) && !AtJoin(run.states[i].threads[u].rest)
    requires WaitsFor(run.states[i], u, v) && WaitsFor(run.states[i], v, w) && !JoinsHolding(run.states[i], v)
    ensures Asks(run.states[i].threads[u].rest) >= Rank(Callback)
  {
    var s := run.states[i];
    SpawnsIsRun(run, routines);
    InvThroughout(run, i);
    BodiesDiffer(UeventThread);
    ShapedThroughout(run, routines, i, u);
    ShapedThroughout(run, routines, i, v);
    PartnerIsLast(s, v, w);
  }

  /** The uevent thread that a removal joins, if a cycle goes through both, asks for mLock itself. */
  lemma CycleAsksForCallback(run: Trace, routines: set<Routine>, i: nat, q: seq<ThreadId>)
    requires Spawns(run, routines) && i < |run.states| && IsCycle(run.states[i], q) && JoinsHolding(run.states[i], q[0])
    ensures RemovalBlocked(run.states[i], q[0])
  {
    var s, t := run.states[i], q[0];
    SpawnsIsRun(run, routines);
    InvThroughout(run, i);
    JoinsHoldingRemoves(run, routines, i, t);
    RemovalJoinsScanner(run, routines, i, t);
    assert WaitsFor(s, q[0], q[1]);
    var k := 1;
    while q[k + 1] != t
      invariant 1 <= k < |q| - 1 && q[k] != t
      invariant Asks(s.threads[q[1]].rest) + k - 1 <= Asks(s.threads[q[k]].rest)
      invariant k > 1 ==> Asks(s.threads[q[1]].rest) >= Rank(Callback)
      decreases |q| - k
    {
      assert WaitsFor(s, q[k], q[k + 1]) && WaitsFor(s, q[k + 1], q[k + 1 + 1]);
      if JoinsHolding(s, q[k + 1]) {
        OneRemoval(run, routines, i, t, q[k + 1]);
      }
      WaitClimbs(s, q[k], q[k + 1], q[k + 1 + 1]);
      if k == 1 {
        ScannerAsksHigh(run, routines, i, q[1], q[1 + 1], q[1 + 1 + 1]);
      }
      k := k + 1;
    }
    assert WaitsFor(s, q[k], q[k + 1]);
    WaitsForRemoval(run, routines, i, q[k], t);
  }

  /** A reachable state, of any number of threads of all routines, holds a wait cycle if and only if some
      thread that removes the callback is at its join while the uevent thread it joins asks for mLock. */
  lemma CycleDecision(run: Trace, routines: set<Routine>, i: nat)
    requires Spawns(run, routines) && i < |run.states|
    ensures (exists p :: IsCycle(run.states[i], p)) <==> (exists t :: RemovalBlocked(run.states[i], t))
  {
    var s := run.states[i];
    if p :| IsCycle(s, p) {
      CyclesNeedRemoval(run, routines, i, p);
      var j :| 0 <= j < |p| && JoinsHolding(s, p[j]);
      var q := Rotated(s, p, j);
      CycleAsksForCallback(run, routines, i, q);
    }
    if t :| RemovalBlocked(s, t) {
      BlockedIsCycle(run, routines, i, t);
    }
  }
}
