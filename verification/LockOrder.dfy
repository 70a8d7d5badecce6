/** Threads that nest mutexes: an operational model of the locking skeleton of a program, a lock-order
    discipline on its text, and what the discipline guarantees for any number of running threads. */
module LockOrder {
  import opened Wrappers

  /** The five mutexes of `struct Usb` (Usb.h:117-152). */
  datatype Mutex = RoleSwitch | Partner | Callback | DisplayPort | DisplayPortCV

  function Rank(m: Mutex): nat {
    match m
    case RoleSwitch => 1
    case Partner => 2
    case Callback => 3
    case DisplayPort => 4
    case DisplayPortCV => 5
  }

  /** What a routine does with mutexes.  `Work` is everything else; it always completes.
      `TimedWait(m)` is pthread_cond_timedwait: it gives up m, wakes at the latest when its time is
      over, and takes m again.  `Join` waits for one fixed other thread. */
  datatype Code =
    | Work
    | Join
    | TimedWait(m: Mutex)
    | Lock(m: Mutex, body: Code)
    | TryLock(m: Mutex, body: Code)
    | Then(first: Code, second: Code)
    | Choice(left: Code, right: Code)
    | Loop(body: Code)

  /** What a thread has left to do, innermost first. */
  datatype Item = Do(code: Code) | Release(m: Mutex) | Reacquire(m: Mutex)

  datatype Rest = Done | More(item: Item, rest: Rest)

  /** The mutexes a thread holds when `rest` is what it has left to do. */
  function Held(rest: Rest): set<Mutex> {
    match rest
    case Done => {}
    case More(Do(_), tail) => Held(tail)
    case More(Release(m), tail) => Held(tail) + {m}
    case More(Reacquire(m), tail) => Held(tail) - {m}
  }

  // ---- The discipline ----

  predicate Above(m: Mutex, held: set<Mutex>) {
    forall h :: h in held ==> Rank(h) < Rank(m)
  }

  /** Blocking acquisitions climb the ranks.  A try-lock never blocks and is free to break them. */
  predicate Climbs(code: Code, held: set<Mutex>)
    decreases code
  {
    match code
    case Work => true
    case Join => true
    case TimedWait(m) => m in held && Above(m, held - {m})
    case Lock(m, body) => Above(m, held) && Climbs(body, held + {m})
    case TryLock(m, body) => m !in held && Climbs(body, held + {m})
    case Then(first, second) => Climbs(first, held) && Climbs(second, held)
    case Choice(left, right) => Climbs(left, held) && Climbs(right, held)
    case Loop(body) => Climbs(body, held)
  }

  predicate RestClimbs(rest: Rest) {
    match rest
    case Done => true
    case More(Do(code), tail) => Climbs(code, Held(tail)) && RestClimbs(tail)
    case More(Release(m), tail) => m !in Held(tail) && RestClimbs(tail)
    case More(Reacquire(m), tail) => m in Held(tail) && Above(m, Held(tail) - {m}) && RestClimbs(tail)
  }

  predicate HasJoin(code: Code) {
    match code
    case Join => true
    case Lock(_, body) => HasJoin(body)
    case TryLock(_, body) => HasJoin(body)
    case Then(first, second) => HasJoin(first) || HasJoin(second)
    case Choice(left, right) => HasJoin(left) || HasJoin(right)
    case Loop(body) => HasJoin(body)
    case _ => false
  }

  predicate RestHasJoin(rest: Rest) {
    match rest
    case Done => false
    case More(Do(code), tail) => HasJoin(code) || RestHasJoin(tail)
    case More(_, tail) => RestHasJoin(tail)
  }

  /** No join is reached while a mutex is held. */
  predicate JoinsBare(code: Code, held: set<Mutex>) {
    match code
    case Join => held == {}
    case Lock(m, body) => JoinsBare(body, held + {m})
    case TryLock(m, body) => JoinsBare(body, held + {m})
    case Then(first, second) => JoinsBare(first, held) && JoinsBare(second, held)
    case Choice(left, right) => JoinsBare(left, held) && JoinsBare(right, held)
    case Loop(body) => JoinsBare(body, held)
    case _ => true
  }

  predicate RestJoinsBare(rest: Rest) {
    match rest
    case Done => true
    case More(Do(code), tail) => JoinsBare(code, Held(tail)) && RestJoinsBare(tail)
    case More(_, tail) => RestJoinsBare(tail)
  }

  // ---- Running threads ----

  type ThreadId = nat

  /** A thread: what it has left to do, the thread that a Join of it waits for, and what it was started
      with. */
  datatype Thread = Thread(rest: Rest, joins: ThreadId, code: Code)

  datatype State = State(threads: seq<Thread>, owner: map<Mutex, ThreadId>)

  /** `Run(t, left)`: thread t takes its next step; `left` decides a Choice and whether a Loop goes
      round again.  `Spawn`: a new thread starts. */
  datatype Step = Run(t: ThreadId, left: bool) | Spawn(code: Code, joins: ThreadId)

  predicate Finished(s: State, t: ThreadId) {
    t < |s.threads| && s.threads[t].rest.Done?
  }

  function Continue(s: State, t: ThreadId, rest: Rest): State
    requires t < |s.threads|
  {
    s.(threads := s.threads[t := s.threads[t].(rest := rest)])
  }

  function Acquire(s: State, t: ThreadId, m: Mutex, rest: Rest): Option<State>
    requires t < |s.threads|
  {
    if m in s.owner then None else Some(Continue(s, t, rest).(owner := s.owner[m := t]))
  }

  /** One step of thread t; None when it is blocked or finished. */
  function RunThread(s: State, t: ThreadId, left: bool): Option<State>
    requires t < |s.threads|
  {
    match s.threads[t].rest
    case Done => None
    case More(Release(m), tail) => Some(Continue(s, t, tail).(owner := s.owner - {m}))
    case More(Reacquire(m), tail) => Acquire(s, t, m, tail)
    case More(Do(code), tail) =>
      match code
      case Work => Some(Continue(s, t, tail))
      case Join => if Finished(s, s.threads[t].joins) then Some(Continue(s, t, tail)) else None
      case TimedWait(m) => Some(Continue(s, t, More(Reacquire(m), tail)).(owner := s.owner - {m}))
      case Lock(m, body) => Acquire(s, t, m, More(Do(body), More(Release(m), tail)))
      case TryLock(m, body) =>
        if m in s.owner then Some(Continue(s, t, tail)) else Acquire(s, t, m, More(Do(body), More(Release(m), tail)))
      case Then(first, second) => Some(Continue(s, t, More(Do(first), More(Do(second), tail))))
      case Choice(l, r) => Some(Continue(s, t, More(Do(if left then l else r), tail)))
      case Loop(body) => Some(Continue(s, t, if left then More(Do(body), More(Do(code), tail)) else tail))
  }

  function Next(s: State, step: Step): Option<State> {
    match step
    case Run(t, left) => if t < |s.threads| then RunThread(s, t, left) else None
    case Spawn(code, joins) => Some(s.(threads := s.threads + [Thread(More(Do(code), Done), joins, code)]))
  }

  /** Thread t cannot move before thread u does: u owns the mutex that t asks for, or t joins u. */
  predicate WaitsFor(s: State, t: ThreadId, u: ThreadId)
    requires t < |s.threads|
  {
    match s.threads[t].rest
    case More(Do(Lock(m, _)), _) => m in s.owner && s.owner[m] == u
    case More(Reacquire(m), _) => m in s.owner && s.owner[m] == u
    case More(Do(Join), _) => s.threads[t].joins == u && !Finished(s, u)
    case _ => false
  }

  predicate AtJoin(rest: Rest) {
    rest.More? && rest.item == Do(Join)
  }

  // ---- The invariant ----

  /** A thread that joins nobody. */
  predicate MayBeJoined(s: State, t: ThreadId) {
    t < |s.threads| && !HasJoin(s.threads[t].code)
  }

  predicate ThreadOk(s: State, t: ThreadId)
    requires t < |s.threads|
  {
    var thread := s.threads[t];
    && RestClimbs(thread.rest)
    && (RestHasJoin(thread.rest) ==> HasJoin(thread.code))
    && (JoinsBare(thread.code, {}) ==> RestJoinsBare(thread.rest))
    && (HasJoin(thread.code) ==> MayBeJoined(s, thread.joins))
  }

  /** A mutex is owned exactly by the thread whose remaining work releases it; joined threads join
      nobody. */
  predicate Inv(s: State) {
    && (forall m :: m in s.owner ==> s.owner[m] < |s.threads| && m in Held(s.threads[s.owner[m]].rest))
    && (forall t, m :: 0 <= t < |s.threads| && m in Held(s.threads[t].rest) ==> m in s.owner && s.owner[m] == t)
    && (forall t :: 0 <= t < |s.threads| ==> ThreadOk(s, t))
  }

  /** A thread may be started when its code climbs and whatever it joins exists and joins nobody. */
  predicate MaySpawn(s: State, code: Code, joins: ThreadId) {
    && Climbs(code, {})
    && (HasJoin(code) ==> MayBeJoined(s, joins))
  }

  // ---- Every step keeps the invariant ----

  /** Thread t moved: it took one free mutex, gave one back, or neither. */
  predicate Moved(s: State, next: State, t: ThreadId)
    requires t < |s.threads|
  {
    && |next.threads| == |s.threads|
    && next.threads == s.threads[t := s.threads[t].(rest := next.threads[t].rest)]
    && var before, after := Held(s.threads[t].rest), Held(next.threads[t].rest);
       || (after == before && next.owner == s.owner)
       || (exists m :: m !in s.owner && after == before + {m} && next.owner == s.owner[m := t])
       || (exists m :: m in before && after == before - {m} && next.owner == s.owner - {m})
  }

  /** One step preserves the textual discipline and changes the owners as `Moved` says. */
  lemma RunThreadMoves(s: State, t: ThreadId, left: bool)
    requires t < |s.threads| && RestClimbs(s.threads[t].rest) && RunThread(s, t, left).Some?
    requires forall m :: m in Held(s.threads[t].rest) ==> m in s.owner
    ensures var next := RunThread(s, t, left).value;
            && Moved(s, next, t)
            && RestClimbs(next.threads[t].rest)
            && (RestHasJoin(next.threads[t].rest) ==> RestHasJoin(s.threads[t].rest))
            && (RestJoinsBare(s.threads[t].rest) ==> RestJoinsBare(next.threads[t].rest))
  {
    var rest, next := s.threads[t].rest, RunThread(s, t, left).value;
    var after := next.threads[t].rest;
    match rest
    case More(Release(m), tail) => assert m in Held(rest) && Held(after) == Held(rest) - {m};
    case More(Reacquire(m), tail) => assert m !in s.owner && Held(after) == Held(rest) + {m};
    case More(Do(code), tail) =>
      match code
      case TimedWait(m) => assert m in Held(rest) && Held(after) == Held(rest) - {m};
      case Lock(m, body) => LockMoves(body, m, tail);
      case TryLock(m, body) => LockMoves(body, m, tail);
      case Then(first, second) => assert RestHasJoin(More(Do(second), tail)) == (HasJoin(second) || RestHasJoin(tail));
      case Choice(l, r) => assert HasJoin(code) == (HasJoin(l) || HasJoin(r));
      case Loop(body) => assert RestHasJoin(rest) == (HasJoin(code) || RestHasJoin(tail));
      case _ =>
  }

  lemma LockMoves(body: Code, m: Mutex, tail: Rest)
    requires m !in Held(tail) && Climbs(body, Held(tail) + {m}) && RestClimbs(tail)
    ensures var after := More(Do(body), More(Release(m), tail));
            && Held(after) == Held(tail) + {m}
            && RestClimbs(after)
            && RestHasJoin(after) == (HasJoin(body) || RestHasJoin(tail))
            && RestJoinsBare(after) == (JoinsBare(body, Held(tail) + {m}) && RestJoinsBare(tail))
  {
    assert Held(More(Release(m), tail)) == Held(tail) + {m};
  }

  lemma MovedKeepsOwners(s: State, next: State, t: ThreadId)
    requires Inv(s) && t < |s.threads| && Moved(s, next, t)
    ensures forall m :: m in next.owner ==>
              next.owner[m] < |next.threads| && m in Held(next.threads[next.owner[m]].rest)
    ensures forall u, m :: 0 <= u < |next.threads| && m in Held(next.threads[u].rest) ==>
              m in next.owner && next.owner[m] == u
  {
    forall u, m | 0 <= u < |next.threads| && m in Held(next.threads[u].rest)
      ensures m in next.owner && next.owner[m] == u
    {
      if u != t {
        assert next.threads[u] == s.threads[u];
        assert m in s.owner && s.owner[m] == u;
      }
    }
  }

  lemma MovedKeepsThreads(s: State, next: State, t: ThreadId, u: ThreadId)
    requires Inv(s) && t < |s.threads| && u < |s.threads| && Moved(s, next, t)
    requires RestClimbs(next.threads[t].rest)
    requires RestHasJoin(next.threads[t].rest) ==> RestHasJoin(s.threads[t].rest)
    requires RestJoinsBare(s.threads[t].rest) ==> RestJoinsBare(next.threads[t].rest)
    ensures ThreadOk(next, u)
  {
    assert ThreadOk(s, u);
    assert u != t ==> next.threads[u] == s.threads[u];
    assert next.threads[u].joins == s.threads[u].joins && next.threads[u].code == s.threads[u].code;
    if HasJoin(s.threads[u].code) {
      var target := s.threads[u].joins;
      assert next.threads[target].code == s.threads[target].code;
    }
  }

  lemma InvPreserved(s: State, step: Step)
    requires Inv(s) && Next(s, step).Some?
    requires step.Spawn? ==> MaySpawn(s, step.code, step.joins)
    ensures Inv(Next(s, step).value)
  {
    var next := Next(s, step).value;
    match step
    case Run(t, left) =>
      assert ThreadOk(s, t);
      RunThreadMoves(s, t, left);
      MovedKeepsOwners(s, next, t);
      forall u | 0 <= u < |next.threads|
        ensures ThreadOk(next, u)
      {
        MovedKeepsThreads(s, next, t, u);
      }
    case Spawn(code, joins) => SpawnKeepsInv(s, code, joins);
  }

  lemma SpawnKeepsInv(s: State, code: Code, joins: ThreadId)
    requires Inv(s) && MaySpawn(s, code, joins)
    ensures Inv(Next(s, Spawn(code, joins)).value)
  {
    var next, added := Next(s, Spawn(code, joins)).value, |s.threads|;
    assert next.threads[added] == Thread(More(Do(code), Done), joins, code);
    assert forall u :: 0 <= u < added ==> next.threads[u] == s.threads[u];
    assert Held(Done) == {} && Held(More(Do(code), Done)) == {};
    forall u | 0 <= u < |next.threads|
      ensures ThreadOk(next, u)
    {
      if u < added {
        assert ThreadOk(s, u);
      } else {
        assert RestHasJoin(More(Do(code), Done)) == (HasJoin(code) || RestHasJoin(Done));
        assert RestJoinsBare(More(Do(code), Done)) == (JoinsBare(code, {}) && RestJoinsBare(Done));
      }
    }
  }

  // ---- Wait cycles ----

  /** A closed chain of threads, each waiting for the next. */
  predicate IsCycle(s: State, p: seq<ThreadId>) {
    && |p| >= 2
    && p[0] == p[|p| - 1]
    && forall i :: 0 <= i < |p| - 1 ==> p[i] < |s.threads| && WaitsFor(s, p[i], p[i + 1])
  }

  predicate JoinsHolding(s: State, t: ThreadId) {
    t < |s.threads| && AtJoin(s.threads[t].rest) && Held(s.threads[t].rest) != {}
  }

  /** The rank of what a blocked thread asks for; 0 for a join. */
  function Asks(rest: Rest): nat {
    match rest
    case More(Do(Lock(m, _)), _) => Rank(m)
    case More(Reacquire(m), _) => Rank(m)
    case _ => 0
  }

  lemma WaitClimbs(s: State, t: ThreadId, u: ThreadId, v: ThreadId)
    requires Inv(s) && t < |s.threads| && u < |s.threads|
    requires WaitsFor(s, t, u) && WaitsFor(s, u, v) && !JoinsHolding(s, u)
    ensures Asks(s.threads[t].rest) < Asks(s.threads[u].rest)
  {
    assert ThreadOk(s, t) && ThreadOk(s, u);
  }

  /** Any wait cycle, among any number of disciplined threads, goes through a thread that joins
      another while it holds a mutex. */
  lemma CycleJoinsHolding(s: State, p: seq<ThreadId>)
    requires Inv(s) && IsCycle(s, p)
    ensures exists i :: 0 <= i < |p| && JoinsHolding(s, p[i])
  {
    if forall i :: 0 <= i < |p| ==> !JoinsHolding(s, p[i]) {
      var i := 0;
      while i < |p| - 1
        invariant 0 <= i <= |p| - 1
        invariant Asks(s.threads[p[0]].rest) + i <= Asks(s.threads[p[i]].rest)
      {
        var after := if i + 2 < |p| then p[i + 2] else p[1];
        assert WaitsFor(s, p[i], p[i + 1]);
        assert WaitsFor(s, p[i + 1], after) by {
          assert WaitsFor(s, p[0], p[1]);
          if i + 2 < |p| {
            assert WaitsFor(s, p[i + 1], p[i + 1 + 1]);
          }
        }
        WaitClimbs(s, p[i], p[i + 1], after);
        i := i + 1;
      }
    }
  }

  // ---- Progress ----

  predicate NobodyJoinsHolding(s: State) {
    forall t :: 0 <= t < |s.threads| ==> !JoinsHolding(s, t)
  }

  lemma BlockedWaits(s: State, t: ThreadId) returns (u: ThreadId)
    requires Inv(s) && t < |s.threads| && !Finished(s, t) && RunThread(s, t, true).None?
    ensures u < |s.threads| && WaitsFor(s, t, u) && !Finished(s, u)
  {
    assert ThreadOk(s, t);
    match s.threads[t].rest
    case More(Do(Lock(m, _)), _) => u := s.owner[m];
    case More(Reacquire(m), _) => u := s.owner[m];
    case More(Do(Join), _) => u := s.threads[t].joins;
    case _ =>
  }

  /** As long as some thread is unfinished and nobody joins while it holds, some thread can take a step. */
  lemma {:induction false} SomeThreadMoves(s: State, t: ThreadId)
    requires Inv(s) && NobodyJoinsHolding(s) && t < |s.threads| && !Finished(s, t)
    ensures exists u :: 0 <= u < |s.threads| && RunThread(s, u, true).Some?
    decreases 6 - Asks(s.threads[t].rest)
  {
    if RunThread(s, t, true).None? {
      var u := BlockedWaits(s, t);
      if RunThread(s, u, true).None? {
        var v := BlockedWaits(s, u);
        assert !JoinsHolding(s, u);
        WaitClimbs(s, t, u, v);
        SomeThreadMoves(s, u);
      }
    }
  }

  /** Only code with a join under a mutex ever joins while holding. */
  lemma JoinsHoldingIsNotBare(s: State, t: ThreadId)
    requires Inv(s) && JoinsHolding(s, t)
    ensures HasJoin(s.threads[t].code) && !JoinsBare(s.threads[t].code, {})
  {
    assert ThreadOk(s, t);
    assert RestHasJoin(s.threads[t].rest);
  }

  // ---- Whole runs ----

  datatype Trace = Trace(states: seq<State>, steps: seq<Step>)

  /** A run starts with no threads; only disciplined code is ever spawned. */
  predicate IsRun(run: Trace) {
    && |run.states| == |run.steps| + 1
    && run.states[0] == State([], map[])
    && forall i :: 0 <= i < |run.steps| ==>
         && Next(run.states[i], run.steps[i]) == Some(run.states[i + 1])
         && (run.steps[i].Spawn? ==> MaySpawn(run.states[i], run.steps[i].code, run.steps[i].joins))
  }

  lemma {:induction false} InvThroughout(run: Trace, i: nat)
    requires IsRun(run) && i < |run.states|
    ensures Inv(run.states[i])
  {
    if i > 0 {
      InvThroughout(run, i - 1);
      InvPreserved(run.states[i - 1], run.steps[i - 1]);
    }
  }

  predicate Unfinished(s: State) {
    exists t :: 0 <= t < |s.threads| && !Finished(s, t)
  }

  predicate CanMove(s: State) {
    exists t, left :: 0 <= t < |s.threads| && RunThread(s, t, left).Some?
  }

  /** Deadlock freedom over whole runs: however many disciplined threads are started and in whatever
      order they run, a reachable state in which nobody joins while it holds a mutex has no wait cycle,
      and some thread can move unless all are finished. */
  lemma DeadlockFree(run: Trace, i: nat)
    requires IsRun(run) && i < |run.states| && NobodyJoinsHolding(run.states[i])
    ensures forall p :: !IsCycle(run.states[i], p)
    ensures Unfinished(run.states[i]) ==> CanMove(run.states[i])
  {
    var s := run.states[i];
    InvThroughout(run, i);
    forall p ensures !IsCycle(s, p) {
      if IsCycle(s, p) {
        CycleJoinsHolding(s, p);
      }
    }
    if Unfinished(s) {
      var t :| 0 <= t < |s.threads| && !Finished(s, t);
      SomeThreadMoves(s, t);
    }
  }
}
