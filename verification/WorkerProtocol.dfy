/** The start/stop protocol of the DisplayPort poll worker (Usb.cpp:1826-1924 and the flag writes of
    the worker itself) as interleaved steps of any number of request threads, the uevent thread, the
    workers and the shutdown helpers.

    A request thread calls setup or shutdown while it holds mDisplayPortLock, so at most one of them
    is inside; `section` says how far it got.  Every step below is one access to shared state; only the
    read of the shutdown code includes the write of the destroy flag that follows it. */
module WorkerProtocol {
  import opened Wrappers
  import opened EventFd

  /** displayPortPollWork: Born before its first statement, Exited once it cleared the running flag
      (only a log line and the return follow). */
  datatype WorkerPc = Born | Marked | Opening | LoopHead | Polling | Leaving | Exited

  /** `sawShutdown` records that this worker itself read the shutdown code. */
  datatype Worker = Worker(pc: WorkerPc, sawShutdown: bool)

  /** shutdownDisplayPortPollHelper; `target` is the worker found in mDisplayPortPoll. */
  datatype Helper =
    | Posting
    | Loading
    | Joining(target: nat)
    | Overriding(target: nat)
    | Signalling(target: nat)
    | Finished(target: nat)

  /** Inside setupDisplayPortPoll or shutdownDisplayPortPoll, under mDisplayPortLock. */
  datatype Section =
    | Outside
    | SetupEntry
    | SetupStarted
    | SetupShutdown
    | SetupHelp
    | SetupLock
    | SetupWaiting(signalled: bool)
    | SetupMark
    | SetupClearEvent
    | SetupClearDestroy
    | SetupCreate
    | SetupFailed
    | ShutdownEntry
    | ShutdownHelp

  datatype State = State(
    running: bool,
    starting: bool,
    destroy: bool,
    eventfd: nat,
    section: Section,
    checking: bool,
    workers: seq<Worker>,
    helpers: seq<Helper>
  )

  /** `ok` and the outcomes are chosen by the environment. */
  datatype Step =
    | EnterSetup
    | EnterShutdown
    | Advance(ok: bool)
    | Resume(timedOut: bool)
    | UeventChecksRunning
    | UeventPostsCheck
    | WorkerRuns(worker: nat, outcome: Outcome)
    | HelperRuns(helper: nat)

  datatype Outcome = Proceed | Fail | ReadEvent

  /** Usb.cpp:520-541 starts the flags false and the eventfd at 0; `destroyDisplayPortThread` is left
      arbitrary, which is more than the code needs. */
  function Init(destroy: bool): State {
    State(false, false, destroy, 0, Outside, false, [], [])
  }

  function Next(s: State, step: Step): Option<State> {
    match step
    case EnterSetup => if s.section.Outside? then Some(s.(section := SetupEntry)) else None
    case EnterShutdown => if s.section.Outside? then Some(s.(section := ShutdownEntry)) else None
    case Advance(ok) => NextSection(s, ok)
    case Resume(timedOut) =>
      if s.section.SetupWaiting? && (timedOut || s.section.signalled) then Some(s.(section := SetupMark)) else None
    case UeventChecksRunning => if !s.checking && s.running then Some(s.(checking := true)) else None
    case UeventPostsCheck =>
      if s.checking then Some(s.(checking := false, eventfd := Post(s.eventfd, IrqHpdCountCheck))) else None
    case WorkerRuns(w, outcome) => if w < |s.workers| then NextWorker(s, w, outcome) else None
    case HelperRuns(h) => if h < |s.helpers| then NextHelper(s, h) else None
  }

  function NextSection(s: State, ok: bool): Option<State> {
    match s.section
    // Line 1838: a startup in progress makes setup give up.
    case SetupEntry => Some(s.(section := if s.starting then Outside else SetupStarted))
    // Line 1847: a running worker is shut down first.
    case SetupStarted => Some(s.(section := if s.running then SetupShutdown else SetupMark))
    // Line 1915, from 1848: the forced shutdown reads the flag again.
    case SetupShutdown => Some(s.(section := if s.running then SetupHelp else SetupLock))
    // Line 1921: creating the helper may fail.
    case SetupHelp => Some(s.(section := SetupLock, helpers := if ok then s.helpers + [Posting] else s.helpers))
    // Lines 1849-1851: only from here on is a signal noticed.
    case SetupLock => Some(s.(section := SetupWaiting(false)))
    case SetupMark => Some(s.(section := SetupClearEvent, starting := true))
    // Line 1863 writes DISPLAYPORT_SHUTDOWN_CLEAR.
    case SetupClearEvent => Some(s.(section := SetupClearDestroy, eventfd := Post(s.eventfd, ShutdownClear)))
    case SetupClearDestroy => Some(s.(section := SetupCreate, destroy := false))
    case SetupCreate =>
      if ok then Some(s.(section := Outside, workers := s.workers + [Worker(Born, false)]))
      else Some(s.(section := SetupFailed))
    case SetupFailed => Some(s.(section := Outside, starting := false))
    // Line 1915 without force: not `ok` is a DisplayPort directory that is still there.
    case ShutdownEntry => Some(s.(section := if s.running && ok then ShutdownHelp else Outside))
    case ShutdownHelp => Some(s.(section := Outside, helpers := if ok then s.helpers + [Posting] else s.helpers))
    case _ => None
  }

  function NextWorker(s: State, w: nat, outcome: Outcome): Option<State>
    requires w < |s.workers|
  {
    var worker := s.workers[w];
    match worker.pc
    case Born => Some(s.(running := true, workers := s.workers[w := worker.(pc := Marked)]))
    case Marked => Some(s.(starting := false, workers := s.workers[w := worker.(pc := Opening)]))
    case Opening => Some(s.(workers := s.workers[w := worker.(pc := if outcome.Fail? then Leaving else LoopHead)]))
    case LoopHead => Some(s.(workers := s.workers[w := worker.(pc := if s.destroy then Leaving else Polling)]))
    case Polling =>
      (match outcome
       case Proceed => Some(s.(workers := s.workers[w := worker.(pc := LoopHead)]))
       case Fail => Some(s.(workers := s.workers[w := worker.(pc := Leaving)]))
       case ReadEvent =>
         if React(s.eventfd).StopWorker? then
           Some(s.(destroy := true, eventfd := 0, workers := s.workers[w := Worker(LoopHead, true)]))
         else
           Some(s.(eventfd := 0)))
    case Leaving => Some(s.(running := false, workers := s.workers[w := worker.(pc := Exited)]))
    case Exited => None
  }

  function NextHelper(s: State, h: nat): Option<State>
    requires h < |s.helpers|
  {
    match s.helpers[h]
    case Posting => Some(s.(eventfd := Post(s.eventfd, ShutdownSet), helpers := s.helpers[h := Loading]))
    case Loading => if |s.workers| > 0 then Some(s.(helpers := s.helpers[h := Joining(|s.workers| - 1)])) else None
    case Joining(w) =>
      if w < |s.workers| && s.workers[w].pc.Exited? then Some(s.(helpers := s.helpers[h := Overriding(w)])) else None
    case Overriding(w) => Some(s.(helpers := s.helpers[h := Signalling(w)]))
    case Signalling(w) =>
      Some(s.(helpers := s.helpers[h := Finished(w)],
              section := if s.section.SetupWaiting? then SetupWaiting(true) else s.section))
    case Finished(_) => None
  }

  /** A run of the protocol: `states[i]` takes `steps[i]` to `states[i + 1]`. */
  datatype Trace = Trace(states: seq<State>, steps: seq<Step>)

  predicate IsRun(run: Trace) {
    && |run.states| == |run.steps| + 1
    && (exists destroy :: run.states[0] == Init(destroy))
    && forall i :: 0 <= i < |run.steps| ==> Next(run.states[i], run.steps[i]) == Some(run.states[i + 1])
  }

  lemma StepInRun(run: Trace, k: nat)
    requires IsRun(run) && k < |run.steps|
    ensures Next(run.states[k], run.steps[k]) == Some(run.states[k + 1])
  {
  }

  function Last(run: Trace): State
    requires |run.states| > 0
  {
    run.states[|run.states| - 1]
  }

  predicate Live(worker: Worker) {
    !worker.pc.Exited?
  }

  predicate NoneLive(s: State) {
    forall i :: 0 <= i < |s.workers| ==> !Live(s.workers[i])
  }

  predicate AtMostOneLive(s: State) {
    forall i, j :: 0 <= i < j < |s.workers| ==> !(Live(s.workers[i]) && Live(s.workers[j]))
  }

  /** Setup would notice every live worker: one of the two flags covers it. */
  predicate Covered(s: State) {
    (exists i :: 0 <= i < |s.workers| && Live(s.workers[i])) ==> s.starting || s.running
  }

  /** A worker that finds the destroy flag set has itself read the shutdown code; in particular no
      worker starts with the flag of its predecessor. */
  predicate NoStaleDestroy(s: State) {
    forall i :: 0 <= i < |s.workers| && Live(s.workers[i]) && s.destroy ==> s.workers[i].sawShutdown
  }

  predicate Safe(s: State) {
    AtMostOneLive(s) && Covered(s) && NoStaleDestroy(s)
  }

  /** The hypothesis of the exclusion theorem: a setup leaves its timed wait only once the worker it
      waits for has exited. */
  predicate ResumesAfterExit(run: Trace)
    requires IsRun(run)
  {
    forall i :: 0 <= i < |run.steps| && run.steps[i].Resume? ==> NoneLive(run.states[i])
  }

  // ---- The inductive invariant ----

  predicate NewestLive(s: State) {
    |s.workers| > 0 && Live(s.workers[|s.workers| - 1])
  }

  /** Setup found neither flag in its way, or waited: nothing is starting. */
  predicate Committed(section: Section) {
    || section.SetupStarted? || section.SetupShutdown? || section.SetupHelp? || section.SetupLock?
    || section.SetupWaiting? || section.SetupMark?
  }

  /** Setup has set the starting flag. */
  predicate Announced(section: Section) {
    section.SetupClearEvent? || section.SetupClearDestroy? || section.SetupCreate? || section.SetupFailed?
  }

  predicate Inv(s: State) {
    && (forall i :: 0 <= i < |s.workers| - 1 ==> !Live(s.workers[i]))
    && (s.section.SetupMark? || Announced(s.section) ==> !NewestLive(s))
    && (Committed(s.section) ==> !s.starting)
    && (s.section.SetupCreate? ==> !s.destroy)
    && (s.running <==> NewestLive(s) && !s.workers[|s.workers| - 1].pc.Born?)
    && (s.starting <==>
        Announced(s.section) ||
        (NewestLive(s) && (s.workers[|s.workers| - 1].pc.Born? || s.workers[|s.workers| - 1].pc.Marked?)))
    && (NewestLive(s) && s.destroy ==> s.workers[|s.workers| - 1].sawShutdown)
  }

  lemma InvIsSafe(s: State)
    requires Inv(s)
    ensures Safe(s)
  {
  }

  lemma WorkerKeepsInv(s: State, w: nat, outcome: Outcome)
    requires Inv(s) && w < |s.workers| && NextWorker(s, w, outcome).Some?
    ensures Inv(NextWorker(s, w, outcome).value)
  {
    assert Live(s.workers[w]);
    assert w == |s.workers| - 1;
    var t := NextWorker(s, w, outcome).value;
    assert |t.workers| == |s.workers| && t.section == s.section;
    assert forall i :: 0 <= i < w ==> t.workers[i] == s.workers[i];
  }

  lemma SectionKeepsInv(s: State, ok: bool)
    requires Inv(s) && NextSection(s, ok).Some?
    ensures Inv(NextSection(s, ok).value)
  {
    var t := NextSection(s, ok).value;
    if s.section.SetupCreate? && ok {
      assert t.workers[|t.workers| - 1] == Worker(Born, false);
      assert forall i :: 0 <= i < |s.workers| ==> t.workers[i] == s.workers[i];
    } else {
      assert t.workers == s.workers;
    }
  }

  lemma InvPreserved(s: State, step: Step)
    requires Inv(s) && Next(s, step).Some?
    requires step.Resume? ==> NoneLive(s)
    ensures Inv(Next(s, step).value)
  {
    match step
    case WorkerRuns(w, outcome) => WorkerKeepsInv(s, w, outcome);
    case Advance(ok) => SectionKeepsInv(s, ok);
    case _ => assert Next(s, step).value.workers == s.workers;
  }

  lemma {:induction false} InvThroughout(run: Trace, i: nat)
    requires IsRun(run) && ResumesAfterExit(run) && i < |run.states|
    ensures Inv(run.states[i])
  {
    if i > 0 {
      InvThroughout(run, i - 1);
      InvPreserved(run.states[i - 1], run.steps[i - 1]);
    }
  }

  /** Worker exclusion: in every state of every interleaving at most one worker is live, a flag covers
      it, and it did not inherit the destroy flag. */
  lemma WorkerExclusion(run: Trace)
    requires IsRun(run) && ResumesAfterExit(run)
    ensures forall i :: 0 <= i < |run.states| ==> Safe(run.states[i])
  {
    forall i | 0 <= i < |run.states|
      ensures Safe(run.states[i])
    {
      InvThroughout(run, i);
      InvIsSafe(run.states[i]);
    }
  }

  // ---- When the condition variable alone guarantees the hypothesis ----

  predicate AllFinished(s: State) {
    forall h :: 0 <= h < |s.helpers| ==> s.helpers[h].Finished?
  }

  /** No wait times out, and when a wait for a live worker begins every helper that is not finished has yet
      to join that worker. */
  predicate SignalsOnly(run: Trace)
    requires IsRun(run)
  {
    forall i :: 0 <= i < |run.steps| ==>
      && !(run.steps[i].Resume? && run.steps[i].timedOut)
      && (run.steps[i].Advance? && run.states[i].section.SetupLock? && NewestLive(run.states[i]) ==>
          AllAwait(run.states[i]))
  }

  /** The helper does not signal before the newest worker has exited. */
  predicate AwaitsNewest(workers: nat, helper: Helper) {
    match helper
    case Joining(w) => w == workers - 1
    case Overriding(_) => false
    case Signalling(_) => false
    case _ => true
  }

  predicate AllAwait(s: State) {
    forall h :: 0 <= h < |s.helpers| ==> AwaitsNewest(|s.workers|, s.helpers[h])
  }

  /** Setup waits, or (if `locked`) is about to. */
  predicate AtWait(section: Section, locked: bool) {
    section.SetupWaiting? || (locked && section.SetupLock?)
  }

  predicate WaitInv(s: State, locked: bool) {
    && (AtWait(s.section, locked) && NewestLive(s) ==> AllAwait(s))
    && (s.section.SetupWaiting? && s.section.signalled ==> !NewestLive(s))
  }

  lemma HelperKeepsWaitInv(s: State, h: nat, locked: bool)
    requires Inv(s) && WaitInv(s, locked) && h < |s.helpers| && NextHelper(s, h).Some?
    ensures WaitInv(NextHelper(s, h).value, locked)
  {
    var t := NextHelper(s, h).value;
    assert t.workers == s.workers;
    if AtWait(t.section, locked) && NewestLive(t) {
      assert AwaitsNewest(|s.workers|, s.helpers[h]);
    }
  }

  lemma WorkerKeepsWaitInv(s: State, w: nat, outcome: Outcome, locked: bool)
    requires WaitInv(s, locked) && w < |s.workers| && NextWorker(s, w, outcome).Some?
    ensures WaitInv(NextWorker(s, w, outcome).value, locked)
  {
    WorkerShape(s, w, outcome);
    assert Live(s.workers[w]);
  }

  lemma WaitInvPreserved(s: State, step: Step, locked: bool)
    requires Inv(s) && WaitInv(s, locked) && Next(s, step).Some?
    requires locked ==> AtWait(s.section, true)
    requires step.Resume? ==> !step.timedOut
    requires step.Advance? && s.section.SetupLock? && NewestLive(s) ==> AllAwait(s)
    ensures WaitInv(Next(s, step).value, locked)
    ensures step.Resume? ==> NoneLive(s)
  {
    match step {
      case WorkerRuns(w, outcome) => WorkerKeepsWaitInv(s, w, outcome, locked);
      case HelperRuns(h) => HelperKeepsWaitInv(s, h, locked);
      case Advance(ok) => SectionShape(s, ok);
      case _ =>
    }
  }

  lemma {:induction false} WaitInvThroughout(run: Trace, i: nat)
    requires IsRun(run) && SignalsOnly(run) && i < |run.states|
    ensures Inv(run.states[i]) && WaitInv(run.states[i], false)
  {
    if i > 0 {
      WaitInvThroughout(run, i - 1);
      WaitInvPreserved(run.states[i - 1], run.steps[i - 1], false);
      InvPreserved(run.states[i - 1], run.steps[i - 1]);
    }
  }

  /** A wait that ends by a signal ends only after the old worker exited, if every helper that could signal
      is one that joins that worker first; so such runs are safe without further hypotheses. */
  lemma SignalsImplyExit(run: Trace)
    requires IsRun(run) && SignalsOnly(run)
    ensures ResumesAfterExit(run)
    ensures forall i :: 0 <= i < |run.states| ==> Safe(run.states[i])
  {
    forall i | 0 <= i < |run.steps| && run.steps[i].Resume?
      ensures NoneLive(run.states[i])
    {
      WaitInvThroughout(run, i);
      assert Next(run.states[i], run.steps[i]) == Some(run.states[i + 1]);
      WaitInvPreserved(run.states[i], run.steps[i], false);
    }
    WorkerExclusion(run);
  }

  // ---- The workers that helpers know ----

  /** The worker that a helper joins, once it has looked it up. */
  function Target(helper: Helper): Option<nat> {
    match helper
    case Posting => None
    case Loading => None
    case Joining(w) => Some(w)
    case Overriding(w) => Some(w)
    case Signalling(w) => Some(w)
    case Finished(w) => Some(w)
  }

  predicate TargetExists(workers: nat, helper: Helper) {
    Target(helper).Some? ==> Target(helper).value < workers
  }

  /** Setup or shutdown has found a worker running. */
  predicate Stops(section: Section) {
    || section.SetupShutdown? || section.SetupHelp? || section.SetupLock? || section.SetupWaiting?
    || section.ShutdownHelp?
  }

  /** Workers that run, are stopped or are joined exist. */
  predicate Grounded(s: State) {
    && (s.running || Stops(s.section) ==> |s.workers| > 0)
    && forall h :: 0 <= h < |s.helpers| ==> TargetExists(|s.workers|, s.helpers[h])
  }

  /** What a worker's step leaves alone. */
  lemma WorkerShape(s: State, w: nat, outcome: Outcome)
    requires w < |s.workers| && NextWorker(s, w, outcome).Some?
    ensures var t := NextWorker(s, w, outcome).value;
            && t.helpers == s.helpers && t.section == s.section && t.checking == s.checking
            && |t.workers| == |s.workers|
            && forall i :: 0 <= i < |s.workers| && i != w ==> t.workers[i] == s.workers[i]
  {
  }

  /** Setup or shutdown creates a helper. */
  predicate AddsHelper(s: State, step: Step) {
    step == Advance(true) && (s.section.SetupHelp? || s.section.ShutdownHelp?)
  }

  /** A section changes the helpers only by adding one, and the workers only by creating one. */
  lemma SectionShape(s: State, ok: bool)
    requires NextSection(s, ok).Some?
    ensures var t := NextSection(s, ok).value;
            && t.helpers == (if AddsHelper(s, Advance(ok)) then s.helpers + [Posting] else s.helpers)
            && (t.workers == s.workers || (t.workers == s.workers + [Worker(Born, false)] && t.helpers == s.helpers))
            && t.running == s.running
            && (Stops(t.section) ==> s.running || Stops(s.section))
  {
  }

  /** A helper keeps its target, or looks up the newest worker. */
  lemma HelperShape(s: State, h: nat)
    requires h < |s.helpers| && NextHelper(s, h).Some?
    ensures var t := NextHelper(s, h).value;
            && t.workers == s.workers && t.running == s.running && |t.helpers| == |s.helpers|
            && (forall k :: 0 <= k < |s.helpers| && k != h ==> t.helpers[k] == s.helpers[k])
            && (Target(t.helpers[h]) == Target(s.helpers[h]) ||
                (Target(s.helpers[h]).None? && Target(t.helpers[h]) == Some(|s.workers| - 1) && |s.workers| > 0))
            && (t.section == s.section || (s.section.SetupWaiting? && t.section == SetupWaiting(true)))
  {
  }

  lemma HelperIsGrounded(s: State, h: nat)
    requires Grounded(s) && h < |s.helpers| && NextHelper(s, h).Some?
    ensures Grounded(NextHelper(s, h).value)
  {
    var t := NextHelper(s, h).value;
    HelperShape(s, h);
    forall k | 0 <= k < |t.helpers| ensures TargetExists(|t.workers|, t.helpers[k]) {
      assert TargetExists(|s.workers|, s.helpers[k]);
    }
  }

  lemma NextIsGrounded(s: State, step: Step)
    requires Grounded(s) && Next(s, step).Some?
    ensures Grounded(Next(s, step).value)
  {
    match step {
      case WorkerRuns(w, outcome) => WorkerShape(s, w, outcome);
      case HelperRuns(h) => HelperIsGrounded(s, h);
      case Advance(ok) => SectionIsGrounded(s, ok);
      case _ =>
    }
  }

  lemma SectionIsGrounded(s: State, ok: bool)
    requires Grounded(s) && NextSection(s, ok).Some?
    ensures Grounded(NextSection(s, ok).value)
  {
    var t := NextSection(s, ok).value;
    SectionShape(s, ok);
    forall h | 0 <= h < |t.helpers| ensures TargetExists(|t.workers|, t.helpers[h]) {
      assert h < |s.helpers| ==> TargetExists(|s.workers|, s.helpers[h]);
    }
  }

  lemma {:induction false} GroundedThroughout(run: Trace, i: nat)
    requires IsRun(run) && i < |run.states|
    ensures Grounded(run.states[i])
  {
    if i > 0 {
      GroundedThroughout(run, i - 1);
      assert Next(run.states[i - 1], run.steps[i - 1]) == Some(run.states[i]);
      NextIsGrounded(run.states[i - 1], run.steps[i - 1]);
    }
  }

  // ---- Runs that show what happens without the hypotheses ----

  predicate NeverTimesOut(run: Trace) {
    forall i :: 0 <= i < |run.steps| && run.steps[i].Resume? ==> !run.steps[i].timedOut
  }

  /** What the runs below keep track of while they are built, one step a call. */
  predicate Built(run: Trace, last: State, afterExit: bool, timely: bool) {
    && IsRun(run)
    && Last(run) == last
    && (afterExit ==> ResumesAfterExit(run))
    && (timely ==> NeverTimesOut(run))
  }

  predicate Extends(run: Trace, longer: Trace) {
    run.states <= longer.states && run.steps <= longer.steps
  }

  /** No wait ends in what a run is extended by. */
  predicate NoResume(run: Trace, longer: Trace) {
    forall k :: |run.steps| <= k < |longer.steps| ==> !longer.steps[k].Resume?
  }

  lemma Begin() returns (run: Trace)
    ensures Built(run, Init(false), true, true)
  {
    run := Trace([Init(false)], []);
  }

  lemma Then(run: Trace, s: State, afterExit: bool, timely: bool, step: Step) returns (longer: Trace, t: State)
    requires Built(run, s, afterExit, timely) && Next(s, step).Some?
    requires step.Resume? ==> (afterExit ==> NoneLive(s)) && (step.timedOut ==> !timely)
    ensures t == Next(s, step).value
    ensures Built(longer, t, afterExit, timely) && Extends(run, longer) && longer.steps == run.steps + [step]
  {
    t := Next(s, step).value;
    longer := Trace(run.states + [t], run.steps + [step]);
  }

  /** Setup with neither flag set creates a worker, which enters its event loop. */
  lemma ThenStarts(run: Trace, s: State, afterExit: bool, timely: bool) returns (longer: Trace, t: State)
    requires Built(run, s, afterExit, timely) && s.section.Outside? && !s.starting && !s.running
    ensures Built(longer, t, afterExit, timely)
    ensures t == s.(running := true, destroy := false, eventfd := Post(s.eventfd, ShutdownClear),
                    workers := s.workers + [Worker(Polling, false)])
  {
    longer, t := Then(run, s, afterExit, timely, EnterSetup);
    longer, t := Then(longer, t, afterExit, timely, Advance(true));
    longer, t := Then(longer, t, afterExit, timely, Advance(true));
    longer, t := ThenCreates(longer, t, afterExit, timely);
    longer, t := ThenPolls(longer, t, afterExit, timely);
  }

  lemma ThenCreates(run: Trace, s: State, afterExit: bool, timely: bool) returns (longer: Trace, t: State)
    requires Built(run, s, afterExit, timely) && s.section.SetupMark?
    ensures Built(longer, t, afterExit, timely) && Extends(run, longer)
    ensures t == s.(section := Outside, starting := true, destroy := false, eventfd := Post(s.eventfd, ShutdownClear),
                    workers := s.workers + [Worker(Born, false)])
  {
    longer, t := Then(run, s, afterExit, timely, Advance(true));
    longer, t := Then(longer, t, afterExit, timely, Advance(true));
    longer, t := Then(longer, t, afterExit, timely, Advance(true));
    longer, t := Then(longer, t, afterExit, timely, Advance(true));
  }

  lemma ThenPolls(run: Trace, s: State, afterExit: bool, timely: bool) returns (longer: Trace, t: State)
    requires Built(run, s, afterExit, timely) && !s.destroy
    requires |s.workers| > 0 && s.workers[|s.workers| - 1] == Worker(Born, false)
    ensures Built(longer, t, afterExit, timely)
    ensures t == s.(running := true, starting := false,
                    workers := s.workers[..|s.workers| - 1] + [Worker(Polling, false)])
  {
    var w := |s.workers| - 1;
    longer, t := Then(run, s, afterExit, timely, WorkerRuns(w, Proceed));
    longer, t := Then(longer, t, afterExit, timely, WorkerRuns(w, Proceed));
    longer, t := Then(longer, t, afterExit, timely, WorkerRuns(w, Proceed));
    longer, t := Then(longer, t, afterExit, timely, WorkerRuns(w, Proceed));
    assert t.workers == s.workers[..w] + [Worker(Polling, false)];
  }

  /** Setup that finds a running worker stops at its timed wait, with a new helper. */
  lemma ThenWaits(run: Trace, s: State, afterExit: bool, timely: bool) returns (longer: Trace, t: State)
    requires Built(run, s, afterExit, timely) && s.section.Outside? && !s.starting && s.running
    ensures Built(longer, t, afterExit, timely)
    ensures t == s.(section := SetupWaiting(false), helpers := s.helpers + [Posting])
  {
    longer, t := ThenHelps(run, s, afterExit, timely);
    longer, t := Then(longer, t, afterExit, timely, Advance(true));
  }

  lemma ThenHelps(run: Trace, s: State, afterExit: bool, timely: bool) returns (longer: Trace, t: State)
    requires Built(run, s, afterExit, timely) && s.section.Outside? && !s.starting && s.running
    ensures Built(longer, t, afterExit, timely)
    ensures t == s.(section := SetupLock, helpers := s.helpers + [Posting])
  {
    longer, t := Then(run, s, afterExit, timely, EnterSetup);
    longer, t := Then(longer, t, afterExit, timely, Advance(true));
    longer, t := Then(longer, t, afterExit, timely, Advance(true));
    longer, t := Then(longer, t, afterExit, timely, Advance(true));
    longer, t := Then(longer, t, afterExit, timely, Advance(true));
  }

  lemma OnePolling(afterExit: bool, timely: bool) returns (run: Trace, s: State)
    ensures Built(run, s, afterExit, timely)
    ensures s == State(true, false, false, 0, Outside, false, [Worker(Polling, false)], [])
  {
    run := Begin();
    run, s := ThenStarts(run, Init(false), afterExit, timely);
  }

  lemma ThenHelper(run: Trace, s: State, afterExit: bool, timely: bool) returns (longer: Trace, t: State)
    requires Built(run, s, afterExit, timely) && s.section.Outside? && s.running
    ensures Built(longer, t, afterExit, timely) && t == s.(helpers := s.helpers + [Posting])
  {
    longer, t := Then(run, s, afterExit, timely, EnterShutdown);
    longer, t := Then(longer, t, afterExit, timely, Advance(true));
    longer, t := Then(longer, t, afterExit, timely, Advance(true));
  }

  /** A worker starts, shutdown creates a helper for it, and the helper posts and looks up its worker. */
  lemma OneStopping(afterExit: bool, timely: bool, check: bool) returns (run: Trace, s: State)
    ensures Built(run, s, afterExit, timely)
    ensures s == State(true, false, false, if check then 4 else 1, Outside, false, [Worker(Polling, false)], [Joining(0)])
  {
    run, s := OnePolling(afterExit, timely);
    if check {
      run, s := Then(run, s, afterExit, timely, UeventChecksRunning);
      run, s := Then(run, s, afterExit, timely, UeventPostsCheck);
    }
    run, s := ThenHelper(run, s, afterExit, timely);
    run, s := Then(run, s, afterExit, timely, HelperRuns(0));
    run, s := Then(run, s, afterExit, timely, HelperRuns(0));
  }

  /** The same, and then the worker leaves its loop because epoll_wait failed; the code stays unread. */
  lemma OneLeft(afterExit: bool, timely: bool) returns (run: Trace, s: State)
    ensures Built(run, s, afterExit, timely)
    ensures s == State(false, false, false, 1, Outside, false, [Worker(Exited, false)], [Signalling(0)])
  {
    run, s := OneStopping(afterExit, timely, false);
    run, s := Then(run, s, afterExit, timely, WorkerRuns(0, Fail));
    run, s := Then(run, s, afterExit, timely, WorkerRuns(0, Proceed));
    run, s := Then(run, s, afterExit, timely, HelperRuns(0));
    run, s := Then(run, s, afterExit, timely, HelperRuns(0));
  }

  /** The helper will join the worker that is now the newest, unless another is created first. */
  predicate YetToJoin(workers: nat, helper: Helper) {
    helper.Posting? || helper.Loading? || (helper.Joining? && helper.target == workers - 1)
  }

  function StepsToExit(pc: WorkerPc): nat {
    match pc
    case Born => 5
    case Marked => 4
    case Opening => 3
    case LoopHead => 3
    case Polling => 2
    case Leaving => 1
    case Exited => 0
  }

  lemma FailsOn(s: State, w: nat)
    requires w < |s.workers| && Live(s.workers[w])
    ensures NextWorker(s, w, Fail).Some?
    ensures var t := NextWorker(s, w, Fail).value;
            && |t.workers| == |s.workers| && t.helpers == s.helpers && t.section == s.section
            && (forall i :: 0 <= i < |s.workers| && i != w ==> t.workers[i] == s.workers[i])
            && StepsToExit(t.workers[w].pc) < StepsToExit(s.workers[w].pc)
  {
  }

  /** The newest worker fails and exits. */
  lemma {:induction false} ThenExits(run: Trace, s: State, afterExit: bool, timely: bool) returns (longer: Trace, t: State)
    requires Built(run, s, afterExit, timely) && |s.workers| > 0
    ensures Built(longer, t, afterExit, timely) && Extends(run, longer) && NoResume(run, longer)
    ensures t.helpers == s.helpers && t.section == s.section && |t.workers| == |s.workers|
    ensures t.workers[|t.workers| - 1].pc.Exited? && forall i :: 0 <= i < |s.workers| - 1 ==> t.workers[i] == s.workers[i]
    decreases StepsToExit(s.workers[|s.workers| - 1].pc)
  {
    longer, t := run, s;
    var w := |s.workers| - 1;
    if Live(s.workers[w]) {
      FailsOn(s, w);
      longer, t := Then(run, s, afterExit, timely, WorkerRuns(w, Fail));
      longer, t := ThenExits(longer, t, afterExit, timely);
    }
  }

  function StepsToJoin(helper: Helper): nat {
    match helper
    case Posting => 2
    case Loading => 1
    case _ => 0
  }

  /** A helper that has yet to join the newest worker waits for it. */
  lemma {:induction false} ThenJoins(run: Trace, s: State, afterExit: bool, timely: bool, h: nat) returns (longer: Trace, t: State)
    requires Built(run, s, afterExit, timely) && |s.workers| > 0 && h < |s.helpers|
    requires YetToJoin(|s.workers|, s.helpers[h])
    ensures Built(longer, t, afterExit, timely) && Extends(run, longer) && NoResume(run, longer)
    ensures t.workers == s.workers && t.section == s.section && t.helpers == s.helpers[h := Joining(|s.workers| - 1)]
    decreases StepsToJoin(s.helpers[h])
  {
    longer, t := run, s;
    if s.helpers[h].Joining? {
      assert s.helpers[h := Joining(|s.workers| - 1)] == s.helpers;
    } else {
      longer, t := Then(run, s, afterExit, timely, HelperRuns(h));
      longer, t := ThenJoins(longer, t, afterExit, timely, h);
    }
  }

  /** The hypothesis is needed in every run: once a setup waits beside a live worker, a wait that ends
      now leads to two live workers. */
  lemma EarlyResumeBreaksExclusion(run: Trace)
    requires IsRun(run) && Last(run).section.SetupWaiting? && !NoneLive(Last(run))
    ensures exists longer :: IsRun(longer) && Extends(run, longer) && !AtMostOneLive(Last(longer))
  {
    var s := Last(run);
    var i :| 0 <= i < |s.workers| && Live(s.workers[i]);
    var longer, t := Then(run, s, false, false, Resume(true));
    longer, t := ThenCreates(longer, t, false, false);
    assert Live(t.workers[i]) && Live(t.workers[|s.workers|]);
  }

  /** A wait that times out starts a second worker beside the first. */
  lemma Overlap() returns (run: Trace, s: State)
    ensures Built(run, s, false, false)
    ensures s == State(true, true, false, 0, Outside, false, [Worker(Polling, false), Worker(Born, false)], [Posting])
  {
    run, s := OnePolling(false, false);
    run, s := ThenWaits(run, s, false, false);
    run, s := Then(run, s, false, false, Resume(true));
    run, s := ThenCreates(run, s, false, false);
  }

  lemma TimeoutBreaksExclusion()
    ensures exists run :: IsRun(run) && !AtMostOneLive(Last(run))
  {
    var run, s := Overlap();
    assert Live(s.workers[0]) && Live(s.workers[1]);
  }

  /** When the first of two overlapping workers stops, it clears the running flag of the second, which
      no flag covers any more. */
  lemma OverlapLosesWorker()
    ensures exists run :: IsRun(run) && !Covered(Last(run))
  {
    var run, s := Overlap();
    run, s := ThenPolls(run, s, false, false);
    run, s := Then(run, s, false, false, WorkerRuns(0, Fail));
    run, s := Then(run, s, false, false, WorkerRuns(0, Proceed));
    assert Live(s.workers[1]);
  }

  /** A shutdown that meets an unread IRQ_HPD check is lost: the worker reads 4, polls on with nothing
      left to read, and the helper waits for it. */
  lemma MergedShutdownIsLost()
    ensures exists run ::
              IsRun(run) && ResumesAfterExit(run) &&
              Last(run) == State(true, false, false, 0, Outside, false, [Worker(Polling, false)], [Joining(0)])
  {
    var run, s := OneStopping(true, true, true);
    run, s := Then(run, s, true, true, WorkerRuns(0, ReadEvent));
  }

  /** The write of DISPLAYPORT_SHUTDOWN_CLEAR resets nothing: a shutdown posted for a worker that left
      its loop for another reason is read by, and stops, the worker started after it, although every
      helper had finished before that worker was created. */
  lemma StaleShutdownStopsNewWorker()
    ensures exists run ::
              IsRun(run) && ResumesAfterExit(run) && AllFinished(Last(run)) &&
              Last(run).workers == [Worker(Exited, false), Worker(LoopHead, true)]
  {
    var run, s := OneLeft(true, true);
    run, s := Then(run, s, true, true, HelperRuns(0));
    run, s := ThenStarts(run, s, true, true);
    run, s := Then(run, s, true, true, WorkerRuns(1, ReadEvent));
  }
}
