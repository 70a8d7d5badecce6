/** How the timed wait of a setup for the worker it stops can end (Usb.cpp:1847-1856 with 1881-1891). */
module WorkerWaits {
  import opened Wrappers
  import opened WorkerProtocol

  /** The wait that `run` is in, or is about to begin, ends by a signal at step j of a longer run. */
  predicate EndsBySignal(run: Trace, longer: Trace, j: nat) {
    && |longer.states| == |longer.steps| + 1 && Extends(run, longer) && |run.steps| <= j < |longer.steps|
    && longer.steps[j] == Resume(false)
    && forall k :: |run.steps| <= k < j ==> !longer.steps[k].Resume?
  }

  function StepsToSignal(helper: Helper): nat {
    match helper
    case Joining(_) => 3
    case Overriding(_) => 2
    case Signalling(_) => 1
    case _ => 0
  }

  /** A helper whose worker has exited goes on to signal. */
  lemma {:induction false} ThenSignals(run: Trace, s: State, timely: bool, h: nat) returns (longer: Trace, t: State)
    requires Built(run, s, true, timely) && s.section.SetupWaiting?
    requires h < |s.helpers| && StepsToSignal(s.helpers[h]) > 0
    requires s.helpers[h].Joining? ==> s.helpers[h].target < |s.workers| && !Live(s.workers[s.helpers[h].target])
    ensures Built(longer, t, true, timely) && Extends(run, longer) && NoResume(run, longer)
    ensures t.section == SetupWaiting(true) && t.workers == s.workers
    decreases StepsToSignal(s.helpers[h])
  {
    HelperShape(s, h);
    longer, t := Then(run, s, true, timely, HelperRuns(h));
    if !s.helpers[h].Signalling? {
      longer, t := ThenSignals(longer, t, timely, h);
    }
  }

  lemma StartsWhere(run: Trace, longer: Trace)
    requires IsRun(run) && Extends(run, longer) && |longer.states| > |run.steps|
    ensures longer.states[|run.steps|] == Last(run)
  {
    assert longer.states[|run.steps|] == run.states[|run.steps|];
  }

  // ---- When a signal can end the wait beside a live worker ----

  /** A helper that does not await the newest worker signals as soon as the wait has begun. */
  lemma LateSignal(run: Trace, s: State, timely: bool, h: nat) returns (longer: Trace, t: State)
    requires Built(run, s, true, timely) && s.section.SetupLock?
    requires h < |s.helpers| && !AwaitsNewest(|s.workers|, s.helpers[h])
    ensures Built(longer, t, true, timely) && Extends(run, longer) && NoResume(run, longer)
    ensures t.section == SetupWaiting(true) && t.workers == s.workers
  {
    InvThroughout(run, |run.states| - 1);
    GroundedThroughout(run, |run.states| - 1);
    assert TargetExists(|s.workers|, s.helpers[h]);
    longer, t := Then(run, s, true, timely, Advance(true));
    longer, t := ThenSignals(longer, t, timely, h);
  }

  /** The condition of SignalsImplyExit is needed in every run: if a wait for a live worker is about to begin
      while some helper could signal before that worker exits, there may soon be two live workers, without
      any timeout. */
  lemma LateSignalBreaksExclusion(run: Trace, h: nat)
    requires IsRun(run) && ResumesAfterExit(run) && Last(run).section.SetupLock? && NewestLive(Last(run))
    requires h < |Last(run).helpers| && !AwaitsNewest(|Last(run).workers|, Last(run).helpers[h])
    ensures exists longer ::
              && IsRun(longer) && Extends(run, longer) && !AtMostOneLive(Last(longer))
              && (NeverTimesOut(run) ==> NeverTimesOut(longer))
  {
    var timely, w := NeverTimesOut(run), |Last(run).workers| - 1;
    var longer, t := LateSignal(run, Last(run), timely, h);
    longer, t := Then(longer, t, false, timely, Resume(false));
    longer, t := ThenCreates(longer, t, false, timely);
    assert Live(t.workers[w]) && Live(t.workers[w + 1]);
  }

  /** A helper left over from an earlier shutdown does it. */
  lemma StaleHelperBreaksExclusion()
    ensures exists run :: IsRun(run) && NeverTimesOut(run) && !AtMostOneLive(Last(run))
  {
    var run, s := OneLeft(true, true);
    run, s := ThenStarts(run, s, true, true);
    run, s := ThenHelps(run, s, true, true);
    LateSignalBreaksExclusion(run, 0);
  }

  lemma StaysAtWait(s: State, step: Step)
    requires AtWait(s.section, true) && Next(s, step).Some? && !step.Resume?
    ensures AtWait(Next(s, step).value.section, true)
  {
    match step {
      case WorkerRuns(w, outcome) => WorkerShape(s, w, outcome);
      case HelperRuns(h) => HelperShape(s, h);
      case _ =>
    }
  }

  /** From the beginning of the wait to its end. */
  lemma {:induction false} WaitGoesOn(run: Trace, longer: Trace, j: nat, k: nat)
    requires IsRun(run) && ResumesAfterExit(run) && Last(run).section.SetupLock?
    requires NewestLive(Last(run)) ==> AllAwait(Last(run))
    requires IsRun(longer) && EndsBySignal(run, longer, j) && |run.steps| <= k <= j
    ensures Inv(longer.states[k]) && WaitInv(longer.states[k], true) && AtWait(longer.states[k].section, true)
  {
    if k == |run.steps| {
      InvThroughout(run, k);
      StartsWhere(run, longer);
    } else {
      WaitGoesOn(run, longer, j, k - 1);
      var s, step := longer.states[k - 1], longer.steps[k - 1];
      StepInRun(longer, k - 1);
      InvPreserved(s, step);
      WaitInvPreserved(s, step, true);
      StaysAtWait(s, step);
    }
  }

  /** A wait that is about to begin can end by a signal beside a live worker if and only if the newest worker
      is live then and some helper could signal before it exits. */
  lemma SignalDecision(run: Trace)
    requires IsRun(run) && ResumesAfterExit(run) && Last(run).section.SetupLock?
    ensures (exists longer, j: nat :: IsRun(longer) && EndsBySignal(run, longer, j) && !NoneLive(longer.states[j])) <==>
            NewestLive(Last(run)) && !AllAwait(Last(run))
  {
    if NewestLive(Last(run)) && !AllAwait(Last(run)) {
      var h :| 0 <= h < |Last(run).helpers| && !AwaitsNewest(|Last(run).workers|, Last(run).helpers[h]);
      var longer, t := LateSignal(run, Last(run), false, h);
      var j := |longer.steps|;
      longer, t := Then(longer, t, false, false, Resume(false));
      assert Live(longer.states[j].workers[|Last(run).workers| - 1]);
      assert EndsBySignal(run, longer, j);
    } else if longer, j: nat :| IsRun(longer) && EndsBySignal(run, longer, j) && !NoneLive(longer.states[j]) {
      WaitGoesOn(run, longer, j, j);
      StepInRun(longer, j);
      WaitInvPreserved(longer.states[j], Resume(false), true);
    }
  }

  // ---- When only the deadline can end the wait ----

  /** A helper that is not finished gets to signal, if need be after the worker it joins has failed. */
  lemma HelperReleases(run: Trace, s: State, h: nat) returns (longer: Trace, t: State)
    requires Built(run, s, true, false) && s.section.SetupWaiting? && h < |s.helpers| && !s.helpers[h].Finished?
    ensures Built(longer, t, true, false) && Extends(run, longer) && NoResume(run, longer)
    ensures t.section == SetupWaiting(true)
  {
    InvThroughout(run, |run.states| - 1);
    GroundedThroughout(run, |run.states| - 1);
    assert TargetExists(|s.workers|, s.helpers[h]);
    longer, t := run, s;
    if Target(s.helpers[h]).None? {
      longer, t := ThenJoins(run, s, true, false, h);
    }
    longer, t := ThenExits(longer, t, true, false);
    longer, t := ThenSignals(longer, t, false, h);
  }

  predicate Silent(s: State) {
    s.section == SetupWaiting(false) && AllFinished(s)
  }

  lemma StaysSilent(s: State, step: Step, t: State)
    requires Silent(s) && Next(s, step) == Some(t) && !step.Resume?
    ensures Silent(t)
  {
    match step {
      case WorkerRuns(w, outcome) => WorkerShape(s, w, outcome);
      case _ =>
    }
  }

  lemma {:induction false} SilenceGoesOn(longer: Trace, n: nat, k: nat)
    requires IsRun(longer) && n <= k < |longer.states| && Silent(longer.states[n])
    requires forall i :: n <= i < k ==> !longer.steps[i].Resume?
    ensures Silent(longer.states[k])
  {
    if k > n {
      SilenceGoesOn(longer, n, k - 1);
      StepInRun(longer, k - 1);
      StaysSilent(longer.states[k - 1], longer.steps[k - 1], longer.states[k]);
    }
  }

  /** A wait that has not been signalled can end only by its deadline if and only if every helper has already
      finished; whether the worker is still live does not matter. */
  lemma DeadlineDecision(run: Trace)
    requires IsRun(run) && ResumesAfterExit(run) && Last(run).section == SetupWaiting(false)
    ensures (exists longer, j: nat :: IsRun(longer) && EndsBySignal(run, longer, j)) <==> !AllFinished(Last(run))
  {
    if !AllFinished(Last(run)) {
      var h :| 0 <= h < |Last(run).helpers| && !Last(run).helpers[h].Finished?;
      var longer, t := HelperReleases(run, Last(run), h);
      var j := |longer.steps|;
      longer, t := Then(longer, t, false, false, Resume(false));
      assert EndsBySignal(run, longer, j);
    } else if longer, j: nat :| IsRun(longer) && EndsBySignal(run, longer, j) {
      StartsWhere(run, longer);
      SilenceGoesOn(longer, |run.steps|, j);
      StepInRun(longer, j);
    }
  }

  /** The helper's signal can come before setup begins to wait, and is lost: the worker has exited, but the
      wait runs to its deadline. */
  lemma SignalIsLost()
    ensures exists run ::
              && IsRun(run) && ResumesAfterExit(run) && NeverTimesOut(run)
              && Silent(Last(run)) && NoneLive(Last(run)) && |Last(run).helpers| == 1
  {
    var run, s := OnePolling(true, true);
    run, s := ThenHelps(run, s, true, true);
    run, s := ThenJoins(run, s, true, true, 0);
    run, s := ThenExits(run, s, true, true);
    run, s := Then(run, s, true, true, HelperRuns(0));
    run, s := Then(run, s, true, true, HelperRuns(0));
    run, s := Then(run, s, true, true, HelperRuns(0));
    run, s := Then(run, s, true, true, Advance(true));
  }

  // ---- What a setup never skips ----

  /** Setup has found a worker running and has not waited yet. */
  predicate MustWait(section: Section) {
    section.SetupShutdown? || section.SetupHelp? || section.SetupLock? || section.SetupWaiting?
  }

  lemma MustWaitUntilResume(s: State, step: Step)
    requires MustWait(s.section) && Next(s, step).Some? && !step.Resume?
    ensures MustWait(Next(s, step).value.section)
  {
    match step {
      case WorkerRuns(w, outcome) => WorkerShape(s, w, outcome);
      case HelperRuns(h) => HelperShape(s, h);
      case _ =>
    }
  }

  /** A setup that found a worker running does not go on before its wait has ended, though the worker may
      have exited meanwhile or the helper could not be created. */
  lemma {:induction false} SetupWaits(run: Trace, i: nat, k: nat)
    requires IsRun(run) && i <= k < |run.states| && MustWait(run.states[i].section) && !MustWait(run.states[k].section)
    ensures exists j :: i <= j < k && run.steps[j].Resume?
  {
    StepInRun(run, k - 1);
    if MustWait(run.states[k - 1].section) {
      if !run.steps[k - 1].Resume? {
        MustWaitUntilResume(run.states[k - 1], run.steps[k - 1]);
      }
    } else {
      SetupWaits(run, i, k - 1);
    }
  }

  /** A setup stops a worker exactly when it finds one running with none starting, and gives up exactly when
      it finds one starting; it ends with a new worker, or if that cannot be created with the starting flag
      down; and a shutdown without force makes a helper only for a running worker whose DisplayPort directory
      is gone. */
  lemma SectionChoices(s: State, ok: bool)
    requires NextSection(s, ok).Some?
    ensures var t := NextSection(s, ok).value;
            && (s.section.SetupEntry? ==> (t.section.Outside? <==> s.starting) && (t.section.SetupStarted? <==> !s.starting))
            && (s.section.SetupStarted? ==> (MustWait(t.section) <==> s.running) && (t.section.SetupMark? <==> !s.running))
            && (s.section.SetupCreate? ==> (t.section.SetupFailed? <==> !ok) && (t.section.Outside? <==> ok) &&
                                           (|t.workers| == |s.workers| + 1 <==> ok))
            && (s.section.SetupFailed? ==> t.section.Outside? && !t.starting)
            && (s.section.ShutdownEntry? ==> (t.section.ShutdownHelp? <==> s.running && ok) && (t.section.Outside? <==> !(s.running && ok)))
  {
  }

  /** The uevent thread posts a check only after it has seen a worker running. */
  lemma {:induction false} CheckSawRunning(run: Trace, i: nat)
    requires IsRun(run) && i < |run.states| && run.states[i].checking
    ensures exists k :: 0 <= k < i && run.steps[k].UeventChecksRunning? && run.states[k].running
  {
    if i > 0 {
      StepInRun(run, i - 1);
      if run.states[i - 1].checking {
        CheckSawRunning(run, i - 1);
      } else if !run.steps[i - 1].UeventChecksRunning? {
        StillUnchecked(run.states[i - 1], run.steps[i - 1]);
      }
    }
  }

  lemma StillUnchecked(s: State, step: Step)
    requires !s.checking && Next(s, step).Some? && !step.UeventChecksRunning?
    ensures !Next(s, step).value.checking
  {
    match step {
      case WorkerRuns(w, outcome) => WorkerShape(s, w, outcome);
      case _ =>
    }
  }
}
