/** How often a poll worker is joined by shutdown helpers (Usb.cpp:1881-1924). */
module WorkerJoins {
  import opened Wrappers
  import opened WorkerProtocol

  predicate HasJoined(helper: Helper) {
    helper.Overriding? || helper.Signalling? || helper.Finished?
  }

  /** No two helpers are for one worker, whether they wait in pthread_join or are past it. */
  predicate TargetsDiffer(s: State) {
    forall h, k :: 0 <= h < k < |s.helpers| && Target(s.helpers[h]).Some? ==>
      Target(s.helpers[h]) != Target(s.helpers[k])
  }

  /** No thread has been joined by two helpers. */
  predicate JoinedOnce(s: State) {
    forall h, k :: 0 <= h < k < |s.helpers| && HasJoined(s.helpers[h]) && HasJoined(s.helpers[k]) ==>
      Target(s.helpers[h]) != Target(s.helpers[k])
  }

  /** A helper is created only while no earlier one is for the newest worker. */
  predicate OneHelperAWorker(run: Trace)
    requires IsRun(run)
  {
    forall i :: 0 <= i < |run.steps| && AddsHelper(run.states[i], run.steps[i]) ==> NoneServes(run.states[i])
  }

  predicate NoneServes(s: State) {
    forall h :: 0 <= h < |s.helpers| ==> !Serves(|s.workers|, s.helpers[h])
  }

  /** The helper has looked up the newest worker, or will do so unless another is created first. */
  predicate Serves(workers: nat, helper: Helper) {
    Target(helper).None? || Target(helper).value == workers - 1
  }

  /** Targets are distinct, and at most one helper has not looked up its target, which nobody else has. */
  predicate JoinInv(s: State) {
    && Grounded(s)
    && (forall h, k :: 0 <= h < k < |s.helpers| ==> Compatible(|s.workers|, s.helpers[h], s.helpers[k]))
  }

  predicate Compatible(workers: nat, a: Helper, b: Helper) {
    match (Target(a), Target(b))
    case (None, None) => false
    case (None, Some(w)) => w != workers - 1
    case (Some(w), None) => w != workers - 1
    case (Some(v), Some(w)) => v != w
  }

  lemma FollowerIsCompatible(workers: nat, a: Helper, next: Helper, other: Helper)
    requires Compatible(workers, a, other) || Compatible(workers, other, a)
    requires Target(next) == Target(a) || (Target(a).None? && Target(next) == Some(workers - 1) && workers > 0)
    ensures Compatible(workers, next, other) && Compatible(workers, other, next)
  {
  }

  lemma HelperKeepsJoinInv(s: State, h: nat)
    requires JoinInv(s) && h < |s.helpers| && NextHelper(s, h).Some?
    ensures JoinInv(NextHelper(s, h).value)
  {
    var t := NextHelper(s, h).value;
    HelperShape(s, h);
    NextIsGrounded(s, HelperRuns(h));
    forall j, k | 0 <= j < k < |s.helpers| ensures Compatible(|t.workers|, t.helpers[j], t.helpers[k]) {
      assert Compatible(|s.workers|, s.helpers[j], s.helpers[k]);
      if j == h {
        FollowerIsCompatible(|s.workers|, s.helpers[h], t.helpers[h], s.helpers[k]);
      } else if k == h {
        FollowerIsCompatible(|s.workers|, s.helpers[h], t.helpers[h], s.helpers[j]);
      }
    }
  }

  /** Every other step leaves the helpers alone or adds one, and leaves the number of workers or adds one. */
  lemma OthersAdd(s: State, step: Step)
    requires Next(s, step).Some? && !step.HelperRuns?
    ensures var t := Next(s, step).value;
            && t.helpers == (if AddsHelper(s, step) then s.helpers + [Posting] else s.helpers)
            && (|t.workers| == |s.workers| || (|t.workers| == |s.workers| + 1 && t.helpers == s.helpers))
  {
    match step {
      case WorkerRuns(w, outcome) => WorkerShape(s, w, outcome);
      case Advance(ok) => SectionShape(s, ok);
      case _ =>
    }
  }

  lemma OthersKeepJoinInv(s: State, step: Step)
    requires JoinInv(s) && Next(s, step).Some? && !step.HelperRuns?
    requires AddsHelper(s, step) ==> NoneServes(s)
    ensures JoinInv(Next(s, step).value)
  {
    var t := Next(s, step).value;
    OthersAdd(s, step);
    NextIsGrounded(s, step);
    forall h, k | 0 <= h < k < |t.helpers| ensures Compatible(|t.workers|, t.helpers[h], t.helpers[k]) {
      assert TargetExists(|s.workers|, s.helpers[h]) && t.helpers[h] == s.helpers[h];
      if k < |s.helpers| {
        assert TargetExists(|s.workers|, s.helpers[k]) && Compatible(|s.workers|, s.helpers[h], s.helpers[k]);
      } else {
        assert !Serves(|s.workers|, s.helpers[h]);
      }
    }
  }

  lemma {:induction false} JoinInvThroughout(run: Trace, i: nat)
    requires IsRun(run) && OneHelperAWorker(run) && i < |run.states|
    ensures JoinInv(run.states[i])
  {
    if i > 0 {
      JoinInvThroughout(run, i - 1);
      var s, step := run.states[i - 1], run.steps[i - 1];
      assert Next(s, step) == Some(run.states[i]);
      if step.HelperRuns? {
        HelperKeepsJoinInv(s, step.helper);
      } else {
        OthersKeepJoinInv(s, step);
      }
    }
  }

  /** In every run that creates a helper only while none is for the newest worker, each worker has at most
      one helper that joins it, before, during and after the join. */
  lemma EachJoinedOnce(run: Trace)
    requires IsRun(run) && OneHelperAWorker(run)
    ensures forall i :: 0 <= i < |run.states| ==> TargetsDiffer(run.states[i]) && JoinedOnce(run.states[i])
  {
    forall i | 0 <= i < |run.states| ensures TargetsDiffer(run.states[i]) && JoinedOnce(run.states[i]) {
      JoinInvThroughout(run, i);
      var s := run.states[i];
      forall h, k | 0 <= h < k < |s.helpers| && Target(s.helpers[h]).Some?
        ensures Target(s.helpers[h]) != Target(s.helpers[k])
      {
        assert Compatible(|s.workers|, s.helpers[h], s.helpers[k]);
      }
    }
  }

  // ---- Joining twice ----

  /** A helper for the newest worker gets past its join, once that worker has exited. */
  lemma ThenHasJoined(run: Trace, s: State, afterExit: bool, timely: bool, h: nat) returns (longer: Trace, t: State)
    requires Built(run, s, afterExit, timely) && h < |s.helpers| && |s.workers| > 0
    requires Target(s.helpers[h]) == Some(|s.workers| - 1) && s.workers[|s.workers| - 1].pc.Exited?
    ensures Built(longer, t, afterExit, timely) && Extends(run, longer) && t.workers == s.workers
    ensures |t.helpers| == |s.helpers| && HasJoined(t.helpers[h]) && Target(t.helpers[h]) == Target(s.helpers[h])
    ensures forall k :: 0 <= k < |s.helpers| && k != h ==> t.helpers[k] == s.helpers[k]
  {
    longer, t := run, s;
    if s.helpers[h].Joining? {
      longer, t := Then(run, s, afterExit, timely, HelperRuns(h));
    }
  }

  /** A helper for the newest worker has looked it up. */
  lemma ThenTargets(run: Trace, s: State, afterExit: bool, timely: bool, h: nat) returns (longer: Trace, t: State)
    requires Built(run, s, afterExit, timely) && h < |s.helpers| && |s.workers| > 0 && Serves(|s.workers|, s.helpers[h])
    ensures Built(longer, t, afterExit, timely) && Extends(run, longer) && t.workers == s.workers
    ensures |t.helpers| == |s.helpers| && Target(t.helpers[h]) == Some(|s.workers| - 1)
    ensures forall k :: 0 <= k < |s.helpers| && k != h ==> t.helpers[k] == s.helpers[k]
  {
    longer, t := run, s;
    if Target(s.helpers[h]).None? {
      longer, t := ThenJoins(run, s, afterExit, timely, h);
    }
  }

  lemma BothThenJoin(run: Trace, s: State, afterExit: bool, timely: bool, h: nat, k: nat) returns (longer: Trace, t: State)
    requires Built(run, s, afterExit, timely) && |s.workers| > 0 && h < k < |s.helpers|
    requires Serves(|s.workers|, s.helpers[h]) && Serves(|s.workers|, s.helpers[k])
    ensures Built(longer, t, afterExit, timely) && Extends(run, longer)
    ensures !JoinedOnce(t)
  {
    longer, t := ThenTargets(run, s, afterExit, timely, h);
    longer, t := ThenTargets(longer, t, afterExit, timely, k);
    longer, t := ThenExits(longer, t, afterExit, timely);
    longer, t := ThenHasJoined(longer, t, afterExit, timely, h);
    longer, t := ThenHasJoined(longer, t, afterExit, timely, k);
  }

  /** The condition is needed in every run: once a helper is about to be created while another is for the
      newest worker, that worker may come to be joined twice. */
  lemma SecondHelperJoinsTwice(run: Trace, h: nat)
    requires IsRun(run) && AddsHelper(Last(run), Advance(true))
    requires h < |Last(run).helpers| && Serves(|Last(run).workers|, Last(run).helpers[h])
    ensures exists longer ::
              && IsRun(longer) && Extends(run, longer) && !JoinedOnce(Last(longer))
              && (ResumesAfterExit(run) ==> ResumesAfterExit(longer))
              && (NeverTimesOut(run) ==> NeverTimesOut(longer))
  {
    var s, afterExit, timely := Last(run), ResumesAfterExit(run), NeverTimesOut(run);
    GroundedThroughout(run, |run.states| - 1);
    var longer, t := Then(run, s, afterExit, timely, Advance(true));
    assert t.helpers == s.helpers + [Posting] && t.workers == s.workers;
    longer, t := BothThenJoin(longer, t, afterExit, timely, h, |s.helpers|);
  }

  /** Two change events in a row do it. */
  lemma TwoShutdownsJoinTwice()
    ensures exists run :: IsRun(run) && ResumesAfterExit(run) && !JoinedOnce(Last(run))
  {
    var run, s := OneStopping(true, true, false);
    run, s := Then(run, s, true, true, EnterShutdown);
    run, s := Then(run, s, true, true, Advance(true));
    SecondHelperJoinsTwice(run, 0);
  }
}
