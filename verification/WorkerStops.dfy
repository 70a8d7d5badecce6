/** Which read of the eventfd stops which poll worker, in runs of the protocol (Usb.cpp:1768-1779 with the
    writes at Usb.cpp:1275, 1863 and 1885). */
module WorkerStops {
  import opened Wrappers
  import opened EventFd
  import opened WorkerProtocol

  /** The code that a step writes to the eventfd. */
  function Codes(s: State, step: Step): seq<Code> {
    match step
    case Advance(_) => if s.section.SetupClearEvent? then [ShutdownClear] else []
    case UeventPostsCheck => if s.checking then [IrqHpdCountCheck] else []
    case HelperRuns(h) => if h < |s.helpers| && s.helpers[h].Posting? then [ShutdownSet] else []
    case _ => []
  }

  /** Worker w reads the eventfd. */
  predicate Reads(s: State, step: Step, w: nat) {
    step == WorkerRuns(w, ReadEvent) && w < |s.workers| && s.workers[w].pc.Polling?
  }

  predicate IsRead(s: State, step: Step) {
    step.WorkerRuns? && Reads(s, step, step.worker)
  }

  /** The codes written since the last read, after i steps. */
  function Unread(run: Trace, i: nat): seq<Code>
    requires |run.states| == |run.steps| + 1 && i < |run.states|
  {
    if i == 0 then []
    else if IsRead(run.states[i - 1], run.steps[i - 1]) then []
    else Unread(run, i - 1) + Codes(run.states[i - 1], run.steps[i - 1])
  }

  lemma PostedOne(codes: seq<Code>, code: Code)
    ensures Posted(codes + [code]) == Post(Posted(codes), code)
  {
    assert (codes + [code])[..|codes|] == codes;
  }

  lemma WorkerEventfd(s: State, w: nat, outcome: Outcome)
    requires w < |s.workers| && NextWorker(s, w, outcome).Some?
    ensures NextWorker(s, w, outcome).value.eventfd ==
            if outcome.ReadEvent? && s.workers[w].pc.Polling? then 0 else s.eventfd
  {
  }

  lemma SectionEventfd(s: State, ok: bool)
    requires NextSection(s, ok).Some?
    ensures NextSection(s, ok).value.eventfd ==
            if s.section.SetupClearEvent? then Post(s.eventfd, ShutdownClear) else s.eventfd
  {
  }

  lemma EventfdStep(s: State, step: Step, codes: seq<Code>)
    requires s.eventfd == Posted(codes) && Next(s, step).Some?
    ensures Next(s, step).value.eventfd == if IsRead(s, step) then 0 else Posted(codes + Codes(s, step))
  {
    assert codes + [] == codes;
    match step {
      case WorkerRuns(w, outcome) => WorkerEventfd(s, w, outcome);
      case Advance(ok) =>
        SectionEventfd(s, ok);
        PostedOne(codes, ShutdownClear);
      case HelperRuns(_) => PostedOne(codes, ShutdownSet);
      case UeventPostsCheck => PostedOne(codes, IrqHpdCountCheck);
      case _ =>
    }
  }

  /** In every run the counter holds exactly what the codes since the last read add up to. */
  lemma {:induction false} EventfdIsUnread(run: Trace, i: nat)
    requires IsRun(run) && i < |run.states|
    ensures run.states[i].eventfd == Posted(Unread(run, i))
  {
    if i > 0 {
      EventfdIsUnread(run, i - 1);
      assert Next(run.states[i - 1], run.steps[i - 1]) == Some(run.states[i]);
      EventfdStep(run.states[i - 1], run.steps[i - 1], Unread(run, i - 1));
    }
  }

  /** Step i is a read that makes worker w leave. */
  predicate StopsAt(run: Trace, i: nat, w: nat)
    requires IsRun(run) && i < |run.steps|
  {
    && Reads(run.states[i], run.steps[i], w)
    && w < |run.states[i + 1].workers| && run.states[i + 1].workers[w] == Worker(LoopHead, true)
    && run.states[i + 1].destroy
  }

  lemma ReadStep(s: State, w: nat)
    requires Reads(s, WorkerRuns(w, ReadEvent), w)
    ensures NextWorker(s, w, ReadEvent).Some?
    ensures var t, stops := NextWorker(s, w, ReadEvent).value, React(s.eventfd).StopWorker?;
            |t.workers| == |s.workers| && t.destroy == (s.destroy || stops) &&
            t.workers[w] == if stops then Worker(LoopHead, true) else s.workers[w]
  {
  }

  /** In every run a read stops its worker exactly when the unread messages are one single shutdown; so a
      shutdown that is there to be read is missed exactly when another message is there with it. */
  lemma ReadStopsIff(run: Trace, i: nat, w: nat)
    requires IsRun(run) && i < |run.steps| && Reads(run.states[i], run.steps[i], w)
    ensures StopsAt(run, i, w) <==> Signals(Unread(run, i)) == [ShutdownSet]
    ensures ShutdownSet in Unread(run, i) ==> (StopsAt(run, i, w) <==> |Signals(Unread(run, i))| == 1)
  {
    EventfdIsUnread(run, i);
    assert Next(run.states[i], run.steps[i]) == Some(run.states[i + 1]);
    ReadStep(run.states[i], w);
    WorkerSees(Unread(run, i));
    SignalsAreThePosts(Unread(run, i));
    var signals := Signals(Unread(run, i));
    if ShutdownSet in Unread(run, i) && |signals| == 1 {
      assert ShutdownSet in signals && signals == [signals[0]];
    }
  }

  /** Step c creates worker w. */
  predicate Creates(run: Trace, c: nat, w: nat)
    requires IsRun(run) && c < |run.steps|
  {
    run.steps[c] == Advance(true) && run.states[c].section.SetupCreate? && |run.states[c].workers| == w
  }

  /** The codes written from step c up to step i. */
  function Between(run: Trace, c: nat, i: nat): seq<Code>
    requires |run.states| == |run.steps| + 1 && c <= i < |run.states|
  {
    if i == c then [] else Between(run, c, i - 1) + Codes(run.states[i - 1], run.steps[i - 1])
  }

  lemma {:induction false} UnreadSince(run: Trace, c: nat, i: nat)
    requires |run.states| == |run.steps| + 1 && c <= i < |run.states|
    requires forall k :: c <= k < i ==> !IsRead(run.states[k], run.steps[k])
    ensures Unread(run, i) == Unread(run, c) + Between(run, c, i)
  {
    if i > c {
      UnreadSince(run, c, i - 1);
      var written := Codes(run.states[i - 1], run.steps[i - 1]);
      assert Unread(run, i) == Unread(run, i - 1) + written;
      assert (Unread(run, c) + Between(run, c, i - 1)) + written == Unread(run, c) + (Between(run, c, i - 1) + written);
    } else {
      assert Unread(run, c) + [] == Unread(run, c);
    }
  }

  lemma NextGrows(s: State, step: Step)
    requires Next(s, step).Some?
    ensures |s.workers| <= |Next(s, step).value.workers|
  {
    match step {
      case WorkerRuns(w, outcome) => WorkerShape(s, w, outcome);
      case Advance(ok) => SectionShape(s, ok);
      case HelperRuns(h) => HelperShape(s, h);
      case _ =>
    }
  }

  lemma {:induction false} WorkersGrow(run: Trace, i: nat, j: nat)
    requires IsRun(run) && i <= j < |run.states|
    ensures |run.states[i].workers| <= |run.states[j].workers|
  {
    if i < j {
      WorkersGrow(run, i, j - 1);
      assert Next(run.states[j - 1], run.steps[j - 1]) == Some(run.states[j]);
      NextGrows(run.states[j - 1], run.steps[j - 1]);
    }
  }

  /** While a worker has not read yet, nobody else reads. */
  lemma OnlyReader(run: Trace, c: nat, r: nat, w: nat, k: nat)
    requires IsRun(run) && ResumesAfterExit(run) && c < k < r < |run.steps| && Creates(run, c, w)
    requires Reads(run.states[r], run.steps[r], w) && !Reads(run.states[k], run.steps[k], w)
    ensures !IsRead(run.states[k], run.steps[k])
  {
    assert Next(run.states[c], run.steps[c]) == Some(run.states[c + 1]);
    WorkersGrow(run, c + 1, k);
    WorkersGrow(run, k, r);
    InvThroughout(run, r);
    InvThroughout(run, k);
    assert Live(run.states[r].workers[w]);
    if IsRead(run.states[k], run.steps[k]) {
      assert Live(run.states[k].workers[run.steps[k].worker]);
    }
  }

  lemma {:induction false} SignalsAppend(a: seq<Code>, b: seq<Code>)
    ensures Signals(a + b) == Signals(a) + Signals(b)
  {
    if b == [] {
      assert a + b == a;
    } else {
      var n := |b| - 1;
      assert (a + b)[..|a| + n] == a + b[..n] && (a + b)[|a| + n] == b[n];
      SignalsAppend(a, b[..n]);
    }
  }

  /** The first read of a worker stops it exactly when one single shutdown was posted before its creation
      and is still unread then, and nothing is posted after; or when nothing was unread then and one single
      shutdown is posted after.  Only in the first case is it stopped by a shutdown older than itself. */
  lemma FirstReadStops(run: Trace, c: nat, r: nat, w: nat)
    requires IsRun(run) && ResumesAfterExit(run) && c < r < |run.steps| && Creates(run, c, w)
    requires Reads(run.states[r], run.steps[r], w)
    requires forall k :: c < k < r ==> !Reads(run.states[k], run.steps[k], w)
    ensures var left, sent := Signals(Unread(run, c)), Signals(Between(run, c, r));
            && (StopsAt(run, r, w) <==>
                (left == [ShutdownSet] && sent == []) || (left == [] && sent == [ShutdownSet]))
            && (StopsAt(run, r, w) && ShutdownSet in Unread(run, c) <==> left == [ShutdownSet] && sent == [])
  {
    forall k | c <= k < r ensures !IsRead(run.states[k], run.steps[k]) {
      if k > c {
        OnlyReader(run, c, r, w, k);
      }
    }
    UnreadSince(run, c, r);
    var left, sent := Signals(Unread(run, c)), Signals(Between(run, c, r));
    SignalsAppend(Unread(run, c), Between(run, c, r));
    ReadStopsIff(run, r, w);
    SignalsAreThePosts(Unread(run, c));
    SplitSingle(left, sent);
  }

  lemma SplitSingle(a: seq<Code>, b: seq<Code>)
    ensures a + b == [ShutdownSet] <==> (a == [ShutdownSet] && b == []) || (a == [] && b == [ShutdownSet])
    ensures a == [ShutdownSet] ==> ShutdownSet in a
  {
    if a + b == [ShutdownSet] {
      assert |a| + |b| == 1;
      assert a == (a + b)[..|a|] && b == (a + b)[|a|..];
    }
  }

  // ---- What a stopped worker does ----

  /** Worker w is on its way out. */
  predicate Finishing(s: State, w: nat) {
    w < |s.workers| &&
    match s.workers[w].pc
    case LoopHead => s.destroy
    case Leaving => true
    case Exited => true
    case _ => false
  }

  /** The steps it has left. */
  function StepsLeft(pc: WorkerPc): nat {
    match pc
    case LoopHead => 2
    case Leaving => 1
    case _ => 0
  }

  predicate RunsWorker(step: Step, w: nat) {
    step.WorkerRuns? && step.worker == w
  }

  /** A worker's own step takes it on; nobody else's sends it back, since the destroy flag is cleared only
      once no worker is live. */
  lemma StaysFinishing(s: State, step: Step, t: State, w: nat)
    requires Inv(s) && Finishing(s, w) && Next(s, step) == Some(t)
    ensures && Finishing(t, w) && !Reads(s, step, w)
            && StepsLeft(s.workers[w].pc) == StepsLeft(t.workers[w].pc) + if RunsWorker(step, w) then 1 else 0
  {
    match step {
      case WorkerRuns(v, outcome) => WorkerShape(s, v, outcome);
      case HelperRuns(h) => HelperShape(s, h);
      case Advance(ok) => SectionShape(s, ok);
      case _ =>
    }
  }

  /** The steps of worker w from step i up to step k. */
  function OwnSteps(run: Trace, i: nat, k: nat, w: nat): nat
    requires i <= k <= |run.steps|
  {
    if i == k then 0 else OwnSteps(run, i, k - 1, w) + if RunsWorker(run.steps[k - 1], w) then 1 else 0
  }

  lemma {:induction false} FinishingThroughout(run: Trace, n: nat, k: nat, w: nat)
    requires IsRun(run) && ResumesAfterExit(run) && n <= k < |run.states| && Finishing(run.states[n], w)
    ensures Finishing(run.states[k], w)
    ensures StepsLeft(run.states[k].workers[w].pc) + OwnSteps(run, n, k, w) == StepsLeft(run.states[n].workers[w].pc)
  {
    if k > n {
      FinishingThroughout(run, n, k - 1, w);
      InvThroughout(run, k - 1);
      StepInRun(run, k - 1);
      StaysFinishing(run.states[k - 1], run.steps[k - 1], run.states[k], w);
    }
  }

  lemma NotReading(s: State, step: Step, w: nat)
    requires Finishing(s, w)
    ensures !Reads(s, step, w) && !s.workers[w].pc.Polling?
    ensures s.workers[w].pc.Exited? <==> StepsLeft(s.workers[w].pc) == 0
  {
  }

  /** A worker that a read has stopped never reads or polls again, in any continuation, and has exited
      exactly when it has taken two more steps of its own. */
  lemma StoppedWorkerExits(run: Trace, i: nat, w: nat)
    requires IsRun(run) && ResumesAfterExit(run) && i < |run.steps| && StopsAt(run, i, w)
    ensures forall k :: i < k < |run.steps| ==> !Reads(run.states[k], run.steps[k], w)
    ensures forall k :: i < k < |run.states| ==>
              && w < |run.states[k].workers| && !run.states[k].workers[w].pc.Polling?
              && OwnSteps(run, i + 1, k, w) <= 2
              && (run.states[k].workers[w].pc.Exited? <==> OwnSteps(run, i + 1, k, w) == 2)
  {
    assert Finishing(run.states[i + 1], w) && StepsLeft(run.states[i + 1].workers[w].pc) == 2;
    forall k | i < k < |run.states|
      ensures Finishing(run.states[k], w) && StepsLeft(run.states[k].workers[w].pc) + OwnSteps(run, i + 1, k, w) == 2
      ensures !run.states[k].workers[w].pc.Polling?
      ensures run.states[k].workers[w].pc.Exited? <==> OwnSteps(run, i + 1, k, w) == 2
      ensures k < |run.steps| ==> !Reads(run.states[k], run.steps[k], w)
    {
      FinishingThroughout(run, i + 1, k, w);
      NotReading(run.states[k], WorkerRuns(w, ReadEvent), w);
    }
  }

  /** In every state a worker polls next exactly if it is at its loop head and the destroy flag is down, and
      leaves next exactly if it is there and the flag is up, or its setup or its wait has failed; and a
      worker that is not told to stop returns to its loop head after each wakeup. */
  lemma WorkerTurns(s: State, w: nat, outcome: Outcome)
    requires w < |s.workers| && Live(s.workers[w])
    ensures NextWorker(s, w, outcome).Some?
    ensures var from, to := s.workers[w].pc, NextWorker(s, w, outcome).value.workers[w].pc;
            && (to.Polling? && !from.Polling? <==> from.LoopHead? && !s.destroy)
            && (to.Leaving? <==> (from.LoopHead? && s.destroy) || (outcome.Fail? && (from.Opening? || from.Polling?)))
            && (from.Polling? && outcome.Proceed? ==> to.LoopHead?)
            && (from.Opening? && !outcome.Fail? ==> to.LoopHead?)
  {
  }
}
