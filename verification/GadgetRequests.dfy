/** setCurrentUsbFunctions as a step on the state of the gadget, and runs of requests beside the FunctionFS
    monitor (UsbGadget.cpp:121-149, 174-185, 407-591). */
module GadgetRequests {
  import opened Wrappers
  import opened GadgetIds
  import opened GadgetLinks

  datatype Status = Success | Error | ConfigurationNotSupported

  /** The fields of `struct UsbGadget` with the configfs gadget behind them: the links, the ids, whether it
      is pulled up, and whether the monitor runs. */
  datatype Gadget = Gadget(
    functions: Mask,
    applied: bool,
    links: seq<Link>,
    ids: Option<Ids>,
    pulledUp: bool,
    monitoring: bool
  )

  datatype Request = Request(functions: Mask, hasCallback: bool, transaction: int)

  /** What a failed resetGadget leaves of the links and the pull-up. */
  datatype Teardown = TornDown | TeardownFailed(links: seq<Link>, pulledUp: bool)

  /** How setVidPid ends; a failure may leave any ids. */
  datatype SetIds = IdsSet | IdsFailed(status: Status, left: Option<Ids>)

  /** What the system does while a request is served: teardown, properties, setVidPid, linking, the write
      that pulls the gadget up, the wait for the monitor to do so, and whether the callback accepts the
      answer that setupFunctions delivers. */
  datatype Io = Io(
    teardown: Teardown,
    vendor: Vendor,
    uvcEnabled: bool,
    setIds: SetIds,
    helpers: Helpers,
    pullUpOk: bool,
    waitOk: bool,
    accepts: bool
  )

  /** A setCurrentUsbFunctionsCb call. */
  datatype Answer = Answer(functions: Mask, status: Status, transaction: int)

  function AnswerTo(request: Request, status: Status): seq<Answer> {
    if request.hasCallback then [Answer(request.functions, status, request.transaction)] else []
  }

  /** tearDownGadget; a success unlinks everything, pulls down and stops the monitor. */
  function TearDown(g: Gadget, teardown: Teardown): Gadget {
    match teardown
    case TornDown => g.(links := [], pulledUp := false, monitoring := false)
    case TeardownFailed(links, pulledUp) => g.(links := links, pulledUp := pulledUp)
  }

  datatype Validated = Validated(ids: Option<Ids>, status: Status)

  /** validateAndSetVidPid. */
  function Validate(ids: Option<Ids>, functions: Mask, io: Io): Validated {
    var wanted := IdsFor(functions, io.vendor, io.uvcEnabled);
    if wanted.None? then Validated(ids, ConfigurationNotSupported)
    else match io.setIds
      case IdsSet => Validated(wanted, Success)
      case IdsFailed(status, left) => Validated(left, status)
  }

  datatype Served = Served(gadget: Gadget, answers: seq<Answer>, status: Status)

  predicate NeedsFfs(functions: Mask, io: Io) {
    io.helpers.genericFfs || Has(functions, ADB)
  }

  /** What setupFunctions does once everything is linked. */
  function PullUp(g: Gadget, request: Request, io: Io): Served {
    if !NeedsFfs(request.functions, io) then
      if io.pullUpOk then Served(g.(pulledUp := true, applied := true), AnswerTo(request, Success), Success)
      else Served(g, [], Error)
    else if !request.hasCallback then Served(g.(monitoring := true), [], Success)
    else if io.waitOk then
      Served(g.(monitoring := true, pulledUp := true, applied := true), AnswerTo(request, Success),
             if io.accepts then Success else Error)
    else Served(g.(monitoring := true), AnswerTo(request, Error), if io.accepts then Success else Error)
  }

  /** setupFunctions. */
  function SetUp(g: Gadget, request: Request, io: Io): Served {
    var linked := LinkFunctions(g.links, request.functions, io.vendor, io.helpers);
    if linked.ok then PullUp(g.(links := linked.links), request, io)
    else Served(g.(links := linked.links), [], Error)
  }

  /** The error label of setCurrentUsbFunctions. */
  function FailWith(served: Served, request: Request): Served {
    if served.status.Success? then served
    else served.(answers := served.answers + AnswerTo(request, served.status))
  }

  /** A request replaces the functions and the applied flag whatever they were. */
  function Begun(g: Gadget, request: Request): Gadget {
    g.(functions := request.functions, applied := false)
  }

  /** setCurrentUsbFunctions from the teardown up to the error label. */
  function Attempt(begun: Gadget, request: Request, io: Io): Served {
    var torn := TearDown(begun, io.teardown);
    if !io.teardown.TornDown? then Served(torn, [], Error)
    else if request.functions == NONE then Served(torn, AnswerTo(request, Success), Success)
    else
      var validated := Validate(torn.ids, request.functions, io);
      var named := torn.(ids := validated.ids);
      if validated.status.Success? then SetUp(named, request, io) else Served(named, [], validated.status)
  }

  /** setCurrentUsbFunctions; the status is Success where the source goes on to the IRQ and the current
      limits, or has answered NONE. */
  function Serve(g: Gadget, request: Request, io: Io): Served {
    FailWith(Attempt(Begun(g, request), request, io), request)
  }

  // ---- One answer per request ----

  /** setVidPid fails with a status other than Success. */
  predicate Sensible(io: Io) {
    io.setIds.IdsFailed? ==> !io.setIds.status.Success?
  }

  /** The request gets to the wait for the FunctionFS monitor. */
  predicate ReachesWait(request: Request, io: Io) {
    && io.teardown.TornDown? && request.functions != NONE && request.hasCallback
    && IdsFor(request.functions, io.vendor, io.uvcEnabled).Some? && io.setIds.IdsSet?
    && LinkFunctions([], request.functions, io.vendor, io.helpers).ok
    && NeedsFfs(request.functions, io)
  }

  /** A request with a callback gets exactly one answer, with its functions and transaction, unless the
      callback rejects the answer given after the wait: then exactly a second one that says Error.  A
      request without a callback gets none. */
  lemma OneAnswer(g: Gadget, request: Request, io: Io)
    requires Sensible(io)
    ensures var answers := Serve(g, request, io).answers;
            && (request.hasCallback ==>
                  |answers| == if ReachesWait(request, io) && !io.accepts then 2 else 1)
            && (!request.hasCallback ==> answers == [])
            && (forall answer :: answer in answers ==>
                  answer.functions == request.functions && answer.transaction == request.transaction)
            && (|answers| == 2 ==> answers[1].status == Error)
  {
  }

  /** Everything that must go well for a request to be answered with Success. */
  predicate GoesWell(request: Request, io: Io) {
    && io.teardown.TornDown?
    && (request.functions == NONE ||
        (&& IdsFor(request.functions, io.vendor, io.uvcEnabled).Some? && io.setIds.IdsSet?
         && LinkFunctions([], request.functions, io.vendor, io.helpers).ok
         && if NeedsFfs(request.functions, io) then io.waitOk else io.pullUpOk))
  }

  /** Success is answered exactly when the teardown succeeded and there is nothing to set up, or all of it
      was linked under its ids and the gadget is known to be pulled up. */
  lemma SuccessMeansPulledUp(g: Gadget, request: Request, io: Io)
    requires Sensible(io) && request.hasCallback
    ensures var served := Serve(g, request, io);
            var succeeded := exists answer :: answer in served.answers && answer.status.Success?;
            && (succeeded <==> GoesWell(request, io))
            && (succeeded && request.functions != NONE ==> served.gadget.pulledUp && served.gadget.applied)
  {
    var served := Serve(g, request, io);
    assert served.answers != [] ==> served.answers[0] in served.answers;
  }

  /** The request is torn down for, supported, named and completely linked. */
  predicate IsLinked(request: Request, io: Io) {
    && io.teardown.TornDown? && request.functions != NONE
    && IdsFor(request.functions, io.vendor, io.uvcEnabled).Some? && io.setIds.IdsSet?
    && LinkFunctions([], request.functions, io.vendor, io.helpers).ok
  }

  /** What a request leaves behind, with or without a callback: the monitor runs exactly for linked functions
      that need FunctionFS, or if the teardown failed under one that ran; the gadget is pulled up exactly
      when a linked request without FunctionFS could write the node or one with it saw the monitor do it, or
      as a failed teardown left it; and it counts as applied exactly in those cases of success. */
  lemma ServeLeaves(g: Gadget, request: Request, io: Io)
    requires Sensible(io)
    ensures var after := Serve(g, request, io).gadget;
            var ffs := io.helpers.genericFfs || Has(request.functions, ADB);
            && after.functions == request.functions
            && (after.monitoring <==> if io.teardown.TornDown? then IsLinked(request, io) && ffs else g.monitoring)
            && (after.applied <==>
                IsLinked(request, io) && if ffs then request.hasCallback && io.waitOk else io.pullUpOk)
            && (after.pulledUp <==> if io.teardown.TornDown? then after.applied else io.teardown.pulledUp)
  {
    if IsLinked(request, io) {
      LinkedServe(g, request, io);
      PullUpLeaves(TearDown(Begun(g, request), io.teardown).(ids := IdsFor(request.functions, io.vendor, io.uvcEnabled)), request, io);
    } else {
      UnlinkedLeaves(g, request, io);
    }
  }

  lemma LinkedServe(g: Gadget, request: Request, io: Io)
    requires IsLinked(request, io)
    ensures var ids := IdsFor(request.functions, io.vendor, io.uvcEnabled);
            Serve(g, request, io).gadget == SetUp(TearDown(Begun(g, request), io.teardown).(ids := ids), request, io).gadget
  {
  }

  lemma UnlinkedLeaves(g: Gadget, request: Request, io: Io)
    requires Sensible(io) && !IsLinked(request, io)
    ensures var after := Serve(g, request, io).gadget;
            && after.functions == request.functions && !after.applied
            && (after.monitoring <==> !io.teardown.TornDown? && g.monitoring)
            && (after.pulledUp <==> !io.teardown.TornDown? && io.teardown.pulledUp)
  {
  }

  lemma PullUpLeaves(g: Gadget, request: Request, io: Io)
    requires !g.applied && !g.pulledUp && !g.monitoring
    requires LinkFunctions(g.links, request.functions, io.vendor, io.helpers).ok
    ensures var after := SetUp(g, request, io).gadget;
            var ffs := io.helpers.genericFfs || Has(request.functions, ADB);
            && after.functions == g.functions
            && (after.monitoring <==> ffs)
            && (after.applied <==> if ffs then request.hasCallback && io.waitOk else io.pullUpOk)
            && after.pulledUp == after.applied
  {
  }

  /** Links and ids after a request: those a failed teardown leaves; else none, until there are ids. */
  lemma ServeLinks(g: Gadget, request: Request, io: Io)
    requires Sensible(io)
    ensures var after := Serve(g, request, io).gadget;
            var ids := IdsFor(request.functions, io.vendor, io.uvcEnabled);
            var named := io.teardown.TornDown? && request.functions != NONE && ids.Some?;
            && after.links == (if !io.teardown.TornDown? then io.teardown.links
                               else if named && io.setIds.IdsSet? then
                                 LinkFunctions([], request.functions, io.vendor, io.helpers).links
                               else [])
            && after.ids == (if !named then g.ids else if io.setIds.IdsSet? then ids else io.setIds.left)
  {
  }

  /** After a teardown that succeeded, what a request brings about does not depend on anything before it,
      but for ids that it does not set. */
  lemma ServeForgets(g: Gadget, h: Gadget, request: Request, io: Io)
    requires io.teardown.TornDown?
    ensures var a, b := Serve(g, request, io), Serve(h, request, io);
            && a.answers == b.answers && a.status == b.status
            && a.gadget == b.gadget.(ids := a.gadget.ids)
            && (request.functions != NONE && IdsFor(request.functions, io.vendor, io.uvcEnabled).Some? ==> a.gadget == b.gadget)
  {
    var one := TearDown(Begun(g, request), io.teardown);
    var other := TearDown(Begun(h, request), io.teardown);
    assert one == other.(ids := g.ids);
  }

  /** A request is refused as unsupported exactly when there are no ids for its functions, and then leaves
      the gadget empty, pulled down and with its old ids. */
  lemma RefusedIsUnsupported(g: Gadget, request: Request, io: Io)
    requires io.setIds.IdsFailed? ==> io.setIds.status.Error?
    ensures var served := Serve(g, request, io);
            && (served.status.ConfigurationNotSupported? <==>
                io.teardown.TornDown? && request.functions != NONE &&
                IdsFor(request.functions, io.vendor, io.uvcEnabled).None?)
            && (served.status.ConfigurationNotSupported? ==>
                  served.gadget == Gadget(request.functions, false, [], g.ids, false, false) &&
                  served.answers == AnswerTo(request, ConfigurationNotSupported))
  {
  }

  // ---- Runs ----

  /** A request served, or the monitor pulling the gadget up or down and reporting it. */
  datatype Step = Asked(request: Request, io: Io) | Monitored(up: bool)

  /** The generic functions that addGenericAndroidFunctions links for a mask, in order. */
  type Linking = Mask -> seq<Name>

  ghost predicate Lawful(of: Linking) {
    forall functions :: Generics(of(functions))
  }

  /** It has linked all of them, or it failed on the way. */
  predicate LinksOf(functions: Mask, helpers: Helpers, of: Linking) {
    helpers.generic <= of(functions) && (helpers.genericOk ==> helpers.generic == of(functions))
  }

  predicate Possible(g: Gadget, step: Step, of: Linking) {
    match step
    case Asked(request, io) => Sensible(io) && LinksOf(request.functions, io.helpers, of)
    case Monitored(_) => g.monitoring
  }

  function Next(g: Gadget, step: Step): Gadget {
    match step
    case Asked(request, io) => Serve(g, request, io).gadget
    case Monitored(up) => g.(applied := up, pulledUp := up)
  }

  /** The state after a run. */
  function After(g: Gadget, steps: seq<Step>): Gadget {
    if steps == [] then g else Next(After(g, steps[..|steps| - 1]), steps[|steps| - 1])
  }

  ghost predicate IsRun(g: Gadget, steps: seq<Step>, of: Linking) {
    forall i :: 0 <= i < |steps| ==> Possible(After(g, steps[..i]), steps[i], of)
  }

  function AnswersOf(g: Gadget, step: Step): seq<Answer> {
    match step
    case Asked(request, io) => Serve(g, request, io).answers
    case Monitored(_) => []
  }

  /** The transactions answered in a run, in order, each as often as it was answered. */
  function Answered(g: Gadget, steps: seq<Step>): seq<int> {
    if steps == [] then []
    else
      var before := steps[..|steps| - 1];
      Answered(g, before) + Transactions(AnswersOf(After(g, before), steps[|steps| - 1]))
  }

  function Transactions(answers: seq<Answer>): seq<int> {
    seq(|answers|, i requires 0 <= i < |answers| => answers[i].transaction)
  }

  /** The transactions that requests with a callback came with. */
  function Asking(steps: seq<Step>): seq<int> {
    if steps == [] then []
    else Asking(steps[..|steps| - 1]) + AskedBy(steps[|steps| - 1])
  }

  function AskedBy(step: Step): seq<int> {
    if step.Asked? && step.request.hasCallback then [step.request.transaction] else []
  }

  lemma StepAnswers(g: Gadget, step: Step, of: Linking)
    requires Possible(g, step, of)
    requires step.Asked? && ReachesWait(step.request, step.io) ==> step.io.accepts
    ensures Transactions(AnswersOf(g, step)) == AskedBy(step)
  {
    if step.Asked? {
      OneAnswer(g, step.request, step.io);
      var answers := AnswersOf(g, step);
      assert answers != [] ==> answers[0] in answers;
    }
  }

  /** While callbacks accept their answers, each transaction is answered once and in turn, whatever fails. */
  lemma {:induction false} RunAnswersEachOnce(g: Gadget, steps: seq<Step>, of: Linking)
    requires IsRun(g, steps, of)
    requires forall i :: 0 <= i < |steps| && steps[i].Asked? && ReachesWait(steps[i].request, steps[i].io) ==>
               steps[i].io.accepts
    ensures Answered(g, steps) == Asking(steps)
  {
    if steps != [] {
      var n := |steps| - 1;
      var before, last := steps[..n], steps[n];
      assert forall i :: 0 <= i < n ==> before[..i] == steps[..i];
      RunAnswersEachOnce(g, before, of);
      StepAnswers(After(g, before), last, of);
    }
  }

  // ---- What the applied flag says ----

  /** The gadget is linked, in contiguous slots, and named for these functions: with the generic functions
      of the mask and the rest of the plan, all of them and nothing else. */
  ghost predicate SetFor(g: Gadget, functions: Mask, of: Linking) {
    exists vendor, uvcEnabled :: IsSetUp(g, functions, vendor, uvcEnabled, of)
  }

  predicate IsSetUp(g: Gadget, functions: Mask, vendor: Vendor, uvcEnabled: bool, of: Linking) {
    && Contiguous(g.links) && Names(g.links) == of(functions) + Plan(functions, vendor)
    && g.ids.Some? && g.ids == IdsFor(functions, vendor, uvcEnabled)
  }

  /** What getCurrentUsbFunctions may say: functions it reports as applied are the ones that are linked and
      pulled up, and a running monitor can only pull those up. */
  ghost predicate AppliedIsReal(g: Gadget, of: Linking) {
    && (g.applied ==> g.pulledUp)
    && (g.applied || g.monitoring ==> SetFor(g, g.functions, of))
  }

  /** Setup changes the links, and sets a flag only if it has made all of them. */
  lemma SetUpFlags(g: Gadget, request: Request, io: Io)
    requires !g.applied && !g.monitoring
    ensures var linked := LinkFunctions(g.links, request.functions, io.vendor, io.helpers);
            var after := SetUp(g, request, io).gadget;
            && after.links == linked.links && after.ids == g.ids && after.functions == g.functions
            && (after.applied ==> after.pulledUp)
            && (after.applied || after.monitoring ==> linked.ok)
  {
  }

  lemma SetUpSets(g: Gadget, request: Request, io: Io, of: Linking)
    requires g.links == [] && !g.applied && !g.monitoring && g.functions == request.functions
    requires LinksOf(request.functions, io.helpers, of)
    requires g.ids.Some? && g.ids == IdsFor(request.functions, io.vendor, io.uvcEnabled)
    ensures AppliedIsReal(SetUp(g, request, io).gadget, of)
  {
    var after := SetUp(g, request, io).gadget;
    SetUpFlags(g, request, io);
    SlotsAreContiguous(request.functions, io.vendor, io.helpers);
    if LinkFunctions([], request.functions, io.vendor, io.helpers).ok {
      assert IsSetUp(after, request.functions, io.vendor, io.uvcEnabled, of);
    }
  }

  /** The only step that can break it: a teardown that fails while the monitor runs leaves the monitor of
      the last request with the functions of this one. */
  predicate LeavesMonitor(g: Gadget, step: Step) {
    step.Asked? && g.monitoring && step.io.teardown.TeardownFailed?
  }

  /** The gadget with the links that a failed teardown leaves. */
  function Leftover(g: Gadget, teardown: Teardown): Gadget
    requires teardown.TeardownFailed?
  {
    g.(links := teardown.links)
  }

  /** Such a step misleads when what it leaves is not set up for the functions that are now asked for. */
  ghost predicate Misleads(g: Gadget, step: Step, of: Linking) {
    LeavesMonitor(g, step) && !SetFor(Leftover(g, step.io.teardown), step.request.functions, of)
  }

  lemma ServeKeepsReal(g: Gadget, request: Request, io: Io, of: Linking)
    requires Sensible(io) && LinksOf(request.functions, io.helpers, of) && !(g.monitoring && io.teardown.TeardownFailed?)
    ensures AppliedIsReal(Serve(g, request, io).gadget, of)
  {
    var torn := TearDown(Begun(g, request), io.teardown);
    if io.teardown.TornDown? && request.functions != NONE {
      var validated := Validate(torn.ids, request.functions, io);
      if validated.status.Success? {
        SetUpSets(torn.(ids := validated.ids), request, io, of);
      }
    }
  }

  /** Only links and ids matter for what a gadget is set up for. */
  lemma SetForCongruent(g: Gadget, h: Gadget, functions: Mask, of: Linking)
    requires g.links == h.links && g.ids == h.ids
    ensures SetFor(g, functions, of) <==> SetFor(h, functions, of)
  {
    if vendor, uvcEnabled :| IsSetUp(g, functions, vendor, uvcEnabled, of) {
      assert IsSetUp(h, functions, vendor, uvcEnabled, of);
    }
    if vendor, uvcEnabled :| IsSetUp(h, functions, vendor, uvcEnabled, of) {
      assert IsSetUp(g, functions, vendor, uvcEnabled, of);
    }
  }

  /** A step keeps the applied flag real if and only if it does not mislead. */
  lemma NextIsReal(g: Gadget, step: Step, of: Linking)
    requires AppliedIsReal(g, of) && Possible(g, step, of)
    ensures AppliedIsReal(Next(g, step), of) <==> !Misleads(g, step, of)
  {
    match step {
      case Asked(request, io) =>
        if LeavesMonitor(g, step) {
          SetForCongruent(Next(g, step), Leftover(g, io.teardown), request.functions, of);
        } else {
          ServeKeepsReal(g, request, io, of);
        }
      case Monitored(up) => SetForCongruent(g, Next(g, step), g.functions, of);
    }
  }

  ghost predicate RealThroughout(g: Gadget, steps: seq<Step>, of: Linking) {
    forall i :: 0 <= i <= |steps| ==> AppliedIsReal(After(g, steps[..i]), of)
  }

  ghost predicate NeverMisleads(g: Gadget, steps: seq<Step>, of: Linking) {
    forall i :: 0 <= i < |steps| ==> !Misleads(After(g, steps[..i]), steps[i], of)
  }

  /** A run tells the truth about the applied functions throughout if and only if none of its steps
      misleads; in particular if no teardown fails while the monitor runs. */
  lemma {:induction false} RunIsReal(g: Gadget, steps: seq<Step>, of: Linking)
    requires AppliedIsReal(g, of) && IsRun(g, steps, of)
    ensures RealThroughout(g, steps, of) <==> NeverMisleads(g, steps, of)
  {
    if steps == [] {
      assert steps[..0] == [];
    } else {
      var n := |steps| - 1;
      assert forall i :: 0 <= i < n ==> steps[..n][..i] == steps[..i];
      RunIsReal(g, steps[..n], of);
      LastGadget(g, steps, of);
      LastMisleads(g, steps, of);
      if RealThroughout(g, steps[..n], of) {
        assert steps[..n][..n] == steps[..n];
        NextIsReal(After(g, steps[..n]), steps[n], of);
      }
    }
  }

  lemma {:induction false} LastGadget(g: Gadget, steps: seq<Step>, of: Linking)
    requires steps != []
    ensures RealThroughout(g, steps, of) <==>
            RealThroughout(g, steps[..|steps| - 1], of) && AppliedIsReal(After(g, steps), of)
  {
    var n := |steps| - 1;
    assert forall i :: 0 <= i <= n ==> steps[..n][..i] == steps[..i];
    assert steps[..n + 1] == steps;
  }

  lemma {:induction false} LastMisleads(g: Gadget, steps: seq<Step>, of: Linking)
    requires steps != []
    ensures var n := |steps| - 1;
            NeverMisleads(g, steps, of) <==> NeverMisleads(g, steps[..n], of) && !Misleads(After(g, steps[..n]), steps[n], of)
  {
    var n := |steps| - 1;
    assert forall i :: 0 <= i <= n ==> steps[..n][..i] == steps[..i];
  }

  /** A gadget is set up for at most one mask: its links and ids determine the functions, under every
      vendor property. */
  lemma SetForOne(g: Gadget, a: Mask, b: Mask, of: Linking)
    requires Lawful(of) && SetFor(g, a, of) && SetFor(g, b, of)
    ensures a == b
  {
    var vendor, uvcEnabled :| IsSetUp(g, a, vendor, uvcEnabled, of);
    var vendor', uvcEnabled' :| IsSetUp(g, b, vendor', uvcEnabled', of);
    PlanIsNotGeneric(a, vendor);
    PlanIsNotGeneric(b, vendor');
    GenericsEnd(of(a), Plan(a, vendor), of(b), Plan(b, vendor'));
    LinksAndIdsTell(a, vendor, uvcEnabled, b, vendor', uvcEnabled');
  }

  /** A teardown that fails under the monitor before it has unlinked anything misleads exactly when other
      functions are asked for than before. */
  lemma UntouchedMisleads(g: Gadget, request: Request, io: Io, of: Linking)
    requires Lawful(of) && AppliedIsReal(g, of) && g.monitoring
    requires io.teardown.TeardownFailed? && io.teardown.links == g.links
    ensures Misleads(g, Asked(request, io), of) <==> request.functions != g.functions
  {
    SetForCongruent(g, Leftover(g, io.teardown), g.functions, of);
    if SetFor(Leftover(g, io.teardown), request.functions, of) {
      SetForOne(Leftover(g, io.teardown), request.functions, g.functions, of);
    }
  }

  /** Every teardown that fails under the monitor has unlinked nothing. */
  ghost predicate Untouched(g: Gadget, steps: seq<Step>) {
    forall i :: 0 <= i < |steps| && LeavesMonitor(After(g, steps[..i]), steps[i]) ==>
      steps[i].io.teardown.links == After(g, steps[..i]).links
  }

  /** Such a request asks for the functions that were asked for before. */
  predicate AsksAgain(g: Gadget, step: Step) {
    LeavesMonitor(g, step) ==> step.request.functions == g.functions
  }

  ghost predicate AsksTheSame(g: Gadget, steps: seq<Step>) {
    forall i :: 0 <= i < |steps| ==> AsksAgain(After(g, steps[..i]), steps[i])
  }

  lemma {:induction false} LastAsks(g: Gadget, steps: seq<Step>)
    requires steps != []
    ensures var n := |steps| - 1;
            AsksTheSame(g, steps) <==> AsksTheSame(g, steps[..n]) && AsksAgain(After(g, steps[..n]), steps[n])
  {
    var n := |steps| - 1;
    var before := steps[..n];
    forall i | 0 <= i < n
      ensures AsksAgain(After(g, before[..i]), before[i]) <==> AsksAgain(After(g, steps[..i]), steps[i])
    {
      assert before[..i] == steps[..i];
    }
  }

  lemma {:induction false} LastUntouched(g: Gadget, steps: seq<Step>)
    requires steps != [] && Untouched(g, steps)
    ensures Untouched(g, steps[..|steps| - 1])
  {
    var n := |steps| - 1;
    assert forall i :: 0 <= i < n ==> steps[..n][..i] == steps[..i] && steps[..n][i] == steps[i];
  }

  /** So where failed teardowns leave the links alone, a run is truthful throughout if and only if each
      request whose teardown fails under the monitor asks for the functions that are already there. */
  lemma {:induction false} UntouchedRunIsReal(g: Gadget, steps: seq<Step>, of: Linking)
    requires Lawful(of) && AppliedIsReal(g, of) && IsRun(g, steps, of) && Untouched(g, steps)
    ensures RealThroughout(g, steps, of) <==> AsksTheSame(g, steps)
  {
    if steps == [] {
      assert steps[..0] == [];
    } else {
      var n := |steps| - 1;
      assert forall i :: 0 <= i < n ==> steps[..n][..i] == steps[..i];
      LastAsks(g, steps);
      LastUntouched(g, steps);
      UntouchedRunIsReal(g, steps[..n], of);
      LastGadget(g, steps, of);
      var last := After(g, steps[..n]);
      if RealThroughout(g, steps[..n], of) {
        assert steps[..n][..n] == steps[..n];
        NextIsReal(last, steps[n], of);
        if LeavesMonitor(last, steps[n]) {
          UntouchedMisleads(last, steps[n].request, steps[n].io, of);
        }
      }
    }
  }

  /** After a step that misleads, a report of the monitor makes functions count as applied that the gadget
      is not set up for. */
  lemma StaleMonitorMisreports(g: Gadget, step: Step, of: Linking)
    requires Misleads(g, step, of)
    ensures var served := Next(g, step);
            && Possible(served, Monitored(true), of)
            && var after := Next(served, Monitored(true));
               after.applied && after.functions == step.request.functions && !SetFor(after, after.functions, of)
  {
    SetForCongruent(Next(Next(g, step), Monitored(true)), Leftover(g, step.io.teardown), step.request.functions, of);
  }
}
