/** The gadget service with its fields (UsbGadget.cpp:79-119, 174-185, 187-363, 407-591). */
module GadgetService {
  import opened Wrappers
  import opened Text
  import opened GadgetIrq
  import opened GadgetIds
  import opened GadgetLinks
  import opened GadgetRequests

  datatype Core = BigCore | MediumCore

  datatype IrqWrite = IrqWrite(path: string, core: Core)

  /** The path in use after a request: it is looked up only while it is empty. */
  function NextIrqPath(path: string, irqs: Option<string>, isUint: string -> bool): string {
    if path != "" then path
    else match IrqPath(irqs, isUint)
      case None => path
      case Some(found) => found
  }

  /** The gadget's interrupt goes to the big core for NCM and to a medium one otherwise, if it is known. */
  function IrqMoves(path: string, functions: Mask): seq<IrqWrite> {
    if path == "" then [] else [IrqWrite(path, if Has(functions, NCM) then BigCore else MediumCore)]
  }

  /** What the power nodes read as, and whether the limit itself can be written. */
  datatype PowerIo = PowerIo(usbType: Option<string>, powerMode: Option<string>, limitOk: bool)

  /** Writes to the accessory limit (1.3 A) and to the node that turns it on or off. */
  datatype LimitWrite = Limit | Enable(on: bool)

  /** An accessory is on a charging downstream port without a power contract. */
  predicate NeedsLimit(functions: Mask, power: PowerIo) {
    && Has(functions, ACCESSORY)
    && power.usbType.Some? && Trim(power.usbType.value) == "Unknown SDP [CDP] DCP"
    && power.powerMode.Some? && Trim(power.powerMode.value) in {"default", "1.5A"}
  }

  function LimitWrites(functions: Mask, power: PowerIo): seq<LimitWrite> {
    if !NeedsLimit(functions, power) then [Enable(false)]
    else if power.limitOk then [Limit, Enable(true)]
    else [Limit]
  }

  /** The limit is written exactly for the accessory function on a port whose type says CDP and whose mode
      says "default" or "1.5A", and turned on right after if that write succeeds; for everything else, an
      unreadable node included, it is turned off and not written. */
  lemma LimitDecision(functions: Mask, power: PowerIo)
    ensures var writes := LimitWrites(functions, power);
            var usbType := if power.usbType.Some? then Trim(power.usbType.value) else "";
            var powerMode := if power.powerMode.Some? then Trim(power.powerMode.value) else "";
            var needed := functions & 0x2 != 0 && usbType == "Unknown SDP [CDP] DCP" && powerMode in {"default", "1.5A"};
            && (Limit in writes <==> needed)
            && (Enable(true) in writes <==> needed && power.limitOk)
            && (Enable(false) in writes <==> !needed)
            && (Enable(true) in writes ==> writes == [Limit, Enable(true)])
  {
  }

  // ---- The interrupt over a run of requests ----

  /** The path after requests that found these texts of /proc/interrupts. */
  function PathAfter(path: string, texts: seq<Option<string>>, isUint: string -> bool): string {
    if texts == [] then path
    else NextIrqPath(PathAfter(path, texts[..|texts| - 1], isUint), texts[|texts| - 1], isUint)
  }

  /** Request i is the first to find a path. */
  predicate FindsFirstPath(texts: seq<Option<string>>, isUint: string -> bool, i: int) {
    && 0 <= i < |texts| && IrqPath(texts[i], isUint).Some?
    && forall j :: 0 <= j < i ==> IrqPath(texts[j], isUint).None?
  }

  /** The path is that of the first request that found one, for good; before that it is empty. */
  lemma {:induction false} FirstPathStays(texts: seq<Option<string>>, isUint: string -> bool)
    ensures PathAfter("", texts, isUint) == "" <==> forall i :: 0 <= i < |texts| ==> IrqPath(texts[i], isUint).None?
    ensures forall i :: FindsFirstPath(texts, isUint, i) ==> PathAfter("", texts, isUint) == IrqPath(texts[i], isUint).value
  {
    if texts != [] {
      var n := |texts| - 1;
      FirstPathStays(texts[..n], isUint);
      forall i | FindsFirstPath(texts, isUint, i) && i < n ensures FindsFirstPath(texts[..n], isUint, i) {
        assert forall j :: 0 <= j <= i ==> texts[..n][j] == texts[j];
      }
      assert forall i :: 0 <= i < n ==> texts[..n][i] == texts[i];
      if IrqPath(texts[n], isUint).Some? {
        PathIsNotEmpty(texts[n], isUint);
      }
    }
  }

  lemma PathIsNotEmpty(irqs: Option<string>, isUint: string -> bool)
    requires IrqPath(irqs, isUint).Some?
    ensures IrqPath(irqs, isUint).value != ""
  {
    var path := IrqPath(irqs, isUint).value;
    assert path[0] == '/';
  }

  /** A known interrupt is moved by one write, to the big core exactly for NCM. */
  lemma IrqIsMoved(path: string, functions: Mask)
    ensures path == "" ==> IrqMoves(path, functions) == []
    ensures path != "" && functions & 0x400 != 0 ==> IrqMoves(path, functions) == [IrqWrite(path, BigCore)]
    ensures path != "" && functions & 0x400 == 0 ==> IrqMoves(path, functions) == [IrqWrite(path, MediumCore)]
  {
  }

  /** `isUint` says whether android::base::ParseUint accepts a text as an unsigned int. */
  class UsbGadget {
    const isUint: string -> bool
    var mCurrentUsbFunctions: Mask
    var mCurrentUsbFunctionsApplied: bool
    var mGadgetIrqPath: string
    var links: seq<Link>
    var ids: Option<Ids>
    var pulledUp: bool
    var monitoring: bool
    var answers: seq<Answer>
    var irqWrites: seq<IrqWrite>
    var limitWrites: seq<LimitWrite>

    /** The first two fields have no initial value in the source. */
    constructor (isUint: string -> bool, g: Gadget)
      ensures this.isUint == isUint && State() == g && mGadgetIrqPath == "" && answers == [] && irqWrites == [] && limitWrites == []
    {
      this.isUint := isUint;
      mCurrentUsbFunctions, mCurrentUsbFunctionsApplied, mGadgetIrqPath := g.functions, g.applied, "";
      links, ids, pulledUp, monitoring := g.links, g.ids, g.pulledUp, g.monitoring;
      answers, irqWrites, limitWrites := [], [], [];
    }

    function State(): Gadget
      reads this
    {
      Gadget(mCurrentUsbFunctions, mCurrentUsbFunctionsApplied, links, ids, pulledUp, monitoring)
    }

    /** getUsbGadgetIrqPath; an error leaves the path alone. */
    method GetUsbGadgetIrqPath(irqs: Option<string>) returns (success: bool)
      modifies this`mGadgetIrqPath
      ensures success == IrqPath(irqs, isUint).Some?
      ensures mGadgetIrqPath == if success then IrqPath(irqs, isUint).value else old(mGadgetIrqPath)
    {
      if irqs.None? {
        return false;
      }
      var text, read_pos := irqs.value, 0;
      while true
        invariant read_pos <= |text|
        invariant FirstDriverLine(text, read_pos) == FirstDriverLine(text, 0)
        invariant mGadgetIrqPath == old(mGadgetIrqPath)
        decreases |text| - read_pos
      {
        var found_pos := Find(text, '\n', read_pos);
        if found_pos == |text| {
          return false;
        }
        var single_irq := text[read_pos..found_pos];
        if Contains(single_irq, DRIVER) {
          var number := single_irq[..Find(single_irq, ':', 0)];
          if !isUint(number) {
            return false;
          }
          mGadgetIrqPath := PathOf(number);
          return true;
        }
        read_pos := found_pos + 1;
      }
    }

    /** setCurrentUsbFunctionsCb, when there is a callback. */
    method Deliver(request: Request, status: Status)
      modifies this`answers
      ensures answers == old(answers) + AnswerTo(request, status)
    {
      if request.hasCallback {
        answers := answers + [Answer(request.functions, status, request.transaction)];
      }
    }

    method TearDownGadget(teardown: Teardown) returns (success: bool)
      modifies this`links, this`pulledUp, this`monitoring
      ensures success ==> links == [] && !pulledUp && !monitoring
      ensures !success ==> monitoring == old(monitoring)
      ensures State() == TearDown(old(State()), teardown) && success == teardown.TornDown?
    {
      match teardown {
        case TornDown => links, pulledUp, monitoring := [], false, false;
        case TeardownFailed(left, up) => links, pulledUp := left, up;
      }
      success := teardown.TornDown?;
    }

    method ValidateAndSetVidPid(functions: Mask, io: Io) returns (status: Status)
      modifies this`ids
      ensures IdsFor(functions, io.vendor, io.uvcEnabled).None? ==> status == ConfigurationNotSupported && ids == old(ids)
      ensures status.Success? && Sensible(io) ==> ids.Some? && ids == IdsFor(functions, io.vendor, io.uvcEnabled)
      ensures Validated(ids, status) == Validate(old(ids), functions, io)
    {
      var wanted := IdsFor(functions, io.vendor, io.uvcEnabled);
      if wanted.None? {
        return ConfigurationNotSupported;
      }
      match io.setIds {
        case IdsSet => ids := wanted; status := Success;
        case IdsFailed(failure, left) => ids := left; status := failure;
      }
    }

    /** linkFunction(name, i++) or addAdb; `rest` is what would be linked after it, `goal` how it all ends. */
    method LinkFunction(name: Name, i: nat, helpers: Helpers, ghost rest: seq<Name>, ghost goal: Linked)
      returns (success: bool, next: nat)
      requires goal == LinkAll(Linked(links, i, true), [name] + rest, helpers)
      modifies this`links
      ensures next == if success then i + 1 else i
      ensures if success then goal == LinkAll(Linked(links, next, true), rest, helpers) else goal == Linked(links, i, false)
    {
      assert ([name] + rest)[1..] == rest;
      success, next := LinkOk(name, i, helpers), i;
      if success {
        links := links + [Link(name, i)];
        next := i + 1;
      } else {
        FailureStops(Linked(links, i, false), rest, helpers);
      }
    }

    /** Lines 424-445. */
    method LinkVendorFunctions(functions: Mask, i: nat, io: Io, ghost rest: seq<Name>, ghost goal: Linked)
      returns (success: bool, next: nat)
      requires goal == LinkAll(Linked(links, i, true), VendorPlan(functions, io.vendor) + rest, io.helpers)
      modifies this`links
      ensures if success then goal == LinkAll(Linked(links, next, true), rest, io.helpers) else goal == Linked(links, next, false)
    {
      success, next := true, i;
      match io.vendor {
        case Dm =>
          if Has(functions, RNDIS) {
            assert [AcmGs6, DmGs7] + rest == [AcmGs6] + ([DmGs7] + rest);
            success, next := LinkFunction(AcmGs6, next, io.helpers, [DmGs7] + rest, goal);
            if !success { return; }
            success, next := LinkFunction(DmGs7, next, io.helpers, rest, goal);
          } else {
            assert [DmGs7, AcmGs6] + rest == [DmGs7] + ([AcmGs6] + rest);
            success, next := LinkFunction(DmGs7, next, io.helpers, [AcmGs6] + rest, goal);
            if !success { return; }
            success, next := LinkFunction(AcmGs6, next, io.helpers, rest, goal);
          }
        case EtrMiu => success, next := LinkFunction(EtrMiuGs11, next, io.helpers, rest, goal);
        case UwbAcm => success, next := LinkFunction(AcmUwb0, next, io.helpers, rest, goal);
        case _ => assert [] + rest == rest;
      }
    }

    /** Lines 413-456, with the FunctionFS flag that decides how the gadget is pulled up. */
    method LinkFunctionsOf(functions: Mask, io: Io) returns (success: bool, ffsEnabled: bool)
      modifies this`links
      ensures var linked := LinkFunctions(old(links), functions, io.vendor, io.helpers);
              links == linked.links && success == linked.ok
      ensures success ==> ffsEnabled == NeedsFfs(functions, io)
    {
      var i := 0;
      ghost var goal := LinkFunctions(links, functions, io.vendor, io.helpers);
      ghost var adb, late := Part(Adb, Has(functions, ADB)), Part(NcmGs9, Has(functions, NCM) && io.vendor.Dm?);
      ghost var early := Part(NcmGs9, Has(functions, NCM) && !io.vendor.Dm?);
      ghost var v := VendorPlan(functions, io.vendor);
      assert Plan(functions, io.vendor) == early + (v + (adb + late));

      links, i, ffsEnabled := links + seq(|io.helpers.generic|, k requires 0 <= k < |io.helpers.generic| =>
                                            Link(io.helpers.generic[k], k)), |io.helpers.generic|, io.helpers.genericFfs;
      success := io.helpers.genericOk;
      assert LinkGeneric(Linked(old(links), 0, true), io.helpers) == Linked(links, i, success);
      if !success {
        FailureStops(Linked(links, i, false), Plan(functions, io.vendor), io.helpers);
        return;
      }
      if Has(functions, NCM) && !io.vendor.Dm? {
        success, i := LinkFunction(NcmGs9, i, io.helpers, v + (adb + late), goal);
        if !success { return; }
      } else {
        assert early + (v + (adb + late)) == v + (adb + late);
      }
      success, i := LinkVendorFunctions(functions, i, io, adb + late, goal);
      if !success { return; }
      if Has(functions, ADB) {
        ffsEnabled := true;
        success, i := LinkFunction(Adb, i, io.helpers, late, goal);
        if !success { return; }
      } else {
        assert adb + late == late;
      }
      if Has(functions, NCM) && io.vendor.Dm? {
        assert late == [NcmGs9] + [];
        success, i := LinkFunction(NcmGs9, i, io.helpers, [], goal);
      }
    }

    /** setupFunctions. */
    method SetupFunctions(request: Request, io: Io) returns (status: Status)
      modifies this`links, this`mCurrentUsbFunctionsApplied, this`pulledUp, this`monitoring, this`answers
      ensures var served := SetUp(old(State()), request, io);
              State() == served.gadget && status == served.status && answers == old(answers) + served.answers
    {
      var linked, ffsEnabled := LinkFunctionsOf(request.functions, io);
      if !linked {
        return Error;
      }
      if !ffsEnabled {
        if !io.pullUpOk {
          return Error;
        }
        pulledUp := true;
        mCurrentUsbFunctionsApplied := true;
        Deliver(request, Success);
        return Success;
      }
      monitoring := true;
      if request.hasCallback {
        var pullup := io.waitOk;
        if pullup {
          pulledUp, mCurrentUsbFunctionsApplied := true, true;
        }
        Deliver(request, if pullup then Success else Error);
        if !io.accepts {
          return Error;
        }
      }
      status := Success;
    }

    /** From the teardown on (lines 512-542); a failure goes to the error label. */
    method TearDownAndSetUp(request: Request, io: Io) returns (status: Status)
      modifies this`links, this`ids, this`pulledUp, this`monitoring, this`mCurrentUsbFunctionsApplied, this`answers
      ensures var served := Attempt(old(State()), request, io);
              State() == served.gadget && answers == old(answers) + served.answers && status == served.status
    {
      var torn := TearDownGadget(io.teardown);
      if !torn {
        return Error;
      }
      if request.functions == NONE {
        Deliver(request, Success);
        return Success;
      }
      status := ValidateAndSetVidPid(request.functions, io);
      if status.Success? {
        status := SetupFunctions(request, io);
      }
    }

    /** Lines 500-509. */
    method Begin(request: Request, irqs: Option<string>)
      modifies this`mCurrentUsbFunctions, this`mCurrentUsbFunctionsApplied, this`mGadgetIrqPath
      ensures State() == Begun(old(State()), request)
      ensures mGadgetIrqPath == NextIrqPath(old(mGadgetIrqPath), irqs, isUint)
    {
      mCurrentUsbFunctions := request.functions;
      mCurrentUsbFunctionsApplied := false;
      if mGadgetIrqPath == "" {
        var _ := GetUsbGadgetIrqPath(irqs);
      }
    }

    /** Lines 544-554. */
    method MoveIrq(functions: Mask)
      modifies this`irqWrites
      ensures irqWrites == old(irqWrites) + IrqMoves(mGadgetIrqPath, functions)
    {
      if mGadgetIrqPath != "" {
        irqWrites := irqWrites + [IrqWrite(mGadgetIrqPath, if Has(functions, NCM) then BigCore else MediumCore)];
      }
    }

    /** Lines 556-576. */
    method LimitAccessory(functions: Mask, power: PowerIo)
      modifies this`limitWrites
      ensures limitWrites == old(limitWrites) + LimitWrites(functions, power)
    {
      var usbType := if power.usbType.Some? then Trim(power.usbType.value) else "";
      var powerMode := if power.powerMode.Some? then Trim(power.powerMode.value) else "";
      if Has(functions, ACCESSORY) && usbType == "Unknown SDP [CDP] DCP" && (powerMode == "default" || powerMode == "1.5A") {
        limitWrites := limitWrites + [Limit];
        if power.limitOk {
          limitWrites := limitWrites + [Enable(true)];
        }
      } else {
        limitWrites := limitWrites + [Enable(false)];
      }
    }

    /** The error label, and what follows a setup that succeeded (lines 544-591). */
    method Finish(request: Request, status: Status, power: PowerIo) returns (ok: bool)
      modifies this`answers, this`irqWrites, this`limitWrites
      ensures State() == old(State())
      ensures ok == (status.Success? && request.functions != NONE)
      ensures answers == old(answers) + if status.Success? then [] else AnswerTo(request, status)
      ensures irqWrites == old(irqWrites) + if ok then IrqMoves(mGadgetIrqPath, request.functions) else []
      ensures limitWrites == old(limitWrites) + if ok then LimitWrites(request.functions, power) else []
    {
      ok := status.Success? && request.functions != NONE;
      if ok {
        MoveIrq(request.functions);
        LimitAccessory(request.functions, power);
      } else if !status.Success? {
        Deliver(request, status);
      }
    }

    /** setCurrentUsbFunctions; only a setup that succeeds returns an ok status, moves the gadget's interrupt
        and sets the accessory's current limit. */
    method SetCurrentUsbFunctions(request: Request, io: Io, irqs: Option<string>, power: PowerIo) returns (ok: bool)
      modifies this
      ensures var served := Serve(old(State()), request, io);
              && State() == served.gadget && answers == old(answers) + served.answers
              && ok == (served.status.Success? && request.functions != NONE)
      ensures mGadgetIrqPath == NextIrqPath(old(mGadgetIrqPath), irqs, isUint)
      ensures irqWrites == old(irqWrites) + if ok then IrqMoves(mGadgetIrqPath, request.functions) else []
      ensures limitWrites == old(limitWrites) + if ok then LimitWrites(request.functions, power) else []
    {
      ServeIsAttempt(State(), request, io, answers);
      Begin(request, irqs);
      var status := TearDownAndSetUp(request, io);
      ok := Finish(request, status, power);
    }
  }

  /** Serving is the attempt and, if that fails, one more answer. */
  lemma ServeIsAttempt(g: Gadget, request: Request, io: Io, before: seq<Answer>)
    ensures var served, attempt := Serve(g, request, io), Attempt(Begun(g, request), request, io);
            && served.gadget == attempt.gadget && served.status == attempt.status
            && before + served.answers ==
               (before + attempt.answers) + if attempt.status.Success? then [] else AnswerTo(request, attempt.status)
  {
  }
}
