/** Forwarding of Type-C DisplayPort attributes to the DRM driver (writeDisplayPortAttribute,
    Usb.cpp:1479-1538). */
module DisplayPortAttributes {
  import opened Wrappers
  import opened Text

  /** The attributes, which also name the DRM nodes they are written to. */
  datatype Attr = Hpd | PinAssignment | Orientation | IrqHpdCount

  /** What the file system does during one call: the Type-C text, if it can be read; whether the DRM
      node can be read; whether the DRM node accepts a write. */
  datatype Io = Io(usb: Option<string>, drmReadable: bool, drmWritable: bool)

  /** One attempted DRM write: the Type-C text it came from, the text written, and its fate. */
  datatype Write = Write(attr: Attr, source: string, text: string, ok: bool)

  /** The DRM nodes, mIrqHpdCountCache, and every write attempted so far. */
  datatype Drm = Drm(nodes: map<Attr, string>, irqCache: nat, writes: seq<Write>)

  function Content(drm: Drm, attr: Attr): string {
    if attr in drm.nodes then drm.nodes[attr] else ""
  }

  /** Hot plug detect is low exactly when the text starts with "0". */
  predicate Low(text: string) {
    "0" <= text
  }

  /** The single character after the first "[", if there is a "[" at all. */
  function Selected(text: string): Option<string> {
    var k := Find(text, '[', 0);
    if k == |text| then None else Some(if k + 1 < |text| then [text[k + 1]] else "")
  }

  function Store(drm: Drm, attr: Attr, source: string, text: string, ok: bool): Drm {
    Drm(if ok then drm.nodes[attr := text] else drm.nodes, drm.irqCache, drm.writes + [Write(attr, source, text, ok)])
  }

  /** The outcome of a call: the new state and whether it reports SUCCESS. */
  datatype Forwarded = Forwarded(drm: Drm, success: bool)

  /** `parse` is android::base::ParseUint. */
  function Forward(drm: Drm, attr: Attr, io: Io, parse: string -> Option<nat>): Forwarded {
    if io.usb.None? then Forwarded(drm, false)
    else
      var usb := io.usb.value;
      match attr
      case Hpd =>
        if Low(usb) && !io.drmReadable then Forwarded(drm, false)
        else if Low(usb) && Low(Content(drm, Hpd)) then Forwarded(drm, true)
        else Forwarded(Store(drm, Hpd, usb, usb, io.drmWritable), io.drmWritable)
      case IrqHpdCount =>
        var count := parse(Trim(usb));
        if count.None? then Forwarded(drm, false)
        else if count.value == drm.irqCache then Forwarded(drm, true)
        else Forwarded(Store(drm.(irqCache := count.value), IrqHpdCount, usb, usb, io.drmWritable), io.drmWritable)
      case PinAssignment =>
        var pin := Selected(usb);
        if pin.None? then Forwarded(drm, false)
        else Forwarded(Store(drm, PinAssignment, usb, pin.value, io.drmWritable), io.drmWritable)
      case Orientation => Forwarded(Store(drm, Orientation, usb, usb, io.drmWritable), io.drmWritable)
  }

  // ---- One call ----

  /** After a successful hpd call the DRM level is the Type-C level, although a write may have been
      skipped; a failed call leaves the node as it was; and "0" is never written over "0". */
  lemma HpdMirrors(drm: Drm, io: Io, parse: string -> Option<nat>)
    ensures var r := Forward(drm, Hpd, io, parse);
            && (r.success ==> io.usb.Some? && ("0" <= Content(r.drm, Hpd) <==> "0" <= io.usb.value))
            && (!r.success ==> Content(r.drm, Hpd) == Content(drm, Hpd))
            && (r.drm.writes != drm.writes && "0" <= r.drm.writes[|drm.writes|].text ==> !("0" <= Content(drm, Hpd)))
  {
    if io.usb.Some? {
      var w := Write(Hpd, io.usb.value, io.usb.value, io.drmWritable);
      assert (drm.writes + [w])[|drm.writes|] == w;
    }
  }

  /** The pin text's selection is the character after its first "[", or nothing at its end; without a "["
      there is none. */
  lemma SelectedText(before: string, c: char, after: string)
    requires '[' !in before
    ensures Selected(before + "[" + [c] + after) == Some([c])
    ensures Selected(before + "[") == Some("")
    ensures Selected(before) == None
  {
    var text := before + "[" + [c] + after;
    assert text[..|before|] == before && (before + "[")[..|before|] == before;
    FindIs(text, '[', |before|);
    FindIs(before + "[", '[', |before|);
    FindNone(before, '[');
  }

  /** A pin call succeeds exactly if the text is read, has a selection and is accepted, and then the DRM
      holds the selection; an orientation call succeeds exactly if the text is read and accepted, and then
      the DRM holds the text.  A failed call leaves the node as it was. */
  lemma PinAndOrientationMirror(drm: Drm, io: Io, parse: string -> Option<nat>)
    ensures var pin := Forward(drm, PinAssignment, io, parse);
            && (pin.success <==> io.usb.Some? && Selected(io.usb.value).Some? && io.drmWritable)
            && (pin.success ==> Some(Content(pin.drm, PinAssignment)) == Selected(io.usb.value))
            && (!pin.success ==> Content(pin.drm, PinAssignment) == Content(drm, PinAssignment))
    ensures var orientation := Forward(drm, Orientation, io, parse);
            && (orientation.success <==> io.usb.Some? && io.drmWritable)
            && (orientation.success ==> Content(orientation.drm, Orientation) == io.usb.value)
            && (!orientation.success ==> Content(orientation.drm, Orientation) == Content(drm, Orientation))
  {
  }

  /** An hpd call succeeds exactly if its text is read and accepted, where for a low one the DRM node must be
      readable and nothing need be accepted if it is low already; a count call exactly if its text is read,
      a number, and the one cached or accepted.  An override writes "0" if it is accepted. */
  lemma HpdAndCountSucceed(drm: Drm, io: Io, parse: string -> Option<nat>)
    ensures Forward(drm, Hpd, io, parse).success <==>
            io.usb.Some? &&
            if "0" <= io.usb.value then io.drmReadable && ("0" <= Content(drm, Hpd) || io.drmWritable) else io.drmWritable
    ensures Forward(drm, IrqHpdCount, io, parse).success <==>
            && io.usb.Some? && parse(Trim(io.usb.value)).Some?
            && (parse(Trim(io.usb.value)).value == drm.irqCache || io.drmWritable)
    ensures var forced := Perform(drm, ForceLow(io.drmWritable), parse);
            forced.success == io.drmWritable && Content(forced.drm, Hpd) == if io.drmWritable then "0" else Content(drm, Hpd)
  {
  }

  /** A call touches its own node and no other, and the IRQ cache only for a count. */
  lemma ForwardFrame(drm: Drm, attr: Attr, other: Attr, io: Io, parse: string -> Option<nat>)
    requires attr != other
    ensures var r := Forward(drm, attr, io, parse);
            Content(r.drm, other) == Content(drm, other) && (!attr.IrqHpdCount? ==> r.drm.irqCache == drm.irqCache)
  {
  }

  // ---- Runs of calls ----

  /** A writeDisplayPortAttribute call, or the override by which a shutdown helper forces hpd low once its
      worker has exited (Usb.cpp:1887), with whether the write succeeds. */
  datatype Call = Call(attr: Attr, io: Io) | ForceLow(ok: bool)

  function Perform(drm: Drm, call: Call, parse: string -> Option<nat>): Forwarded {
    match call
    case Call(attr, io) => Forward(drm, attr, io, parse)
    case ForceLow(ok) => Forwarded(Store(drm, Hpd, "0", "0", ok), ok)
  }

  /** The Type-C text that a call brings to the hpd node if it succeeds. */
  function HpdText(call: Call): Option<string> {
    match call
    case Call(attr, io) => if attr.Hpd? then io.usb else None
    case ForceLow(_) => Some("0")
  }

  predicate SetsHpd(call: Call) {
    call.ForceLow? || call.attr.Hpd?
  }

  function Run(drm: Drm, calls: seq<Call>, parse: string -> Option<nat>): Drm {
    if calls == [] then drm
    else
      Perform(Run(drm, calls[..|calls| - 1], parse), calls[|calls| - 1], parse).drm
  }

  /** The text of the latest hpd call or override that reported success. */
  function LatestHpd(drm: Drm, calls: seq<Call>, parse: string -> Option<nat>): Option<string> {
    if calls == [] then None
    else
      var last, before := calls[|calls| - 1], calls[..|calls| - 1];
      if SetsHpd(last) && Perform(Run(drm, before, parse), last, parse).success then HpdText(last)
      else LatestHpd(drm, before, parse)
  }

  /** Skipping writes is invisible: after any run of calls and overrides, with any failures, the DRM hpd
      level is that of the latest one that succeeded, as if every one of them had been written. */
  lemma {:induction false} HpdAgreesWithMirror(drm: Drm, calls: seq<Call>, parse: string -> Option<nat>)
    ensures LatestHpd(drm, calls, parse).Some? ==>
              ("0" <= Content(Run(drm, calls, parse), Hpd) <==> "0" <= LatestHpd(drm, calls, parse).value)
    ensures LatestHpd(drm, calls, parse).None? ==> Content(Run(drm, calls, parse), Hpd) == Content(drm, Hpd)
  {
    if calls != [] {
      var last, before := calls[|calls| - 1], calls[..|calls| - 1];
      HpdAgreesWithMirror(drm, before, parse);
      if last.Call? {
        HpdMirrors(Run(drm, before, parse), last.io, parse);
      }
    }
  }

  /** The counts that irq_hpd_count calls could read and parse, in order. */
  function Counts(calls: seq<Call>, parse: string -> Option<nat>): seq<nat> {
    if calls == [] then []
    else Counts(calls[..|calls| - 1], parse) + CountOf(calls[|calls| - 1], parse)
  }

  function CountOf(call: Call, parse: string -> Option<nat>): seq<nat> {
    if call.Call? && call.attr.IrqHpdCount? && call.io.usb.Some? && parse(Trim(call.io.usb.value)).Some? then
      [parse(Trim(call.io.usb.value)).value]
    else []
  }

  /** The counts that differ from their predecessor, the first from `initial`. */
  function Changes(initial: nat, counts: seq<nat>): seq<nat> {
    if counts == [] then []
    else
      var n := |counts| - 1;
      var previous := if n == 0 then initial else counts[n - 1];
      Changes(initial, counts[..n]) + if counts[n] == previous then [] else [counts[n]]
  }

  /** The counts behind the writes attempted on irq_hpd. */
  function Attempted(writes: seq<Write>, parse: string -> Option<nat>): seq<nat> {
    if writes == [] then []
    else
      var last := writes[|writes| - 1];
      Attempted(writes[..|writes| - 1], parse) +
      if last.attr.IrqHpdCount? && parse(Trim(last.text)).Some? then [parse(Trim(last.text)).value] else []
  }

  lemma AttemptedStep(writes: seq<Write>, w: Write, parse: string -> Option<nat>)
    ensures Attempted(writes + [w], parse) ==
            Attempted(writes, parse) +
            if w.attr.IrqHpdCount? && parse(Trim(w.text)).Some? then [parse(Trim(w.text)).value] else []
  {
    assert (writes + [w])[..|writes|] == writes;
  }

  /** The latest count: the cache as it should be. */
  function Latest(initial: nat, counts: seq<nat>): nat {
    if counts == [] then initial else counts[|counts| - 1]
  }

  lemma ChangesStep(initial: nat, counts: seq<nat>, count: seq<nat>)
    requires |count| <= 1
    ensures Latest(initial, counts + count) == Latest(Latest(initial, counts), count)
    ensures Changes(initial, counts + count) ==
            Changes(initial, counts) + if count == [] || count[0] == Latest(initial, counts) then [] else count
  {
    if count != [] {
      assert (counts + count)[..|counts|] == counts && count == [count[0]];
    } else {
      assert counts + count == counts && Changes(initial, counts) + [] == Changes(initial, counts);
    }
  }

  lemma OtherCallsKeepAttempts(drm: Drm, attr: Attr, io: Io, parse: string -> Option<nat>)
    requires !attr.IrqHpdCount?
    ensures var after := Forward(drm, attr, io, parse).drm;
            after.irqCache == drm.irqCache && Attempted(after.writes, parse) == Attempted(drm.writes, parse)
  {
    var after := Forward(drm, attr, io, parse).drm;
    if after.writes != drm.writes {
      AttemptedStep(drm.writes, after.writes[|drm.writes|], parse);
    }
  }

  lemma CountIsForwarded(drm: Drm, io: Io, parse: string -> Option<nat>)
    ensures var after := Forward(drm, IrqHpdCount, io, parse).drm;
            var count := CountOf(Call(IrqHpdCount, io), parse);
            && after.irqCache == Latest(drm.irqCache, count)
            && Attempted(after.writes, parse) ==
               Attempted(drm.writes, parse) + if count == [] || count[0] == drm.irqCache then [] else count
  {
    if io.usb.Some? {
      AttemptedStep(drm.writes, Write(IrqHpdCount, io.usb.value, io.usb.value, io.drmWritable), parse);
    }
    assert Attempted(drm.writes, parse) + [] == Attempted(drm.writes, parse);
  }

  /** One call: the cache is the latest count, and a write is attempted exactly for a change. */
  lemma CallForwardsChange(drm: Drm, call: Call, parse: string -> Option<nat>)
    ensures var after := Perform(drm, call, parse).drm;
            var count := CountOf(call, parse);
            && after.irqCache == Latest(drm.irqCache, count)
            && Attempted(after.writes, parse) ==
               Attempted(drm.writes, parse) + if count == [] || count[0] == drm.irqCache then [] else count
  {
    assert Attempted(drm.writes, parse) + [] == Attempted(drm.writes, parse);
    match call {
      case ForceLow(ok) => AttemptedStep(drm.writes, Write(Hpd, "0", "0", ok), parse);
      case Call(attr, io) =>
        if attr.IrqHpdCount? {
          CountIsForwarded(drm, io, parse);
        } else {
          OtherCallsKeepAttempts(drm, attr, io, parse);
        }
    }
  }

  lemma Regroup(a: seq<nat>, b: seq<nat>, c: seq<nat>)
    ensures (a + b) + c == a + (b + c)
  {
  }

  /** IRQ forwarding: over any run of calls on all attributes and overrides, with any read, parse and write failures
      and any initial cache, the counts attempted on irq_hpd are exactly the parsed counts that differ
      from their predecessor.  Whether a write succeeds plays no part, so a failed one is not retried. */
  lemma {:induction false} IrqForwardsChanges(drm: Drm, calls: seq<Call>, parse: string -> Option<nat>)
    ensures var counts := Counts(calls, parse);
            var after := Run(drm, calls, parse);
            && after.irqCache == Latest(drm.irqCache, counts)
            && Attempted(after.writes, parse) == Attempted(drm.writes, parse) + Changes(drm.irqCache, counts)
  {
    if calls == [] {
      assert Attempted(drm.writes, parse) + [] == Attempted(drm.writes, parse);
    } else {
      var last, before := calls[|calls| - 1], calls[..|calls| - 1];
      IrqForwardsChanges(drm, before, parse);
      CallForwardsChange(Run(drm, before, parse), last, parse);
      var counts, count := Counts(before, parse), CountOf(last, parse);
      ChangesStep(drm.irqCache, counts, count);
      var change := if count == [] || count[0] == Latest(drm.irqCache, counts) then [] else count;
      Regroup(Attempted(drm.writes, parse), Changes(drm.irqCache, counts), change);
    }
  }
}
