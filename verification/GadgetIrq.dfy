/** The interrupt of the USB controller in the text of /proc/interrupts (UsbGadget.cpp:79-119). */
module GadgetIrq {
  import opened Wrappers
  import opened Text

  const DRIVER: string := "dwc3"

  /** irqs[a..b] is a line, and its newline is there. */
  predicate IsLine(irqs: string, a: nat, b: nat) {
    && a <= b < |irqs|
    && (a == 0 || irqs[a - 1] == '\n')
    && irqs[b] == '\n'
    && forall i :: a <= i < b ==> irqs[i] != '\n'
  }

  predicate HasDriver(irqs: string, a: nat, b: nat)
    requires a <= b <= |irqs|
  {
    Contains(irqs[a..b], DRIVER)
  }

  /** The first line, from the one at `from` on, that names the driver. */
  function FirstDriverLine(irqs: string, from: nat): Option<string>
    requires from <= |irqs|
    decreases |irqs| - from
  {
    var end := Find(irqs, '\n', from);
    if end == |irqs| then None
    else if HasDriver(irqs, from, end) then Some(irqs[from..end])
    else FirstDriverLine(irqs, end + 1)
  }

  /** The text before the first ':', or all of it. */
  function Head(line: string): string {
    line[..Find(line, ':', 0)]
  }

  function PathOf(head: string): string {
    "/proc/irq/" + head + "/smp_affinity_list"
  }

  /** The path for the interrupts' text, None where the lookup is an error. */
  function IrqPath(irqs: Option<string>, isUint: string -> bool): Option<string> {
    if irqs.None? then None
    else match FirstDriverLine(irqs.value, 0)
      case None => None
      case Some(line) => if isUint(Head(line)) then Some(PathOf(Head(line))) else None
  }

  /** irqs[a..b] is a line of the driver, and no line before it is. */
  predicate IsFirstDriverLine(irqs: string, a: nat, b: nat) {
    && IsLine(irqs, a, b) && HasDriver(irqs, a, b)
    && CleanBefore(irqs, a)
  }

  /** No line that ends before `from` names the driver. */
  predicate CleanBefore(irqs: string, from: nat) {
    forall c, d :: 0 <= c <= d < from && IsLine(irqs, c, d) ==> !HasDriver(irqs, c, d)
  }

  /** It stays so when the next line does not name it either. */
  lemma CleanLine(irqs: string, from: nat)
    requires from <= |irqs| && (from == 0 || irqs[from - 1] == '\n') && CleanBefore(irqs, from)
    requires var end := Find(irqs, '\n', from); end < |irqs| ==> !HasDriver(irqs, from, end)
    ensures CleanBefore(irqs, Find(irqs, '\n', from) + 1)
  {
    var end := Find(irqs, '\n', from);
    forall c, d | 0 <= c <= d < end + 1 && IsLine(irqs, c, d) ensures !HasDriver(irqs, c, d) {
      LineIsBefore(irqs, from, c, d);
      if d >= from {
        LinesFrom(irqs, from, c, d);
      }
    }
  }

  /** No line ends before the first newline, and the next line starts after it. */
  lemma LinesFrom(irqs: string, from: nat, a: nat, b: nat)
    requires from <= |irqs| && (from == 0 || irqs[from - 1] == '\n') && a >= from && IsLine(irqs, a, b)
    ensures var end := Find(irqs, '\n', from); end < |irqs| && ((a == from && b == end) || a >= end + 1)
  {
  }

  lemma {:induction false} FirstFrom(irqs: string, from: nat)
    requires from <= |irqs| && (from == 0 || irqs[from - 1] == '\n')
    requires CleanBefore(irqs, from)
    ensures FirstDriverLine(irqs, from).None? ==> CleanBefore(irqs, |irqs|)
    ensures FirstDriverLine(irqs, from).Some? ==>
              exists a: nat, b: nat :: IsFirstDriverLine(irqs, a, b) && FirstDriverLine(irqs, from).value == irqs[a..b]
    decreases |irqs| - from
  {
    var end := Find(irqs, '\n', from);
    if end < |irqs| && HasDriver(irqs, from, end) {
      assert IsFirstDriverLine(irqs, from, end);
    } else {
      CleanLine(irqs, from);
      if end < |irqs| {
        FirstFrom(irqs, end + 1);
      }
    }
  }

  /** A line does not straddle the start of another. */
  lemma LineIsBefore(irqs: string, from: nat, a: nat, b: nat)
    requires from <= |irqs| && (from == 0 || irqs[from - 1] == '\n') && IsLine(irqs, a, b)
    ensures b < from || a >= from
  {
  }

  /** The scan finds the first newline-terminated line that names the driver; it finds none exactly when
      there is none. */
  lemma ScanFindsFirst(irqs: string)
    ensures FirstDriverLine(irqs, 0).None? <==> CleanBefore(irqs, |irqs|)
    ensures forall a: nat, b: nat :: IsFirstDriverLine(irqs, a, b) ==> FirstDriverLine(irqs, 0) == Some(irqs[a..b])
  {
    FirstFrom(irqs, 0);
    if FirstDriverLine(irqs, 0).Some? {
      var a: nat, b: nat :| IsFirstDriverLine(irqs, a, b) && FirstDriverLine(irqs, 0).value == irqs[a..b];
      forall c: nat, d: nat | IsFirstDriverLine(irqs, c, d) ensures c == a && d == b {
        LineIsBefore(irqs, a, c, d);
        LineIsBefore(irqs, c, a, b);
        LinesFrom(irqs, a, a, b);
        LinesFrom(irqs, a, c, d);
      }
    }
  }

  /** After lines without the driver, a line with it is found, whatever follows. */
  lemma FirstAfter(before: string, line: string, after: string)
    requires before == "" || before[|before| - 1] == '\n'
    requires FirstDriverLine(before, 0).None? && '\n' !in line && Contains(line, DRIVER)
    ensures FirstDriverLine(before + line + "\n" + after, 0) == Some(line)
  {
    var irqs := before + line + "\n" + after;
    var a, b := |before|, |before| + |line|;
    assert irqs[..a] == before && irqs[a..b] == line && irqs[b] == '\n';
    assert forall i :: a <= i < b ==> irqs[i] == line[i - a];
    assert a > 0 ==> irqs[a - 1] == before[a - 1];
    assert IsLine(irqs, a, b);
    ScanFindsFirst(before);
    assert CleanBefore(irqs, a) by {
      forall c, d | 0 <= c <= d < a && IsLine(irqs, c, d) ensures !HasDriver(irqs, c, d) {
        LineOfPrefix(before, irqs, c, d);
      }
    }
    assert IsFirstDriverLine(irqs, a, b);
    ScanFindsFirst(irqs);
  }

  lemma LineOfPrefix(before: string, irqs: string, c: nat, d: nat)
    requires before <= irqs && d < |before| && IsLine(irqs, c, d)
    ensures IsLine(before, c, d) && irqs[c..d] == before[c..d]
  {
  }

  /** For a text made of lines without the driver, then a line "number: … dwc3 …", the path is that of the
      number, whatever follows. */
  lemma PathOfNumber(before: string, number: string, rest: string, after: string, isUint: string -> bool)
    requires before == "" || before[|before| - 1] == '\n'
    requires FirstDriverLine(before, 0).None?
    requires ':' !in number && '\n' !in number && '\n' !in rest && Contains(rest, DRIVER) && isUint(number)
    ensures IrqPath(Some(before + (number + ":" + rest) + "\n" + after), isUint) == Some(PathOf(number))
  {
    DriverInTail(number + ":", rest);
    FirstAfter(before, number + ":" + rest, after);
    HeadIs(number, rest);
  }

  lemma DriverInTail(a: string, b: string)
    requires Contains(b, DRIVER)
    ensures Contains(a + b, DRIVER)
  {
    var i :| 0 <= i <= |b| && DRIVER <= b[i..];
    assert (a + b)[|a| + i..] == b[i..];
  }

  lemma HeadIs(number: string, rest: string)
    requires ':' !in number
    ensures Head(number + ":" + rest) == number
  {
    var line := number + ":" + rest;
    assert line[..|number|] == number && line[|number|] == ':';
    FindIs(line, ':', |number|);
  }
}
