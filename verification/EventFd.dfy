/** The eventfd through which other threads talk to the DisplayPort poll worker
    (`mDisplayPortEventPipe`).  The kernel object is a counter, not a mailbox: a write adds its
    value, a read returns the sum and zeroes it. */
module EventFd {

  /** The three values the service ever writes (Usb.h:78-80). */
  datatype Code = ShutdownClear | ShutdownSet | IrqHpdCountCheck

  /** Largest value the counter can hold; a non-blocking write that would exceed it fails. */
  const MAX_COUNTER: nat := 0xffff_ffff_ffff_fffe

  function Value(code: Code): nat {
    match code
    case ShutdownClear => 0
    case ShutdownSet => 1
    case IrqHpdCountCheck => 3
  }

  function Post(counter: nat, code: Code): nat {
    if counter + Value(code) <= MAX_COUNTER then counter + Value(code) else counter
  }

  /** The counter after a sequence of writes with no read in between, starting from zero. */
  function Posted(codes: seq<Code>): nat {
    if codes == [] then 0 else Post(Posted(codes[..|codes| - 1]), codes[|codes| - 1])
  }

  /** A write is refused exactly if it would take the counter beyond the largest 64-bit value but one. */
  lemma PostDecision(counter: nat, code: Code)
    requires counter <= MAX_COUNTER
    ensures Post(counter, code) == counter + Value(code) <==> counter + Value(code) < 0x1_0000_0000_0000_0000 - 1
    ensures Post(counter, code) != counter + Value(code) ==> Post(counter, code) == counter
    ensures Value(ShutdownClear) == 0 && Value(ShutdownSet) == 1 && Value(IrqHpdCountCheck) == 3
  {
  }

  /** What the worker does with a flag it read. */
  datatype Reaction = Ignore | StopWorker | ForwardIrqHpd

  function React(flag: nat): Reaction {
    if flag == Value(ShutdownSet) then StopWorker
    else if flag == Value(IrqHpdCountCheck) then ForwardIrqHpd
    else Ignore
  }

  /** The writes that carry a message: clearing writes carry none. */
  function Signals(codes: seq<Code>): seq<Code> {
    if codes == [] then []
    else
      var last := codes[|codes| - 1];
      Signals(codes[..|codes| - 1]) + if last == ShutdownClear then [] else [last]
  }

  /** What a worker with a real message channel would do: a pending shutdown wins, otherwise a
      pending check is served. */
  function Intended(codes: seq<Code>): Reaction {
    if ShutdownSet in codes then StopWorker
    else if IrqHpdCountCheck in codes then ForwardIrqHpd
    else Ignore
  }

  /** What a counter value says about the messages merged into it: it identifies them only for
      0, 1 and 2; 3 is ambiguous and everything else is at least 4. */
  predicate Decodes(counter: nat, signals: seq<Code>) {
    if |signals| == 0 then counter == 0
    else if |signals| == 1 then counter == Value(signals[0])
    else if |signals| <= 3 && (forall i :: 0 <= i < |signals| ==> signals[i] == ShutdownSet) then
      counter == |signals|
    else counter >= 4
  }

  lemma PostDecodes(counter: nat, signals: seq<Code>, code: Code)
    requires counter <= MAX_COUNTER && Decodes(counter, signals) && ShutdownClear !in signals
    ensures Decodes(Post(counter, code), signals + if code == ShutdownClear then [] else [code])
  {
    if code != ShutdownClear {
      var next := signals + [code];
      assert next[|signals|] == code && next[..|signals|] == signals;
      if |signals| == 1 {
        assert next[0] == signals[0] && signals[0] in signals;
      }
    } else {
      assert signals + [] == signals;
    }
  }

  lemma {:induction false} CounterDecodes(codes: seq<Code>)
    ensures Posted(codes) <= MAX_COUNTER
    ensures Decodes(Posted(codes), Signals(codes)) && ShutdownClear !in Signals(codes)
  {
    if codes != [] {
      CounterDecodes(codes[..|codes| - 1]);
      PostDecodes(Posted(codes[..|codes| - 1]), Signals(codes[..|codes| - 1]), codes[|codes| - 1]);
    }
  }

  /** The worker sees the shutdown code exactly when the unread messages are one single shutdown,
      and the check code exactly for one check or three shutdowns. */
  lemma WorkerSees(codes: seq<Code>)
    ensures Posted(codes) == Value(ShutdownSet) <==> Signals(codes) == [ShutdownSet]
    ensures Posted(codes) == Value(IrqHpdCountCheck) <==>
            Signals(codes) == [IrqHpdCountCheck] || Signals(codes) == [ShutdownSet, ShutdownSet, ShutdownSet]
  {
    CounterDecodes(codes);
    var signals := Signals(codes);
    if |signals| == 1 {
      assert signals == [signals[0]];
    } else if |signals| == 3 && forall i :: 0 <= i < 3 ==> signals[i] == ShutdownSet {
      assert signals == [signals[0], signals[1], signals[2]];
    }
  }

  lemma {:induction false} SignalsAreThePosts(codes: seq<Code>)
    ensures forall c :: c in Signals(codes) <==> c in codes && c != ShutdownClear
  {
    if codes != [] {
      SignalsAreThePosts(codes[..|codes| - 1]);
      assert codes == codes[..|codes| - 1] + [codes[|codes| - 1]];
    }
  }

  /** One read window: the worker reacts as a message channel would make it react exactly when at
      most one message was pending.  Two merged messages are always misread. */
  lemma WindowRefinesChannel(codes: seq<Code>)
    ensures React(Posted(codes)) == Intended(codes) <==> |Signals(codes)| <= 1
  {
    CounterDecodes(codes);
    SignalsAreThePosts(codes);
    var signals := Signals(codes);
    if |signals| >= 1 {
      assert signals[0] in signals;
      if |signals| >= 2 {
        assert signals[1] in signals;
      } else {
        assert signals == [signals[0]];
      }
    }
  }

  /** Writes and reads of the descriptor in the order the kernel performs them. */
  datatype Op = Write(code: Code) | Read

  /** The worker's reactions over a run on the counter. */
  function Reactions(counter: nat, ops: seq<Op>): seq<Reaction>
    decreases |ops|
  {
    if ops == [] then []
    else match ops[0]
      case Write(code) => Reactions(Post(counter, code), ops[1..])
      case Read => [React(counter)] + Reactions(0, ops[1..])
  }

  /** The reactions over the same run on a message channel. */
  function ChannelReactions(pending: seq<Code>, ops: seq<Op>): seq<Reaction>
    decreases |ops|
  {
    if ops == [] then []
    else match ops[0]
      case Write(code) => ChannelReactions(pending + [code], ops[1..])
      case Read => [Intended(pending)] + ChannelReactions([], ops[1..])
  }

  /** Every read finds at most one unread message. */
  predicate NeverMerged(pending: seq<Code>, ops: seq<Op>)
    decreases |ops|
  {
    if ops == [] then true
    else match ops[0]
      case Write(code) => NeverMerged(pending + [code], ops[1..])
      case Read => |Signals(pending)| <= 1 && NeverMerged([], ops[1..])
  }

  /** Whole runs: the counter refines a message channel exactly on the runs in which no two messages
      are ever merged into one read. */
  lemma {:induction false} RunRefinesChannel(pending: seq<Code>, ops: seq<Op>)
    ensures Reactions(Posted(pending), ops) == ChannelReactions(pending, ops) <==> NeverMerged(pending, ops)
    decreases |ops|
  {
    if ops != [] {
      match ops[0]
      case Write(code) =>
        assert (pending + [code])[..|pending|] == pending;
        RunRefinesChannel(pending + [code], ops[1..]);
      case Read =>
        WindowRefinesChannel(pending);
        RunRefinesChannel([], ops[1..]);
        var a, b := Reactions(0, ops[1..]), ChannelReactions([], ops[1..]);
        var x, y := React(Posted(pending)), Intended(pending);
        assert ([x] + a)[1..] == a && ([y] + b)[1..] == b;
        assert ([x] + a)[0] == x && ([y] + b)[0] == y;
    }
  }
}
