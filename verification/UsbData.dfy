/** Turning the USB data of a port on and off (Usb.cpp:113-214, 250-273). */
module UsbData {

  /** What the kernel's nodes say: data signaling, the gadget's pull-up, host mode turned off, Vbus, and the
      DisplayPort mode of the port and its partner. */
  datatype Nodes = Nodes(data: bool, pulledUp: bool, hostOff: bool, vbus: bool, portMode: bool, partnerMode: bool)

  /** Which writes succeed, and whether a partner's DisplayPort directory is found. */
  datatype Io = Io(dataOk: bool, pullUpOk: bool, idOk: bool, vbusOk: bool, portModeOk: bool, partnerFound: bool, partnerModeOk: bool)

  /** mUsbDataEnabled and the nodes. */
  datatype Data = Data(enabled: bool, nodes: Nodes)

  datatype Step = Enable(io: Io) | Disable(io: Io) | ResetPort(ok: bool)

  function Written(before: bool, ok: bool, value: bool): bool {
    if ok then value else before
  }

  function TurnedOn(n: Nodes, io: Io): Nodes {
    n.(data := Written(n.data, io.dataOk, true),
       pulledUp := Written(n.pulledUp, io.pullUpOk, true),
       portMode := Written(n.portMode, io.portModeOk, true),
       partnerMode := Written(n.partnerMode, io.partnerFound && io.partnerModeOk, true))
  }

  function TurnedOff(n: Nodes, io: Io): Nodes {
    Nodes(Written(n.data, io.dataOk, false), Written(n.pulledUp, io.pullUpOk, false), Written(n.hostOff, io.idOk, true),
          Written(n.vbus, io.vbusOk, false), Written(n.portMode, io.portModeOk, false),
          Written(n.partnerMode, io.partnerFound && io.partnerModeOk, false))
  }

  /** The status the callback is told; DisplayPort does not count. */
  predicate Reports(d: Data, step: Step) {
    match step
    case Enable(io) => d.enabled || (io.dataOk && io.pullUpOk)
    case Disable(io) => io.idOk && io.vbusOk && io.dataOk && io.pullUpOk
    case ResetPort(ok) => ok
  }

  function Next(d: Data, step: Step): Data {
    match step
    case Enable(io) => if d.enabled then d else Data(Reports(d, step), TurnedOn(d.nodes, io))
    case Disable(io) => Data(d.enabled && !Reports(d, step), TurnedOff(d.nodes, io))
    case ResetPort(ok) => d.(nodes := d.nodes.(pulledUp := d.nodes.pulledUp && !ok))
  }

  function After(d: Data, steps: seq<Step>): Data {
    if steps == [] then d else Next(After(d, steps[..|steps| - 1]), steps[|steps| - 1])
  }

  /** What the DisplayPort poll is asked to do. */
  datatype Poll = SetupPoll | ShutdownPoll

  class Usb {
    var mUsbDataEnabled: bool
    var nodes: Nodes
    var hasCallback: bool
    var notices: seq<bool>
    var polls: seq<Poll>

    /** Lines 520-541. */
    constructor (nodes: Nodes)
      ensures State() == Data(true, nodes) && notices == [] && polls == []
    {
      mUsbDataEnabled := true;
      this.nodes := nodes;
      hasCallback, notices, polls := false, [], [];
    }

    function State(): Data
      reads this
    {
      Data(mUsbDataEnabled, nodes)
    }

    /** enableUsbData: the poll is set up or shut down when the partner's mode could be written. */
    method EnableUsbData(in_enable: bool, io: Io) returns (result: bool)
      modifies this`mUsbDataEnabled, this`nodes, this`notices, this`polls
      ensures var step := if in_enable then Enable(io) else Disable(io);
              State() == Next(old(State()), step) && result == Reports(old(State()), step)
      ensures notices == old(notices) + if hasCallback then [result] else []
      ensures polls == old(polls) +
              if io.partnerFound && io.partnerModeOk && !(in_enable && old(mUsbDataEnabled)) then
                [if in_enable then SetupPoll else ShutdownPoll]
              else []
    {
      result := true;
      if in_enable {
        if !mUsbDataEnabled {
          result := TurnOn(io);
        }
      } else {
        result := TurnOff(io);
      }
      if result {
        mUsbDataEnabled := in_enable;
      }
      if hasCallback {
        notices := notices + [result];
      }
    }

    /** Lines 124-153. */
    method TurnOn(io: Io) returns (result: bool)
      modifies this`nodes, this`polls
      ensures nodes == TurnedOn(old(nodes), io) && result == (io.dataOk && io.pullUpOk)
      ensures polls == old(polls) + if io.partnerFound && io.partnerModeOk then [SetupPoll] else []
    {
      result := true;
      var n := nodes;
      if io.dataOk { n := n.(data := true); } else { result := false; }
      if io.pullUpOk { n := n.(pulledUp := true); } else { result := false; }
      if io.portModeOk { n := n.(portMode := true); }
      if io.partnerFound && io.partnerModeOk {
        n := n.(partnerMode := true);
        polls := polls + [SetupPoll];
      }
      nodes := n;
    }

    /** Lines 156-195. */
    method TurnOff(io: Io) returns (result: bool)
      modifies this`nodes, this`polls
      ensures nodes == TurnedOff(old(nodes), io) && result == (io.idOk && io.vbusOk && io.dataOk && io.pullUpOk)
      ensures polls == old(polls) + if io.partnerFound && io.partnerModeOk then [ShutdownPoll] else []
    {
      var id, idOk := WriteNode(nodes.hostOff, io.idOk, true);
      var vbus, vbusOk := WriteNode(nodes.vbus, io.vbusOk, false);
      var data, dataOk := WriteNode(nodes.data, io.dataOk, false);
      var pulledUp, pullUpOk := WriteNode(nodes.pulledUp, io.pullUpOk, false);
      var partner := nodes.partnerMode;
      if io.partnerFound {
        var partnerOk;
        partner, partnerOk := WriteNode(partner, io.partnerModeOk, false);
        if partnerOk {
          polls := polls + [ShutdownPoll];
        }
      }
      var port, _ := WriteNode(nodes.portMode, io.portModeOk, false);
      nodes := Nodes(data, pulledUp, id, vbus, port, partner);
      result := idOk && vbusOk && dataOk && pullUpOk;
    }

    /** WriteStringToFile on one of the nodes. */
    method WriteNode(before: bool, ok: bool, value: bool) returns (node: bool, success: bool)
      ensures node == Written(before, ok, value) && success == ok
    {
      node, success := before, ok;
      if ok {
        node := value;
      }
    }

    /** resetUsbPort. */
    method ResetUsbPort(ok: bool) returns (result: bool)
      modifies this`nodes, this`notices
      ensures State() == Next(old(State()), ResetPort(ok)) && result == Reports(old(State()), ResetPort(ok))
      ensures notices == old(notices) + if hasCallback then [result] else []
    {
      result := true;
      if ok { nodes := nodes.(pulledUp := false); } else { result := false; }
      if hasCallback {
        notices := notices + [result];
      }
    }
  }

  // ---- Does the flag tell the truth? ----

  /** Data that counts as enabled is on: signaling, and the gadget pulled up. */
  predicate Truthful(d: Data) {
    d.enabled ==> d.nodes.data && d.nodes.pulledUp
  }

  /** A success to turn data on means that it is on, exactly when the flag told the truth before. */
  lemma EnableReported(d: Data, io: Io)
    requires Reports(d, Enable(io))
    ensures var after := Next(d, Enable(io)).nodes; (after.data && after.pulledUp) <==> Truthful(d)
  {
  }

  /** A success to turn it off always means that all of it is off. */
  lemma DisableReported(d: Data, io: Io)
    requires Reports(d, Disable(io))
    ensures var after := Next(d, Disable(io));
            !after.enabled && !after.nodes.data && !after.nodes.pulledUp && !after.nodes.vbus && after.nodes.hostOff
  {
  }

  /** Turning data on, where it does not count as on, enables every mode that can be written and touches
      neither host mode nor Vbus; turning it off disables every mode that can be written; and each node whose
      write fails keeps its value. */
  lemma NodesFollowWrites(d: Data, io: Io)
    ensures var on, off := Next(d, Enable(io)).nodes, Next(d, Disable(io)).nodes;
            && (d.enabled ==> on == d.nodes)
            && (!d.enabled ==>
                  && (on.portMode <==> d.nodes.portMode || io.portModeOk)
                  && (on.partnerMode <==> d.nodes.partnerMode || (io.partnerFound && io.partnerModeOk))
                  && (on.data <==> d.nodes.data || io.dataOk) && (on.pulledUp <==> d.nodes.pulledUp || io.pullUpOk)
                  && on.hostOff == d.nodes.hostOff && on.vbus == d.nodes.vbus)
            && (off.portMode <==> d.nodes.portMode && !io.portModeOk)
            && (off.partnerMode <==> d.nodes.partnerMode && !(io.partnerFound && io.partnerModeOk))
            && (off.data <==> d.nodes.data && !io.dataOk) && (off.pulledUp <==> d.nodes.pulledUp && !io.pullUpOk)
            && (off.hostOff <==> d.nodes.hostOff || io.idOk) && (off.vbus <==> d.nodes.vbus && !io.vbusOk)
  {
  }

  /** The steps that make the flag lie: resetting the port, and failing to turn data off after part of it
      is off, both while data counts as enabled. */
  predicate Breaks(d: Data, step: Step) {
    match step
    case Enable(_) => false
    case Disable(io) => d.enabled && !Reports(d, step) && (io.dataOk || io.pullUpOk)
    case ResetPort(ok) => d.enabled && ok
  }

  lemma TruthIsKeptUnlessBroken(d: Data, step: Step)
    requires Truthful(d)
    ensures Truthful(Next(d, step)) <==> !Breaks(d, step)
  {
  }

  /** In every state of a run. */
  ghost predicate TruthfulThroughout(d: Data, steps: seq<Step>) {
    forall i :: 0 <= i <= |steps| ==> Truthful(After(d, steps[..i]))
  }

  ghost predicate NeverBroken(d: Data, steps: seq<Step>) {
    forall i :: 0 <= i < |steps| ==> !Breaks(After(d, steps[..i]), steps[i])
  }

  /** A run from a truthful start stays truthful throughout if and only if none of its steps is one of
      those. */
  lemma {:induction false} RunIsTruthful(d: Data, steps: seq<Step>)
    requires Truthful(d)
    ensures TruthfulThroughout(d, steps) <==> NeverBroken(d, steps)
  {
    if steps != [] {
      var n := |steps| - 1;
      RunIsTruthful(d, steps[..n]);
      LastState(d, steps);
      LastStep(d, steps);
      if TruthfulThroughout(d, steps[..n]) {
        assert steps[..n][..n] == steps[..n];
        TruthIsKeptUnlessBroken(After(d, steps[..n]), steps[n]);
      }
    } else {
      assert steps[..0] == [];
    }
  }

  lemma {:induction false} LastState(d: Data, steps: seq<Step>)
    requires steps != []
    ensures TruthfulThroughout(d, steps) <==>
            TruthfulThroughout(d, steps[..|steps| - 1]) && Truthful(After(d, steps))
  {
    var n := |steps| - 1;
    assert forall i :: 0 <= i <= n ==> steps[..n][..i] == steps[..i];
    assert steps[..n + 1] == steps;
  }

  lemma {:induction false} LastStep(d: Data, steps: seq<Step>)
    requires steps != []
    ensures var n := |steps| - 1;
            NeverBroken(d, steps) <==> NeverBroken(d, steps[..n]) && !Breaks(After(d, steps[..n]), steps[n])
  {
    var n := |steps| - 1;
    assert forall i :: 0 <= i <= n ==> steps[..n][..i] == steps[..i];
  }

  /** So after a failed attempt to turn data off, or a reset, the next request to turn it on is reported as
      a success though it writes nothing and data stays off, whatever the file system would have done. */
  lemma EnableAfterBreak(d: Data, step: Step, io: Io)
    requires Truthful(d) && Breaks(d, step)
    ensures var broken := Next(d, step);
            && Reports(broken, Enable(io)) && Next(broken, Enable(io)) == broken
            && !(broken.nodes.data && broken.nodes.pulledUp)
  {
  }
}
