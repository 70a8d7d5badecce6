/** The map of Type-C ports and the status of each (Usb.cpp:788-923). */
module PortStatus {
  import opened Wrappers
  import opened Text
  import opened PortRoles

  // ---- getTypeCPortNamesHelper ----

  /** An entry of /sys/class/typec. */
  datatype Entry = Entry(isLink: bool, name: string)

  const PARTNER: string := "-partner"

  predicate IsPartner(entry: Entry) {
    Contains(entry.name, PARTNER)
  }

  /** The first token of strtok with the delimiter '-': leading delimiters are skipped. */
  function FirstToken(s: string): string {
    if s != [] && s[0] == '-' then FirstToken(s[1..]) else s[..Find(s, '-', 0)]
  }

  /** The port an entry is about. */
  function PortOf(entry: Entry): string {
    if IsPartner(entry) then FirstToken(entry.name) else entry.name
  }

  /** What one entry does to the map. */
  function Enter(names: map<string, bool>, entry: Entry): map<string, bool> {
    if !entry.isLink then names
    else if IsPartner(entry) then names[PortOf(entry) := true]
    else if entry.name in names then names
    else names[entry.name := false]
  }

  function EnterAll(entries: seq<Entry>): map<string, bool> {
    if entries == [] then map[] else Enter(EnterAll(entries[..|entries| - 1]), entries[|entries| - 1])
  }

  /** `entries` is the order in which the directory is read; None when it does not open. */
  method GetTypeCPortNames(directory: Option<seq<Entry>>) returns (names: Option<map<string, bool>>)
    ensures names == if directory.Some? then Some(EnterAll(directory.value)) else None
  {
    if directory.None? {
      return None;
    }
    var entries, found, n := directory.value, map[], 0;
    assert entries[..0] == [];
    while n < |entries|
      invariant n <= |entries| && found == EnterAll(entries[..n])
    {
      assert entries[..n + 1][..n] == entries[..n];
      var ep := entries[n];
      if ep.isLink {
        if !IsPartner(ep) {
          if ep.name !in found {
            found := found[ep.name := false];
          }
        } else {
          found := found[FirstToken(ep.name) := true];
        }
      }
      n := n + 1;
    }
    assert entries[..n] == entries;
    names := Some(found);
  }

  ghost predicate Named(port: string, entries: seq<Entry>) {
    exists entry :: entry in entries && entry.isLink && PortOf(entry) == port
  }

  ghost predicate HasPartner(port: string, entries: seq<Entry>) {
    exists entry :: entry in entries && entry.isLink && IsPartner(entry) && PortOf(entry) == port
  }

  /** The map holds the ports that links are about; a port is connected iff one of them is a partner's. */
  lemma {:induction false} PortsAreNamed(entries: seq<Entry>, port: string)
    ensures var names := EnterAll(entries);
            && (port in names <==> Named(port, entries))
            && (port in names ==> names[port] == HasPartner(port, entries))
  {
    if entries != [] {
      var before, last := entries[..|entries| - 1], entries[|entries| - 1];
      PortsAreNamed(before, port);
      assert entries == before + [last];
      assert forall entry :: entry in entries <==> entry in before || entry == last;
      if last.isLink && PortOf(last) == port {
        assert Named(port, entries);
        assert IsPartner(last) ==> HasPartner(port, entries);
      }
      if Named(port, before) {
        var entry :| entry in before && entry.isLink && PortOf(entry) == port;
        assert entry in entries;
      }
      if HasPartner(port, before) {
        var entry :| entry in before && entry.isLink && IsPartner(entry) && PortOf(entry) == port;
        assert entry in entries;
      }
    }
  }

  /** The order of the directory does not matter, nor does reading an entry twice. */
  lemma OrderIrrelevant(a: seq<Entry>, b: seq<Entry>)
    requires forall entry :: entry in a <==> entry in b
    ensures EnterAll(a) == EnterAll(b)
  {
    forall port ensures port in EnterAll(a) <==> port in EnterAll(b)
            ensures port in EnterAll(a) ==> EnterAll(a)[port] == EnterAll(b)[port] {
      PortsAreNamed(a, port);
      PortsAreNamed(b, port);
      if HasPartner(port, a) {
        var entry :| entry in a && entry.isLink && IsPartner(entry) && PortOf(entry) == port;
        assert entry in b;
      }
      if HasPartner(port, b) {
        var entry :| entry in b && entry.isLink && IsPartner(entry) && PortOf(entry) == port;
        assert entry in a;
      }
    }
  }

  /** The link of the partner of `port`. */
  function PartnerOf(port: string): Entry {
    Entry(true, port + PARTNER)
  }

  /** The partner's link is taken for the port's exactly when the port's name is not empty and has no
      hyphen. */
  lemma {:induction false} PartnerFindsPort(port: string)
    ensures IsPartner(PartnerOf(port))
    ensures PortOf(PartnerOf(port)) == port <==> port != "" && '-' !in port
  {
    var name := port + PARTNER;
    assert name[|port|..] == PARTNER;
    if port != "" && '-' !in port {
      FindIs(name, '-', |port|) by {
        assert name[..|port|] == port;
      }
      assert name[0] == port[0];
      assert name[..|port|] == port;
    } else {
      TokenHasNoHyphen(name);
    }
  }

  lemma {:induction false} TokenHasNoHyphen(s: string)
    ensures '-' !in FirstToken(s)
    ensures FirstToken(s) == "" ==> forall c :: c in s ==> c == '-'
    decreases |s|
  {
    if s != [] && s[0] == '-' {
      TokenHasNoHyphen(s[1..]);
      assert s == [s[0]] + s[1..];
    } else {
      var k := Find(s, '-', 0);
      assert forall i :: 0 <= i < k ==> s[..k][i] == s[i];
      assert k == 0 ==> s == [];
    }
  }

  /** Where every partner link is that of a port without a hyphen in its name, a port is connected iff its
      own partner's link is there. */
  lemma ConnectedIffPartner(entries: seq<Entry>, port: string)
    requires forall entry :: entry in entries && entry.isLink && IsPartner(entry) ==>
               exists p :: p != "" && '-' !in p && entry == PartnerOf(p)
    requires port != "" && '-' !in port
    ensures var names := EnterAll(entries);
            port in names && names[port] <==> PartnerOf(port) in entries
  {
    PortsAreNamed(entries, port);
    PartnerFindsPort(port);
    if HasPartner(port, entries) {
      var entry :| entry in entries && entry.isLink && IsPartner(entry) && PortOf(entry) == port;
      var p :| p != "" && '-' !in p && entry == PartnerOf(p);
      PartnerFindsPort(p);
    }
  }

  /** A port with a hyphen in its name is connected in no directory, whatever links are there. */
  lemma HyphenatedPort(entries: seq<Entry>, port: string)
    requires '-' in port
    ensures var names := EnterAll(entries); port in names ==> !names[port]
  {
    PortsAreNamed(entries, port);
    if HasPartner(port, entries) {
      var entry :| entry in entries && entry.isLink && IsPartner(entry) && PortOf(entry) == port;
      TokenHasNoHyphen(entry.name);
    }
  }

  /** Its own partner's link makes another name connected. */
  lemma HyphenatedPartner(entries: seq<Entry>, port: string)
    requires '-' in port && PartnerOf(port) in entries
    ensures var names, other := EnterAll(entries), PortOf(PartnerOf(port));
            other != port && other in names && names[other]
  {
    PartnerFindsPort(port);
    PortsAreNamed(entries, PortOf(PartnerOf(port)));
  }

  // ---- getPortStatusHelper ----

  datatype UsbData = Enabled | DisabledDock | DisabledForce

  /** Unset is the value a new PortStatus has. */
  datatype PowerBrick = Unset | BrickConnected | BrickNotConnected | BrickUnknown

  datatype PortStatus = PortStatus(
    portName: string,
    currentPowerRole: Power,
    currentDataRole: Data,
    currentMode: Mode,
    canChangeMode: bool,
    canChangeDataRole: bool,
    canChangePowerRole: bool,
    supportedModes: seq<Mode>,
    usbDataStatus: seq<UsbData>,
    powerBrickStatus: PowerBrick
  )

  const NEW: PortStatus := PortStatus("", NoPower, NoData, NoMode, false, false, false, [], [], Unset)

  /** What the status is read from; `parseInt` is stoi, None where it would throw. */
  datatype Sources = Sources(
    nodes: Nodes,
    pogoUsbActive: Option<string>,
    usbType: Option<string>,
    usbDataEnabled: bool,
    parseInt: string -> Option<int>
  )

  /** Aborted: the union was asked for a member it does not hold, or stoi threw. */
  datatype Outcome = Done | Failed | Aborted

  function PdNode(port: string): string {
    port + "-partner/supports_usb_power_delivery"
  }

  /** canSwitchRoleHelper. */
  function CanSwitchRole(nodes: Nodes, port: string): bool {
    var node := Read(nodes, PdNode(port));
    node.Some? && Trim(node.value) == "yes"
  }

  predicate Docked(sources: Sources) {
    sources.pogoUsbActive.Some? && sources.parseInt(Trim(sources.pogoUsbActive.value)) == Some(1)
  }

  predicate PogoUnparsable(sources: Sources) {
    sources.pogoUsbActive.Some? && sources.parseInt(Trim(sources.pogoUsbActive.value)).None?
  }

  /** The reasons why a port's USB data is disabled, or Enabled when there is none. */
  function DataStatus(sources: Sources): seq<UsbData> {
    var reasons := (if Docked(sources) then [DisabledDock] else []) +
                   (if sources.usbDataEnabled then [] else [DisabledForce]);
    if reasons == [] then [Enabled] else reasons
  }

  function Brick(sources: Sources, connected: bool): PowerBrick {
    if !connected then BrickNotConnected
    else match sources.usbType
      case None => Unset
      case Some(usbType) =>
        if Contains(usbType, "[D") then BrickConnected
        else if Contains(usbType, "[U") then BrickUnknown
        else BrickNotConnected
  }

  /** How a read of a role ends for the caller, who then asks for the member of `tag`. */
  function RoleOutcome(sources: Sources, port: string, connected: bool, tag: Tag): Outcome {
    var current := CurrentRole(sources.nodes, port, connected, tag);
    if !current.status.Success? then Failed else if current.role.Tag() != tag then Aborted else Done
  }

  /** The first thing that goes wrong for a port. */
  function PortOutcome(sources: Sources, port: string, connected: bool): Outcome {
    var power := RoleOutcome(sources, port, connected, PowerTag);
    var data := RoleOutcome(sources, port, connected, DataTag);
    var mode := RoleOutcome(sources, port, connected, ModeTag);
    if !power.Done? then power
    else if !data.Done? then data
    else if !mode.Done? then mode
    else if PogoUnparsable(sources) then Aborted
    else Done
  }

  /** The status that describes a port. */
  predicate Describes(status: PortStatus, port: string, connected: bool, sources: Sources) {
    && status.portName == port
    && CurrentRole(sources.nodes, port, connected, PowerTag).role == PowerRole(status.currentPowerRole)
    && CurrentRole(sources.nodes, port, connected, DataTag).role == DataRole(status.currentDataRole)
    && CurrentRole(sources.nodes, port, connected, ModeTag).role == ModeRole(status.currentMode)
    && status.canChangeMode
    && status.canChangeDataRole == status.canChangePowerRole == (connected && CanSwitchRole(sources.nodes, port))
    && status.supportedModes == [Drp]
    && status.usbDataStatus == DataStatus(sources)
    && status.powerBrickStatus == Brick(sources, connected)
  }

  /** An order in which a map of ports is iterated over. */
  ghost predicate Lists(order: seq<string>, names: map<string, bool>) {
    && (forall port :: port in order <==> port in names)
    && (forall i, j :: 0 <= i < j < |order| ==> order[i] != order[j])
  }

  /** The loop body of getPortStatusHelper, for one port of the resized vector. */
  method FillPort(sources: Sources, port: string, connected: bool, given: PortStatus) returns (outcome: Outcome, status: PortStatus)
    requires given == NEW
    ensures outcome == PortOutcome(sources, port, connected)
    ensures outcome.Done? ==> Describes(status, port, connected, sources)
  {
    status := given.(portName := port);
    var read, currentRole := GetCurrentRole(sources.nodes, port, connected, PowerRole(NoPower));
    if !read.Success? {
      return Failed, status;
    } else if !currentRole.PowerRole? {
      return Aborted, status;
    }
    status := status.(currentPowerRole := currentRole.power);

    read, currentRole := GetCurrentRole(sources.nodes, port, connected, DataRole(NoData));
    if !read.Success? {
      return Failed, status;
    } else if !currentRole.DataRole? {
      return Aborted, status;
    }
    status := status.(currentDataRole := currentRole.data);

    read, currentRole := GetCurrentRole(sources.nodes, port, connected, ModeRole(NoMode));
    if !read.Success? {
      return Failed, status;
    } else if !currentRole.ModeRole? {
      return Aborted, status;
    }
    status := status.(currentMode := currentRole.mode);

    var canSwitch := connected && CanSwitchRole(sources.nodes, port);
    status := status.(canChangeMode := true, canChangeDataRole := canSwitch, canChangePowerRole := canSwitch,
                      supportedModes := status.supportedModes + [Drp]);
    if PogoUnparsable(sources) {
      return Aborted, status;
    }
    var usbData := AppendDataStatus(sources, status.usbDataStatus);
    status := status.(usbDataStatus := usbData, powerBrickStatus := Brick(sources, connected));
    outcome := Done;
  }

  /** Lines 876-889. */
  method AppendDataStatus(sources: Sources, given: seq<UsbData>) returns (usbData: seq<UsbData>)
    ensures usbData == given + DataStatus(sources)
  {
    usbData := given;
    var dataEnabled := true;
    if Docked(sources) {
      usbData := usbData + [DisabledDock];
      dataEnabled := false;
    }
    if !sources.usbDataEnabled {
      usbData := usbData + [DisabledForce];
      dataEnabled := false;
    }
    if dataEnabled {
      usbData := usbData + [Enabled];
    }
  }

  /** getPortStatusHelper on an empty vector: it is done exactly when every port is, and then has one
      status for each port of the map; otherwise the outcome is that of the first port that is not. */
  method GetPortStatus(sources: Sources, names: Option<map<string, bool>>, order: seq<string>)
    returns (outcome: Outcome, status: seq<PortStatus>)
    requires names.Some? ==> Lists(order, names.value)
    ensures names.None? ==> outcome.Failed?
    ensures names.Some? && outcome.Done? ==>
              |status| == |order| &&
              forall i :: 0 <= i < |order| ==>
                PortOutcome(sources, order[i], names.value[order[i]]).Done? &&
                Describes(status[i], order[i], names.value[order[i]], sources)
    ensures names.Some? && !outcome.Done? ==>
              exists i :: 0 <= i < |order| && outcome == PortOutcome(sources, order[i], names.value[order[i]]) &&
                          forall j :: 0 <= j < i ==> PortOutcome(sources, order[j], names.value[order[j]]).Done?
  {
    status := [];
    if names.None? {
      return Failed, status;
    }
    status := seq(|order|, _ => NEW);
    var i := 0;
    while i < |order|
      invariant i <= |order| == |status|
      invariant forall j :: i <= j < |order| ==> status[j] == NEW
      invariant forall j :: 0 <= j < i ==>
                  PortOutcome(sources, order[j], names.value[order[j]]).Done? &&
                  Describes(status[j], order[j], names.value[order[j]], sources)
    {
      var port := order[i];
      assert port in names.value;
      var filled;
      outcome, filled := FillPort(sources, port, names.value[port], status[i]);
      status := status[i := filled];
      if !outcome.Done? {
        return;
      }
      i := i + 1;
    }
    outcome := Done;
  }

  /** What a status says, in terms of the texts it was read from. */
  lemma StatusMeaning(status: PortStatus, port: string, connected: bool, sources: Sources)
    requires Describes(status, port, connected, sources)
    ensures status.portName == port && status.canChangeMode && status.supportedModes == [Drp]
    ensures var pd := Read(sources.nodes, port + "-partner/supports_usb_power_delivery");
            (status.canChangeDataRole <==> connected && pd.Some? && Trim(pd.value) == "yes") &&
            status.canChangePowerRole == status.canChangeDataRole
    ensures DisabledDock in status.usbDataStatus <==>
            sources.pogoUsbActive.Some? && sources.parseInt(Trim(sources.pogoUsbActive.value)) == Some(1)
    ensures DisabledForce in status.usbDataStatus <==> !sources.usbDataEnabled
    ensures var t := sources.usbType;
            && (status.powerBrickStatus == BrickConnected <==> connected && t.Some? && Contains(t.value, "[D"))
            && (status.powerBrickStatus == BrickUnknown <==>
                connected && t.Some? && !Contains(t.value, "[D") && Contains(t.value, "[U"))
            && (status.powerBrickStatus == Unset <==> connected && t.None?)
  {
    DataStatusIsReasons(sources);
  }

  /** A disconnected port has no roles, cannot change its roles and has no power brick. */
  lemma DisconnectedHasNoRoles(status: PortStatus, port: string, sources: Sources)
    requires Describes(status, port, false, sources)
    ensures status.currentPowerRole.NoPower? && status.currentDataRole.NoData? && status.currentMode.NoMode?
    ensures !status.canChangeDataRole && !status.canChangePowerRole && status.powerBrickStatus.BrickNotConnected?
  {
  }

  /** USB data is reported as enabled alone, or as disabled for at least one reason and no more than
      there are. */
  lemma DataStatusIsReasons(sources: Sources)
    ensures var data := DataStatus(sources);
            && (Enabled in data <==> data == [Enabled])
            && (data == [Enabled] <==> !Docked(sources) && sources.usbDataEnabled)
            && (data != [Enabled] ==> data in {[DisabledDock], [DisabledForce], [DisabledDock, DisabledForce]})
            && (DisabledDock in data <==> Docked(sources))
            && (DisabledForce in data <==> !sources.usbDataEnabled)
  {
    var dock := if Docked(sources) then [DisabledDock] else [];
    assert dock + [] == dock && [] + [DisabledForce] == [DisabledForce];
    assert [DisabledDock] + [DisabledForce] == [DisabledDock, DisabledForce];
  }

  /** Which ports can be reported: none while the pogo text is not a number; else a disconnected one always,
      and a connected one exactly when its nodes can be read and hold texts of their own kind. */
  lemma PortOutcomeDecision(sources: Sources, port: string, connected: bool)
    ensures PortOutcome(sources, port, connected).Done? <==>
            && !PogoUnparsable(sources)
            && (connected ==>
                  && PowerText(sources.nodes, port) in {Some("source"), Some("sink"), Some("none")}
                  && DataText(sources.nodes, port) in {Some("host"), Some("device"), Some("none")}
                  && Read(sources.nodes, AccessoryNode(port)).Some?)
  {
    if connected {
      PowerOutcome(sources, port);
      DataOutcome(sources, port);
      if RoleOutcome(sources, port, true, DataTag).Done? {
        ModeOutcome(sources, port);
      }
    }
  }

  function PowerText(nodes: Nodes, port: string): Option<string> {
    var node := Read(nodes, RoleNode(port, PowerTag));
    if node.Some? then Some(Extracted(Trim(node.value))) else None
  }

  function DataText(nodes: Nodes, port: string): Option<string> {
    var node := Read(nodes, RoleNode(port, DataTag));
    if node.Some? then Some(Extracted(Trim(node.value))) else None
  }

  lemma PowerOutcome(sources: Sources, port: string)
    ensures RoleOutcome(sources, port, true, PowerTag).Done? <==>
            PowerText(sources.nodes, port) in {Some("source"), Some("sink"), Some("none")}
  {
  }

  lemma DataOutcome(sources: Sources, port: string)
    ensures RoleOutcome(sources, port, true, DataTag).Done? <==>
            DataText(sources.nodes, port) in {Some("host"), Some("device"), Some("none")}
  {
  }

  lemma ModeOutcome(sources: Sources, port: string)
    requires DataText(sources.nodes, port) in {Some("host"), Some("device"), Some("none")}
    ensures RoleOutcome(sources, port, true, ModeTag).Done? <==> Read(sources.nodes, AccessoryNode(port)).Some?
  {
  }

  // ---- queryVersionHelper ----

  /** The fields of `struct Usb` that a status query uses, with the statuses sent to the callback, as
      getPortStatusHelper fills them, and the number of times a query has started the DisplayPort poll. */
  class StatusQuery {
    var hasCallback: bool
    var mDisplayPortFirstSetupDone: bool
    var setups: nat
    var answers: seq<seq<PortStatus>>

    /** Usb.h leaves the flag without an initial value. */
    constructor (firstSetupDone: bool)
      ensures !hasCallback && mDisplayPortFirstSetupDone == firstSetupDone && setups == 0 && answers == []
    {
      hasCallback, mDisplayPortFirstSetupDone, setups, answers := false, firstSetupDone, 0, [];
    }

    /** Lines 1086-1119: a callback hears of a status exactly when it was read without failure and has a
        port; only then may the query also start the DisplayPort poll, and never a second time. */
    method QueryVersion(sources: Sources, directory: Option<seq<Entry>>, order: seq<string>, displayPortFound: bool)
      returns (outcome: Outcome)
      requires directory.Some? ==> Lists(order, EnterAll(directory.value))
      modifies this`mDisplayPortFirstSetupDone, this`setups, this`answers
      ensures outcome.Done? ==> directory.Some?
      ensures outcome.Done? && order != [] && hasCallback ==>
                && |answers| == |old(answers)| + 1 && old(answers) <= answers
                && |answers[|old(answers)|]| == |order|
                && forall i :: 0 <= i < |order| ==>
                     Describes(answers[|old(answers)|][i], order[i], EnterAll(directory.value)[order[i]], sources)
      ensures !(outcome.Done? && order != [] && hasCallback) ==> answers == old(answers)
      ensures setups == old(setups) +
              if outcome.Done? && order != [] && displayPortFound && !old(mDisplayPortFirstSetupDone) then 1 else 0
      ensures mDisplayPortFirstSetupDone == (old(mDisplayPortFirstSetupDone) || setups > old(setups))
    {
      var names := GetTypeCPortNames(directory);
      var currentPortStatus;
      outcome, currentPortStatus := GetPortStatus(sources, names, order);
      if outcome.Done? && |currentPortStatus| > 0 {
        if !mDisplayPortFirstSetupDone && displayPortFound {
          mDisplayPortFirstSetupDone := true;
          setups := setups + 1;
        }
        if hasCallback {
          answers := answers + [currentPortStatus];
        }
      }
    }
  }
}
