/** Reading and switching the roles of a Type-C port (Usb.cpp:395-439, 583-641, 709-786). */
module PortRoles {
  import opened Wrappers
  import opened Text

  datatype Power = NoPower | Source | Sink

  datatype Data = NoData | Host | Device

  datatype Mode = NoMode | Ufp | Dfp | Drp | AudioAccessory | DebugAccessory

  datatype Tag = PowerTag | DataTag | ModeTag

  /** The AIDL union PortRole. */
  datatype Role = PowerRole(power: Power) | DataRole(data: Data) | ModeRole(mode: Mode)
  {
    function Tag(): Tag {
      match this
      case PowerRole(_) => PowerTag
      case DataRole(_) => DataTag
      case ModeRole(_) => ModeTag
    }
  }

  datatype Status = Success | Error | UnrecognizedRole

  /** The readable nodes under /sys/class/typec. */
  type Nodes = map<string, string>

  function Read(nodes: Nodes, path: string): Option<string> {
    if path in nodes then Some(nodes[path]) else None
  }

  function NodeName(tag: Tag): string {
    match tag
    case PowerTag => "/power_role"
    case DataTag => "/data_role"
    case ModeTag => "/port_type"
  }

  /** appendRoleNodeHelper, without the directory that all nodes share. */
  function RoleNode(port: string, tag: Tag): string {
    port + NodeName(tag)
  }

  function AccessoryNode(port: string): string {
    port + "-partner/accessory_mode"
  }

  /** convertRoletoString. */
  function RoleText(role: Role): string {
    match role
    case PowerRole(Source) => "source"
    case PowerRole(Sink) => "sink"
    case DataRole(Host) => "host"
    case DataRole(Device) => "device"
    case ModeRole(Ufp) => "sink"
    case ModeRole(Dfp) => "source"
    case _ => "none"
  }

  // ---- extractRole ----

  const SIZE: int := 0x1_0000_0000_0000_0000

  /** std::string::substr, whose count is a 64-bit size_t. */
  function Substr(s: string, pos: nat, count: nat): string
    requires pos <= |s|
  {
    if count <= |s| - pos then s[pos..pos + count] else s[pos..]
  }

  /** The bracketed part of the text a role node holds; the count wraps around when ']' comes first. */
  function Extracted(s: string): string {
    var first, last := Find(s, '[', 0), Find(s, ']', 0);
    if first < |s| && last < |s| then Substr(s, first + 1, (last - first - 1) % SIZE) else s
  }

  /** `c` is at k and not before. */
  predicate FirstAt(s: string, c: char, k: nat) {
    k < |s| && s[k] == c && c !in s[..k]
  }

  /** What is kept: a text without both brackets; else what follows the first '[', up to the first ']' if
      that comes later. */
  ghost predicate IsRolePart(s: string, part: string) {
    && (!('[' in s && ']' in s) ==> part == s)
    && forall i: nat, j: nat :: FirstAt(s, '[', i) && FirstAt(s, ']', j) ==> part == if i < j then s[i + 1..j] else s[i + 1..]
  }

  /** The 64-bit wrap-around of a difference of two positions. */
  lemma Wraps(x: int)
    requires -SIZE < x < SIZE
    ensures x % SIZE == if x >= 0 then x else x + SIZE
  {
  }

  lemma ExtractedIsRolePart(s: string)
    requires |s| < SIZE
    ensures IsRolePart(s, Extracted(s))
  {
    forall i: nat, j: nat | FirstAt(s, '[', i) && FirstAt(s, ']', j)
      ensures Extracted(s) == if i < j then s[i + 1..j] else s[i + 1..]
    {
      FindIs(s, '[', i);
      FindIs(s, ']', j);
      Wraps(j - i - 1);
    }
  }

  lemma RolePartIsUnique(s: string, a: string, b: string)
    requires IsRolePart(s, a) && IsRolePart(s, b)
    ensures a == b
  {
    if '[' in s && ']' in s {
      FindsFirst(s, '[');
      FindsFirst(s, ']');
    }
  }

  lemma FindsFirst(s: string, c: char)
    requires c in s
    ensures FirstAt(s, c, Find(s, c, 0))
  {
    var i :| 0 <= i < |s| && s[i] == c;
  }

  method ExtractRole(roleName: string) returns (extracted: string)
    ensures |roleName| < SIZE ==> IsRolePart(roleName, extracted)
    ensures extracted == Extracted(roleName)
  {
    if |roleName| < SIZE {
      ExtractedIsRolePart(roleName);
    }
    extracted := roleName;
    var first, last := Find(extracted, '[', 0), Find(extracted, ']', 0);
    if first < |extracted| && last < |extracted| {
      extracted := Substr(extracted, first + 1, (last - first - 1) % SIZE);
    }
  }

  /** The text between the first '[' and the first ']' after it, whatever follows. */
  lemma ExtractBetween(before: string, role: string, after: string)
    requires '[' !in before && ']' !in before && ']' !in role && |role| < SIZE
    ensures Extracted(before + "[" + role + "]" + after) == role
  {
    var s := before + "[" + role + "]" + after;
    assert s[..|before|] == before;
    FindIs(s, '[', |before|);
    var last := |before| + 1 + |role|;
    assert s[..last] == before + "[" + role;
    FindIs(s, ']', last);
    assert s[|before| + 1..last] == role;
    Wraps(last - |before| - 1);
  }

  /** With the brackets the other way round all that follows '[' is kept. */
  lemma ExtractReversed(before: string, between: string, after: string)
    requires '[' !in before && ']' !in before && '[' !in between
    requires |before| + |between| + |after| + 2 < SIZE
    ensures Extracted(before + "]" + between + "[" + after) == after
  {
    var s := before + "]" + between + "[" + after;
    assert s[..|before|] == before;
    FindIs(s, ']', |before|);
    var first := |before| + 1 + |between|;
    assert s[..first] == before + "]" + between;
    FindIs(s, '[', first);
    assert s[first + 1..] == after;
    Wraps(|before| - first - 1);
  }

  /** Exactly the texts that lack a bracket are left alone. */
  lemma ExtractUnchanged(s: string)
    ensures Extracted(s) == s <==> !('[' in s && ']' in s)
  {
    var first, last := Find(s, '[', 0), Find(s, ']', 0);
    if '[' in s && ']' in s {
      var i :| 0 <= i < |s| && s[i] == '[';
      var j :| 0 <= j < |s| && s[j] == ']';
      assert first < |s| && last < |s|;
      assert |Extracted(s)| < |s|;
    }
  }

  // ---- getCurrentRoleHelper ----

  datatype Current = Current(status: Status, role: Role)

  function NoRole(tag: Tag): Role {
    match tag
    case PowerTag => PowerRole(NoPower)
    case DataTag => DataRole(NoData)
    case ModeTag => ModeRole(NoMode)
  }

  /** The role a node's text stands for; a power text always sets the power member of the union, and a
      data text the mode member unless the data role was asked for. */
  function RoleOf(tag: Tag, text: string): Current {
    if text == "source" then Current(Success, PowerRole(Source))
    else if text == "sink" then Current(Success, PowerRole(Sink))
    else if text == "host" then Current(Success, if tag.DataTag? then DataRole(Host) else ModeRole(Dfp))
    else if text == "device" then Current(Success, if tag.DataTag? then DataRole(Device) else ModeRole(Ufp))
    else if text == "none" then Current(Success, NoRole(tag))
    else Current(UnrecognizedRole, NoRole(tag))
  }

  /** The mode is read from the data role node. */
  function ReadNode(port: string, tag: Tag): string {
    RoleNode(port, if tag.PowerTag? then PowerTag else DataTag)
  }

  function FromNode(nodes: Nodes, port: string, tag: Tag): Current {
    match Read(nodes, ReadNode(port, tag))
    case None => Current(Error, NoRole(tag))
    case Some(text) => RoleOf(tag, Extracted(Trim(text)))
  }

  /** getCurrentRoleHelper. */
  function CurrentRole(nodes: Nodes, port: string, connected: bool, tag: Tag): Current {
    if !connected then Current(Success, NoRole(tag))
    else if !tag.ModeTag? then FromNode(nodes, port, tag)
    else match Read(nodes, AccessoryNode(port))
      case None => Current(Error, NoRole(tag))
      case Some(accessory) =>
        if Trim(accessory) == "analog_audio" then Current(Success, ModeRole(AudioAccessory))
        else if Trim(accessory) == "debug" then Current(Success, ModeRole(DebugAccessory))
        else FromNode(nodes, port, tag)
  }

  /** The caller's union is set to no role first and rewritten as the nodes are read. */
  method GetCurrentRole(nodes: Nodes, port: string, connected: bool, currentRole: Role) returns (status: Status, role: Role)
    ensures Current(status, role) == CurrentRole(nodes, port, connected, currentRole.Tag())
  {
    var filename;
    role := currentRole;
    match role {
      case PowerRole(_) => filename := RoleNode(port, PowerTag); role := PowerRole(NoPower);
      case DataRole(_) => filename := RoleNode(port, DataTag); role := DataRole(NoData);
      case ModeRole(_) => filename := RoleNode(port, DataTag); role := ModeRole(NoMode);
    }
    if !connected {
      return Success, role;
    }
    if role.ModeRole? {
      var accessory := Read(nodes, AccessoryNode(port));
      if accessory.None? {
        return Error, role;
      }
      var trimmed := Trim(accessory.value);
      if trimmed == "analog_audio" {
        return Success, ModeRole(AudioAccessory);
      } else if trimmed == "debug" {
        return Success, ModeRole(DebugAccessory);
      }
    }
    var content := Read(nodes, filename);
    if content.None? {
      return Error, role;
    }
    var roleName := ExtractRole(Trim(content.value));
    if roleName == "source" {
      role := PowerRole(Source);
    } else if roleName == "sink" {
      role := PowerRole(Sink);
    } else if roleName == "host" {
      role := if role.DataRole? then DataRole(Host) else ModeRole(Dfp);
    } else if roleName == "device" {
      role := if role.DataRole? then DataRole(Device) else ModeRole(Ufp);
    } else if roleName != "none" {
      return UnrecognizedRole, role;
    }
    status := Success;
  }

  // ---- switchRole for power and data roles ----

  const EOF: int := -1
  const EAGAIN: int := 11

  /** What the file system does to a role switch: whether the node opens, what the two fputs calls return,
      and what the node reads as afterwards. */
  datatype SwitchIo = SwitchIo(opens: bool, put: int, putAgain: int, after: Option<string>)

  function LastPut(io: SwitchIo): int {
    if io.put == EAGAIN then io.putAgain else io.put
  }

  /** The driver's answer to a write to an opened node. */
  function Settle(nodes: Nodes, path: string, io: SwitchIo): Nodes {
    match io.after
    case None => nodes - {path}
    case Some(text) => nodes[path := text]
  }

  /** notifyRoleSwitchStatus. */
  datatype Notice = Notice(port: string, role: Role, success: bool, transaction: int)

  class PortManager {
    var nodes: Nodes
    var hasCallback: bool
    var notices: seq<Notice>

    constructor (nodes: Nodes)
      ensures this.nodes == nodes && !hasCallback && notices == []
    {
      this.nodes := nodes;
      hasCallback, notices := false, [];
    }

    /** switchRole: lines 602-624 for a power or data role; `modeSwitched` is what switchMode returns. */
    method SwitchRole(port: string, role: Role, transaction: int, io: SwitchIo, modeSwitched: bool) returns (success: bool)
      modifies this`nodes, this`notices
      ensures role.ModeRole? ==> success == modeSwitched && nodes == old(nodes)
      ensures !role.ModeRole? ==>
              && success == Switches(role, io)
              && nodes == if io.opens then Settle(old(nodes), RoleNode(port, role.Tag()), io) else old(nodes)
      ensures notices == old(notices) + if hasCallback then [Notice(port, role, success, transaction)] else []
    {
      var filename := RoleNode(port, role.Tag());
      success := false;
      if role.ModeRole? {
        success := modeSwitched;
      } else if io.opens {
        var ret := io.put;
        if ret == EAGAIN {
          ret := io.putAgain;
        }
        nodes := Settle(nodes, filename, io);
        var read := Read(nodes, filename);
        if ret != EOF && read.Some? {
          var written := ExtractRole(Trim(read.value));
          if written == RoleText(role) {
            success := true;
          }
        }
      }
      if hasCallback {
        notices := notices + [Notice(port, role, success, transaction)];
      }
    }
  }

  /** The outcome of a power or data role switch. */
  predicate Switches(role: Role, io: SwitchIo) {
    io.opens && LastPut(io) != EOF && io.after.Some? && Extracted(Trim(io.after.value)) == RoleText(role)
  }

  /** A busy first write is retried once, and then only the retry counts. */
  lemma SwitchNeedsWrite(role: Role, io: SwitchIo)
    ensures Switches(role, io) <==>
            && io.opens && (if io.put == 11 then io.putAgain != -1 else io.put != -1)
            && io.after.Some? && Extracted(Trim(io.after.value)) == RoleText(role)
  {
  }

  /** The nodes below the port's directory; the mode is read from the data role's. */
  lemma NodePaths(port: string)
    ensures RoleNode(port, PowerTag) == ReadNode(port, PowerTag) == port + "/power_role"
    ensures RoleNode(port, DataTag) == ReadNode(port, DataTag) == ReadNode(port, ModeTag) == port + "/data_role"
    ensures RoleNode(port, ModeTag) == port + "/port_type"
    ensures AccessoryNode(port) == port + "-partner/accessory_mode"
  {
  }

  /** Each power or data role is the one its text stands for. */
  lemma RoleTextRoundTrip(role: Role)
    requires !role.ModeRole?
    ensures RoleOf(role.Tag(), RoleText(role)) == Current(Success, role)
  {
  }

  /** After a switch that was reported as a success, reading the role of the connected port from the same
      node contents gives that very role, its tag included. */
  lemma SwitchRoundTrip(nodes: Nodes, port: string, role: Role, io: SwitchIo, later: Nodes)
    requires !role.ModeRole? && Switches(role, io)
    requires Read(later, RoleNode(port, role.Tag())) == Read(Settle(nodes, RoleNode(port, role.Tag()), io), RoleNode(port, role.Tag()))
    ensures CurrentRole(later, port, true, role.Tag()) == Current(Success, role)
  {
    RoleTextRoundTrip(role);
  }

  /** And conversely: a completed write that reads back as the requested role is reported as a success. */
  lemma SwitchReported(nodes: Nodes, port: string, role: Role, io: SwitchIo)
    requires !role.ModeRole? && io.opens && LastPut(io) != EOF
    ensures var after := Settle(nodes, RoleNode(port, role.Tag()), io);
            Switches(role, io) <==>
            CurrentRole(after, port, true, role.Tag()) == Current(Success, role)
  {
    RoleTextDecides(role, if io.after.Some? then Extracted(Trim(io.after.value)) else "");
  }

  lemma RoleTextDecides(role: Role, text: string)
    requires !role.ModeRole?
    ensures RoleOf(role.Tag(), text) == Current(Success, role) <==> text == RoleText(role)
  {
  }

  /** The node of a connected port holds a text of the other kind, and is looked at. */
  predicate Mismatched(nodes: Nodes, port: string, connected: bool, tag: Tag) {
    var node, accessory := Read(nodes, ReadNode(port, tag)), Read(nodes, AccessoryNode(port));
    && connected && node.Some?
    && (tag.ModeTag? ==> accessory.Some? && Trim(accessory.value) != "analog_audio" && Trim(accessory.value) != "debug")
    && Extracted(Trim(node.value)) in if tag.PowerTag? then {"host", "device"} else {"source", "sink"}
  }

  /** A read leaves the union at the member asked for, except exactly when the node holds a text of the
      other kind: then it succeeds with another member. */
  lemma TagKept(nodes: Nodes, port: string, connected: bool, tag: Tag)
    ensures var current := CurrentRole(nodes, port, connected, tag);
            && (current.role.Tag() != tag <==> Mismatched(nodes, port, connected, tag))
            && (current.role.Tag() != tag ==> current.status.Success?)
  {
  }

  /** The mode that is read of a connected port: an accessory's where the accessory node says so, else the
      host's or the device's where the data role node does; and none where it says "none" or nothing known. */
  lemma ModeIsRead(nodes: Nodes, port: string)
    ensures var current := CurrentRole(nodes, port, true, ModeTag);
            var accessory, node := Read(nodes, AccessoryNode(port)), Read(nodes, RoleNode(port, DataTag));
            var special := accessory.Some? && Trim(accessory.value) in {"analog_audio", "debug"};
            var text := if node.Some? then Extracted(Trim(node.value)) else "";
            && (current == Current(Success, ModeRole(AudioAccessory)) <==> accessory.Some? && Trim(accessory.value) == "analog_audio")
            && (current == Current(Success, ModeRole(DebugAccessory)) <==> accessory.Some? && Trim(accessory.value) == "debug")
            && (current == Current(Success, ModeRole(Dfp)) <==> accessory.Some? && !special && node.Some? && text == "host")
            && (current == Current(Success, ModeRole(Ufp)) <==> accessory.Some? && !special && node.Some? && text == "device")
            && (current.status.Error? <==> accessory.None? || (!special && node.None?))
            && (current.status.UnrecognizedRole? <==>
                accessory.Some? && !special && node.Some? && text !in {"host", "device", "source", "sink", "none"})
  {
  }

  /** A mode is asked for by the text of the power role that goes with it. */
  lemma ModeTextIsPower(role: Role)
    ensures RoleText(role) == RoleText(PowerRole(Source)) <==> role in {PowerRole(Source), ModeRole(Dfp)}
    ensures RoleText(role) == RoleText(PowerRole(Sink)) <==> role in {PowerRole(Sink), ModeRole(Ufp)}
    ensures RoleText(role) == RoleText(DataRole(Host)) <==> role == DataRole(Host)
    ensures RoleText(role) == RoleText(DataRole(Device)) <==> role == DataRole(Device)
    ensures RoleText(PowerRole(Source)) == "source" && RoleText(PowerRole(Sink)) == "sink"
    ensures RoleText(DataRole(Host)) == "host" && RoleText(DataRole(Device)) == "device"
  {
  }

  // ---- One port's switch and the other ports ----

  lemma NodeNamesDiffer(port: string, tag: Tag, other: string, otherTag: Tag)
    requires RoleNode(port, tag) == RoleNode(other, otherTag)
    ensures port == other && tag == otherTag
  {
    var node := RoleNode(port, tag);
    var n := |node|;
    assert node[n - 1] == NodeName(tag)[|NodeName(tag)| - 1] == NodeName(otherTag)[|NodeName(otherTag)| - 1];
    assert node[n - 6] == NodeName(tag)[|NodeName(tag)| - 6] == NodeName(otherTag)[|NodeName(otherTag)| - 6];
    assert tag == otherTag;
    assert node[..n - |NodeName(tag)|] == port && node[..n - |NodeName(tag)|] == other;
  }

  lemma AccessoryNodeDiffers(port: string, tag: Tag, other: string)
    ensures RoleNode(port, tag) != AccessoryNode(other)
  {
    var a, b := RoleNode(port, tag), AccessoryNode(other);
    assert a[|a| - 4] == NodeName(tag)[|NodeName(tag)| - 4];
    assert b[|b| - 4] == 'm';
  }

  /** A switch changes what is read for no other port, nor the power role when it switches the data role
      or the other way round. */
  lemma SwitchFrame(nodes: Nodes, port: string, role: Role, io: SwitchIo, other: string, connected: bool, tag: Tag)
    requires !role.ModeRole? && (other != port || (tag.PowerTag? != role.Tag().PowerTag?))
    ensures CurrentRole(Settle(nodes, RoleNode(port, role.Tag()), io), other, connected, tag) ==
            CurrentRole(nodes, other, connected, tag)
  {
    var node := RoleNode(port, role.Tag());
    AccessoryNodeDiffers(port, role.Tag(), other);
    if ReadNode(other, tag) == node {
      NodeNamesDiffer(port, role.Tag(), other, if tag.PowerTag? then PowerTag else DataTag);
    }
    assert Read(Settle(nodes, node, io), ReadNode(other, tag)) == Read(nodes, ReadNode(other, tag));
  }
}
