/** uevent_event (Usb.cpp:1212-1301): the scan of one kernel message, a sequence of NUL-terminated
    fields, for the fields the service acts on. */
module Uevent {
  import opened Wrappers
  import opened Text

  const MSG_LEN: nat := 2048
  const NUL: char := '\0'

  /** matchUeventType (Usb.cpp:1203). */
  datatype UeventType = Unknown | Bind | Change

  /** What the service does about a message. */
  datatype Effect =
    | PartnerAdded
    | PartnerRemoved
    | PortChanged(tcpc: bool)
    | Overheated
    | SetupPoll
    | ShutdownPoll

  /** What a field is to the scan. */
  datatype Kind = Plain(effects: seq<Effect>) | Action(uevent: UeventType) | DisplayPortDriver

  /** std::regex_match on "(verb)(.*)(-partner)"; `.` matches no line terminator. */
  predicate MatchesPartner(field: string, verb: string) {
    && verb <= field
    && EndsWith(field, "-partner")
    && |verb| + |"-partner"| <= |field|
    && var middle := field[|verb|..|field| - |"-partner"|]; '\n' !in middle && '\r' !in middle
  }

  predicate ChangesPort(field: string) {
    || "DEVTYPE=typec_" <= field
    || "DRIVER=max77759tcpc" <= field
    || "DRIVER=pogo-transport" <= field
    || "POWER_SUPPLY_NAME=usb" <= field
  }

  function TypeOf(field: string): UeventType {
    if "ACTION=bind" <= field then Bind else if "ACTION=change" <= field then Change else Unknown
  }

  /** The branches of the scan, in the order of the source. */
  function Classify(field: string): Kind {
    if MatchesPartner(field, "add") then Plain([PartnerAdded])
    else if MatchesPartner(field, "remove") then Plain([PartnerRemoved])
    else if ChangesPort(field) then Plain([PortChanged("DRIVER=max77759tcpc" <= field)])
    else if "DRIVER=google,usbc_port_cooling_dev" <= field then Plain([Overheated])
    else if "ACTION=" <= field then Action(TypeOf(field))
    else if "DRIVER=typec_displayport" <= field then DisplayPortDriver
    else Plain([])
  }

  lemma NoPrefix(p: string, s: string, i: nat)
    requires i < |p| && i < |s| && p[i] != s[i]
    ensures !(p <= s)
  {
  }

  lemma ActionIsAction(field: string)
    requires "ACTION=" <= field
    ensures Classify(field).Action?
  {
    assert field[0] == "ACTION="[0];
    NoPrefix("add", field, 0);
    NoPrefix("remove", field, 0);
    NoPrefix("DEVTYPE=typec_", field, 0);
    NoPrefix("DRIVER=max77759tcpc", field, 0);
    NoPrefix("DRIVER=pogo-transport", field, 0);
    NoPrefix("POWER_SUPPLY_NAME=usb", field, 0);
    NoPrefix("DRIVER=google,usbc_port_cooling_dev", field, 0);
  }

  lemma DriverIsDriver(field: string)
    requires "DRIVER=typec_displayport" <= field
    ensures Classify(field).DisplayPortDriver?
  {
    var driver := "DRIVER=typec_displayport";
    assert field[0] == driver[0] && field[1] == driver[1] && field[7] == driver[7];
    NoPrefix("add", field, 0);
    NoPrefix("remove", field, 0);
    NoPrefix("DEVTYPE=typec_", field, 1);
    NoPrefix("DRIVER=max77759tcpc", field, 7);
    NoPrefix("DRIVER=pogo-transport", field, 7);
    NoPrefix("POWER_SUPPLY_NAME=usb", field, 0);
    NoPrefix("DRIVER=google,usbc_port_cooling_dev", field, 7);
    NoPrefix("ACTION=", field, 0);
  }

  /** The fields that decide about the poll worker are recognised by their prefix alone: no earlier
      branch of the scan takes one of them away. */
  lemma DecidingFields(field: string)
    ensures Classify(field).Action? <==> "ACTION=" <= field
    ensures Classify(field).DisplayPortDriver? <==> "DRIVER=typec_displayport" <= field
  {
    if "ACTION=" <= field {
      ActionIsAction(field);
    }
    if "DRIVER=typec_displayport" <= field {
      DriverIsDriver(field);
    }
  }

  // ---- From kinds of fields to effects ----

  function PollEffect(uevent: UeventType): seq<Effect> {
    match uevent
    case Bind => [SetupPoll]
    case Change => [ShutdownPoll]
    case Unknown => []
  }

  /** The number of fields before the first one that names the DisplayPort driver. */
  function BeforeDriver(kinds: seq<Kind>): (n: nat)
    ensures n <= |kinds|
    ensures forall i :: 0 <= i < n ==> !kinds[i].DisplayPortDriver?
    ensures n < |kinds| ==> kinds[n].DisplayPortDriver?
  {
    if kinds == [] || kinds[0].DisplayPortDriver? then 0 else 1 + BeforeDriver(kinds[1..])
  }

  /** The type given by the last action; Unknown without one. */
  function LastAction(kinds: seq<Kind>): UeventType {
    if kinds == [] then Unknown
    else if kinds[|kinds| - 1].Action? then kinds[|kinds| - 1].uevent
    else LastAction(kinds[..|kinds| - 1])
  }

  function AllPlain(kinds: seq<Kind>): seq<Effect> {
    if kinds == [] then [] else (if kinds[0].Plain? then kinds[0].effects else []) + AllPlain(kinds[1..])
  }

  /** The effects of the fields before the DisplayPort driver, and then the one poll effect chosen by
      the last action before it. */
  function EffectsOf(kinds: seq<Kind>): seq<Effect> {
    var n := BeforeDriver(kinds);
    AllPlain(kinds[..n]) + if n < |kinds| then PollEffect(LastAction(kinds[..n])) else []
  }

  /** A left-to-right pass with the type seen so far, as the scan does it. */
  function Pass(kinds: seq<Kind>, uevent: UeventType): seq<Effect> {
    if kinds == [] then []
    else match kinds[0]
      case Plain(effects) => effects + Pass(kinds[1..], uevent)
      case Action(next) => Pass(kinds[1..], next)
      case DisplayPortDriver => PollEffect(uevent)
  }

  lemma Regroup(a: seq<Effect>, b: seq<Effect>, c: seq<Effect>)
    ensures (a + b) + c == a + (b + c)
  {
  }

  lemma {:induction false} PassFrom(before: seq<Kind>, kinds: seq<Kind>)
    ensures var n := BeforeDriver(kinds);
            Pass(kinds, LastAction(before)) ==
            AllPlain(kinds[..n]) + if n < |kinds| then PollEffect(LastAction(before + kinds[..n])) else []
    decreases |kinds|
  {
    if kinds == [] {
    } else if kinds[0].DisplayPortDriver? {
      assert before + kinds[..0] == before;
    } else {
      var tail := kinds[1..];
      var n, m := BeforeDriver(kinds), BeforeDriver(tail);
      LastActionStep(before, kinds[0]);
      PassFrom(before + [kinds[0]], tail);
      PlainStep(kinds, n);
      assert before + [kinds[0]] + tail[..m] == before + kinds[..n];
      var first := if kinds[0].Plain? then kinds[0].effects else [];
      var last := if n < |kinds| then PollEffect(LastAction(before + kinds[..n])) else [];
      Regroup(first, AllPlain(tail[..m]), last);
      assert [] + Pass(tail, LastAction(before + [kinds[0]])) == Pass(tail, LastAction(before + [kinds[0]]));
    }
  }

  lemma LastActionStep(before: seq<Kind>, kind: Kind)
    ensures LastAction(before + [kind]) == if kind.Action? then kind.uevent else LastAction(before)
  {
    assert (before + [kind])[..|before|] == before;
  }

  lemma PlainStep(kinds: seq<Kind>, n: nat)
    requires 0 < n <= |kinds|
    ensures AllPlain(kinds[..n]) ==
            (if kinds[0].Plain? then kinds[0].effects else []) + AllPlain(kinds[1..][..n - 1])
  {
    assert kinds[..n][1..] == kinds[1..][..n - 1];
  }

  lemma PassIsEffects(kinds: seq<Kind>)
    ensures Pass(kinds, Unknown) == EffectsOf(kinds)
  {
    PassFrom([], kinds);
    var n := BeforeDriver(kinds);
    assert [] + kinds[..n] == kinds[..n];
  }

  // ---- From a message to its fields ----

  /** The pieces of a message between NULs. */
  function Fields(message: string): (fields: seq<string>)
    decreases |message|
  {
    var k := Find(message, NUL, 0);
    if k == |message| then [message] else [message[..k]] + Fields(message[k + 1..])
  }

  /** The fields up to the first empty one, where the scan stops. */
  function Leading(fields: seq<string>): seq<string> {
    if fields == [] || fields[0] == "" then [] else [fields[0]] + Leading(fields[1..])
  }

  /** The scan is proved for any classification of fields; Classify is the one in use. */
  function Kinds(classify: string -> Kind, fields: seq<string>): seq<Kind> {
    if fields == [] then [] else [classify(fields[0])] + Kinds(classify, fields[1..])
  }

  /** What a message brings about. */
  function Effects(message: string): seq<Effect> {
    EffectsOf(Kinds(Classify, Leading(Fields(message))))
  }

  /** What is left to scan at the cursor; nothing once the cursor is past the end of the message. */
  function Rest(message: string, cp: nat): seq<string>
    requires cp <= |message| + 1
  {
    if cp <= |message| then Leading(Fields(message[cp..])) else []
  }

  lemma FindInRest(message: string, cp: nat)
    requires cp <= |message|
    ensures Find(message[cp..], NUL, 0) == Find(message, NUL, cp) - cp
  {
    var end, rest := Find(message, NUL, cp), message[cp..];
    assert forall i :: 0 <= i < |rest| ==> rest[i] == message[cp + i];
    var k := Find(rest, NUL, 0);
    assert cp + k < |message| ==> message[cp + k] == NUL;
    assert end < |message| ==> rest[end - cp] == NUL;
  }

  lemma LeadingSplits(rest: string, k: nat)
    requires 0 < k < |rest| && Find(rest, NUL, 0) == k
    ensures Leading(Fields(rest)) == [rest[..k]] + Leading(Fields(rest[k + 1..]))
  {
    var tail := Fields(rest[k + 1..]);
    assert Fields(rest) == [rest[..k]] + tail && ([rest[..k]] + tail)[1..] == tail;
  }

  lemma LeadingLast(rest: string)
    requires rest != "" && Find(rest, NUL, 0) == |rest|
    ensures Leading(Fields(rest)) == [rest]
  {
    assert Fields(rest) == [rest] && Leading([rest][1..]) == [];
  }

  /** Moving over one field. */
  lemma RestMoves(message: string, cp: nat)
    requires cp < |message| && message[cp] != NUL
    ensures var end := Find(message, NUL, cp);
            cp < end && Rest(message, cp) == [message[cp..end]] + Rest(message, end + 1)
  {
    FindInRest(message, cp);
    var end, rest := Find(message, NUL, cp), message[cp..];
    assert rest[..end - cp] == message[cp..end];
    if end < |message| {
      LeadingSplits(rest, end - cp);
      assert rest[end - cp + 1..] == message[end + 1..];
    } else {
      LeadingLast(rest);
      assert message[cp..end] == rest && [rest] + [] == [rest];
    }
  }

  lemma RestStops(message: string, cp: nat)
    requires cp <= |message| + 1 && (cp < |message| ==> message[cp] == NUL)
    ensures Rest(message, cp) == []
  {
    if cp <= |message| {
      FindInRest(message, cp);
    }
  }

  // ---- The scan ----

  /** The message buffer of the source: the received bytes and two terminators. */
  ghost predicate Buffers(msg: array<char>, message: string)
    reads msg
  {
    && |message| < MSG_LEN
    && msg.Length == MSG_LEN + 2
    && msg[..|message|] == message
    && msg[|message|] == msg[|message| + 1] == NUL
  }

  /** The C string at the cursor. */
  method CString(msg: array<char>, ghost message: string, cp: nat) returns (field: string)
    requires Buffers(msg, message) && cp < |message|
    ensures field == message[cp..Find(message, NUL, cp)]
  {
    ghost var end := Find(message, NUL, cp);
    var k := cp;
    while msg[k] != NUL
      invariant cp <= k <= end
      decreases end - k
    {
      assert msg[k] == msg[..|message|][k];
      k := k + 1;
    }
    assert k < |message| ==> message[k] == msg[..|message|][k];
    field := msg[cp..k];
    forall i | cp <= i < k
      ensures msg[i] == message[i]
    {
      assert msg[i] == msg[..|message|][i];
    }
  }

  /** The cursor moves to after the next NUL. */
  method NextField(msg: array<char>, ghost message: string, cp: nat) returns (next: nat)
    requires Buffers(msg, message) && cp < |message|
    ensures next == Find(message, NUL, cp) + 1
  {
    ghost var end := Find(message, NUL, cp);
    next := cp;
    while msg[next] != NUL
      invariant cp <= next <= end
      decreases end - next
    {
      assert msg[next] == msg[..|message|][next];
      next := next + 1;
    }
    assert next < |message| ==> message[next] == msg[..|message|][next];
    next := next + 1;
  }

  /** The kinds of the fields still to come at the cursor. */
  ghost function Left(classify: string -> Kind, message: string, cp: nat): seq<Kind>
    requires cp <= |message| + 1
  {
    Kinds(classify, Rest(message, cp))
  }

  /** One field moves the scan on. */
  lemma LeftStep(classify: string -> Kind, message: string, cp: nat)
    requires cp < |message| && message[cp] != NUL
    ensures var end := Find(message, NUL, cp);
            Left(classify, message, cp) == [classify(message[cp..end])] + Left(classify, message, end + 1)
  {
    RestMoves(message, cp);
    var end := Find(message, NUL, cp);
    var field, rest := message[cp..end], Rest(message, end + 1);
    assert ([field] + rest)[1..] == rest;
  }

  /** What one kind contributes to a pass whose effects so far are `done`. */
  lemma PassStep(done: seq<Effect>, kind: Kind, kinds: seq<Kind>, uevent: UeventType)
    ensures done + Pass([kind] + kinds, uevent) ==
            if kind.Plain? then (done + kind.effects) + Pass(kinds, uevent)
            else if kind.Action? then done + Pass(kinds, kind.uevent)
            else done + PollEffect(uevent)
  {
    assert ([kind] + kinds)[1..] == kinds;
  }

  lemma LeftAtEnds(classify: string -> Kind, message: string, cp: nat)
    ensures Left(classify, message, 0) == Kinds(classify, Leading(Fields(message)))
    ensures cp <= |message| + 1 && (cp < |message| ==> message[cp] == NUL) ==> Left(classify, message, cp) == []
  {
    assert message[0..] == message;
    if cp <= |message| + 1 && (cp < |message| ==> message[cp] == NUL) {
      RestStops(message, cp);
    }
  }

  /** One round of the scan: what the field at the cursor is, and where the next one starts. */
  method ScanField(classify: string -> Kind, msg: array<char>, ghost message: string, cp: nat)
    returns (kind: Kind, next: nat)
    requires Buffers(msg, message) && cp < |message| && message[cp] != NUL
    ensures cp < next <= |message| + 1
    ensures Left(classify, message, cp) == [kind] + Left(classify, message, next)
  {
    var field := CString(msg, message, cp);
    kind := classify(field);
    next := NextField(msg, message, cp);
    LeftStep(classify, message, cp);
  }

  /** The scan of a buffered message: for every message the cursor stays within the second
      terminator, the scan terminates, and its effects are those of the leading fields. */
  method Scan(classify: string -> Kind, msg: array<char>, ghost message: string) returns (effects: seq<Effect>)
    requires Buffers(msg, message)
    ensures effects == Pass(Kinds(classify, Leading(Fields(message))), Unknown)
  {
    LeftAtEnds(classify, message, 0);
    effects := [];
    ghost var goal := Pass(Kinds(classify, Leading(Fields(message))), Unknown);
    var uevent, cp := Unknown, 0;
    while msg[cp] != NUL
      invariant cp <= |message| + 1
      invariant effects + Pass(Left(classify, message, cp), uevent) == goal
      decreases |message| + 1 - cp
    {
      assert message[cp] == msg[..|message|][cp];
      var kind, next := ScanField(classify, msg, message, cp);
      PassStep(effects, kind, Left(classify, message, next), uevent);
      if kind.Plain? {
        effects := effects + kind.effects;
      } else if kind.Action? {
        uevent := kind.uevent;
      } else {
        effects := effects + PollEffect(uevent);
        return;
      }
      cp := next;
    }
    assert cp < |message| ==> message[cp] == msg[..|message|][cp];
    LeftAtEnds(classify, message, cp);
  }

  /** uevent_event on what the socket delivered: nothing, or at most MSG_LEN bytes. */
  method UeventEvent(received: Option<string>) returns (effects: seq<Effect>)
    requires received.Some? ==> |received.value| <= MSG_LEN
    ensures effects == if received.None? || |received.value| == MSG_LEN then [] else Effects(received.value)
  {
    effects := [];
    if received.Some? && |received.value| < MSG_LEN {
      var message := received.value;
      var n := |message|;
      var msg := new char[MSG_LEN + 2](i => if 0 <= i < n then message[i] else NUL);
      effects := Scan(Classify, msg, message);
      PassIsEffects(Kinds(Classify, Leading(Fields(message))));
    }
  }

  // ---- The decision about the poll worker, in terms of the fields alone ----

  /** Field n is the first to name the DisplayPort driver, and field a the last action before it. */
  predicate Decides(fields: seq<string>, a: int, n: int) {
    && 0 <= a < n < |fields|
    && "DRIVER=typec_displayport" <= fields[n]
    && (forall i :: 0 <= i < n ==> !("DRIVER=typec_displayport" <= fields[i]))
    && "ACTION=" <= fields[a]
    && (forall i :: a < i < n ==> !("ACTION=" <= fields[i]))
  }

  /** That action gives the type `uevent`. */
  predicate DecidesFor(fields: seq<string>, uevent: UeventType, a: int, n: int) {
    Decides(fields, a, n) && TypeOf(fields[a]) == uevent
  }

  predicate KindsDecide(kinds: seq<Kind>, a: int, n: int) {
    && 0 <= a < n < |kinds|
    && kinds[n].DisplayPortDriver?
    && (forall i :: 0 <= i < n ==> !kinds[i].DisplayPortDriver?)
    && kinds[a].Action?
    && (forall i :: a < i < n ==> !kinds[i].Action?)
  }

  lemma {:induction false} KindsAt(fields: seq<string>)
    ensures |Kinds(Classify, fields)| == |fields|
    ensures forall i :: 0 <= i < |fields| ==> Kinds(Classify, fields)[i] == Classify(fields[i])
  {
    if fields != [] {
      KindsAt(fields[1..]);
    }
  }

  lemma DecidesIsKindsDecide(fields: seq<string>, a: int, n: int)
    ensures Decides(fields, a, n) <==> KindsDecide(Kinds(Classify, fields), a, n)
  {
    KindsAt(fields);
    forall i | 0 <= i < |fields|
      ensures Kinds(Classify, fields)[i].Action? <==> "ACTION=" <= fields[i]
      ensures Kinds(Classify, fields)[i].DisplayPortDriver? <==> "DRIVER=typec_displayport" <= fields[i]
    {
      DecidingFields(fields[i]);
    }
  }

  /** Plain fields never touch the poll worker. */
  predicate Quiet(kind: Kind) {
    kind.Plain? ==> SetupPoll !in kind.effects && ShutdownPoll !in kind.effects
  }

  lemma {:induction false} PlainIsQuiet(kinds: seq<Kind>)
    requires forall kind :: kind in kinds ==> Quiet(kind)
    ensures SetupPoll !in AllPlain(kinds) && ShutdownPoll !in AllPlain(kinds)
  {
    if kinds != [] {
      assert Quiet(kinds[0]);
      PlainIsQuiet(kinds[1..]);
    }
  }

  lemma {:induction false} LastActionMeaning(kinds: seq<Kind>, uevent: UeventType) returns (a: int)
    requires uevent != Unknown && LastAction(kinds) == uevent
    ensures 0 <= a < |kinds| && kinds[a] == Action(uevent) && forall i :: a < i < |kinds| ==> !kinds[i].Action?
  {
    var n := |kinds| - 1;
    if kinds[n].Action? {
      a := n;
    } else {
      a := LastActionMeaning(kinds[..n], uevent);
    }
  }

  lemma {:induction false} LastActionIs(kinds: seq<Kind>, a: nat)
    requires a < |kinds| && kinds[a].Action? && forall i :: a < i < |kinds| ==> !kinds[i].Action?
    ensures LastAction(kinds) == kinds[a].uevent
  {
    if a < |kinds| - 1 {
      LastActionIs(kinds[..|kinds| - 1], a);
    }
  }

  lemma PollEffectIsDecided(kinds: seq<Kind>, uevent: UeventType) returns (a: int, n: int)
    requires uevent != Unknown && forall kind :: kind in kinds ==> Quiet(kind)
    requires PollEffect(uevent)[0] in EffectsOf(kinds)
    ensures KindsDecide(kinds, a, n) && kinds[a] == Action(uevent)
  {
    n := BeforeDriver(kinds);
    PlainIsQuiet(kinds[..n]);
    a := LastActionMeaning(kinds[..n], uevent);
  }

  lemma DecisionIsPollEffect(kinds: seq<Kind>, uevent: UeventType, a: int, n: int)
    requires uevent != Unknown && KindsDecide(kinds, a, n) && kinds[a] == Action(uevent)
    ensures PollEffect(uevent)[0] in EffectsOf(kinds)
  {
    assert n == BeforeDriver(kinds);
    LastActionIs(kinds[..n], a);
  }

  lemma ClassifyIsQuiet(fields: seq<string>)
    ensures forall kind :: kind in Kinds(Classify, fields) ==> Quiet(kind)
  {
    KindsAt(fields);
  }

  lemma DecidingKind(fields: seq<string>, uevent: UeventType, a: int, n: int)
    ensures DecidesFor(fields, uevent, a, n) <==>
            KindsDecide(Kinds(Classify, fields), a, n) && Kinds(Classify, fields)[a] == Action(uevent)
  {
    KindsAt(fields);
    DecidesIsKindsDecide(fields, a, n);
    if Decides(fields, a, n) {
      ActionIsAction(fields[a]);
    }
  }

  /** A message starts (with Bind) or shuts down (with Change) the poll worker exactly when the last
      action before its first DisplayPort driver field says so; whatever follows that field is ignored. */
  lemma PollDecision(message: string, uevent: UeventType)
    requires uevent != Unknown
    ensures PollEffect(uevent)[0] in Effects(message) <==>
            exists a, n :: DecidesFor(Leading(Fields(message)), uevent, a, n)
  {
    var fields := Leading(Fields(message));
    if PollEffect(uevent)[0] in Effects(message) {
      ClassifyIsQuiet(fields);
      var a, n := PollEffectIsDecided(Kinds(Classify, fields), uevent);
      DecidingKind(fields, uevent, a, n);
      assert DecidesFor(fields, uevent, a, n);
    }
    if a, n :| DecidesFor(fields, uevent, a, n) {
      DecidingKind(fields, uevent, a, n);
      DecisionIsPollEffect(Kinds(Classify, fields), uevent, a, n);
      assert PollEffect(uevent)[0] in EffectsOf(Kinds(Classify, fields));
      assert PollEffect(uevent)[0] in Effects(message);
      assert exists a, n :: DecidesFor(Leading(Fields(message)), uevent, a, n);
    }
  }

  /** In the texts of the fields: the poll is set up exactly if the action is a bind, ... */
  lemma SetupDecision(message: string)
    ensures SetupPoll in Effects(message) <==>
            exists a, n :: Decides(Leading(Fields(message)), a, n) && "ACTION=bind" <= Leading(Fields(message))[a]
  {
    var fields := Leading(Fields(message));
    PollDecision(message, Bind);
    assert PollEffect(Bind)[0] == SetupPoll;
    forall a, n | Decides(fields, a, n) ensures DecidesFor(fields, Bind, a, n) <==> "ACTION=bind" <= fields[a] {
      TypesOf(fields[a]);
    }
    if a, n :| DecidesFor(fields, Bind, a, n) {
      assert Decides(fields, a, n) && "ACTION=bind" <= fields[a];
    }
    if a, n :| Decides(fields, a, n) && "ACTION=bind" <= fields[a] {
      assert DecidesFor(fields, Bind, a, n);
    }
  }

  /** ... and shut down exactly if it is a change. */
  lemma ShutdownDecision(message: string)
    ensures ShutdownPoll in Effects(message) <==>
            exists a, n :: Decides(Leading(Fields(message)), a, n) && "ACTION=change" <= Leading(Fields(message))[a]
  {
    var fields := Leading(Fields(message));
    PollDecision(message, Change);
    assert PollEffect(Change)[0] == ShutdownPoll;
    forall a, n | Decides(fields, a, n) ensures DecidesFor(fields, Change, a, n) <==> "ACTION=change" <= fields[a] {
      TypesOf(fields[a]);
    }
    if a, n :| DecidesFor(fields, Change, a, n) {
      assert Decides(fields, a, n) && "ACTION=change" <= fields[a];
    }
    if a, n :| Decides(fields, a, n) && "ACTION=change" <= fields[a] {
      assert DecidesFor(fields, Change, a, n);
    }
  }

  lemma TypesOf(field: string)
    ensures TypeOf(field) == Bind <==> "ACTION=bind" <= field
    ensures TypeOf(field) == Change <==> "ACTION=change" <= field
  {
    if "ACTION=bind" <= field {
      assert field[7] == 'b';
    }
  }

  // ---- The other effects, in the texts of the fields ----

  /** The field is the verb, any text on one line, and "-partner". */
  ghost predicate IsPartnerField(field: string, verb: string) {
    exists middle :: '\n' !in middle && '\r' !in middle && field == verb + middle + "-partner"
  }

  lemma PartnerFieldMatches(field: string, verb: string)
    ensures MatchesPartner(field, verb) <==> IsPartnerField(field, verb)
  {
    var suffix := "-partner";
    if MatchesPartner(field, verb) {
      var middle := field[|verb|..|field| - |suffix|];
      assert field == verb + middle + suffix;
    }
    if middle :| '\n' !in middle && '\r' !in middle && field == verb + middle + suffix {
      assert field[|verb|..|field| - |suffix|] == middle;
      assert field[|field| - |suffix|..] == suffix;
    }
  }

  /** The effect that a field has on its own. */
  ghost predicate Gives(field: string, effect: Effect) {
    match effect
    case PartnerAdded => IsPartnerField(field, "add")
    case PartnerRemoved => IsPartnerField(field, "remove")
    case PortChanged(tcpc) =>
      && (|| "DEVTYPE=typec_" <= field || "DRIVER=max77759tcpc" <= field || "DRIVER=pogo-transport" <= field
          || "POWER_SUPPLY_NAME=usb" <= field)
      && (tcpc <==> "DRIVER=max77759tcpc" <= field)
    case Overheated => "DRIVER=google,usbc_port_cooling_dev" <= field
    case _ => false
  }

  lemma FirstCharacters(field: string)
    ensures MatchesPartner(field, "add") ==> field != "" && field[0] == 'a'
    ensures MatchesPartner(field, "remove") ==> field != "" && field[0] == 'r'
    ensures ChangesPort(field) ==> field != "" && (field[0] == 'D' || field[0] == 'P')
    ensures "DRIVER=google,usbc_port_cooling_dev" <= field ==> field != "" && field[0] == 'D'
    ensures "DRIVER=google,usbc_port_cooling_dev" <= field ==> !ChangesPort(field)
  {
    if "DRIVER=google,usbc_port_cooling_dev" <= field {
      assert field[0] == 'D' && field[1] == 'R' && field[7] == 'g';
      NoPrefix("DEVTYPE=typec_", field, 1);
      NoPrefix("DRIVER=max77759tcpc", field, 7);
      NoPrefix("DRIVER=pogo-transport", field, 7);
      NoPrefix("POWER_SUPPLY_NAME=usb", field, 0);
    }
  }

  /** Each kind of field has its own effect and no other, whichever branch comes first. */
  lemma ClassifyGives(field: string, effect: Effect)
    ensures Classify(field).Plain? && effect in Classify(field).effects <==> Gives(field, effect)
  {
    PartnerFieldMatches(field, "add");
    PartnerFieldMatches(field, "remove");
    FirstCharacters(field);
  }

  lemma {:induction false} InAllPlain(kinds: seq<Kind>, effect: Effect)
    ensures effect in AllPlain(kinds) <==>
            exists i :: 0 <= i < |kinds| && kinds[i].Plain? && effect in kinds[i].effects
  {
    if kinds != [] {
      InAllPlain(kinds[1..], effect);
      if i :| 0 <= i < |kinds| && kinds[i].Plain? && effect in kinds[i].effects {
        assert i > 0 ==> kinds[1..][i - 1] == kinds[i];
      }
      if i :| 0 <= i < |kinds[1..]| && kinds[1..][i].Plain? && effect in kinds[1..][i].effects {
        assert kinds[i + 1] == kinds[1..][i];
      }
    }
  }

  /** No field up to position i names the DisplayPort driver. */
  predicate BeforeDriverField(fields: seq<string>, i: int) {
    0 <= i < |fields| && forall j :: 0 <= j <= i ==> !("DRIVER=typec_displayport" <= fields[j])
  }

  predicate FieldGives(kinds: seq<Kind>, i: int, effect: Effect) {
    && 0 <= i < |kinds| && (forall j :: 0 <= j <= i ==> !kinds[j].DisplayPortDriver?)
    && kinds[i].Plain? && effect in kinds[i].effects
  }

  lemma KindsGive(kinds: seq<Kind>, effect: Effect)
    requires effect != SetupPoll && effect != ShutdownPoll
    ensures effect in EffectsOf(kinds) <==> exists i :: FieldGives(kinds, i, effect)
  {
    var n := BeforeDriver(kinds);
    var before := kinds[..n];
    InAllPlain(before, effect);
    if i :| 0 <= i < |before| && before[i].Plain? && effect in before[i].effects {
      assert FieldGives(kinds, i, effect);
    }
    if i :| FieldGives(kinds, i, effect) {
      assert i < n && before[i] == kinds[i];
    }
  }

  lemma GivesByKind(fields: seq<string>, i: int, effect: Effect)
    ensures FieldGives(Kinds(Classify, fields), i, effect) <==> BeforeDriverField(fields, i) && Gives(fields[i], effect)
  {
    KindsAt(fields);
    forall j | 0 <= j < |fields|
      ensures Kinds(Classify, fields)[j].DisplayPortDriver? <==> "DRIVER=typec_displayport" <= fields[j]
    {
      DecidingFields(fields[j]);
    }
    if 0 <= i < |fields| {
      ClassifyGives(fields[i], effect);
    }
  }

  /** One of the fields before the driver field gives the effect. */
  ghost predicate GivenBeforeDriver(fields: seq<string>, effect: Effect) {
    exists i :: BeforeDriverField(fields, i) && Gives(fields[i], effect)
  }

  lemma FieldsGive(fields: seq<string>, effect: Effect)
    ensures GivenBeforeDriver(fields, effect) <==> exists i :: FieldGives(Kinds(Classify, fields), i, effect)
  {
    if i :| FieldGives(Kinds(Classify, fields), i, effect) {
      GivesByKind(fields, i, effect);
      assert BeforeDriverField(fields, i) && Gives(fields[i], effect);
    }
    if i :| BeforeDriverField(fields, i) && Gives(fields[i], effect) {
      GivesByKind(fields, i, effect);
      assert FieldGives(Kinds(Classify, fields), i, effect);
    }
  }

  /** A message has any other effect exactly if one of its leading fields before the driver field gives it. */
  lemma PlainDecision(message: string, effect: Effect)
    requires effect != SetupPoll && effect != ShutdownPoll
    ensures effect in Effects(message) <==> GivenBeforeDriver(Leading(Fields(message)), effect)
  {
    var fields := Leading(Fields(message));
    assert Effects(message) == EffectsOf(Kinds(Classify, fields));
    FieldsGive(fields, effect);
    KindsGive(Kinds(Classify, fields), effect);
    assert effect in Effects(message) <==> effect in EffectsOf(Kinds(Classify, fields));
    assert effect in EffectsOf(Kinds(Classify, fields)) <==> GivenBeforeDriver(fields, effect);
  }

  // ---- What fields are ----

  function Joined(fields: seq<string>): string {
    if fields == [] then "" else if |fields| == 1 then fields[0] else fields[0] + [NUL] + Joined(fields[1..])
  }

  /** The fields have no NUL, and joined by NULs they are the message. */
  lemma {:induction false} FieldsJoin(message: string)
    ensures Fields(message) != [] && Joined(Fields(message)) == message
    ensures forall field :: field in Fields(message) ==> NUL !in field
    decreases |message|
  {
    var k := Find(message, NUL, 0);
    if k < |message| {
      FieldsJoin(message[k + 1..]);
      var rest := Fields(message[k + 1..]);
      assert Fields(message) == [message[..k]] + rest && ([message[..k]] + rest)[1..] == rest;
      assert message == message[..k] + [NUL] + message[k + 1..];
    }
  }

  /** The leading fields are those before the first empty one. */
  lemma {:induction false} LeadingIsPrefix(fields: seq<string>)
    ensures var k := |Leading(fields)|;
            && Leading(fields) <= fields
            && (forall i :: 0 <= i < k ==> fields[i] != "")
            && (k < |fields| ==> fields[k] == "")
  {
    if fields != [] && fields[0] != "" {
      LeadingIsPrefix(fields[1..]);
      assert fields == [fields[0]] + fields[1..];
    }
  }
}
