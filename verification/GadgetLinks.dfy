/** Linking the functions of a gadget at running slots (UsbGadget.cpp:407-456). */
module GadgetLinks {
  import opened GadgetIds

  /** The functions that can be linked; Generic(k) is one of those addGenericAndroidFunctions links. */
  datatype Name = Generic(k: nat) | Adb | NcmGs9 | AcmGs6 | DmGs7 | EtrMiuGs11 | AcmUwb0

  datatype Link = Link(name: Name, slot: nat)

  /** What the helpers do: the functions that addGenericAndroidFunctions links, whether it succeeds and
      whether they need FunctionFS; whether addAdb succeeds; and at which slots linkFunction does. */
  datatype Helpers = Helpers(generic: seq<Name>, genericOk: bool, genericFfs: bool, adbOk: bool, linkOk: nat -> bool)

  /** The generic functions are none of those setupFunctions links itself. */
  predicate Generics(names: seq<Name>) {
    forall name :: name in names ==> name.Generic?
  }

  /** Lines 424-445. */
  function VendorPlan(functions: Mask, vendor: Vendor): seq<Name> {
    match vendor
    case Dm => if Has(functions, RNDIS) then [AcmGs6, DmGs7] else [DmGs7, AcmGs6]
    case EtrMiu => [EtrMiuGs11]
    case UwbAcm => [AcmUwb0]
    case _ => []
  }

  /** What follows the generic functions, in order. */
  function Plan(functions: Mask, vendor: Vendor): seq<Name> {
    var ncm, adb := Part(NcmGs9, Has(functions, NCM)), Part(Adb, Has(functions, ADB));
    if vendor.Dm? then VendorPlan(functions, vendor) + adb + ncm
    else ncm + VendorPlan(functions, vendor) + adb
  }

  predicate LinkOk(name: Name, slot: nat, helpers: Helpers) {
    if name.Adb? then helpers.adbOk else helpers.linkOk(slot)
  }

  /** The links so far, the next slot, and whether every one of them was made. */
  datatype Linked = Linked(links: seq<Link>, next: nat, ok: bool)

  /** One linkFunction or addAdb; nothing more happens after a failure. */
  function LinkOne(linked: Linked, name: Name, helpers: Helpers): Linked {
    if !linked.ok then linked
    else if LinkOk(name, linked.next, helpers) then
      Linked(linked.links + [Link(name, linked.next)], linked.next + 1, true)
    else linked.(ok := false)
  }

  function LinkAll(linked: Linked, names: seq<Name>, helpers: Helpers): Linked
    decreases |names|
  {
    if names == [] then linked else LinkAll(LinkOne(linked, names[0], helpers), names[1..], helpers)
  }

  /** The contract of addGenericAndroidFunctions: it links its functions at the slots from the one it is
      given on, and leaves the slot after them. */
  function LinkGeneric(linked: Linked, helpers: Helpers): Linked {
    Linked(linked.links + seq(|helpers.generic|, k requires 0 <= k < |helpers.generic| =>
                                Link(helpers.generic[k], linked.next + k)),
           linked.next + |helpers.generic|, helpers.genericOk)
  }

  /** The linking part of setupFunctions on a gadget with these links. */
  function LinkFunctions(links: seq<Link>, functions: Mask, vendor: Vendor, helpers: Helpers): Linked {
    LinkAll(LinkGeneric(Linked(links, 0, true), helpers), Plan(functions, vendor), helpers)
  }

  // ---- Slots ----

  /** Slots 0 to n-1 are in use, each once. */
  predicate Contiguous(links: seq<Link>) {
    forall k :: 0 <= k < |links| ==> links[k].slot == k
  }

  function Names(links: seq<Link>): seq<Name> {
    seq(|links|, k requires 0 <= k < |links| => links[k].name)
  }

  lemma {:induction false} LinkAllKeepsSlots(linked: Linked, names: seq<Name>, helpers: Helpers)
    requires Contiguous(linked.links) && linked.next == |linked.links|
    ensures var after := LinkAll(linked, names, helpers);
            && Contiguous(after.links) && after.next == |after.links|
            && Names(after.links) <= Names(linked.links) + names
            && (after.ok ==> linked.ok && Names(after.links) == Names(linked.links) + names)
    decreases |names|
  {
    if names == [] {
      assert Names(linked.links) + names == Names(linked.links);
    } else {
      var one := LinkOne(linked, names[0], helpers);
      LinkOneNames(linked, names[0], helpers);
      LinkAllKeepsSlots(one, names[1..], helpers);
      assert Names(linked.links) + names == Names(linked.links) + [names[0]] + names[1..];
      if !one.ok {
        FailureStops(one, names[1..], helpers);
      }
    }
  }

  lemma {:induction false} FailureStops(linked: Linked, names: seq<Name>, helpers: Helpers)
    requires !linked.ok
    ensures LinkAll(linked, names, helpers) == linked
    decreases |names|
  {
    if names != [] {
      FailureStops(linked, names[1..], helpers);
    }
  }

  lemma LinkOneNames(linked: Linked, name: Name, helpers: Helpers)
    requires Contiguous(linked.links) && linked.next == |linked.links|
    ensures var after := LinkOne(linked, name, helpers);
            && Contiguous(after.links) && after.next == |after.links|
            && Names(after.links) == if after.ok then Names(linked.links) + [name] else Names(linked.links)
  {
  }

  /** Linking on a gadget that was torn down uses the slots from 0 on without a gap or a repeat, and links
      a part of the generic functions and the plan; when it succeeds, all of them. */
  lemma SlotsAreContiguous(functions: Mask, vendor: Vendor, helpers: Helpers)
    ensures var linked := LinkFunctions([], functions, vendor, helpers);
            && Contiguous(linked.links)
            && Names(linked.links) <= helpers.generic + Plan(functions, vendor)
            && (linked.ok ==> Names(linked.links) == helpers.generic + Plan(functions, vendor))
            && (linked.ok ==> helpers.genericOk)
  {
    var generic := LinkGeneric(Linked([], 0, true), helpers);
    assert Names(generic.links) == helpers.generic;
    LinkAllKeepsSlots(generic, Plan(functions, vendor), helpers);
  }

  /** A setup is completely linked exactly if the generic functions are, and at each slot after them the
      function of the plan is: ADB by its own helper, all others by linkFunction. */
  lemma LinkedDecision(functions: Mask, vendor: Vendor, helpers: Helpers)
    ensures var plan := Plan(functions, vendor);
            LinkFunctions([], functions, vendor, helpers).ok <==>
            && helpers.genericOk
            && forall k :: 0 <= k < |plan| ==>
                 if plan[k] == Adb then helpers.adbOk else helpers.linkOk(|helpers.generic| + k)
  {
    var generic, plan := LinkGeneric(Linked([], 0, true), helpers), Plan(functions, vendor);
    assert generic.next == |helpers.generic|;
    assert LinkFunctions([], functions, vendor, helpers) == LinkAll(generic, plan, helpers);
    if generic.ok {
      LinkAllDecision(generic, plan, helpers);
    } else {
      FailureStops(generic, plan, helpers);
    }
  }

  lemma {:induction false} LinkAllDecision(linked: Linked, names: seq<Name>, helpers: Helpers)
    requires linked.ok
    ensures LinkAll(linked, names, helpers).ok <==>
            forall k :: 0 <= k < |names| ==> if names[k] == Adb then helpers.adbOk else helpers.linkOk(linked.next + k)
    decreases |names|
  {
    if names != [] {
      var one, rest := LinkOne(linked, names[0], helpers), names[1..];
      if one.ok {
        LinkAllDecision(one, rest, helpers);
        assert forall k :: 0 <= k < |rest| ==> rest[k] == names[k + 1];
        assert forall k :: 0 < k < |names| ==> names[k] == rest[k - 1];
      } else {
        FailureStops(one, rest, helpers);
        assert !(if names[0] == Adb then helpers.adbOk else helpers.linkOk(linked.next + 0));
      }
    }
  }

  // ---- Where NCM goes ----

  /** `name` is at position k and at no other. */
  predicate OnlyAt(names: seq<Name>, name: Name, k: int) {
    0 <= k < |names| && forall i :: 0 <= i < |names| ==> (names[i] == name <==> i == k)
  }

  /** ncm.gs9 is there exactly once if the NCM bit is set, and not at all otherwise: with "dm" as the last
      function, after ADB; else as the first after the generic ones, before ADB. */
  predicate NcmPlaced(names: seq<Name>, functions: Mask, vendor: Vendor, generics: nat) {
    && (NcmGs9 in names <==> Has(functions, NCM))
    && (Adb in names <==> Has(functions, ADB))
    && (Has(functions, NCM) ==> OnlyAt(names, NcmGs9, if vendor.Dm? then |names| - 1 else generics))
    && (Has(functions, ADB) ==> OnlyAt(names, Adb, if vendor.Dm? && Has(functions, NCM) then |names| - 2 else |names| - 1))
    && (Has(functions, NCM) && !vendor.Dm? && Has(functions, ADB) ==> generics < |names| - 1)
  }

  lemma NcmOnce(functions: Mask, vendor: Vendor, helpers: Helpers)
    requires Generics(helpers.generic) && LinkFunctions([], functions, vendor, helpers).ok
    ensures NcmPlaced(Names(LinkFunctions([], functions, vendor, helpers).links), functions, vendor, |helpers.generic|)
  {
    SlotsAreContiguous(functions, vendor, helpers);
    PlanPlacesNcm(helpers.generic, functions, vendor);
  }

  lemma PlanPlacesNcm(generic: seq<Name>, functions: Mask, vendor: Vendor)
    requires Generics(generic)
    ensures NcmPlaced(generic + Plan(functions, vendor), functions, vendor, |generic|)
  {
    var v, ncm, adb := VendorPlan(functions, vendor), Has(functions, NCM), Has(functions, ADB);
    assert NcmGs9 !in v && Adb !in v;
    if vendor.Dm? {
      assert generic + Plan(functions, vendor) == generic + v + Part(Adb, adb) + Part(NcmGs9, ncm);
      LastNcm(generic + v, adb, ncm);
    } else {
      assert generic + Plan(functions, vendor) == generic + Part(NcmGs9, ncm) + (v + Part(Adb, adb));
      FirstNcm(generic, v, adb, ncm);
    }
  }

  function Part(name: Name, present: bool): seq<Name> {
    if present then [name] else []
  }

  lemma LastNcm(a: seq<Name>, adb: bool, ncm: bool)
    requires NcmGs9 !in a && Adb !in a
    ensures var names := a + Part(Adb, adb) + Part(NcmGs9, ncm);
            && (NcmGs9 in names <==> ncm) && (Adb in names <==> adb)
            && (ncm ==> OnlyAt(names, NcmGs9, |names| - 1))
            && (adb ==> OnlyAt(names, Adb, if ncm then |names| - 2 else |names| - 1))
  {
    InThreeParts(a, Part(Adb, adb), Part(NcmGs9, ncm));
  }

  lemma FirstNcm(a: seq<Name>, v: seq<Name>, adb: bool, ncm: bool)
    requires NcmGs9 !in a && Adb !in a && NcmGs9 !in v && Adb !in v
    ensures var names := a + Part(NcmGs9, ncm) + (v + Part(Adb, adb));
            && (NcmGs9 in names <==> ncm) && (Adb in names <==> adb)
            && (ncm ==> OnlyAt(names, NcmGs9, |a|))
            && (adb ==> OnlyAt(names, Adb, |names| - 1))
            && (adb && ncm ==> |a| < |names| - 1)
  {
    var tail := v + Part(Adb, adb);
    assert adb ==> tail[..|tail| - 1] == v && tail[|tail| - 1] == Adb;
    assert NcmGs9 !in tail && (Adb in tail <==> adb);
    InThreeParts(a, Part(NcmGs9, ncm), tail);
  }

  /** A name that ends one of three parts, or is all of it, and is in no other. */
  lemma InThreeParts(a: seq<Name>, b: seq<Name>, c: seq<Name>)
    ensures forall name :: name in a + b + c <==> name in a || name in b || name in c
    ensures forall name :: name !in a && name !in c && b == [name] ==> OnlyAt(a + b + c, name, |a|)
    ensures forall name :: name !in a && name !in b && c != [] && name !in c[..|c| - 1] && c[|c| - 1] == name ==>
              OnlyAt(a + b + c, name, |a + b + c| - 1)
  {
    var s := a + b + c;
    assert forall i :: 0 <= i < |a| ==> s[i] == a[i];
    assert forall i :: 0 <= i < |b| ==> s[|a| + i] == b[i];
    assert forall i :: 0 <= i < |c| ==> s[|a| + |b| + i] == c[i];
    assert c != [] ==> forall i :: 0 <= i < |c| - 1 ==> c[..|c| - 1][i] == c[i];
  }

  // ---- What the links tell ----

  /** The number of generic names a sequence starts with. */
  function GenericLead(names: seq<Name>): nat {
    if names == [] || !names[0].Generic? then 0 else 1 + GenericLead(names[1..])
  }

  lemma {:induction false} LeadIsGenerics(a: seq<Name>, p: seq<Name>)
    requires Generics(a) && forall name :: name in p ==> !name.Generic?
    ensures GenericLead(a + p) == |a|
  {
    if a == [] {
      assert a + p == p;
      assert p != [] ==> p[0] in p;
    } else {
      assert a[0] in a && (a + p)[1..] == a[1..] + p;
      LeadIsGenerics(a[1..], p);
    }
  }

  /** Where the generic names end and the plan begins is unambiguous. */
  lemma GenericsEnd(a: seq<Name>, p: seq<Name>, b: seq<Name>, q: seq<Name>)
    requires Generics(a) && Generics(b) && a + p == b + q
    requires forall name :: name in p + q ==> !name.Generic?
    ensures p == q
  {
    LeadIsGenerics(a, p);
    LeadIsGenerics(b, q);
    assert p == (a + p)[|a|..] && q == (b + q)[|b|..];
  }

  lemma PlanIsNotGeneric(functions: Mask, vendor: Vendor)
    ensures forall name :: name in Plan(functions, vendor) ==> !name.Generic?
  {
  }

  /** What a plan contains. */
  lemma PlanMembers(functions: Mask, vendor: Vendor)
    ensures var plan := Plan(functions, vendor);
            && (NcmGs9 in plan <==> Has(functions, NCM))
            && (Adb in plan <==> Has(functions, ADB))
            && (DmGs7 in plan <==> vendor.Dm?)
            && (EtrMiuGs11 in plan <==> vendor.EtrMiu?)
            && (AcmUwb0 in plan <==> vendor.UwbAcm?)
            && (vendor.Dm? ==> (plan[0] == AcmGs6 <==> Has(functions, RNDIS)))
  {
    var v, ncm, adb := VendorPlan(functions, vendor), Part(NcmGs9, Has(functions, NCM)), Part(Adb, Has(functions, ADB));
    if vendor.Dm? {
      assert Plan(functions, vendor)[0] == v[0] && v[1] in v && v[0] in v;
    }
  }

  /** The links and the ids together tell the functions: a gadget has at most one mask it is set up for. */
  lemma LinksAndIdsTell(a: Mask, v: Vendor, uvc: bool, b: Mask, w: Vendor, uvc': bool)
    requires Plan(a, v) == Plan(b, w)
    requires IdsFor(a, v, uvc).Some? && IdsFor(a, v, uvc) == IdsFor(b, w, uvc')
    ensures a == b
  {
    PlanMembers(a, v);
    PlanMembers(b, w);
    IdsAndPartsTell(a, v, uvc, b, w, uvc');
  }
}
