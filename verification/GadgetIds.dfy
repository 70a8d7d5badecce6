/** Which function masks a gadget request may ask for, and the USB ids they get (UsbGadget.cpp:187-363). */
module GadgetIds {
  import opened Wrappers

  type Mask = bv64

  /** The bits of the AIDL GadgetFunction. */
  const NONE: Mask := 0
  const ADB: Mask := 0x1
  const ACCESSORY: Mask := 0x2
  const MTP: Mask := 0x4
  const MIDI: Mask := 0x8
  const PTP: Mask := 0x10
  const RNDIS: Mask := 0x20
  const AUDIO_SOURCE: Mask := 0x40
  const UVC: Mask := 0x80
  const NCM: Mask := 0x400

  predicate Has(functions: Mask, bit: Mask) {
    functions & bit != 0
  }

  /** The vendor functions property; Plain is "user" or nothing. */
  datatype Vendor = Plain | Dm | EtrMiu | UwbAcm | OtherVendor

  function VendorOf(property: string): Vendor {
    if property == "user" || property == "" then Plain
    else if property == "dm" then Dm
    else if property == "etr_miu" then EtrMiu
    else if property == "uwb_acm" then UwbAcm
    else OtherVendor
  }

  /** Vendor and product ids. */
  datatype Ids = Ids(vid: nat, pid: nat)

  function Google(pid: nat): Option<Ids> {
    Some(Ids(0x18d1, pid))
  }

  const MODEM_DEBUG: Option<Ids> := Some(Ids(0x04e8, 0x6862))

  /** Ids that need a plain vendor property. */
  function IfPlain(vendor: Vendor, ids: Option<Ids>): Option<Ids> {
    if vendor.Plain? then ids else None
  }

  /** The switch of validateAndSetVidPid; None is a combination that is not supported. */
  function IdsFor(functions: Mask, vendor: Vendor, uvcEnabled: bool): Option<Ids> {
    if functions == MTP then IfPlain(vendor, Google(0x4ee1))
    else if functions == ADB | MTP then IfPlain(vendor, Google(0x4ee2))
    else if functions == RNDIS || functions == RNDIS | NCM then IfPlain(vendor, Google(0x4ee3))
    else if functions == ADB | RNDIS || functions == ADB | RNDIS | NCM then
      if vendor.Dm? then MODEM_DEBUG else IfPlain(vendor, Google(0x4ee4))
    else if functions == PTP then IfPlain(vendor, Google(0x4ee5))
    else if functions == ADB | PTP then IfPlain(vendor, Google(0x4ee6))
    else if functions == ADB then
      if vendor.Dm? then MODEM_DEBUG
      else if vendor.EtrMiu? || vendor.UwbAcm? then Google(0x4ee2)
      else IfPlain(vendor, Google(0x4ee7))
    else if functions == MIDI then IfPlain(vendor, Google(0x4ee8))
    else if functions == ADB | MIDI then IfPlain(vendor, Google(0x4ee9))
    else if functions == ACCESSORY then Google(0x2d00)
    else if functions == ADB | ACCESSORY then Google(0x2d01)
    else if functions == AUDIO_SOURCE then Google(0x2d02)
    else if functions == ADB | AUDIO_SOURCE then Google(0x2d03)
    else if functions == ACCESSORY | AUDIO_SOURCE then Google(0x2d04)
    else if functions == ADB | ACCESSORY | AUDIO_SOURCE then Google(0x2d05)
    else if functions == NCM then Google(0x4eeb)
    else if functions == ADB | NCM then if vendor.Dm? then MODEM_DEBUG else Google(0x4eec)
    else if functions == UVC then if uvcEnabled then IfPlain(vendor, Google(0x4eed)) else None
    else if functions == ADB | UVC then if uvcEnabled then IfPlain(vendor, Google(0x4eee)) else None
    else None
  }

  /** Under every vendor property, adding ADB to functions gives the next product id, and ADB can be added
      exactly to what is supported without it, unless it makes the modem debugging product.  NONE does not
      get here: a request for it sets no ids. */
  lemma AdbIsNextProduct(functions: Mask, vendor: Vendor, uvcEnabled: bool)
    requires !Has(functions, ADB) && functions != NONE
    ensures var without, with := IdsFor(functions, vendor, uvcEnabled), IdsFor(functions | ADB, vendor, uvcEnabled);
            with != MODEM_DEBUG ==>
              && (without.Some? <==> with.Some?)
              && (without.Some? ==> with.value == Ids(without.value.vid, without.value.pid + 1))
  {
  }

  /** The mask with NCM left out beside RNDIS, which two masks must share to share a product id. */
  function Product(functions: Mask): Mask {
    if Has(functions, RNDIS) then functions & !NCM else functions
  }

  /** The functions a product id stands for; 0x4ee2 is also the lone ADB of two vendor properties. */
  function FunctionsOf(pid: nat, vendor: Vendor): Mask {
    match pid
    case 0x4ee1 => MTP
    case 0x4ee2 => if vendor.Plain? then ADB | MTP else ADB
    case 0x4ee3 => RNDIS
    case 0x4ee4 => ADB | RNDIS
    case 0x4ee5 => PTP
    case 0x4ee6 => ADB | PTP
    case 0x4ee7 => ADB
    case 0x4ee8 => MIDI
    case 0x4ee9 => ADB | MIDI
    case 0x2d00 => ACCESSORY
    case 0x2d01 => ADB | ACCESSORY
    case 0x2d02 => AUDIO_SOURCE
    case 0x2d03 => ADB | AUDIO_SOURCE
    case 0x2d04 => ACCESSORY | AUDIO_SOURCE
    case 0x2d05 => ADB | ACCESSORY | AUDIO_SOURCE
    case 0x4eeb => NCM
    case 0x4eec => ADB | NCM
    case 0x4eed => UVC
    case 0x4eee => ADB | UVC
    case _ => NONE
  }

  /** The ids that are set determine the functions, up to NCM beside RNDIS. */
  lemma IdsDecode(functions: Mask, vendor: Vendor, uvcEnabled: bool)
    requires var ids := IdsFor(functions, vendor, uvcEnabled); ids.Some? && ids != MODEM_DEBUG
    ensures FunctionsOf(IdsFor(functions, vendor, uvcEnabled).value.pid, vendor) == Product(functions)
  {
  }

  lemma NcmBesideRndis(functions: Mask, vendor: Vendor, uvcEnabled: bool)
    ensures IdsFor(functions, vendor, uvcEnabled) == IdsFor(Product(functions), vendor, uvcEnabled)
  {
  }

  /** Under every vendor property the host can tell supported functions apart by their ids, up to NCM
      beside RNDIS, unless the ids are those of the modem debugging product. */
  lemma IdsTellApart(a: Mask, b: Mask, vendor: Vendor, uvcEnabled: bool)
    requires IdsFor(a, vendor, uvcEnabled).Some? && IdsFor(b, vendor, uvcEnabled).Some?
    requires IdsFor(a, vendor, uvcEnabled) != MODEM_DEBUG
    ensures IdsFor(a, vendor, uvcEnabled) == IdsFor(b, vendor, uvcEnabled) <==> Product(a) == Product(b)
  {
    IdsDecode(a, vendor, uvcEnabled);
    NcmBesideRndis(a, vendor, uvcEnabled);
    NcmBesideRndis(b, vendor, uvcEnabled);
    if IdsFor(a, vendor, uvcEnabled) == IdsFor(b, vendor, uvcEnabled) {
      IdsDecode(b, vendor, uvcEnabled);
    }
  }

  /** Those are the ids, under "dm", of ADB alone or with RNDIS, NCM or both, and of nothing else. */
  lemma ModemDebugIds(functions: Mask, vendor: Vendor, uvcEnabled: bool)
    ensures IdsFor(functions, vendor, uvcEnabled) == MODEM_DEBUG <==>
            vendor.Dm? && Has(functions, ADB) && functions & !(ADB | RNDIS | NCM) == 0
  {
  }

  /** A vendor property supports nothing that the plain one does not, and never changes an id, except to
      those of the modem debugging product for "dm", and to MTP's with ADB for a lone ADB. */
  lemma VendorIds(functions: Mask, property: string, uvcEnabled: bool)
    requires IdsFor(functions, VendorOf(property), uvcEnabled).Some?
    ensures var ids, plain := IdsFor(functions, VendorOf(property), uvcEnabled), IdsFor(functions, Plain, uvcEnabled);
            && plain.Some?
            && (ids == plain ||
                (property == "dm" && ids == MODEM_DEBUG && Has(functions, ADB)) ||
                (property in {"etr_miu", "uwb_acm"} && functions == ADB && ids == IdsFor(ADB | MTP, Plain, uvcEnabled)))
  {
  }

  /** Functions that are supported under every vendor property. */
  predicate AlwaysSupported(base: Mask) {
    base == ACCESSORY || base == AUDIO_SOURCE || base == ACCESSORY | AUDIO_SOURCE || base == NCM
  }

  /** Functions that the plain vendor property adds. */
  predicate PlainSupported(base: Mask, uvcEnabled: bool) {
    || base == MTP || base == PTP || base == MIDI || base == RNDIS || base == RNDIS | NCM
    || (base == UVC && uvcEnabled)
  }

  /** Exactly what is supported: with or without ADB, accessory, audio source, both, or NCM; under the plain
      property also one of MTP, PTP, MIDI, RNDIS with or without NCM, and UVC where it is enabled; ADB alone
      unless the property is an unknown one; and ADB with RNDIS also under "dm". */
  lemma SupportedMasks(functions: Mask, property: string, uvcEnabled: bool)
    ensures var base, adb := functions & !ADB, Has(functions, ADB);
            IdsFor(functions, VendorOf(property), uvcEnabled).Some? <==>
            || AlwaysSupported(base)
            || (property in {"", "user"} && PlainSupported(base, uvcEnabled))
            || (functions == ADB && property in {"", "user", "dm", "etr_miu", "uwb_acm"})
            || (property == "dm" && adb && (base == RNDIS || base == RNDIS | NCM))
  {
    SupportedByVendor(functions, VendorOf(property), uvcEnabled);
  }

  lemma SupportedByVendor(functions: Mask, vendor: Vendor, uvcEnabled: bool)
    ensures var base, adb := functions & !ADB, Has(functions, ADB);
            IdsFor(functions, vendor, uvcEnabled).Some? <==>
            || AlwaysSupported(base)
            || (vendor.Plain? && PlainSupported(base, uvcEnabled))
            || (functions == ADB && !vendor.OtherVendor?)
            || (vendor.Dm? && adb && (base == RNDIS || base == RNDIS | NCM))
  {
  }

  predicate SameShape(v: Vendor, w: Vendor) {
    (v.Dm? <==> w.Dm?) && (v.EtrMiu? <==> w.EtrMiu?) && (v.UwbAcm? <==> w.UwbAcm?)
  }

  /** Ids, the NCM and ADB bits, and RNDIS where "dm" tells it, determine the functions. */
  lemma IdsAndPartsTell(a: Mask, v: Vendor, uvc: bool, b: Mask, w: Vendor, uvc': bool)
    requires IdsFor(a, v, uvc).Some? && IdsFor(a, v, uvc) == IdsFor(b, w, uvc')
    requires Has(a, NCM) == Has(b, NCM) && Has(a, ADB) == Has(b, ADB) && SameShape(v, w)
    requires v.Dm? ==> Has(a, RNDIS) == Has(b, RNDIS)
    ensures a == b
  {
  }
}
