/**
 * The static configuration of the quote wizard: the price table and the
 * fixed sequence of steps the wizard walks through.
 */
module Catalog {
  import opened Wrappers

  /** One row of the price table: a display label and, for the priced rooms, a unit price. */
  datatype PricingEntry = PricingEntry(caption: string, price: Option<int>)

  /** The keys of the price table, in the order they are declared. */
  const PRICING_KEYS: seq<string> :=
    ["living", "dining", "bedroom", "bathroom", "kitchen",
     "kitchenEssentials", "patio", "entryway", "office"]

  /** The rooms that have a unit price; the kitchen and the add-ons carry none. */
  const ROOM_KEYS: seq<string> := PRICING_KEYS[..4]

  /** The rooms, written out: the first four keys of the table. */
  lemma RoomKeysListed()
    ensures ROOM_KEYS == ["living", "dining", "bedroom", "bathroom"]
  {
  }

  const PRICING: map<string, PricingEntry> := map[
    "living" := PricingEntry("Living Areas (Living/Family)", Some(7800)),
    "dining" := PricingEntry("Dining Room", Some(5400)),
    "bedroom" := PricingEntry("Bedroom", Some(3350)),
    "bathroom" := PricingEntry("Bathroom", Some(250)),
    "kitchen" := PricingEntry("Kitchen (Art & Accessories)", None),
    "kitchenEssentials" := PricingEntry("Kitchen Essentials (Add-on)", None),
    "patio" := PricingEntry("Patio Area (Add-on)", None),
    "entryway" := PricingEntry("Entryway Package (Add-on)", None),
    "office" := PricingEntry("Office / Den Package (Add-on)", None)
  ]

  /**
   * The unit price a line item uses: the entry's price, or 0 when the entry
   * has none (`price || 0`). Exactly the four rooms are priced.
   */
  function UnitPrice(key: string): (u: int)
    requires key in PRICING
    ensures u >= 0
    ensures u > 0 <==> key in ROOM_KEYS
  {
    RoomKeysListed();
    match PRICING[key].price
    case Some(p) => p
    case None => 0
  }

  /** What a step screen is, and which quantity keys its controls write. */
  datatype StepKind =
    | Intro
    | Qty(priceKey: string)
    | AddOns(priceKeys: seq<string>)
    | Summary
    | Contact

  /** A step definition with its display content left out. */
  datatype StepDef = StepDef(id: string, kind: StepKind)

  const STEPS: seq<StepDef> := [
    StepDef("intro", Intro),
    StepDef("living", Qty("living")),
    StepDef("dining", Qty("dining")),
    StepDef("bedroom", Qty("bedroom")),
    StepDef("bathroom", Qty("bathroom")),
    StepDef("addons", AddOns(["kitchen", "kitchenEssentials", "patio", "entryway", "office"])),
    StepDef("summary", Summary),
    StepDef("contact", Contact)
  ]

  /** The keys that the quick-pick controls of a step write to. */
  function OfferedKeys(kind: StepKind): seq<string>
  {
    match kind
    case Qty(k) => [k]
    case AddOns(ks) => ks
    case _ => []
  }

  /**
   * Every key a step offers is a price-table key, so a quick pick can never
   * name an unpriced or unknown key.
   */
  lemma OfferedKeysArePriced(i: nat, k: string)
    requires i < |STEPS| && k in OfferedKeys(STEPS[i].kind)
    ensures k in PRICING
  {
  }

  /** The quantity steps are exactly steps 1 to 4, asking for the rooms in table order. */
  lemma QtyStepsAreTheRooms(i: nat)
    requires i < |STEPS|
    ensures STEPS[i].kind.Qty? <==> 1 <= i <= 4
    ensures 1 <= i <= 4 ==> STEPS[i].kind == Qty(ROOM_KEYS[i - 1])
  {
  }

  /** The quick-pick labels shown under every quantity question. */
  const PILL_LABELS: seq<string> := ["1", "2", "3+"]

  /**
   * The quantity a quick-pick label writes: "3+" writes 3, the others their
   * decimal value (`parseInt(label, 10)`).
   */
  function PillValue(pill: string): (v: int)
    requires pill in PILL_LABELS
    ensures 1 <= v <= 3
  {
    if pill == "3+" then 3 else (pill[0] as int) - ('0' as int)
  }

  /** Distinct labels write distinct quantities, so at most one pill is shown active. */
  lemma PillValuesDistinct(a: string, b: string)
    requires a in PILL_LABELS && b in PILL_LABELS && a != b
    ensures PillValue(a) != PillValue(b)
  {
  }
}
