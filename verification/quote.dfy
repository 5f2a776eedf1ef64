/**
 * The selection store and the pricing derivation of the quote wizard: the
 * quantity map, its only mutator, the line items derived from it, the grand
 * total and the submitted payload record.
 */
module Quote {
  import opened Wrappers
  import opened Catalog

  /**
   * The quantity state: the map from item key to quantity (`None` is the
   * source's `null`) together with its key order, which is the insertion
   * order that `Object.entries` walks (the keys are not array indices).
   */
  datatype Selection = Selection(order: seq<string>, qty: map<string, Option<int>>)

  /** A derived line item, with the fields the summary and the payload use. */
  datatype LineItem = LineItem(key: string, caption: string, qty: int, unit: int, total: int)

  /** The source's `q && q > 0`: `null`, 0 and negative quantities are not selections. */
  predicate Selected(q: Option<int>)
  {
    q.Some? && q.value > 0
  }

  ghost predicate Distinct(xs: seq<string>)
  {
    forall i, j :: 0 <= i < j < |xs| ==> xs[i] != xs[j]
  }

  /**
   * What the derivation demands: every key it walks has a quantity, and every
   * selected key has a price-table entry (the source would throw otherwise).
   */
  ghost predicate Derivable(order: seq<string>, qty: map<string, Option<int>>)
  {
    forall k :: k in order ==> k in qty && (Selected(qty[k]) ==> k in PRICING)
  }

  /** A well-formed selection: its order lists each key of its map exactly once. */
  ghost predicate ValidSelection(s: Selection)
  {
    && Derivable(s.order, s.qty)
    && (forall k :: k in s.qty ==> k in s.order)
    && Distinct(s.order)
  }

  /** The state the wizard starts in: rooms unset, add-ons at 0. */
  const INITIAL_SELECTION: Selection := Selection(
    PRICING_KEYS,
    map[
      "living" := None, "dining" := None, "bedroom" := None, "bathroom" := None,
      "kitchen" := Some(0), "kitchenEssentials" := Some(0), "patio" := Some(0),
      "entryway" := Some(0), "office" := Some(0)
    ])

  lemma InitialSelectionIsValid()
    ensures ValidSelection(INITIAL_SELECTION)
    ensures INITIAL_SELECTION.order == PRICING_KEYS
    ensures forall k :: k in PRICING <==> k in PRICING_KEYS
  {
  }

  /**
   * The store's only mutator, `setQuantity`: key `key` now holds `v`, no
   * other key changes, and a key already present keeps its place in the
   * order (a new one goes last, as an object spread does).
   */
  function Assign(s: Selection, key: string, v: int): (r: Selection)
    ensures key in r.qty && r.qty[key] == Some(v)
    ensures forall j :: j != key ==> (j in r.qty <==> j in s.qty)
    ensures forall j :: j != key && j in s.qty ==> r.qty[j] == s.qty[j]
    ensures key in s.qty ==> r.order == s.order
    ensures key !in s.qty ==> r.order == s.order + [key]
    ensures ValidSelection(s) && (v > 0 ==> key in PRICING) ==> ValidSelection(r)
  {
    Selection(if key in s.qty then s.order else s.order + [key], s.qty[key := Some(v)])
  }

  /** Writing the same value twice is the same as writing it once. */
  lemma AssignIdempotent(s: Selection, key: string, v: int)
    ensures Assign(Assign(s, key, v), key, v) == Assign(s, key, v)
  {
  }

  /**
   * Writes to two different existing keys commute: the resulting state, and
   * so the derived items, do not depend on the order the user chose in.
   */
  lemma AssignCommutes(s: Selection, k1: string, v1: int, k2: string, v2: int)
    requires k1 != k2 && k1 in s.qty && k2 in s.qty
    ensures Assign(Assign(s, k1, v1), k2, v2) == Assign(Assign(s, k2, v2), k1, v1)
  {
    assert Assign(Assign(s, k1, v1), k2, v2).qty == Assign(Assign(s, k2, v2), k1, v1).qty;
  }

  /** The item for a selected key (an item builder, not a property). */
  function PricedItem(key: string, q: int): LineItem
    requires key in PRICING
  {
    LineItem(key, PRICING[key].caption, q, UnitPrice(key), UnitPrice(key) * q)
  }

  /**
   * An item that agrees with the quantity map and the price table: a
   * positive quantity taken from the map, the table's caption, the unit
   * price (0 when the table has none) and `unit * qty` as its total.
   */
  ghost predicate WellPriced(it: LineItem, qty: map<string, Option<int>>)
  {
    && it.key in qty && qty[it.key] == Some(it.qty) && it.qty > 0
    && it.key in PRICING && it.caption == PRICING[it.key].caption
    && it.unit == UnitPrice(it.key) && it.total == it.unit * it.qty
  }

  /**
   * The line items of `lineItems`: the keys of `order` whose quantity is
   * selected, priced, in key order.
   */
  function LineItems(order: seq<string>, qty: map<string, Option<int>>): (items: seq<LineItem>)
    requires Derivable(order, qty)
    ensures |items| <= |order|
    ensures forall i :: 0 <= i < |items| ==> WellPriced(items[i], qty)
    decreases |order|
  {
    if order == [] then []
    else
      var n := |order| - 1;
      var k := order[n];
      LineItems(order[..n], qty) + (if Selected(qty[k]) then [PricedItem(k, qty[k].value)] else [])
  }

  /** The keys of some items, in item order. */
  function KeysOf(items: seq<LineItem>): (ks: seq<string>)
    ensures |ks| == |items|
  {
    seq(|items|, i requires 0 <= i < |items| => items[i].key)
  }

  /**
   * The `forEach` of `lineItems`: walks the keys in order and pushes an item
   * for each selected one.
   */
  method ComputeLineItems(s: Selection) returns (items: seq<LineItem>)
    requires ValidSelection(s)
    ensures items == LineItems(s.order, s.qty)
  {
    items := [];
    var i := 0;
    while i < |s.order|
      invariant 0 <= i <= |s.order|
      invariant items == LineItems(s.order[..i], s.qty)
    {
      var key := s.order[i];
      var q := s.qty[key];
      if q.Some? && q.value > 0 {
        var unit := UnitPrice(key);
        items := items + [LineItem(key, PRICING[key].caption, q.value, unit, unit * q.value)];
      }
      assert s.order[..i + 1][..i] == s.order[..i];
      i := i + 1;
    }
    assert s.order[..i] == s.order;
  }

  /**
   * The positions in `order` whose quantity is selected, in increasing
   * order: exactly the selected positions, each once.
   */
  ghost function SelectedPositions(order: seq<string>, qty: map<string, Option<int>>): (ps: seq<nat>)
    requires forall k :: k in order ==> k in qty
    ensures forall j :: 0 <= j < |ps| ==> ps[j] < |order| && Selected(qty[order[ps[j]]])
    ensures forall j, j' :: 0 <= j < j' < |ps| ==> ps[j] < ps[j']
    ensures forall p :: 0 <= p < |order| && Selected(qty[order[p]]) ==> p in ps
    decreases |order|
  {
    if order == [] then []
    else
      var n := |order| - 1;
      SelectedPositions(order[..n], qty) + (if Selected(qty[order[n]]) then [n] else [])
  }

  /**
   * The items are an order-preserving subsequence of the keys: item `j`
   * belongs to the `j`-th selected position of the key order.
   */
  lemma {:induction false} LineItemsFollowKeyOrder(order: seq<string>, qty: map<string, Option<int>>)
    requires Derivable(order, qty)
    ensures |LineItems(order, qty)| == |SelectedPositions(order, qty)|
    ensures forall j :: 0 <= j < |LineItems(order, qty)| ==>
              LineItems(order, qty)[j].key == order[SelectedPositions(order, qty)[j]]
  {
    if order != [] {
      var n := |order| - 1;
      LineItemsFollowKeyOrder(order[..n], qty);
    }
  }

  /** A key is quoted exactly when it is in the order with a positive quantity. */
  lemma {:induction false} QuotedExactlySelected(order: seq<string>, qty: map<string, Option<int>>, k: string)
    requires Derivable(order, qty)
    ensures k in KeysOf(LineItems(order, qty)) <==> k in order && Selected(qty[k])
  {
    if order != [] {
      var n := |order| - 1;
      QuotedExactlySelected(order[..n], qty, k);
      var rest := LineItems(order[..n], qty);
      var tail := if Selected(qty[order[n]]) then [PricedItem(order[n], qty[order[n]].value)] else [];
      assert KeysOf(rest + tail) == KeysOf(rest) + KeysOf(tail);
      assert KeysOf(tail) == if Selected(qty[order[n]]) then [order[n]] else [];
      assert order == order[..n] + [order[n]];
      assert k in order <==> k in order[..n] || k == order[n];
    }
  }

  /**
   * The grand total, `reduce((sum, it) => sum + it.total, 0)`: a left fold
   * of the items' totals, so items with non-negative totals sum to at least 0.
   */
  function Total(items: seq<LineItem>): (r: int)
    ensures (forall i :: 0 <= i < |items| ==> items[i].total >= 0) ==> r >= 0
  {
    if items == [] then 0 else Total(items[..|items| - 1]) + items[|items| - 1].total
  }

  /** What one key adds to the quote: `unit * qty` when selected, else nothing. */
  ghost function Contribution(k: string, q: Option<int>): int
    requires Selected(q) ==> k in PRICING
  {
    if Selected(q) then UnitPrice(k) * q.value else 0
  }

  /** The reference sum over the keys, taken front to back. */
  ghost function QuoteSum(order: seq<string>, qty: map<string, Option<int>>): int
    requires Derivable(order, qty)
  {
    if order == [] then 0 else Contribution(order[0], qty[order[0]]) + QuoteSum(order[1..], qty)
  }

  lemma {:induction false} QuoteSumSnoc(order: seq<string>, k: string, qty: map<string, Option<int>>)
    requires Derivable(order + [k], qty)
    ensures Derivable(order, qty)
    ensures QuoteSum(order + [k], qty) == QuoteSum(order, qty) + Contribution(k, qty[k])
  {
    if order != [] {
      assert (order + [k])[1..] == order[1..] + [k];
      QuoteSumSnoc(order[1..], k, qty);
    }
  }

  /**
   * The grand total is the sum of `unit * qty` over exactly the selected
   * keys.
   */
  lemma {:induction false} TotalIsQuoteSum(order: seq<string>, qty: map<string, Option<int>>)
    requires Derivable(order, qty)
    ensures Total(LineItems(order, qty)) == QuoteSum(order, qty)
  {
    if order != [] {
      var n := |order| - 1;
      TotalIsQuoteSum(order[..n], qty);
      assert order[..n] + [order[n]] == order;
      QuoteSumSnoc(order[..n], order[n], qty);
      var rest := LineItems(order[..n], qty);
      if Selected(qty[order[n]]) {
        assert (rest + [PricedItem(order[n], qty[order[n]].value)])[..|rest|] == rest;
      } else {
        assert rest + [] == rest;
      }
    }
  }

  /** With no key selected there are no items and the total is 0. */
  lemma {:induction false} NothingSelectedQuotesNothing(order: seq<string>, qty: map<string, Option<int>>)
    requires Derivable(order, qty)
    requires forall k :: k in order ==> !Selected(qty[k])
    ensures LineItems(order, qty) == []
    ensures Total(LineItems(order, qty)) == 0
  {
    if order != [] {
      var n := |order| - 1;
      assert forall k :: k in order[..n] ==> k in order;
      NothingSelectedQuotesNothing(order[..n], qty);
    }
  }

  /** The initial state quotes nothing: rooms are unset and add-ons are 0. */
  lemma InitialQuoteIsEmpty()
    ensures LineItems(INITIAL_SELECTION.order, INITIAL_SELECTION.qty) == []
    ensures Total(LineItems(INITIAL_SELECTION.order, INITIAL_SELECTION.qty)) == 0
  {
    NothingSelectedQuotesNothing(INITIAL_SELECTION.order, INITIAL_SELECTION.qty);
  }

  /** The total never goes below 0: prices are non-negative and items positive. */
  lemma {:induction false} TotalNonNegative(order: seq<string>, qty: map<string, Option<int>>)
    requires Derivable(order, qty)
    ensures Total(LineItems(order, qty)) >= 0
  {
    TotalIsQuoteSum(order, qty);
    QuoteSumNonNegative(order, qty);
  }

  lemma {:induction false} QuoteSumNonNegative(order: seq<string>, qty: map<string, Option<int>>)
    requires Derivable(order, qty)
    ensures QuoteSum(order, qty) >= 0
  {
    if order != [] {
      QuoteSumNonNegative(order[1..], qty);
    }
  }

  lemma {:induction false} QuoteSumIgnoresOtherKeys(order: seq<string>, qty: map<string, Option<int>>, key: string, q: Option<int>)
    requires Derivable(order, qty) && key !in order
    requires Selected(q) ==> key in PRICING
    ensures Derivable(order, qty[key := q])
    ensures QuoteSum(order, qty[key := q]) == QuoteSum(order, qty)
  {
    if order != [] {
      QuoteSumIgnoresOtherKeys(order[1..], qty, key, q);
    }
  }

  lemma {:induction false} QuoteSumUpdate(order: seq<string>, qty: map<string, Option<int>>, key: string, q: Option<int>)
    requires Derivable(order, qty) && Distinct(order) && key in order
    requires Selected(q) ==> key in PRICING
    ensures Derivable(order, qty[key := q])
    ensures QuoteSum(order, qty[key := q]) == QuoteSum(order, qty) - Contribution(key, qty[key]) + Contribution(key, q)
  {
    if order[0] == key {
      assert key !in order[1..] by {
        forall i | 0 <= i < |order[1..]| ensures order[1..][i] != key {
          assert order[1..][i] == order[i + 1];
        }
      }
      QuoteSumIgnoresOtherKeys(order[1..], qty, key, q);
    } else {
      QuoteSumUpdate(order[1..], qty, key, q);
    }
  }

  /**
   * Changing one existing key moves the total by exactly that key's change
   * of contribution; nothing else is repriced.
   */
  lemma TotalAfterAssign(s: Selection, key: string, v: int)
    requires ValidSelection(s) && key in s.qty
    requires v > 0 ==> key in PRICING
    ensures Total(LineItems(Assign(s, key, v).order, Assign(s, key, v).qty))
         == Total(LineItems(s.order, s.qty)) - Contribution(key, s.qty[key]) + Contribution(key, Some(v))
  {
    var r := Assign(s, key, v);
    TotalIsQuoteSum(s.order, s.qty);
    TotalIsQuoteSum(r.order, r.qty);
    QuoteSumUpdate(s.order, s.qty, key, Some(v));
  }

  /**
   * The worked example: living 2, dining unset, bedroom 1 and bathroom 0
   * quotes two items, living then bedroom, and 18950 in all.
   */
  lemma WorkedExample()
    ensures var s := Selection(["living", "dining", "bedroom", "bathroom"],
                               map["living" := Some(2), "dining" := None, "bedroom" := Some(1), "bathroom" := Some(0)]);
            && LineItems(s.order, s.qty) == [
                 LineItem("living", "Living Areas (Living/Family)", 2, 7800, 15600),
                 LineItem("bedroom", "Bedroom", 1, 3350, 3350)]
            && Total(LineItems(s.order, s.qty)) == 18950
  {
    RoomKeysListed();
    var o := ["living", "dining", "bedroom", "bathroom"];
    var q := map["living" := Some(2), "dining" := None, "bedroom" := Some(1), "bathroom" := Some(0)];
    var living := LineItem("living", "Living Areas (Living/Family)", 2, 7800, 15600);
    var bedroom := LineItem("bedroom", "Bedroom", 1, 3350, 3350);
    assert o[..1][..0] == [];
    assert LineItems(o[..1], q) == [living];
    assert o[..2][..1] == o[..1];
    assert LineItems(o[..2], q) == [living];
    assert o[..3][..2] == o[..2];
    assert LineItems(o[..3], q) == [living, bedroom];
    assert o[..4] == o && o[..3] == o[..4][..3];
    assert LineItems(o, q) == [living, bedroom];
    assert [living, bedroom][..1] == [living] && [living][..0] == [];
    assert Total([living]) == 15600;
    assert Total([living, bedroom]) == 18950;
  }

  /** The contact fields the form collects. */
  datatype ContactInfo = ContactInfo(name: string, address: string, email: string, phone: string)

  /** The JSON record posted on submit. */
  datatype Payload = Payload(
    name: string, address: string, email: string, phone: string,
    quoteDetails: seq<LineItem>, total: int, source: string)

  const QUOTE_SOURCE: string := "One Two Six Website - Refresh & Reuse Quote Form"

  /**
   * The payload of `handleSubmit`: the contact fields, the line items, their
   * grand total and the constant source tag.
   */
  function BuildPayload(c: ContactInfo, s: Selection): (p: Payload)
    requires ValidSelection(s)
    ensures p.name == c.name && p.address == c.address && p.email == c.email && p.phone == c.phone
    ensures p.source == QUOTE_SOURCE
    ensures forall i :: 0 <= i < |p.quoteDetails| ==> WellPriced(p.quoteDetails[i], s.qty)
    ensures forall k :: k in KeysOf(p.quoteDetails) <==> k in s.order && Selected(s.qty[k])
    ensures p.quoteDetails == LineItems(s.order, s.qty)
    ensures p.total == Total(p.quoteDetails)
    ensures p.total == QuoteSum(s.order, s.qty) && p.total >= 0
  {
    var items := LineItems(s.order, s.qty);
    TotalIsQuoteSum(s.order, s.qty);
    TotalNonNegative(s.order, s.qty);
    assert forall k :: k in KeysOf(items) <==> k in s.order && Selected(s.qty[k]) by {
      forall k ensures k in KeysOf(items) <==> k in s.order && Selected(s.qty[k]) {
        QuotedExactlySelected(s.order, s.qty, k);
      }
    }
    Payload(c.name, c.address, c.email, c.phone, items, Total(items), QUOTE_SOURCE)
  }
}
