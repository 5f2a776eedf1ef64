/**
 * The step navigator and the wizard session: a cursor into the fixed step
 * sequence, the quantity state, and the validation message.
 */
module Wizard {
  import opened Wrappers
  import opened Catalog
  import opened Quote

  const CHOOSE_QUANTITY_ERROR: string := "Please choose a quantity to continue."

  /** The cursor after a forward move: `Math.min(s + 1, STEPS.length - 1)`. */
  function Forward(s: nat): (r: nat)
    requires s < |STEPS|
    ensures r < |STEPS|
    ensures s < |STEPS| - 1 ==> r == s + 1
    ensures s == |STEPS| - 1 ==> r == s
  {
    if s + 1 <= |STEPS| - 1 then s + 1 else |STEPS| - 1
  }

  /** The cursor after a backward move: `Math.max(0, s - 1)`. */
  function Backward(s: nat): (r: nat)
    requires s < |STEPS|
    ensures r < |STEPS|
    ensures s > 0 ==> r == s - 1
    ensures s == 0 ==> r == 0
  {
    if 0 >= s - 1 then 0 else s - 1
  }

  /** A key that is present with the value `null`; an absent key is `undefined`, not `null`. */
  predicate Unset(s: Selection, key: string)
  {
    key in s.qty && s.qty[key] == None
  }

  /**
   * `canProceed`: a quantity step lets the user on once its key is no longer
   * `null`; every other step always does. So exactly the four room steps can
   * block, each on its own room.
   */
  function CanProceed(step: nat, s: Selection): (ok: bool)
    requires step < |STEPS|
    ensures ok <==> !(1 <= step <= 4 && Unset(s, ROOM_KEYS[step - 1]))
  {
    QtyStepsAreTheRooms(step);
    match STEPS[step].kind
    case Qty(k) => !Unset(s, k)
    case _ => true
  }

  /** Every quantity step behind the cursor has its key set. */
  ghost predicate ChoicesBehind(step: nat, s: Selection)
  {
    forall i :: 0 <= i < step && i < |STEPS| && STEPS[i].kind.Qty? ==> !Unset(s, STEPS[i].kind.priceKey)
  }

  /** A forward move is only taken past a quantity step whose key is set. */
  lemma ForwardKeepsChoices(step: nat, s: Selection)
    requires step < |STEPS| && ChoicesBehind(step, s) && CanProceed(step, s)
    ensures ChoicesBehind(Forward(step), s)
  {
    forall i | 0 <= i < Forward(step) && STEPS[i].kind.Qty?
      ensures !Unset(s, STEPS[i].kind.priceKey)
    {
      QtyStepsAreTheRooms(i);
    }
  }

  /** A write never makes a key `null` again. */
  lemma AssignKeepsChoices(step: nat, s: Selection, key: string, v: int)
    requires ChoicesBehind(step, s)
    ensures ChoicesBehind(step, Assign(s, key, v))
  {
  }

  /**
   * The quantities the quick picks can produce: every starting key is still
   * there, and each one holds its starting value or a pill value 1 to 3.
   */
  ghost predicate QuickPicked(s: Selection)
  {
    && (forall k :: k in INITIAL_SELECTION.qty ==> k in s.qty)
    && (forall k :: k in s.qty ==>
          (s.qty[k].Some? && 1 <= s.qty[k].value <= 3)
          || (k in INITIAL_SELECTION.qty && s.qty[k] == INITIAL_SELECTION.qty[k]))
  }

  lemma PickKeepsQuickPicked(s: Selection, key: string, pill: string)
    requires QuickPicked(s) && pill in PILL_LABELS
    ensures QuickPicked(Assign(s, key, PillValue(pill)))
  {
  }

  /**
   * Once the cursor is past the room steps, in a session driven by the quick
   * picks, every room is quoted: none can be left unset and a pill only
   * writes positive quantities.
   */
  lemma {:induction false} PastRoomsQuotesEveryRoom(step: nat, s: Selection)
    requires 5 <= step < |STEPS|
    requires ValidSelection(s) && ChoicesBehind(step, s) && QuickPicked(s)
    ensures forall k :: k in ROOM_KEYS ==> k in KeysOf(LineItems(s.order, s.qty))
  {
    forall k | k in ROOM_KEYS
      ensures k in KeysOf(LineItems(s.order, s.qty))
    {
      var i :| 0 <= i < |ROOM_KEYS| && ROOM_KEYS[i] == k;
      RoomQuoted(step, s, i + 1);
    }
  }

  lemma RoomQuoted(step: nat, s: Selection, i: nat)
    requires 1 <= i <= 4 && 5 <= step < |STEPS|
    requires ValidSelection(s) && ChoicesBehind(step, s) && QuickPicked(s)
    ensures ROOM_KEYS[i - 1] in KeysOf(LineItems(s.order, s.qty))
  {
    var k := ROOM_KEYS[i - 1];
    assert STEPS[i].kind == Qty(k);
    assert !Unset(s, k);
    assert k in INITIAL_SELECTION.qty && INITIAL_SELECTION.qty[k] == None;
    assert Selected(s.qty[k]);
    QuotedExactlySelected(s.order, s.qty, k);
  }

  /** The wizard session: `step`, `qty` and `error` of the component. */
  class QuoteWizard {
    var step: nat
    var qty: Selection
    var error: string

    /** The cursor is on a step, the selection is well formed, and no step behind is unanswered. */
    ghost predicate Valid()
      reads this
    {
      step < |STEPS| && ValidSelection(qty) && ChoicesBehind(step, qty)
    }

    constructor ()
      ensures Valid() && QuickPicked(qty)
      ensures step == 0 && qty == INITIAL_SELECTION && error == ""
    {
      step := 0;
      qty := INITIAL_SELECTION;
      error := "";
      InitialSelectionIsValid();
    }

    /** `setQuantity`: overwrites one key and clears the error; the cursor stays. */
    method SetQuantity(key: string, v: int)
      requires Valid()
      requires v > 0 ==> key in PRICING
      modifies this
      ensures Valid()
      ensures qty == Assign(old(qty), key, v)
      ensures error == "" && step == old(step)
    {
      AssignKeepsChoices(step, qty, key, v);
      qty := Assign(qty, key, v);
      error := "";
    }

    /**
     * A click on a quick-pick pill of the current step: it writes the pill's
     * value, 1 to 3, to one of the keys the step offers.
     */
    method PickPill(key: string, pill: string)
      requires Valid()
      requires pill in PILL_LABELS && key in OfferedKeys(STEPS[step].kind)
      modifies this
      ensures Valid()
      ensures qty == Assign(old(qty), key, PillValue(pill))
      ensures error == "" && step == old(step)
      ensures old(QuickPicked(qty)) ==> QuickPicked(qty)
    {
      OfferedKeysArePriced(step, key);
      if QuickPicked(qty) {
        PickKeepsQuickPicked(qty, key, pill);
      }
      SetQuantity(key, PillValue(pill));
    }

    /**
     * `next`: a blocked move keeps the cursor and sets the message; any other
     * move advances, clamped to the last step, and keeps the message.
     */
    method Next()
      requires Valid()
      modifies this
      ensures Valid()
      ensures qty == old(qty)
      ensures !CanProceed(old(step), old(qty)) ==> step == old(step) && error == CHOOSE_QUANTITY_ERROR
      ensures CanProceed(old(step), old(qty)) ==> step == Forward(old(step)) && error == old(error)
    {
      if !CanProceed(step, qty) {
        error := CHOOSE_QUANTITY_ERROR;
        return;
      }
      ForwardKeepsChoices(step, qty);
      step := Forward(step);
    }

    /** `back`: moves one step back, clamped to the first; nothing else changes. */
    method Back()
      requires Valid()
      modifies this
      ensures Valid()
      ensures step == Backward(old(step))
      ensures qty == old(qty) && error == old(error)
    {
      step := Backward(step);
    }

    /**
     * The payload `handleSubmit` posts from the contact step; in a session
     * driven by the quick picks it quotes every room.
     */
    method Submit(contact: ContactInfo) returns (p: Payload)
      requires Valid() && STEPS[step].kind == Contact
      ensures p == BuildPayload(contact, qty)
      ensures QuickPicked(qty) ==> forall k :: k in ROOM_KEYS ==> k in KeysOf(p.quoteDetails)
    {
      var items := ComputeLineItems(qty);
      p := Payload(contact.name, contact.address, contact.email, contact.phone,
                   items, Total(items), QUOTE_SOURCE);
      if QuickPicked(qty) {
        PastRoomsQuotesEveryRoom(step, qty);
      }
    }
  }
}
