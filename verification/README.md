# Refresh & Reuse quote wizard — a Dafny model

This project models the logic of the "Refresh & Reuse" quote calculator, a
multi-step wizard for a home-staging business (`src/App.js`). The wizard walks
a fixed sequence of eight steps: intro, four room steps, add-ons, summary and
contact. It keeps a quantity for each item key. From those quantities it
derives priced line items and a grand total, which it posts with the contact
details to a webhook.

Modules:

- `Wrappers`: the `Option` type; `None` is the source's `null`.
- `Catalog`: the price table `PRICING`, the step sequence `STEPS` (display
  content left out), the quick-pick labels `"1"`, `"2"`, `"3+"` and the
  quantity each one writes.
- `Quote`: the selection store and the pricing derivation.
  - A `Selection` is the key order plus a map from key to `Option<int>`. The
    order is the insertion order that `Object.entries` walks; none of the keys
    looks like an array index.
  - `Assign` is `setQuantity`'s update.
  - `LineItems` is the derivation, stated as a function. `ComputeLineItems` is
    the `forEach` loop that builds it, proved equal to that function.
  - `Total` is the left fold of `reduce`.
  - `QuoteSum` is an independent front-to-back reference sum.
  - `BuildPayload` is the record that `handleSubmit` posts.
- `Wizard`: the navigator functions (`Forward`, `Backward`, `CanProceed`) and
  the class `QuoteWizard`, whose fields `step`, `qty` and `error` are the
  component's state.
  - Its methods `SetQuantity`, `PickPill`, `Next` and `Back` update that state
    in place.
  - `Submit` builds the payload.
  - The class invariant `Valid()` keeps the cursor in `[0, |STEPS| - 1]` and
    keeps the selection well formed. It also says that no quantity step behind
    the cursor is still `null` (`ChoicesBehind`).

Some members are helpers that spell out a single source expression. They
are used by the members below and need no row of their own:

- `Quote.Selected` is the filter `q && q > 0` (`src/App.js:139`).
- `Wizard.Unset` is the negation of `qty[k] !== null` (`src/App.js:161`).
- `Quote.PricedItem` is the object pushed for a selected key (`src/App.js:141-147`).
- `Catalog.OfferedKeys` gives the keys a step's pills write to: the step's `priceKey`, or its add-on keys (`src/App.js:263`, `308`).

`label` is a reserved word in Dafny, so the label field of a price entry and
of a line item is called `caption` here.

Other revisions of this component behave differently in a few places: they
clear the message on every successful `next`, also gate `qtyNoImage` and
`fixedNoImage` steps, let a pill toggle its value off, and post every key of
the price table. This revision does none of these, and the model follows it:

- A successful `next` does not clear the validation message (`src/App.js:166-173`).
  Only `setQuantity` clears it.
- Only steps of kind `qty` gate forward moves. This revision has no
  `qtyNoImage` or `fixedNoImage` steps and no set of optional keys.
- `canProceed` tests `qty[k] !== null`, so a key that is absent from the map
  (`undefined`) does not block. `Unset` is true only for a key that is present
  and `null`. In practice every step key is present.
- Quick-pick pills do not toggle. Clicking the active pill writes the same
  value again (`AssignIdempotent`).
- The payload carries only the line items with a positive quantity, not every
  key of the price table.

## Model

| member | source | states |
|---|---|---|
| `Catalog.UnitPrice` | src/App.js:5-15 | the unit price is the entry's price or 0 when absent, never negative, and positive exactly for the four rooms |
| `Catalog.OfferedKeysArePriced` | src/App.js:18-89 | every key a step's quick picks write is a key of the price table |
| `Catalog.QtyStepsAreTheRooms` | src/App.js:18-89 | the `qty` steps are exactly steps 1 to 4, one per room in table order |
| `Catalog.PillValue` | src/App.js:255-256 | the label "3+" writes 3 and the other labels their decimal value, so a pill always writes 1, 2 or 3 |
| `Catalog.PillValuesDistinct` | src/App.js:255-257 | distinct pill labels write distinct values, so at most one pill of a row is active |
| `Quote.InitialSelectionIsValid` | src/App.js:108-118 | the initial state lists each price-table key once, in table order, with rooms `null` and add-ons 0 |
| `Quote.Assign` | src/App.js:131-134 | the written key holds the new value, every other key keeps its value, an existing key keeps its place, a new key goes last, and a well-formed selection stays well formed when a positive value goes to a priced key |
| `Quote.AssignIdempotent` | src/App.js:256-263 | re-sending the same value leaves the state as one write did (no toggle-off) |
| `Quote.AssignCommutes` | src/App.js:131-134 | writes to two different existing keys commute (every key a pill writes already exists), so the state does not depend on the order the user chose in |
| `Quote.LineItems` | src/App.js:136-151 | every item has a positive quantity taken from the map, the table's caption, the unit price (0 when none) and `unit * qty` as its total; there are at most as many items as keys |
| `Quote.ComputeLineItems` | src/App.js:137-150 | the `forEach` loop that pushes an item per selected key yields exactly `LineItems` of the state |
| `Quote.SelectedPositions` | src/App.js:138-139 | the positions of the selected keys, strictly increasing, containing every selected position and nothing else |
| `Quote.LineItemsFollowKeyOrder` | src/App.js:138-149 | item `j` is the key at the `j`-th selected position: the items are an order-preserving subsequence of the key order |
| `Quote.QuotedExactlySelected` | src/App.js:138-139 | a key has a line item if and only if it is in the key order with a positive quantity; `null`, 0 and negative entries never appear |
| `Quote.Total` | src/App.js:153-156 | the grand total is the left fold of the items' `total` fields, and it is at least 0 when every item total is; `TotalIsQuoteSum` ties its value to `QuoteSum` |
| `Quote.TotalIsQuoteSum` | src/App.js:153-156 | the grand total equals the sum of `unit * qty` over exactly the selected keys |
| `Quote.NothingSelectedQuotesNothing` | src/App.js:136-156 | when no key has a positive quantity there are no items and the total is 0 |
| `Quote.InitialQuoteIsEmpty` | src/App.js:108-118 | the initial state quotes no items and a total of 0 |
| `Quote.TotalNonNegative` | src/App.js:153-156 | the grand total is never negative |
| `Quote.TotalAfterAssign` | src/App.js:131-156 | setting one existing key changes the total by exactly that key's old and new contribution |
| `Quote.WorkedExample` | src/App.js:136-156 | living 2, dining `null`, bedroom 1 and bathroom 0 give the items living (15600) then bedroom (3350), total 18950 |
| `Quote.BuildPayload` | src/App.js:187-192 | the payload copies the contact fields and carries the constant source tag. Its details are the line items themselves, in key order: exactly the selected keys, each once, well priced. Its total is the sum of its own details, equals the reference sum, and is not negative |
| `Wizard.Forward` | src/App.js:171 | a forward move goes one step on, except at the last step, where it stays; the result is always a valid index |
| `Wizard.Backward` | src/App.js:176 | a backward move goes one step back, except at step 0, where it stays; the result is always a valid index |
| `Wizard.CanProceed` | src/App.js:158-164 | `next` is blocked exactly on one of the four room steps whose key is present and `null`; intro, add-ons, summary and contact never block |
| `Wizard.ForwardKeepsChoices` | src/App.js:166-171 | a permitted forward move keeps every quantity step behind the cursor answered |
| `Wizard.AssignKeepsChoices` | src/App.js:131-134 | a write never turns a key back to `null`, so answered steps stay answered |
| `Wizard.PickKeepsQuickPicked` | src/App.js:300-308 | a pill click leaves every key at its starting value or at a value from 1 to 3 |
| `Wizard.PastRoomsQuotesEveryRoom` | src/App.js:158-171 | once the cursor is past the room steps, in a session driven by pills, all four rooms are quoted |
| `Wizard.QuoteWizard.constructor` | src/App.js:107-119 | the session starts at step 0 with the initial quantities and an empty message |
| `Wizard.QuoteWizard.SetQuantity` | src/App.js:131-134 | the new state is `Assign` of the old one with the error cleared and the cursor unchanged; the invariant is kept |
| `Wizard.QuoteWizard.PickPill` | src/App.js:255-263 | a pill on the current step writes its value to a key that step offers; the state stays one that the pills can produce |
| `Wizard.QuoteWizard.Next` | src/App.js:166-173 | when blocked, the cursor stays and the message is set to "Please choose a quantity to continue."; otherwise the cursor moves forward, clamped, and the message is kept. The quantities never change |
| `Wizard.QuoteWizard.Back` | src/App.js:175-178 | the cursor moves back, clamped at 0; quantities and message are unchanged |
| `Wizard.QuoteWizard.Submit` | src/App.js:183-192 | the posted record is `BuildPayload` of the contact fields and the current quantities; in a pill-driven session it quotes every room |

## Left out

- Rendering: the JSX, `QtyPill`, images, CSS classes, the progress text, and the titles, questions, images and notes of each step (`src/App.js:96-104`, `209-423`). These are display only. A step keeps its id and kind.
- `window.scrollTo` after `next` and `back`: a browser side effect.
- The POST to `WEBHOOK_URL`, `console.error`, `alert`, and the `loading` and `submitted` flags of `handleSubmit` (`src/App.js:193-206`). This is network I/O and asynchronous state. Only the payload record is modelled.
- `formData` and `handleChange` (`src/App.js:120-125`, `180-181`): the contact fields are a parameter of `Submit` and `BuildPayload` rather than state of the class.
- The `required` checks on the contact inputs. The browser enforces them, not this code, so the model imposes no check on the contact fields.
- Quantities and prices are integers. JavaScript numbers are doubles, but every reachable value is an exact small integer: quantities 1 to 3, prices up to 7800, at most nine items. So `int` loses nothing. JavaScript values that are not numbers (strings, `NaN`, `undefined`) cannot reach the map from the pills and are not modelled.
- A `PRICING` lookup for a selected key missing from the table throws in the source. The model excludes this case with the `Derivable` precondition, and `SetQuantity` requires a priced key for a positive value. Every key the steps offer is priced (`OfferedKeysArePriced`).
