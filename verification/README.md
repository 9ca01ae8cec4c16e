# Place-order store, modelled in Dafny

This project models the state engine behind a trading form that places one
exchange order (buy or sell, price, amount) with an optional take-profit plan.
The plan is an ordered list of targets. Each target has an id, a profit
percentage, an absolute exit price, the percentage of the order amount to close,
and optional per-field error annotations. The store converts between profit
percentages and prices, derives the order total and the projected profit, edits
and re-prices the targets, and validates them on submission.

Everything is written as pure functions over immutable values:

- `model.dfy` (module `Model`): the order side, the five validation messages, the
  error annotations (the amount message is kept as its parts: selected total,
  message, excess), the target record, the editable fields, the value an edit
  receives (`undefined`, `null` or a number), and the configured constants.
- `conversion.dfy` (module `Conversion`): total, back-solved amount, and the
  profit/price conversions with their round trips.
- `targets.dfy` (module `Targets`): new, append, remove, re-price and edit of
  the target list.
- `projection.dfy` (module `Projection`): the projected profit.
- `validation.dfy` (module `Validation`): the validation pass.
- `store.dfy` (module `PlaceOrder`): the store record, its actions, and the form's
  composite actions:
  - a price entry is `setPrice` followed by the re-pricing reaction;
  - the add button is offered only below the cap;
  - submitting runs validation.

  It also proves that a session keeps ids unique, targets priced from their
  profits, and the list within the cap.

Numbers are exact reals, so `0.01` is exactly 1/100 and the conversions invert
each other exactly. The configured constants (profit step, default amount
percentage, maximum number of targets) are the fields of a `Config` parameter,
and their values are not fixed. Ids come in as parameters; a new target's id must
not be live, which is what the id generator promises.

Behaviour kept as the code has it:

- An edit of `profit` or `price` first writes the typed value. It then recomputes
  the edited field itself from its partner. So the typed value is lost
  (`Targets.UpdateFieldDiscardsTypedValue`, `Targets.TypedProfitIsLost`); only
  an `amount` edit keeps the typed value.
- Every edit drops the annotations of every target. The one exception is an
  amount edit with no value, which changes nothing.
- Validation merges into the annotations already present and never removes one.
- A profit not above the previous raw profit is flagged with the "Minimum value
  is 0.01" message. A profit below 0.01 is flagged with the "each target's profit
  should be greater than the previous one" message. The two messages look swapped
  against their conditions; the model keeps them as written.
- Switching take-profit off keeps the targets (src/PlaceOrder/store/PlaceOrderStore.ts:45-50).

## Model

| member | source | states |
|---|---|---|
| `Model.With` | src/PlaceOrder/store/PlaceOrderStore.ts:134 | writing a field sets that field to the value and leaves the id, the annotations and the other two fields unchanged |
| `Model.FieldsAreExactlyTheNumbers` | src/PlaceOrder/model.ts:23 | the editable fields are exactly profit, price and amount: two targets that agree on them, the id and the annotations are equal |
| `Conversion.AmountForTotal` | src/PlaceOrder/store/PlaceOrderStore.ts:38-41 | at a positive price the new amount makes price × amount equal the requested total; at a price ≤ 0 the amount becomes 0 |
| `Conversion.NewProfit` | src/PlaceOrder/store/PlaceOrderStore.ts:102-105 | at order price 0 the profit is 0; otherwise the profit converts back to exactly the given price |
| `Conversion.ProfitPriceRoundTrip` | src/PlaceOrder/store/PlaceOrderStore.ts:97-105 | at a non-zero order price, profit → price → profit returns the original profit |
| `Conversion.PriceProfitRoundTrip` | src/PlaceOrder/store/PlaceOrderStore.ts:97-105 | at a non-zero order price, price → profit → price returns the original price |
| `Conversion.PriceAboveOrderIffProfitPositive` | src/PlaceOrder/store/PlaceOrderStore.ts:97-100 | at a positive order price a target price is above the order price iff its profit is positive, and equal to it iff the profit is 0 |
| `Conversion.ZeroOrderPrice` | src/PlaceOrder/store/PlaceOrderStore.ts:97-105 | at order price 0 every profit converts to price 0 and every price to profit 0 |
| `Targets.Find` | src/PlaceOrder/store/PlaceOrderStore.ts:118 | the result is the first index carrying the id; there is none exactly when the id is not live |
| `Targets.NewProfitTarget` | src/PlaceOrder/store/PlaceOrderStore.ts:77-88 | the new target carries the given id, no annotations and the default amount; its profit is one step above the last target's (one step for an empty list); its price is derived from that profit |
| `Targets.AddProfitTarget` | src/PlaceOrder/store/PlaceOrderStore.ts:67-70 | appends exactly one new target after the unchanged old list; keeps ids unique, prices reconciled, and profits increasing when the step is positive |
| `Targets.RemoveProfitTarget` | src/PlaceOrder/store/PlaceOrderStore.ts:72-75 | the length drops by exactly the number of targets carrying the id; an absent id changes nothing |
| `Targets.RemoveDistributes` | src/PlaceOrder/store/PlaceOrderStore.ts:72-75 | removal from a concatenation is the concatenation of the removals, so the kept targets stay in order for any number of carriers of the id |
| `Targets.RemoveKeepsExactlyOthers` | src/PlaceOrder/store/PlaceOrderStore.ts:74 | every remaining target comes from the old list and carries another id, and every old target with another id remains |
| `Targets.RemoveOnlyAt` | src/PlaceOrder/store/PlaceOrderStore.ts:72-75 | removing an id carried only by target k gives the list before k followed by the list after k |
| `Targets.RemoveSplicesOut` | src/PlaceOrder/store/PlaceOrderStore.ts:72-75 | with unique ids, removal cuts out the one target and keeps the others in their original order |
| `Targets.RemoveKeepsReconciled` | src/PlaceOrder/store/PlaceOrderStore.ts:72-75 | removal keeps every target reconciled with the order price |
| `Targets.RemoveKeepsDistinct` | src/PlaceOrder/store/PlaceOrderStore.ts:72-75 | removal keeps ids unique |
| `Targets.RemoveKeepsIncreasing` | src/PlaceOrder/store/PlaceOrderStore.ts:72-75 | removal keeps profits strictly increasing |
| `Targets.UpdateProfitTargets` | src/PlaceOrder/store/PlaceOrderStore.ts:90-95 | length, order, ids, profits, amounts and annotations are unchanged; every target ends reconciled with the order price |
| `Targets.RepricingFixesExactlyReconciled` | src/PlaceOrder/store/PlaceOrderStore.ts:90-95 | re-pricing leaves a list unchanged iff every target is already reconciled |
| `Targets.UpdateFieldById` | src/PlaceOrder/store/PlaceOrderStore.ts:130-139 | every target carrying the id gets the value in the named field; all other fields and targets keep their data; every target loses its annotations |
| `Targets.UpdateField` | src/PlaceOrder/store/PlaceOrderStore.ts:107-128 | per field and value: amount takes a supplied value (null reads as 0); profit ends as the profit derived from the first match's price; price ends as the price derived from its profit; other fields, ids and other targets keep their data; annotations are dropped everywhere except for a value-less amount edit, which changes nothing |
| `Targets.UpdateFieldKeepsReconciled` | src/PlaceOrder/store/PlaceOrderStore.ts:107-128 | with unique ids, any edit keeps every target reconciled with the order price |
| `Targets.UpdateFieldDiscardsTypedValue` | src/PlaceOrder/store/PlaceOrderStore.ts:120-127 | at a non-zero order price, a profit or price edit of a reconciled target leaves all three of its numbers unchanged, whatever value was typed |
| `Targets.TypedProfitIsLost` | src/PlaceOrder/store/PlaceOrderStore.ts:120-122 | at order price 100, typing 5 % into a 2 % / 102 target leaves its profit at 2 % |
| `Projection.Sign` | src/PlaceOrder/store/PlaceOrderStore.ts:57 | the side's factor is +1 or −1, and +1 exactly for a buy order |
| `Projection.NoTargetsNoProfit` | src/PlaceOrder/store/PlaceOrderStore.ts:53-61 | an empty plan projects 0 |
| `Projection.SellIsNegatedBuy` | src/PlaceOrder/store/PlaceOrderStore.ts:53-61 | with the same targets, price and amount, the sell projection is the negated buy projection |
| `Projection.ReconciledContribution` | src/PlaceOrder/store/PlaceOrderStore.ts:55-59 | a reconciled target contributes sign × price × amount × profit% × amount% / 10000 |
| `Projection.ReconciledProjection` | src/PlaceOrder/store/PlaceOrderStore.ts:53-61 | for a reconciled list the projection equals sign × order total × Σ(profit × amount) / 10000 |
| `Projection.OneTargetExample` | src/PlaceOrder/store/PlaceOrderStore.ts:53-61 | price 100, amount 10, one target at 110 closing 50 %: +50 for a buy, −50 for a sell |
| `Validation.CheckTarget` | src/PlaceOrder/store/PlaceOrderStore.ts:148-165 | keeps the numbers; the price slot gets MinTradePrice when price ≤ 0; the profit slot gets TargetProfit below 0.01, else MinProfitValue when not above the previous profit; other slots keep their content |
| `Validation.CheckEach` | src/PlaceOrder/store/PlaceOrderStore.ts:143-172 | target i is checked against the raw profit of target i − 1 (the start value for the first) |
| `Validation.FlagSums` | src/PlaceOrder/store/PlaceOrderStore.ts:174-192 | a profit sum over 500 sets MaxProfitSum; an amount sum over 100 sets the message with that sum and sum − 100; all else is kept |
| `Validation.FlagAllSums` | src/PlaceOrder/store/PlaceOrderStore.ts:174-192 | every target keeps its data; when a sum is over its cap every target is annotated, with MaxProfitSum in the profit slot (profit sum over 500) and the message (sum, sum − 100) in the amount slot (amount sum over 100), other slots kept; when neither sum is over its cap the list is unchanged |
| `Validation.CheckThenFlag` | src/PlaceOrder/store/PlaceOrderStore.ts:147-192 | the sequence of writes on one target equals the rule-by-rule annotation `Expected`, with the winning rule first |
| `Validation.Validate` | src/PlaceOrder/store/PlaceOrderStore.ts:141-193 | length, ids and numbers are unchanged; every target ends with exactly the rule-by-rule annotations, computed from its own numbers, the previous raw profit (0 for the first) and the two sums |
| `Validation.ValidateOnlyAddsAnnotations` | src/PlaceOrder/store/PlaceOrderStore.ts:148-153 | validation never empties an annotation slot and never changes an id or a number |
| `Validation.ExpectedKeeps` | src/PlaceOrder/store/PlaceOrderStore.ts:150-151 | the rules never empty a slot that held an annotation |
| `Validation.ExpectedEmptyIff` | src/PlaceOrder/store/PlaceOrderStore.ts:155-190 | the rules leave a target unannotated iff it had no annotation and no rule fires on it |
| `Validation.ExpectedIdempotent` | src/PlaceOrder/store/PlaceOrderStore.ts:147-192 | applying the rules to a target that already carries their outcome gives the same outcome |
| `Validation.ValidateIdempotent` | src/PlaceOrder/store/PlaceOrderStore.ts:141-193 | validating twice gives the same list as validating once |
| `Validation.ValidatePassesExactlyAcceptable` | src/PlaceOrder/store/PlaceOrderStore.ts:141-193 | validation leaves no annotation iff none was present and every profit is ≥ 0.01 and above the previous one, every price > 0, the profit sum ≤ 500 and the amount sum ≤ 100 |
| `Validation.ValidateExamples` | src/PlaceOrder/store/PlaceOrderStore.ts:155-191 | profits [1, 1] flag the second as MinProfitValue; profits summing to 501 flag both as MaxProfitSum over an earlier flag; amounts [60, 60] give both the message (120, 20) |
| `PlaceOrder.SetTotal` | src/PlaceOrder/store/PlaceOrderStore.ts:38-41 | only the amount changes; at a positive price the total becomes the requested one; at a price ≤ 0 the amount becomes 0 |
| `PlaceOrder.SetTakeProfit` | src/PlaceOrder/store/PlaceOrderStore.ts:43-51 | the switch ends on iff the value is true; on replaces the list by one target (given id, one profit step, its derived price, the default amount, no annotations); off or no value keeps the list |
| `PlaceOrder.TotalProfit` | src/PlaceOrder/store/PlaceOrderStore.ts:53-61 | an empty plan projects 0; the side only contributes the sign of the buy projection |
| `PlaceOrder.ChangePrice` | src/PlaceOrder/components/TakeProfit/TakeProfit.tsx:36 | a price entry sets the price and re-prices every target from the profit it had before, changing nothing else |
| `PlaceOrder.AddIfRoom` | src/PlaceOrder/components/TakeProfit/TakeProfit.tsx:48 | at the cap nothing changes; below it one target is appended after the old list; the length never goes past the cap unless it already was |
| `PlaceOrder.StepKeepsWellformed` | src/PlaceOrder/store/PlaceOrderStore.ts:23-193 | every form action keeps ids unique, targets reconciled with the order price, and the list within the cap |
| `PlaceOrder.RunKeepsWellformed` | src/PlaceOrder/components/TakeProfit/TakeProfit.tsx:36-100 | any sequence of form actions with fresh new ids keeps the store well formed |
| `PlaceOrder.SessionStaysWellformed` | src/PlaceOrder/store/PlaceOrderStore.ts:13-17 | every state reachable from the initial store is well formed |
| `PlaceOrder.PriceEntryNeedsRepricing` | src/PlaceOrder/store/PlaceOrderStore.ts:28-31 | setting the price alone can leave a target priced from the old order price; the price entry with re-pricing does not |

## Left out

- JavaScript number semantics: floating-point rounding, NaN, `Number(...)` coercion, and truthiness of NaN. Numbers are exact reals, so `x || 0` is `x`, and the `updateField` guard only rejects `undefined`.
- MobX reactivity (`@observable`, `@computed`, `@action.bound`) and the React effect. The price-change reaction is the explicit composite `PlaceOrder.ChangePrice`; getters are functions of the state.
- `setOrderSide`, `setPrice` and `setAmount` are one-field record updates inside `PlaceOrder.Step`; they have no contract of their own. `setPrice` alone appears in `PlaceOrder.PriceEntryNeedsRepricing`.
- `total` and `isMaxProfitTargets` are plain getters (`PlaceOrder.Total`, `PlaceOrder.IsMaxProfitTargets`) without a contract of their own. Their meaning is stated through `Conversion.AmountForTotal` and `PlaceOrder.AddIfRoom`.
- `newPrice` and the `totalProfit` fold are reference definitions without a contract of their own (`Conversion.NewPrice`, `Projection.Contribution`, `Projection.TotalProfit`). Their meaning is fixed by `Conversion.ProfitPriceRoundTrip`, `Conversion.PriceProfitRoundTrip`, `Conversion.PriceAboveOrderIffProfitPositive`, `Projection.SellIsNegatedBuy` and `Projection.ReconciledProjection`.
- The `nanoid` id generator: ids are parameters; a new target's id must not be live (`Targets.FreshId`).
- The values of the profit step, the default amount and the target cap live in a constants file that is not part of this model. They are `Config` fields; the only assumption is a cap of at least one, which only the session lemmas use.
- Rendering of the amount message as text ("{sum} out of 100% selected. Please decrease by {excess}") and the number formatting in src/PlaceOrder/format.ts: the message is kept as its parts.
- The React markup of src/PlaceOrder/PlaceOrderForm.tsx and src/PlaceOrder/components/TakeProfit/TakeProfit.tsx. Only their wiring is used, as the composite actions of `PlaceOrder.Step`. The form hides the target controls while take-profit is off; that visibility rule is not modelled.
- `PlaceOrder.StepKeepsWellformed`: strictly increasing profits are not part of the session invariant. A profit edit at order price 0 sets the profit to 0, so increase is only shown for appending (`Targets.AddProfitTarget`) and removal (`Targets.RemoveKeepsIncreasing`).
