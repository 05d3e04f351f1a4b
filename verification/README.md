# Cancel-shipment stock return, modelled in Dafny

This project models the processor that runs when a shipment is cancelled in
an order-editing extension for an e-commerce inventory system. For every line
of the cancelled shipment, the processor:

- computes how much stock goes back to the shipment's source. When the order
  item was over-shipped, a negative correction keeps the excess from being
  returned twice.
- sets the source item's quantity to its current quantity plus that amount.
  This is an absolute quantity, not a delta.
- queues a reservation compensation of the negated amount for the same SKU.

The source items are then saved as one batch. Only if the save succeeds are
the compensations placed as reservations, against a "shipment_cancelled"
sales event for the order.

The collaborators are abstracted as data in `Entities.Platform`:

- The order-item, order and source-item repositories become maps. A missing
  key is a lookup that throws "no such entity".
- The sales-channel resolver, the source-items save and the reservation
  placement become total functions. Each returns the exception it throws, if
  any.
- `CancelShipment.Execute` is a pure function. It returns an `Outcome` with
  these parts:
  - the batch handed to the save
  - the placement call that was made
  - the severity of the log entry
  - the exception that escaped

Files:

- `entities.dfy`: the records, the failure kinds and the collaborators.
- `return_qty.dfy`: the per-line return quantity.
- `cancel_shipment.dfy`:
  - the per-line processing, written both as a recursive function
    (`ReturnLines`) and as the loop the processor runs (`CollectReturns`),
    proved equal
  - the placement helper
  - the save-then-place policy
  - `Execute`
- `properties.dfy`: properties over whole batches, the failure policy, and
  concrete scenarios.

## Two behaviours of the code worth knowing

- **Placement failures are all logged at error.** The call to the placement
  helper sits in its own `catch (LocalizedException)`
  (Model/Stock/ReturnProcessor/CancelShipmentProcessor.php:173-177). The
  "could not save", input, validation and "no such entity" exceptions all
  extend the localized exception. So every such failure of the helper is
  logged at error and swallowed. That includes a missing order at line 197.
  Only an exception outside that hierarchy escapes. The outer handlers at
  lines 178-182 see only failures of the source-items save, and only they log
  at notice. `CancelShipment.Commit`, `PlacementAfterSave` and
  `PlacementLookupFailure` state this.
- **A compensation can be positive.** The correction for an over-shipped
  order item (lines 144-153) can exceed the line's own quantity. The returned
  quantity is then negative: the source item loses stock (line 158) and the
  compensation is positive (line 165).
  - `CompensationSign` states exactly when the compensation is at most zero.
  - `ScenarioOvershipmentExceedsLine` exhibits a case where it is positive.
  - `CompensationBoundedByShipment` states the bound that does hold: the
    total withdrawn never exceeds the total quantity of the cancelled lines.

## Model

| member | source | states |
|---|---|---|
| ReturnQty.QtyModification | Model/Stock/ReturnProcessor/CancelShipmentProcessor.php:144-153 | The correction is never positive. It is zero exactly when the item was not over-shipped. Otherwise it is minus the over-shipment. |
| ReturnQty.BackQty | Model/Stock/ReturnProcessor/CancelShipmentProcessor.php:144-154 | The returned quantity equals the line quantity when qtyShipped <= qtyOrdered. Otherwise it is strictly smaller: the line quantity less the over-shipment. |
| CancelShipment.ReturnLine | Model/Stock/ReturnProcessor/CancelShipmentProcessor.php:143-167 | A line succeeds exactly when its order item and its (source, SKU) source item both exist. The source item gets current quantity plus returned quantity. The compensation has the same SKU and the negated returned quantity. A missing lookup throws "no such entity". |
| CancelShipment.ReturnLines | Model/Stock/ReturnProcessor/CancelShipmentProcessor.php:131-168 | The lines yield one source item and one compensation each, in line order. Entry i is exactly what line i yields on its own, so lines do not affect one another. The result fails exactly when some line's lookup fails, and then with "no such entity". |
| CancelShipment.ReturnLinesEntries | Model/Stock/ReturnProcessor/CancelShipmentProcessor.php:154-167 | Entry i of a batch carries the shipment's source and line i's SKU. Its source item is set to current quantity plus the line's returned quantity. Its compensation has the same SKU and equals current minus new quantity. |
| CancelShipment.ReturnLinesFailsAt | Model/Stock/ReturnProcessor/CancelShipmentProcessor.php:143-157 | One line whose order item or source item is missing makes the whole run fail with "no such entity". |
| CancelShipment.CollectReturns | Model/Stock/ReturnProcessor/CancelShipmentProcessor.php:128-168 | The loop as written checks the source code on every line and returns on the first failed lookup. It builds exactly the batch of the recursive definition, or nothing when the shipment has no source code. |
| CancelShipment.CancelEvent | Model/Stock/ReturnProcessor/CancelShipmentProcessor.php:200-215 | The event has type "shipment_cancelled" and object type "order". Its object id is the order's entity id and it carries the order's increment id. |
| CancelShipment.PlaceReservation | Model/Stock/ReturnProcessor/CancelShipmentProcessor.php:195-218 | A missing order throws "no such entity" and no call is made. A sales-channel failure is thrown as is, with no call. An order that exists and whose channel resolves always leads to the call. That call carries the compensations, the resolved channel and the cancellation event, and the helper throws exactly what the placement service throws. |
| CancelShipment.Commit | Model/Stock/ReturnProcessor/CancelShipmentProcessor.php:170-183 | The batch is always saved. Placement is attempted exactly when the save succeeds, and the call made is the helper's call. Notice is logged exactly for input or validation failures of the save. Error is logged exactly for a "could not save" failure of the save, or for a localized failure of placement. Any other save failure escapes as itself, before placement is tried, and a non-localized placement failure escapes as itself. A run that throws logs nothing. |
| CancelShipment.Execute | Model/Stock/ReturnProcessor/CancelShipmentProcessor.php:121-184 | A shipment with no lines or no source code touches nothing. A failed lookup escapes before any save. A sourced shipment whose lookups succeed has its lines' batch saved and is committed by the two-stage policy. A placement happens exactly when the save succeeded, the order exists and its channel resolves, and it carries the lines' compensations. Notice is logged exactly for input or validation save failures. Error is logged exactly for a "could not save" save failure or a localized placement failure. After a successful save, only a non-localized failure escapes. |
| CancelShipmentProperties.CompensationBalancesStock | Model/Stock/ReturnProcessor/CancelShipmentProcessor.php:157-167 | Summed over the batch, the new source quantities plus the compensations equal the current quantities. The stock added is exactly what the reservations give back. |
| CancelShipmentProperties.CompensationBoundedByShipment | Model/Stock/ReturnProcessor/CancelShipmentProcessor.php:144-167 | The total withdrawn by the compensations never exceeds the total quantity of the cancelled lines. It equals that total when no order item was over-shipped. |
| CancelShipmentProperties.CompensationSign | Model/Stock/ReturnProcessor/CancelShipmentProcessor.php:154-166 | A line's compensation is at most zero, and its source item does not lose stock, exactly when the over-shipment does not exceed the line quantity. |
| CancelShipmentProperties.ReturnLinesAppendFails | Model/Stock/ReturnProcessor/CancelShipmentProcessor.php:143-157 | A concatenation of lines fails exactly when one of its parts fails. |
| CancelShipmentProperties.PlacementAfterSave | Model/Stock/ReturnProcessor/CancelShipmentProcessor.php:173-177 | After a successful save, with the order found and its channel resolved, the run places exactly the lines' compensations against the cancellation event for the order. A localized failure of that call, such as a validation failure, is logged at error and the run completes. A non-localized failure escapes. |
| CancelShipmentProperties.PlacementLookupFailure | Model/Stock/ReturnProcessor/CancelShipmentProcessor.php:173-177 | After a successful save, a missing order or an unresolved sales channel means no reservation is placed. A missing order, or a localized channel failure, is logged at error and swallowed. |
| CancelShipmentProperties.SaveFailureBlocksPlacement | Model/Stock/ReturnProcessor/CancelShipmentProcessor.php:171-182 | When the run's one save fails, no reservation is placed. "Could not save" is logged at error and input or validation failures at notice, and the run completes. Any other failure escapes and nothing is logged. |
| CancelShipmentProperties.ScenarioWithinOrdered | Model/Stock/ReturnProcessor/CancelShipmentProcessor.php:144-167 | Five units within the ordered quantity, current stock 3: the saved quantity is 8, the compensation is -5, and the event names the order. |
| CancelShipmentProperties.ScenarioOvershipped | Model/Stock/ReturnProcessor/CancelShipmentProcessor.php:144-167 | The same line with 5 ordered and 8 shipped: 2 units go back, the saved quantity is 5 and the compensation is -2. |
| CancelShipmentProperties.ScenarioOvershipmentExceedsLine | Model/Stock/ReturnProcessor/CancelShipmentProcessor.php:150-165 | With 1 ordered and 8 shipped, the 5-unit line returns -2: the saved quantity is 1 and the compensation is +2. |

## Left out

- Dependency-injection construction and the factories (lines 94-116, 162, 201-214). Items to sell, sales events and their extension attributes are plain records.
- Sales-channel resolution, the repositories, the source-items save and the reservation placement. These are host-platform services: they are maps and total functions supplied as `Platform`.
- What the save does with two entries for the same SKU in one batch. Every lookup reads the state before the save, so each entry is "current + own returned quantity". The external save service decides the result.
- Log message text. Only the severity of the single log entry is recorded.
- The float cast of the compensation quantity (line 165). Quantities are exact `real`s, so there is no rounding and no loose numeric-string comparison.
- The integer cast of the order-item id and the string casts of the order's ids. Ids are given already in their cast form.
- The `$returnItems` array (lines 132-136). It is built but never read.
- The exact exception a failed repository lookup raises. Every missing key is "no such entity". The lookups in the line loop propagate whatever they raise, and the order lookup's failure is localized either way, so the control flow does not change.
- Non-idempotence of repeated runs for one shipment. Showing it would need a model of what the save persists.
