# Car Service Manager: the service-order workflow

This project models the `car.service.order` model of the Car Service Manager
Odoo module (`models/car_service_order.py`, class `ServiceOrder`) and proves
properties of it.

A service order is raised for a car, priced by a service type and moved
through the states draft, confirmed, invoiced, done and cancelled. Confirming
a draft with a positive amount creates its customer invoice on the spot.

The model consists of five files:

- `service_order.dfy` (module `ServiceOrder`) holds the records and the host
  tables as values (`Db`). It defines each operation as a function: the
  invoice checks and the invoice built, the one-record step of each workflow
  button, the batch fold `BatchFrom` over a recordset, the creation hook, and
  the derived and onchange helpers.
- `service_order_properties.dfy` (module `ServiceOrderProperties`) holds
  reference definitions of the guards, their errors and the confirmed
  outcome (`Allowed`, `Refusal`, `ConfirmRaises`, `ConfirmError`,
  `ConfirmedAs`). It also holds the lemmas that tie the operations to them.
- `service_order_registry.dfy` (module `ServiceOrderRegistry`) holds the
  class `Registry`. Its fields are the order table, the accounting moves,
  the numbering sequence and the current company. Its methods walk a
  recordset record by record and write fields in place, as the Python code
  does. The workflow methods (`Create`, `ResolveReference`,
  `DrawReference`, `ActionCreateInvoice`, the four batch buttons and their
  loop bodies `ConfirmRecord`, `DoneRecord`, `CancelRecord` and
  `SetDraftRecord`, `ComputeInvoiceCount` and the two onchanges) are proved
  to leave exactly the state the matching function of `ServiceOrder` or
  `IrSequence` describes. The host-service methods `CreateMove`,
  `PostMessage` and `PostInvoice` have no such function and state their
  new state directly.

  The four batch buttons, `Create`, `ComputeInvoiceCount`, the two
  onchanges and `PostInvoice` require and ensure `Valid()`, the table
  invariants below; `ActionCreateInvoice` keeps them when they held on
  entry. The loop bodies and `DrawReference`, `ResolveReference`,
  `CreateMove` and `PostMessage` state only the new state; a batch button
  gets the invariants at its exit from `BatchKeepsInvariants` on the whole
  fold.
  The table invariants are:
  - every linked invoice exists;
  - no invoice is shared between orders;
  - the next invoice id is free;
  - a draft order has no invoice;
  - every order's `invoice_count` is the one its invoice link gives, as the
    host keeps this computed field current.
- `ir_sequence.dfy` (module `IrSequence`) is a stand-in for the
  `ir.sequence` numbering service: a prefix and a zero-padded counter that
  may be missing.
- `wrappers.dfy` holds `Option` and `Result`.

Host services become explicit state or parameters:

- The income-account search is the company's optional account id.
- `account.move.create` hands out the next free move id.
- An invoice's posted status is a flag in the move table.
- `message_post` appends a note to the order's chatter.
- `ir.sequence.next_by_code` returns a reference, or nothing when no sequence
  is registered.

Batch semantics follow the code literally, without the host's transaction
rollback:

- The records before the one that raises have already been written.
- The record that raises and the records after it are left as they were.
- One exception: in `action_confirm` the state is written before the invoice
  is created. A confirmation whose invoice fails therefore leaves that record
  `confirmed`.

The transitions are exactly what the guards of the code allow:

- Cancel is refused only from done or over a posted invoice, so it is also
  allowed from draft and from cancelled.
- Reset to draft is allowed from any state while no invoice is linked.
- A batch that raises keeps the writes made to earlier records; only the
  host's rollback would undo them.

## Model

| member | source | states |
|---|---|---|
| ServiceOrder.InvoiceCount | models/car_service_order.py:92-95 | the count is 1 exactly when an invoice is linked and 0 exactly when none is |
| ServiceOrder.InvoiceCountsFrom | models/car_service_order.py:92-95 | recomputing the count over a recordset changes no record id, no accounting move and not the next invoice id |
| ServiceOrderProperties.InvoiceCountsPointwise | models/car_service_order.py:94-95 | after the loop from position i, every record listed from i on, however often, carries the count of its own invoice link; every other record is as it was |
| ServiceOrderProperties.InvoiceCountsEffect | models/car_service_order.py:92-95 | over a whole recordset: a listed record's count is 1 if it has an invoice and 0 otherwise, and no other field or record changes |
| ServiceOrderProperties.InvoiceCountsKeepInvariants | models/car_service_order.py:92-95 | recomputing the count keeps every table invariant |
| ServiceOrderProperties.InvoiceCountsIdle | models/car_service_order.py:92-95 | on a table whose counts are current, recomputing them changes nothing |
| ServiceOrderRegistry.Registry.ComputeInvoiceCount | models/car_service_order.py:92-95 | the loop leaves the table the recomputation fold gives, which on a valid registry is the table it started from, and keeps the invariants |
| ServiceOrder.OnCarChanged | models/car_service_order.py:100-106 | the customer is set exactly when a car with an owner is selected, and is then that owner; no other field changes |
| ServiceOrderRegistry.Registry.OnchangeCar | models/car_service_order.py:100-106 | the edited record becomes what `OnCarChanged` makes of it, no other record changes, and the invariants hold |
| ServiceOrder.OnServiceTypeChanged | models/car_service_order.py:108-112 | the amount takes a service type's price when it has one and is left alone otherwise; no other field changes |
| ServiceOrderRegistry.Registry.OnchangeServiceType | models/car_service_order.py:108-112 | the edited record becomes what `OnServiceTypeChanged` makes of it, no other record changes, and the invariants hold |
| ServiceOrder.InvoiceCheck | models/car_service_order.py:121-137 | the four checks in code order: "invoice exists" exactly when one is linked; "non-positive amount" exactly when none is linked and amount <= 0; "no customer" and "no income account" likewise; no error exactly when all four pass |
| ServiceOrder.CreateInvoice | models/car_service_order.py:117-174 | fails exactly when a check fails, with that check's error and nothing changed; otherwise a draft move built from the order gets the next free id and is linked, the order turns invoiced and gets its chatter note, and the returned action opens the move |
| ServiceOrder.LineDescription | models/car_service_order.py:140-143 | no contract of its own: the service type's name and the car's name with their fallbacks; stated by LineDescriptionExample and LineDescriptionFallback |
| ServiceOrder.InvoiceValues | models/car_service_order.py:139-156 | no contract of its own: the invoice values built from the order; stated by CreatedInvoiceContents |
| ServiceOrder.WithInvoice | models/car_service_order.py:159-165 | the invoice is linked, the state is invoiced, the count follows the link, the chatter note is appended, and no other field changes |
| ServiceOrder.Message | models/car_service_order.py:122-237 | no contract of its own: the user-facing text of each error the code raises |
| ServiceOrderProperties.CreatedInvoiceContents | models/car_service_order.py:139-174 | the invoice is a new unposted `out_invoice` for the order's customer, with origin and reference equal to the order name and one line: quantity 1, unit price the amount, the service/car description, the income account; the order is invoiced with the new link and an invoice count of 1, and viewing it returns the same action |
| ServiceOrderProperties.CreateInvoiceTwice | models/car_service_order.py:121-122 | a second invoice creation on the same order fails with "Invoice already exists" and changes nothing |
| ServiceOrderProperties.CreateInvoiceKeepsInvariants | models/car_service_order.py:158-160 | on a well-formed table the new move id is unused, and creating an invoice keeps the invariants |
| ServiceOrderProperties.LineDescriptionExample | models/car_service_order.py:140-143 | the line for an "Oil Change" on car "ABC-123" reads "Service: Oil Change for ABC-123" |
| ServiceOrderProperties.LineDescriptionFallback | models/car_service_order.py:140-143 | without service type and car the line reads "Service: Car Service for Vehicle" |
| ServiceOrderRegistry.Registry.ActionCreateInvoice | models/car_service_order.py:117-174 | the method leaves the tables and returns the result `CreateInvoice` gives, and keeps the invariants |
| ServiceOrderRegistry.Registry.CreateMove | models/car_service_order.py:158 | a new draft move is stored under the next free id, which is then advanced |
| ServiceOrderRegistry.Registry.PostMessage | models/car_service_order.py:162-165 | the note is appended to that order's chatter and nothing else changes |
| ServiceOrder.ViewInvoice | models/car_service_order.py:176-189 | fails with "No invoice found" exactly when none is linked; otherwise returns a form window action on `account.move` whose record id is the linked invoice |
| ServiceOrder.SetState | models/car_service_order.py:198 | writing the state changes that field of that record and nothing else |
| ServiceOrder.ConfirmStep | models/car_service_order.py:196-202 | its own contract is only that no record is added or removed; its four outcomes are ConfirmStepOutcome |
| ServiceOrderProperties.ConfirmStepOutcome | models/car_service_order.py:196-202 | one confirmation: a non-draft raises "Only draft orders can be confirmed." and is unchanged; a draft needing no invoice is only confirmed; a draft whose invoice fails stays confirmed and raises the invoice error; any other draft is invoiced under the next free move id |
| ServiceOrderProperties.ConfirmStepRaises | models/car_service_order.py:196-202 | one confirmation raises exactly when the record is not a draft or needs an invoice that cannot be created; the error is `ConfirmError`; a raising draft is left confirmed and a non-draft as it was |
| ServiceOrderProperties.ConfirmStepEffect | models/car_service_order.py:198-202 | a confirmation that does not raise makes of the record what `ConfirmedAs` says: invoiced with a new move built from it when the amount is positive and none was linked, otherwise just confirmed |
| ServiceOrderProperties.ConfirmStepFrame | models/car_service_order.py:195-202 | one confirmation changes no other record, keeps every existing move of a well-formed table, never lowers the next move id and keeps a linked invoice |
| ServiceOrderProperties.ConfirmStepKeepsInvariants | models/car_service_order.py:198-202 | one confirmation keeps the invariants |
| ServiceOrderProperties.ConfirmBatchFailure | models/car_service_order.py:194-202 | a confirmation batch that stops does so at a record that raises, with its error; that record is as it was if it was not a draft, or confirmed if its invoice failed |
| ServiceOrderProperties.ConfirmBatchPassed | models/car_service_order.py:194-202 | every record the batch got through was a draft that does not raise |
| ServiceOrderProperties.ConfirmBatchCompletes | models/car_service_order.py:194-202 | the batch completes exactly when no record of the recordset raises |
| ServiceOrderProperties.ConfirmBatchEffectHead | models/car_service_order.py:198-202 | what the batch makes of the first record it gets through lasts to the end of the batch |
| ServiceOrderProperties.ConfirmBatchEffectAt | models/car_service_order.py:194-202 | each record the batch got through ends as `ConfirmedAs` says, its new invoice absent from the moves the batch started with |
| ServiceOrderProperties.ConfirmBatchEffect | models/car_service_order.py:194-202 | every record the batch got through ends as `ConfirmedAs` says: confirmed, or invoiced with exactly one new invoice of its own when the amount is positive |
| ServiceOrderProperties.ConfirmedAsFewerBefore | models/car_service_order.py:198-202 | the outcome of a confirmation stays true when its invoice is checked for freshness against fewer earlier moves |
| ServiceOrderRegistry.Registry.ConfirmRecord | models/car_service_order.py:196-202 | the loop body on one record leaves the tables and the error that the confirmation step gives |
| ServiceOrderRegistry.Registry.ActionConfirm | models/car_service_order.py:194-202 | the loop leaves the tables and the outcome the confirmation fold gives, and keeps the invariants |
| ServiceOrder.DoneStep | models/car_service_order.py:205-208 | succeeds exactly from confirmed or invoiced and then writes done, otherwise raises "must be confirmed first" and changes nothing |
| ServiceOrder.CancelStep | models/car_service_order.py:211-216 | "completed" exactly from done; "posted invoice" exactly when not done and the linked invoice is posted; otherwise, from any state, cancelled; a refusal changes nothing |
| ServiceOrder.SetDraftStep | models/car_service_order.py:219-222 | succeeds and writes draft exactly when no invoice is linked, whatever the state; otherwise raises and changes nothing |
| ServiceOrderProperties.StateStep | models/car_service_order.py:204-222 | a done, cancel or reset step writes its target state exactly when `Allowed` holds, and otherwise raises `Refusal` with nothing changed |
| ServiceOrderRegistry.Registry.DoneRecord | models/car_service_order.py:205-208 | the loop body on one record leaves the table and the error the done step gives |
| ServiceOrderRegistry.Registry.CancelRecord | models/car_service_order.py:211-216 | the loop body on one record leaves the table and the error the cancel step gives |
| ServiceOrderRegistry.Registry.SetDraftRecord | models/car_service_order.py:219-222 | the loop body on one record leaves the table and the error the reset step gives |
| ServiceOrderRegistry.Registry.ActionDone | models/car_service_order.py:204-208 | the loop leaves the table and the outcome the done fold gives, and keeps the invariants |
| ServiceOrderRegistry.Registry.ActionCancel | models/car_service_order.py:210-216 | the loop leaves the table and the outcome the cancel fold gives, and keeps the invariants |
| ServiceOrderRegistry.Registry.ActionSetDraft | models/car_service_order.py:218-222 | the loop leaves the table and the outcome the reset fold gives, and keeps the invariants |
| ServiceOrderProperties.StateStepFrame | models/car_service_order.py:204-222 | a done, cancel or reset step changes no other record, no move, not the next move id and not the invoice link |
| ServiceOrderProperties.StateBatchFailure | models/car_service_order.py:204-222 | a done, cancel or reset batch that stops does so at a record `Allowed` refuses, with that record's `Refusal` |
| ServiceOrderProperties.StateBatchPassed | models/car_service_order.py:204-222 | every record such a batch got through was allowed |
| ServiceOrderProperties.StateBatchPassedAt | models/car_service_order.py:204-222 | any one record such a batch got through was allowed |
| ServiceOrderProperties.StateBatchCompletes | models/car_service_order.py:204-222 | such a batch completes exactly when every record is allowed |
| ServiceOrderProperties.StateBatchEffect | models/car_service_order.py:204-222 | every record such a batch got through ends with the target state and nothing else changed |
| ServiceOrderProperties.StateBatchEffectAt | models/car_service_order.py:204-222 | any one record such a batch got through ends with the target state and nothing else changed |
| ServiceOrderProperties.StateBatchStopsCleanly | models/car_service_order.py:204-222 | the record such a batch stopped at is left as it was |
| ServiceOrderProperties.StateBatchKeepsMoves | models/car_service_order.py:204-222 | done, cancel and reset batches never touch the accounting moves or the next move id |
| ServiceOrderProperties.StateBatchKeepsInvoiceLink | models/car_service_order.py:204-222 | done, cancel and reset batches leave every record's invoice link as it was: only confirmation links invoices |
| ServiceOrder.Step | models/car_service_order.py:194-222 | the guarded one-record step of each button; no record is added or removed |
| ServiceOrder.BatchFrom | models/car_service_order.py:194-222 | a batch keeps the set of records, and one that stops names a position in the recordset |
| ServiceOrderProperties.BatchAdvance | models/car_service_order.py:194-222 | a batch that gets through the record at i goes on from i + 1 |
| ServiceOrderProperties.BatchStop | models/car_service_order.py:194-222 | a batch stopped by the record at i ends there with that record's error |
| ServiceOrderProperties.StepFrame | models/car_service_order.py:194-222 | any one step changes no other record, keeps existing moves and a linked invoice; only confirmation creates moves |
| ServiceOrderProperties.StepKeepsInvariants | models/car_service_order.py:194-222 | every one-record step keeps the invariants |
| ServiceOrderProperties.StepKeepsLater | models/car_service_order.py:194-222 | a step on one record of a recordset of distinct records leaves every later record as it was |
| ServiceOrderProperties.BatchLeavesUnreached | models/car_service_order.py:194-222 | a batch does not change a record it never reaches |
| ServiceOrderProperties.BatchSkips | models/car_service_order.py:194-222 | a batch changes no record outside its recordset |
| ServiceOrderProperties.LaterRecordsUntouched | models/car_service_order.py:194-222 | every record after the one a batch stopped at is left as it was |
| ServiceOrderProperties.BatchKeepsMove | models/car_service_order.py:194-222 | a batch keeps every move of a well-formed table as it was |
| ServiceOrderProperties.BatchKeepsInvoiceLink | models/car_service_order.py:159 | no batch clears or replaces a linked invoice |
| ServiceOrderProperties.BatchKeepsInvariants | models/car_service_order.py:76-82 | every batch keeps the tables well formed and keeps draft orders free of invoices |
| ServiceOrderProperties.SetStateKeepsInvariants | models/car_service_order.py:220-222 | writing a state keeps the tables well formed, and keeps drafts free of invoices unless draft is written over a linked invoice |
| ServiceOrderProperties.ReplaceKeepsInvariants | models/car_service_order.py:100-112 | replacing a record by one with the same state and invoice link keeps the invariants |
| ServiceOrderProperties.CountOneKeepsInvariants | models/car_service_order.py:95 | one record's recount keeps the invariants |
| ServiceOrderProperties.InvoiceCountsAdvance | models/car_service_order.py:94-95 | one turn of the recount goes on from the next position |
| ServiceOrder.CreateRecord | models/car_service_order.py:227-239 | raises "no linked customer" exactly when a car is given without a customer and has no owner; otherwise a draft order with no invoice, the given car, service type and amount, and the given customer or the car's owner; the reference is the given name unless it is missing or "New", then the drawn number, or "New" when there is no sequence |
| ServiceOrder.ResolveName | models/car_service_order.py:229-230 | a name other than "New" is kept and the sequence is untouched; a missing name or "New" takes the next reference and advances the sequence, or stays "New" when no sequence is registered |
| ServiceOrderRegistry.Registry.ResolveReference | models/car_service_order.py:229-230 | the reference stored and the sequence afterwards are the ones `ResolveName` gives |
| ServiceOrderRegistry.Registry.DrawReference | models/car_service_order.py:230 | the draw returns and advances what `NextByCode` gives |
| ServiceOrderRegistry.Registry.Create | models/car_service_order.py:227-239 | the method ends with the sequence `CreateRecord` gives; it fails exactly when `CreateRecord` does, storing nothing; otherwise it stores the record under a fresh id; the moves are untouched and the invariants hold |
| ServiceOrderProperties.AddOrderKeepsInvariants | models/car_service_order.py:66-82 | adding an order with no invoice under a fresh id keeps the invariants |
| ServiceOrderProperties.CreateKeepsInvariants | models/car_service_order.py:227-239 | adding a created record keeps the invariants |
| ServiceOrderProperties.CreateAgreesWithCarOnchange | models/car_service_order.py:232-235 | the customer the hook takes from a car is the one `_onchange_car` would select |
| ServiceOrderProperties.DrawnReferencesAreUnique | models/car_service_order.py:229-230 | a drawn reference is never "New", and two orders created one after the other without a reference get different references |
| ServiceOrderProperties.RenderIsNotPlaceholder | models/car_service_order.py:230 | a reference drawn from a sequence is never "New" |
| IrSequence.Render | models/car_service_order.py:230 | a reference is the prefix followed by digits, at least the padding width long |
| IrSequence.NextByCode | models/car_service_order.py:230 | a reference is drawn exactly when a sequence is registered; it is that sequence's rendering, and the number advances by one |
| IrSequence.NumberOfDecimal | models/car_service_order.py:230 | the decimal rendering of a number reads back as that number |
| IrSequence.NumberOfZeros | models/car_service_order.py:230 | a run of zeros reads as 0 |
| IrSequence.NumberOfIgnoresLeadingZeros | models/car_service_order.py:230 | leading zeros do not change the number a digit string denotes |
| IrSequence.NumberOfPadded | models/car_service_order.py:230 | zero-padding a digit string keeps its number |
| IrSequence.NumberOfZeroPad | models/car_service_order.py:230 | the padded number reads back as the number |
| IrSequence.RenderInjective | models/car_service_order.py:230 | two draws from one sequence give the same reference only for the same number |
| IrSequence.RenderEndsInDigit | models/car_service_order.py:230 | every drawn reference ends in a digit |
| IrSequence.SuccessiveDrawsDiffer | models/car_service_order.py:230 | each draw advances the number by one, and successive draws give different references |
| ServiceOrderProperties.ConfirmExample | models/car_service_order.py:194-202 | confirming a draft of 150.0 for an oil change on car ABC-123 owned by customer 7 completes, invoices it under move 1 with the single line "Service: Oil Change for ABC-123" at 150.0, for customer 7 |
| ServiceOrderProperties.RepeatedRecordConfirm | models/car_service_order.py:195-198 | a recordset listing a draft twice: the first visit confirms it, the second raises "Only draft orders can be confirmed." although the record does not raise on the starting table |
| ServiceOrderRegistry.Registry.constructor | models/car_service_order.py:76-82 | an empty registry meets the invariants |
| ServiceOrderRegistry.Registry.PostInvoice | models/car_service_order.py:214 | the accounting side posts a move; only its posted flag changes and the invariants hold |

## Left out

- `action_print_report` (models/car_service_order.py:244-251) is left out. It only delegates to the report engine.
- ORM mechanics are not modelled. These are persistence, `required`, `readonly`, `ondelete`, `tracking` and `copy`. `partner_id` is declared `related='car_id.partner_id'`, and its write-through to the car is not modelled either: the customer is a stored field set by `create` and `_onchange_car`.
- `ensure_one` (models/car_service_order.py:119, 178) is not modelled. `ActionCreateInvoice` and `ViewInvoice` take a single record.
- Host transaction rollback is not modelled. A raised error keeps the writes already made to earlier records, and the state written by a confirmation whose invoice fails. The sequence number drawn by a `create` that then raises also stays drawn.
- Concurrency and row locking are not modelled; everything is sequential.
- The income-account search domain (models/car_service_order.py:131-134) is not modelled. The company's optional income account stands for its result.
- Invoice numbering, invoice posting workflow and `invoice_date` are left out. `invoice_date` comes from the clock (`fields.Date.today()`), so the invoice values carry no date. `PostInvoice` only stands in for the accounting side setting the posted flag.
- The chatter text of `message_post` (models/car_service_order.py:162-165) is not modelled. The chatter note carries the invoice id instead.
- `mail.thread` and `mail.activity.mixin` are not modelled.
- Translation with `_()` is not modelled; strings are literal.
- The order date, the mechanic and the notes are not modelled. They take no part in the workflow.
- `amount` is a `real`. It is only compared with 0 and copied, so float rounding plays no part.
- `car.service.type` declares no `price` (models/car_service_type.py). `ServiceType.price` is therefore an `Option`, and with `None` `OnServiceTypeChanged` leaves the amount alone.
- The sequence record `data/car_service_sequence.xml` is not part of this model. Its prefix and padding are parameters of `SequenceState`, with an increment of 1. The stand-in has no suffix, and it does not interpolate dates into the prefix as `next_by_code` can.
- `CreateRecord` ignores any `state`, `invoice_id` or `invoice_count` passed to `create`. New orders take their declared defaults. A `name` given as a falsy value other than a missing key is also not modelled.
- `CreateRecord` takes the car as a value. Browsing a car id that does not exist is not modelled.
- ConfirmBatchFailure and the other batch characterisations (ConfirmBatchPassed, ConfirmBatchCompletes, ConfirmBatchEffect, StateBatchFailure, StateBatchPassed, StateBatchCompletes, StateBatchEffect, StateBatchStopsCleanly, LaterRecordsUntouched) cover recordsets that list each record once (`NoDup`), as a selection in the client does. An Odoo recordset can list a record twice (`browse([1, 1])`, `recs + recs`), and its loop then visits it twice. A confirmation batch over `[1, 1]` on a draft stops at the second visit with "Only draft orders can be confirmed." although the record does not raise on the original table (RepeatedRecordConfirm). For such a recordset only `BatchFrom` itself and the frame and invariant lemmas apply.
- `invoice_count` is not stored by the host: it is recomputed whenever it is read after `invoice_id` changes. The model stores it and keeps it current as part of `Registry.Valid()`. The recompute is written out where the code writes `invoice_id` (`Registry.ActionCreateInvoice`, and `WithInvoice`). On a valid registry `Registry.ComputeInvoiceCount` therefore changes nothing (InvoiceCountsIdle).
