/**
 * The service-order methods as the host platform runs them: a registry that
 * holds the service-order table, the accounting moves, the numbering sequence
 * and the current company, and whose methods walk a recordset record by
 * record and write fields in place. The workflow methods are proved to do
 * what the matching function of `ServiceOrder` describes; the host-service
 * methods (`CreateMove`, `PostMessage`, `PostInvoice`) state their new state
 * directly.
 */
module ServiceOrderRegistry {
  import opened Wrappers
  import opened IrSequence
  import opened ServiceOrder
  import opened ServiceOrderProperties

  class Registry {
    /** The `car.service.order` table. */
    var orders: map<OrderId, Order>
    /** The `account.move` table, with each move's posted flag. */
    var moves: map<InvoiceId, Move>
    /** The id the accounting component gives the next move it creates. */
    var nextMove: InvoiceId
    /** The id the next service order gets. */
    var nextOrder: OrderId
    /** The `car.service.order` sequence, if one is registered. */
    var sequence: Option<SequenceState>
    /** The current company and the income account found for it. */
    const company: Company

    function Snapshot(): Db
      reads this
    {
      Db(orders, moves, nextMove)
    }

    /** The table invariants: links to existing, unshared invoices, drafts
        without an invoice, and `invoice_count` current, as the host keeps a
        computed field. */
    ghost predicate Valid()
      reads this
    {
      WellFormed(Snapshot()) && DraftHasNoInvoice(Snapshot()) && CountsCurrent(Snapshot())
    }

    /** Every stored order id is below the id the next order gets. */
    ghost predicate IdsBelowNext()
      reads this
    {
      forall x :: x in orders ==> x < nextOrder
    }

    constructor (company: Company, sequence: Option<SequenceState>)
      ensures Valid() && IdsBelowNext()
      ensures this.company == company && this.sequence == sequence
      ensures orders == map[] && moves == map[] && nextOrder == 1 && nextMove == 1
    {
      this.company := company;
      this.sequence := sequence;
      orders := map[];
      moves := map[];
      nextOrder := 1;
      nextMove := 1;
    }

    // -------------------------------------------------------------------------
    // Host services
    // -------------------------------------------------------------------------

    /** `ir.sequence.next_by_code('car.service.order')`. */
    method DrawReference() returns (reference: Option<string>)
      modifies this`sequence
      ensures (reference, sequence) == IrSequence.NextByCode(old(sequence))
    {
      if sequence.None? {
        reference := None;
      } else {
        reference := Some(Render(sequence.value));
        sequence := Some(sequence.value.(next := sequence.value.next + 1));
      }
    }

    /** `account.move.create`: the new draft move gets the next free id. */
    method CreateMove(vals: InvoiceVals) returns (m: InvoiceId)
      modifies this`moves, this`nextMove
      ensures m == old(nextMove) && nextMove == m + 1
      ensures moves == old(moves)[m := Move(vals, false)]
    {
      m := nextMove;
      moves := moves[m := Move(vals, false)];
      nextMove := nextMove + 1;
    }

    /** `message_post`: appends a note to an order's chatter. */
    method PostMessage(id: OrderId, note: Note)
      requires id in orders
      modifies this`orders
      ensures orders == old(orders)[id := old(orders)[id].(messages := old(orders)[id].messages + [note])]
    {
      orders := orders[id := orders[id].(messages := orders[id].messages + [note])];
    }

    /** Posting an invoice, which the accounting component does. */
    method PostInvoice(m: InvoiceId)
      requires Valid() && m in moves
      modifies this`moves
      ensures Valid()
      ensures moves == old(moves)[m := old(moves)[m].(posted := true)]
    {
      moves := moves[m := moves[m].(posted := true)];
    }

    // -------------------------------------------------------------------------
    // create
    // -------------------------------------------------------------------------

    /** The reference `create` stores: the one given, or a number drawn from
        the sequence when none or the placeholder is given, the placeholder
        again when no sequence is registered. */
    method ResolveReference(given: Option<string>) returns (name: string)
      modifies this`sequence
      ensures (name, sequence) == ResolveName(given, old(sequence))
    {
      if given.None? || given.value == Placeholder {
        var drawn := DrawReference();
        name := if drawn.Some? then drawn.value else Placeholder;
      } else {
        name := given.value;
      }
    }

    /** `create`: settles the reference and the customer, then stores a new
        draft order under the next id. The reference is drawn before the
        customer check, so a creation that raises has still used a number. */
    method Create(vals: Vals) returns (r: Result<OrderId, Error>)
      requires Valid() && IdsBelowNext()
      modifies this
      ensures Valid() && IdsBelowNext()
      ensures sequence == CreateRecord(vals, old(sequence)).0
      ensures moves == old(moves) && nextMove == old(nextMove)
      ensures var made := CreateRecord(vals, old(sequence)).1;
        && (r.Failure? <==> made.Failure?)
        && (made.Failure? ==> r.error == made.error && orders == old(orders) && nextOrder == old(nextOrder))
        && (made.Success? ==> r.value == old(nextOrder) && r.value !in old(orders)
                              && orders == old(orders)[r.value := made.value] && nextOrder == old(nextOrder) + 1)
    {
      ghost var sq0 := sequence;
      var v := vals;
      var name := ResolveReference(v.name);
      v := v.(name := Some(name));
      if v.car.Some? && v.partner.None? {
        var car := v.car.value;
        if car.owner.Some? {
          v := v.(partner := car.owner);
        } else {
          return Failure(CarWithoutCustomer);
        }
      }
      var record := Order(v.name.value, v.car, v.partner, v.serviceType, v.amount, None, Draft, 0, []);
      assert CreateRecord(vals, sq0) == (sequence, Success(record));
      AddOrderKeepsInvariants(Snapshot(), nextOrder, record);
      r := Success(nextOrder);
      orders := orders[nextOrder := record];
      nextOrder := nextOrder + 1;
    }

    // -------------------------------------------------------------------------
    // Invoice actions
    // -------------------------------------------------------------------------

    /** `action_create_invoice` on one order. */
    method ActionCreateInvoice(id: OrderId) returns (r: Result<WindowAction, Error>)
      requires id in orders
      modifies this`orders, this`moves, this`nextMove
      ensures old(Valid()) ==> Valid()
      ensures (Snapshot(), r) == CreateInvoice(old(Snapshot()), id, company)
    {
      ghost var db0 := Snapshot();
      var record := orders[id];
      if record.invoice.Some? {
        return Failure(InvoiceExists);
      }
      if record.amount <= 0.0 {
        return Failure(NonPositiveAmount);
      }
      if record.partner.None? {
        return Failure(NoCustomer);
      }
      var income := company.incomeAccount;
      if income.None? {
        return Failure(NoIncomeAccount(company.name));
      }
      var invoice := CreateMove(InvoiceValues(record, income.value));
      orders := orders[id := record.(invoice := Some(invoice), state := Invoiced)];
      // The host recomputes `invoice_count`, which depends on `invoice_id`.
      orders := orders[id := WithInvoiceCount(orders[id])];
      PostMessage(id, InvoiceCreated(invoice));
      r := Success(InvoiceAction(invoice));
      assert InvoiceCheck(record, company).None?;
      assert orders == db0.orders[id := WithInvoice(record, invoice)];
      assert Snapshot() == CreateInvoice(db0, id, company).0;
      CreateInvoiceKeepsInvariants(db0, id, company);
    }

    // -------------------------------------------------------------------------
    // Workflow: one record of each loop
    // -------------------------------------------------------------------------

    /** The body of the `action_confirm` loop on one record: the state is
        written first, then the invoice is created when the amount is
        positive and none is linked. */
    method ConfirmRecord(id: OrderId) returns (err: Option<Error>)
      requires id in orders
      modifies this`orders, this`moves, this`nextMove
      ensures (Snapshot(), err) == Step(Confirm, old(Snapshot()), id, company)
    {
      var record := orders[id];
      if record.state != Draft {
        return Some(NotDraft);
      }
      orders := orders[id := record.(state := Confirmed)];
      err := None;
      if record.amount > 0.0 && record.invoice.None? {
        var res := ActionCreateInvoice(id);
        if res.Failure? {
          err := Some(res.error);
        }
      }
    }

    /** The body of the `action_done` loop on one record. */
    method DoneRecord(id: OrderId) returns (err: Option<Error>)
      requires id in orders
      modifies this`orders
      ensures (Snapshot(), err) == Step(MarkDone, old(Snapshot()), id, company)
    {
      var record := orders[id];
      if !(record.state == Confirmed || record.state == Invoiced) {
        return Some(NotConfirmed);
      }
      orders := orders[id := record.(state := Done)];
      err := None;
    }

    /** The body of the `action_cancel` loop on one record. */
    method CancelRecord(id: OrderId) returns (err: Option<Error>)
      requires id in orders
      modifies this`orders
      ensures (Snapshot(), err) == Step(Cancel, old(Snapshot()), id, company)
    {
      var record := orders[id];
      if record.state == Done {
        return Some(CancelCompleted);
      }
      if record.invoice.Some? && record.invoice.value in moves && moves[record.invoice.value].posted {
        return Some(CancelPosted);
      }
      orders := orders[id := record.(state := Cancelled)];
      err := None;
    }

    /** The body of the `action_set_draft` loop on one record. */
    method SetDraftRecord(id: OrderId) returns (err: Option<Error>)
      requires id in orders
      modifies this`orders
      ensures (Snapshot(), err) == Step(ResetToDraft, old(Snapshot()), id, company)
    {
      var record := orders[id];
      if record.invoice.Some? {
        return Some(DraftWithInvoice);
      }
      orders := orders[id := record.(state := Draft)];
      err := None;
    }

    // -------------------------------------------------------------------------
    // Workflow: the batch buttons
    // -------------------------------------------------------------------------

    /** `action_confirm`: confirms each record in turn, stopping at the first
        error; a record whose invoice could not be created stays confirmed. */
    method ActionConfirm(ids: seq<OrderId>) returns (out: BatchOutcome)
      requires Valid() && InOrders(Snapshot(), ids)
      modifies this`orders, this`moves, this`nextMove
      ensures Valid()
      ensures (Snapshot(), out) == BatchFrom(Confirm, old(Snapshot()), ids, 0, company)
    {
      ghost var db0 := Snapshot();
      var i := 0;
      while i < |ids|
        invariant 0 <= i <= |ids|
        invariant orders.Keys == db0.orders.Keys && InOrders(Snapshot(), ids)
        invariant BatchFrom(Confirm, Snapshot(), ids, i, company) == BatchFrom(Confirm, db0, ids, 0, company)
      {
        ghost var before := Snapshot();
        var err := ConfirmRecord(ids[i]);
        if err.Some? {
          BatchStop(Confirm, before, ids, i, company);
          BatchKeepsInvariants(Confirm, db0, ids, 0, company);
          return Failed(i, err.value);
        }
        BatchAdvance(Confirm, before, ids, i, company);
        i := i + 1;
      }
      BatchKeepsInvariants(Confirm, db0, ids, 0, company);
      return Completed;
    }

    /** `action_done`: marks each confirmed or invoiced record done; stops at
        the first record in any other state. */
    method ActionDone(ids: seq<OrderId>) returns (out: BatchOutcome)
      requires Valid() && InOrders(Snapshot(), ids)
      modifies this`orders
      ensures Valid()
      ensures (Snapshot(), out) == BatchFrom(MarkDone, old(Snapshot()), ids, 0, company)
    {
      ghost var db0 := Snapshot();
      var i := 0;
      while i < |ids|
        invariant 0 <= i <= |ids|
        invariant orders.Keys == db0.orders.Keys && InOrders(Snapshot(), ids)
        invariant BatchFrom(MarkDone, Snapshot(), ids, i, company) == BatchFrom(MarkDone, db0, ids, 0, company)
      {
        ghost var before := Snapshot();
        var err := DoneRecord(ids[i]);
        if err.Some? {
          BatchStop(MarkDone, before, ids, i, company);
          BatchKeepsInvariants(MarkDone, db0, ids, 0, company);
          return Failed(i, err.value);
        }
        BatchAdvance(MarkDone, before, ids, i, company);
        i := i + 1;
      }
      BatchKeepsInvariants(MarkDone, db0, ids, 0, company);
      return Completed;
    }

    /** `action_cancel`: cancels each record in turn; stops at the first one
        that is done or whose invoice is posted. */
    method ActionCancel(ids: seq<OrderId>) returns (out: BatchOutcome)
      requires Valid() && InOrders(Snapshot(), ids)
      modifies this`orders
      ensures Valid()
      ensures (Snapshot(), out) == BatchFrom(Cancel, old(Snapshot()), ids, 0, company)
    {
      ghost var db0 := Snapshot();
      var i := 0;
      while i < |ids|
        invariant 0 <= i <= |ids|
        invariant orders.Keys == db0.orders.Keys && InOrders(Snapshot(), ids)
        invariant BatchFrom(Cancel, Snapshot(), ids, i, company) == BatchFrom(Cancel, db0, ids, 0, company)
      {
        ghost var before := Snapshot();
        var err := CancelRecord(ids[i]);
        if err.Some? {
          BatchStop(Cancel, before, ids, i, company);
          BatchKeepsInvariants(Cancel, db0, ids, 0, company);
          return Failed(i, err.value);
        }
        BatchAdvance(Cancel, before, ids, i, company);
        i := i + 1;
      }
      BatchKeepsInvariants(Cancel, db0, ids, 0, company);
      return Completed;
    }

    /** `action_set_draft`: resets each record to draft; stops at the first one
        with an invoice linked. */
    method ActionSetDraft(ids: seq<OrderId>) returns (out: BatchOutcome)
      requires Valid() && InOrders(Snapshot(), ids)
      modifies this`orders
      ensures Valid()
      ensures (Snapshot(), out) == BatchFrom(ResetToDraft, old(Snapshot()), ids, 0, company)
    {
      ghost var db0 := Snapshot();
      var i := 0;
      while i < |ids|
        invariant 0 <= i <= |ids|
        invariant orders.Keys == db0.orders.Keys && InOrders(Snapshot(), ids)
        invariant BatchFrom(ResetToDraft, Snapshot(), ids, i, company) == BatchFrom(ResetToDraft, db0, ids, 0, company)
      {
        ghost var before := Snapshot();
        var err := SetDraftRecord(ids[i]);
        if err.Some? {
          BatchStop(ResetToDraft, before, ids, i, company);
          BatchKeepsInvariants(ResetToDraft, db0, ids, 0, company);
          return Failed(i, err.value);
        }
        BatchAdvance(ResetToDraft, before, ids, i, company);
        i := i + 1;
      }
      BatchKeepsInvariants(ResetToDraft, db0, ids, 0, company);
      return Completed;
    }

    // -------------------------------------------------------------------------
    // Computed field and onchanges
    // -------------------------------------------------------------------------

    /** `_compute_invoice_count` over a recordset. Each write gives a record
        the count its link already has, so nothing changes. */
    method ComputeInvoiceCount(ids: seq<OrderId>)
      requires Valid() && InOrders(Snapshot(), ids)
      modifies this`orders
      ensures Valid()
      ensures Snapshot() == InvoiceCountsFrom(old(Snapshot()), ids, 0)
      ensures Snapshot() == old(Snapshot())
    {
      ghost var db0 := Snapshot();
      var i := 0;
      while i < |ids|
        invariant 0 <= i <= |ids|
        invariant Snapshot() == db0
      {
        var id := ids[i];
        assert WithInvoiceCount(orders[id]) == orders[id];
        orders := orders[id := WithInvoiceCount(orders[id])];
        i := i + 1;
      }
      InvoiceCountsIdle(db0, ids, 0);
    }

    /** `_onchange_car` on the order being edited. */
    method OnchangeCar(id: OrderId)
      requires Valid() && id in orders
      modifies this`orders
      ensures Valid()
      ensures orders == old(orders)[id := OnCarChanged(old(orders)[id])]
    {
      var record := orders[id];
      if record.car.Some? && record.car.value.owner.Some? {
        record := record.(partner := record.car.value.owner);
      } else {
        record := record.(partner := None);
      }
      ReplaceKeepsInvariants(Snapshot(), id, record);
      orders := orders[id := record];
    }

    /** `_onchange_service_type` on the order being edited. */
    method OnchangeServiceType(id: OrderId)
      requires Valid() && id in orders
      modifies this`orders
      ensures Valid()
      ensures orders == old(orders)[id := OnServiceTypeChanged(old(orders)[id])]
    {
      var record := orders[id];
      if record.serviceType.Some? && record.serviceType.value.price.Some? {
        record := record.(amount := record.serviceType.value.price.value);
      }
      ReplaceKeepsInvariants(Snapshot(), id, record);
      orders := orders[id := record];
    }
  }
}
