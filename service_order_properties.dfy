/**
 * What the service-order workflow guarantees: the guards and outcomes of each
 * batch transition, what a batch leaves untouched, the invariants every
 * transition keeps, and the properties of invoice creation and of the
 * creation hook.
 */
module ServiceOrderProperties {
  import opened Wrappers
  import opened IrSequence
  import opened ServiceOrder

  // ---------------------------------------------------------------------------
  // Reference definitions of the guards
  // ---------------------------------------------------------------------------

  /** Whether the state-only transition `a` lets a record through. */
  predicate Allowed(a: Action, o: Order, moves: map<InvoiceId, Move>)
    requires a != Confirm
  {
    match a
    case MarkDone => o.state == Confirmed || o.state == Invoiced
    case Cancel => o.state != Done && !(o.invoice.Some? && Posted(moves, o.invoice.value))
    case ResetToDraft => o.invoice.None?
  }

  /** The error a refused state-only transition raises. */
  function Refusal(a: Action, o: Order): Error
    requires a != Confirm
  {
    match a
    case MarkDone => NotConfirmed
    case Cancel => if o.state == Done then CancelCompleted else CancelPosted
    case ResetToDraft => DraftWithInvoice
  }

  /** The state a state-only transition writes. */
  function Target(a: Action): State
    requires a != Confirm
  {
    match a
    case MarkDone => Done
    case Cancel => Cancelled
    case ResetToDraft => Draft
  }

  /** Whether confirming the record `o` raises: it is not a draft, or it is
      one whose automatic invoice cannot be created. */
  predicate ConfirmRaises(o: Order, co: Company)
  {
    o.state != Draft || (o.amount > 0.0 && o.invoice.None? && InvoiceCheck(o, co).Some?)
  }

  function ConfirmError(o: Order, co: Company): Error
    requires ConfirmRaises(o, co)
  {
    if o.state != Draft then NotDraft else InvoiceCheck(o, co).value
  }

  /** `after` is what confirming the record `o` successfully makes of it: an
      order with a positive amount and no invoice gets a new invoice (not among
      the moves `before`) built from its own values and is invoiced; any other
      order is only confirmed. */
  ghost predicate ConfirmedAs(o: Order, after: Order, before: map<InvoiceId, Move>,
                              moves: map<InvoiceId, Move>, co: Company)
  {
    if o.amount > 0.0 && o.invoice.None? then
      && o.partner.Some? && co.incomeAccount.Some?
      && after.invoice.Some? && after.invoice.value !in before
      && after == WithInvoice(o, after.invoice.value)
      && after.invoice.value in moves
      && moves[after.invoice.value] == Move(InvoiceValues(o, co.incomeAccount.value), false)
    else
      after == o.(state := Confirmed)
  }

  lemma StateStep(a: Action, db: Db, id: OrderId, co: Company)
    requires a != Confirm && id in db.orders
    ensures Step(a, db, id, co) ==
      if Allowed(a, db.orders[id], db.moves) then (SetState(db, id, Target(a)), None)
      else (db, Some(Refusal(a, db.orders[id])))
  {
  }

  // ---------------------------------------------------------------------------
  // The invariants, one record at a time
  // ---------------------------------------------------------------------------

  /** Writing a state keeps the tables well formed, and keeps draft orders
      free of invoices unless it is a draft written over a linked invoice. */
  lemma SetStateKeepsInvariants(db: Db, id: OrderId, s: State)
    requires id in db.orders
    ensures WellFormed(db) ==> WellFormed(SetState(db, id, s))
    ensures DraftHasNoInvoice(db) && (s != Draft || db.orders[id].invoice.None?) ==>
      DraftHasNoInvoice(SetState(db, id, s))
    ensures CountsCurrent(db) ==> CountsCurrent(SetState(db, id, s))
  {
  }

  /** On a well-formed table the new invoice's id is free, and creating an
      invoice keeps the invariants. */
  lemma CreateInvoiceKeepsInvariants(db: Db, id: OrderId, co: Company)
    requires id in db.orders
    ensures WellFormed(db) && CreateInvoice(db, id, co).1.Success? ==> db.nextMove !in db.moves
    ensures WellFormed(db) ==> WellFormed(CreateInvoice(db, id, co).0)
    ensures DraftHasNoInvoice(db) ==> DraftHasNoInvoice(CreateInvoice(db, id, co).0)
    ensures CountsCurrent(db) ==> CountsCurrent(CreateInvoice(db, id, co).0)
  {
  }

  /** The four outcomes of confirming one record: a record that is not a
      draft raises and stays as it was; a draft needing no invoice is only
      confirmed; a draft whose invoice cannot be created stays confirmed and
      raises the invoice error; any other draft is invoiced with a new move
      under the next free id. */
  lemma ConfirmStepOutcome(db: Db, id: OrderId, co: Company)
    requires id in db.orders
    ensures var o := db.orders[id];
      var r := ConfirmStep(db, id, co);
      && (o.state != Draft ==> r == (db, Some(NotDraft)))
      && (o.state == Draft && !(o.amount > 0.0 && o.invoice.None?) ==> r == (SetState(db, id, Confirmed), None))
      && (o.state == Draft && o.amount > 0.0 && o.invoice.None? && InvoiceCheck(o, co).Some? ==>
            r == (SetState(db, id, Confirmed), InvoiceCheck(o, co)))
      && (o.state == Draft && o.amount > 0.0 && o.invoice.None? && InvoiceCheck(o, co).None? ==>
            r.1.None?
                && r.0.orders == db.orders[id := WithInvoice(o, db.nextMove)]
                && r.0.moves == db.moves[db.nextMove := Move(InvoiceValues(o, co.incomeAccount.value), false)]
                && r.0.nextMove == db.nextMove + 1)
  {
  }

  /** What confirming one record leaves alone: the other records, the
      existing invoices of a well-formed table and a linked invoice. */
  lemma ConfirmStepFrame(db: Db, id: OrderId, co: Company)
    requires id in db.orders
    ensures var r := ConfirmStep(db, id, co);
      && (forall y :: y in db.orders && y != id ==> r.0.orders[y] == db.orders[y])
      && (WellFormed(db) ==> forall m :: m in db.moves ==> m in r.0.moves && r.0.moves[m] == db.moves[m])
      && r.0.nextMove >= db.nextMove
      && (db.orders[id].invoice.Some? ==> r.0.orders[id].invoice == db.orders[id].invoice)
  {
    ConfirmStepOutcome(db, id, co);
    if db.orders[id].state == Draft {
      CreateInvoiceKeepsInvariants(SetState(db, id, Confirmed), id, co);
    }
  }

  /** A state-only transition touches nothing but the state of its record. */
  lemma StateStepFrame(a: Action, db: Db, id: OrderId, co: Company)
    requires a != Confirm && id in db.orders
    ensures var r := Step(a, db, id, co);
      && (forall y :: y in db.orders && y != id ==> r.0.orders[y] == db.orders[y])
      && r.0.moves == db.moves && r.0.nextMove == db.nextMove
      && r.0.orders[id].invoice == db.orders[id].invoice
  {
    StateStep(a, db, id, co);
  }

  /** What any single transition leaves alone: the other records, the
      existing invoices of a well-formed table and a linked invoice; only
      confirmation creates invoices. */
  lemma StepFrame(a: Action, db: Db, id: OrderId, co: Company)
    requires id in db.orders
    ensures var r := Step(a, db, id, co);
      && (forall y :: y in db.orders && y != id ==> r.0.orders[y] == db.orders[y])
      && (WellFormed(db) ==> forall m :: m in db.moves ==> m in r.0.moves && r.0.moves[m] == db.moves[m])
      && r.0.nextMove >= db.nextMove
      && (db.orders[id].invoice.Some? ==> r.0.orders[id].invoice == db.orders[id].invoice)
      && (a != Confirm ==> r.0.moves == db.moves && r.0.nextMove == db.nextMove
                           && r.0.orders[id].invoice == db.orders[id].invoice)
  {
    if a == Confirm {
      ConfirmStepFrame(db, id, co);
    } else {
      StateStepFrame(a, db, id, co);
    }
  }

  /** Confirming one record keeps the invariants. */
  lemma ConfirmStepKeepsInvariants(db: Db, id: OrderId, co: Company)
    requires id in db.orders
    ensures WellFormed(db) ==> WellFormed(ConfirmStep(db, id, co).0)
    ensures DraftHasNoInvoice(db) ==> DraftHasNoInvoice(ConfirmStep(db, id, co).0)
    ensures CountsCurrent(db) ==> CountsCurrent(ConfirmStep(db, id, co).0)
  {
    SetStateKeepsInvariants(db, id, Confirmed);
    CreateInvoiceKeepsInvariants(SetState(db, id, Confirmed), id, co);
  }

  /** Every single transition keeps the invariants. */
  lemma StepKeepsInvariants(a: Action, db: Db, id: OrderId, co: Company)
    requires id in db.orders
    ensures WellFormed(db) ==> WellFormed(Step(a, db, id, co).0)
    ensures DraftHasNoInvoice(db) ==> DraftHasNoInvoice(Step(a, db, id, co).0)
    ensures CountsCurrent(db) ==> CountsCurrent(Step(a, db, id, co).0)
  {
    if a == Confirm {
      ConfirmStepKeepsInvariants(db, id, co);
    } else {
      StateStep(a, db, id, co);
      SetStateKeepsInvariants(db, id, Target(a));
    }
  }

  /** One transition on `ids[i]` leaves every later record of a recordset of
      distinct records as it was. */
  lemma StepKeepsLater(a: Action, db: Db, ids: seq<OrderId>, i: nat, co: Company)
    requires i < |ids| && InOrders(db, ids) && NoDup(ids)
    ensures forall j :: i < j < |ids| ==> Step(a, db, ids[i], co).0.orders[ids[j]] == db.orders[ids[j]]
  {
    StepFrame(a, db, ids[i], co);
    forall j | i < j < |ids|
      ensures Step(a, db, ids[i], co).0.orders[ids[j]] == db.orders[ids[j]]
    {
      assert ids[i] != ids[j];
    }
  }

  /** In a recordset of distinct records no later record is the one at `i`. */
  lemma NoDupLater(ids: seq<OrderId>, i: nat)
    requires i < |ids| && NoDup(ids)
    ensures forall j :: i < j < |ids| ==> ids[j] != ids[i]
  {
  }

  // ---------------------------------------------------------------------------
  // Facts about every batch
  // ---------------------------------------------------------------------------

  /** A batch that gets through the record at `i` goes on from the next one. */
  lemma BatchAdvance(a: Action, db: Db, ids: seq<OrderId>, i: nat, co: Company)
    requires i < |ids| && InOrders(db, ids) && Step(a, db, ids[i], co).1.None?
    ensures InOrders(Step(a, db, ids[i], co).0, ids)
    ensures BatchFrom(a, db, ids, i, co) == BatchFrom(a, Step(a, db, ids[i], co).0, ids, i + 1, co)
  {
  }

  /** A batch stopped by the record at `i` ends with that record's error. */
  lemma BatchStop(a: Action, db: Db, ids: seq<OrderId>, i: nat, co: Company)
    requires i < |ids| && InOrders(db, ids) && Step(a, db, ids[i], co).1.Some?
    ensures BatchFrom(a, db, ids, i, co) == (Step(a, db, ids[i], co).0, Failed(i, Step(a, db, ids[i], co).1.value))
  {
  }

  /** A batch does not change a record it never reaches: one that is none of
      the records up to and including the one it stopped at. */
  lemma {:induction false} BatchLeavesUnreached(a: Action, db: Db, ids: seq<OrderId>, i: nat, co: Company, y: OrderId)
    requires i <= |ids| && InOrders(db, ids) && y in db.orders
    requires forall j :: i <= j < Reached(BatchFrom(a, db, ids, i, co).1, |ids|) ==> ids[j] != y
    ensures BatchFrom(a, db, ids, i, co).0.orders[y] == db.orders[y]
    decreases |ids| - i
  {
    if i < |ids| {
      StepFrame(a, db, ids[i], co);
      var st := Step(a, db, ids[i], co);
      assert ids[i] != y;
      if st.1.None? {
        assert BatchFrom(a, db, ids, i, co) == BatchFrom(a, st.0, ids, i + 1, co);
        BatchLeavesUnreached(a, st.0, ids, i + 1, co, y);
      }
    }
  }

  /** A batch changes no record outside its recordset. */
  lemma BatchSkips(a: Action, db: Db, ids: seq<OrderId>, i: nat, co: Company, y: OrderId)
    requires i <= |ids| && InOrders(db, ids) && y in db.orders
    requires forall j :: i <= j < |ids| ==> ids[j] != y
    ensures BatchFrom(a, db, ids, i, co).0.orders[y] == db.orders[y]
  {
    BatchLeavesUnreached(a, db, ids, i, co, y);
  }

  /** Only confirmation touches the accounting moves. */
  lemma {:induction false} StateBatchKeepsMoves(a: Action, db: Db, ids: seq<OrderId>, i: nat, co: Company)
    requires a != Confirm && i <= |ids| && InOrders(db, ids)
    ensures BatchFrom(a, db, ids, i, co).0.moves == db.moves
    ensures BatchFrom(a, db, ids, i, co).0.nextMove == db.nextMove
    decreases |ids| - i
  {
    if i < |ids| {
      StateStepFrame(a, db, ids[i], co);
      var st := Step(a, db, ids[i], co);
      if st.1.None? {
        StateBatchKeepsMoves(a, st.0, ids, i + 1, co);
      }
    }
  }

  /** Every batch keeps the tables well formed, keeps draft orders free of
      invoices and keeps every invoice count current. */
  lemma {:induction false} BatchKeepsInvariants(a: Action, db: Db, ids: seq<OrderId>, i: nat, co: Company)
    requires i <= |ids| && InOrders(db, ids)
    ensures WellFormed(db) ==> WellFormed(BatchFrom(a, db, ids, i, co).0)
    ensures DraftHasNoInvoice(db) ==> DraftHasNoInvoice(BatchFrom(a, db, ids, i, co).0)
    ensures CountsCurrent(db) ==> CountsCurrent(BatchFrom(a, db, ids, i, co).0)
    decreases |ids| - i
  {
    if i < |ids| {
      StepKeepsInvariants(a, db, ids[i], co);
      var next := Step(a, db, ids[i], co).0;
      if Step(a, db, ids[i], co).1.None? {
        BatchKeepsInvariants(a, next, ids, i + 1, co);
      }
    }
  }

  /** No batch clears or replaces a linked invoice. */
  lemma {:induction false} BatchKeepsInvoiceLink(a: Action, db: Db, ids: seq<OrderId>, i: nat, co: Company, y: OrderId)
    requires i <= |ids| && InOrders(db, ids) && y in db.orders && db.orders[y].invoice.Some?
    ensures BatchFrom(a, db, ids, i, co).0.orders[y].invoice == db.orders[y].invoice
    decreases |ids| - i
  {
    if i < |ids| {
      StepFrame(a, db, ids[i], co);
      var st := Step(a, db, ids[i], co);
      if st.1.None? {
        BatchKeepsInvoiceLink(a, st.0, ids, i + 1, co, y);
      }
    }
  }

  /** Only confirmation links an invoice: the other batches leave every
      record's invoice link as it was. */
  lemma {:induction false} StateBatchKeepsInvoiceLink(a: Action, db: Db, ids: seq<OrderId>, i: nat, co: Company, y: OrderId)
    requires a != Confirm && i <= |ids| && InOrders(db, ids) && y in db.orders
    ensures BatchFrom(a, db, ids, i, co).0.orders[y].invoice == db.orders[y].invoice
    decreases |ids| - i
  {
    if i < |ids| {
      StateStepFrame(a, db, ids[i], co);
      var st := Step(a, db, ids[i], co);
      if st.1.None? {
        StateBatchKeepsInvoiceLink(a, st.0, ids, i + 1, co, y);
      }
    }
  }

  // ---------------------------------------------------------------------------
  // action_done, action_cancel, action_set_draft
  // ---------------------------------------------------------------------------

  /** In a batch over distinct records, every record after the one the batch
      stopped at is left as it was. */
  lemma LaterRecordsUntouched(a: Action, db: Db, ids: seq<OrderId>, i: nat, co: Company)
    requires i <= |ids| && InOrders(db, ids) && NoDup(ids)
    ensures var res := BatchFrom(a, db, ids, i, co);
      forall j :: Reached(res.1, |ids|) <= j < |ids| ==> res.0.orders[ids[j]] == db.orders[ids[j]]
  {
    var res := BatchFrom(a, db, ids, i, co);
    forall j | Reached(res.1, |ids|) <= j < |ids|
      ensures res.0.orders[ids[j]] == db.orders[ids[j]]
    {
      forall p | i <= p < Reached(res.1, |ids|) ensures ids[p] != ids[j] {
        assert p < j;
      }
      BatchLeavesUnreached(a, db, ids, i, co, ids[j]);
    }
  }


  /** A state-only batch that stops does so at a refused record, with that
      record's error. */
  lemma {:induction false} StateBatchFailure(a: Action, db: Db, ids: seq<OrderId>, i: nat, co: Company)
    requires a != Confirm && i <= |ids| && InOrders(db, ids) && NoDup(ids)
    ensures var out := BatchFrom(a, db, ids, i, co).1;
      out.Failed? ==> i <= out.index < |ids| && !Allowed(a, db.orders[ids[out.index]], db.moves)
                      && out.error == Refusal(a, db.orders[ids[out.index]])
    decreases |ids| - i
  {
    if i < |ids| {
      var id := ids[i];
      StateStep(a, db, id, co);
      if Allowed(a, db.orders[id], db.moves) {
        var next := SetState(db, id, Target(a));
        BatchAdvance(a, db, ids, i, co);
        StateBatchFailure(a, next, ids, i + 1, co);
        StepKeepsLater(a, db, ids, i, co);
      }
    }
  }

  /** A record a state-only batch got through was allowed. */
  lemma {:induction false} StateBatchPassedAt(a: Action, db: Db, ids: seq<OrderId>, i: nat, co: Company, j: nat)
    requires a != Confirm && i <= j < |ids| && InOrders(db, ids) && NoDup(ids)
    requires j < Passed(BatchFrom(a, db, ids, i, co).1, |ids|)
    ensures Allowed(a, db.orders[ids[j]], db.moves)
    decreases j - i
  {
    var id := ids[i];
    BatchAdvance(a, db, ids, i, co);
    StateStep(a, db, id, co);
    if j > i {
      var next := SetState(db, id, Target(a));
      StateBatchPassedAt(a, next, ids, i + 1, co, j);
      assert ids[i] != ids[j];
    }
  }

  /** Every record a state-only batch got through was allowed. */
  lemma StateBatchPassed(a: Action, db: Db, ids: seq<OrderId>, i: nat, co: Company)
    requires a != Confirm && i <= |ids| && InOrders(db, ids) && NoDup(ids)
    ensures var out := BatchFrom(a, db, ids, i, co).1;
      forall j :: i <= j < Passed(out, |ids|) ==> Allowed(a, db.orders[ids[j]], db.moves)
  {
    var out := BatchFrom(a, db, ids, i, co).1;
    forall j | i <= j < Passed(out, |ids|)
      ensures Allowed(a, db.orders[ids[j]], db.moves)
    {
      StateBatchPassedAt(a, db, ids, i, co, j);
    }
  }

  /** A state-only batch completes exactly when every record is allowed. */
  lemma StateBatchCompletes(a: Action, db: Db, ids: seq<OrderId>, i: nat, co: Company)
    requires a != Confirm && i <= |ids| && InOrders(db, ids) && NoDup(ids)
    ensures var out := BatchFrom(a, db, ids, i, co).1;
      out.Completed? <==> forall j :: i <= j < |ids| ==> Allowed(a, db.orders[ids[j]], db.moves)
  {
    StateBatchFailure(a, db, ids, i, co);
    StateBatchPassed(a, db, ids, i, co);
  }

  /** A batch keeps every invoice of a well-formed table as it was. */
  lemma {:induction false} BatchKeepsMove(a: Action, db: Db, ids: seq<OrderId>, i: nat, co: Company, m: InvoiceId)
    requires i <= |ids| && InOrders(db, ids) && WellFormed(db) && m in db.moves
    ensures m in BatchFrom(a, db, ids, i, co).0.moves
    ensures BatchFrom(a, db, ids, i, co).0.moves[m] == db.moves[m]
    decreases |ids| - i
  {
    if i < |ids| {
      StepFrame(a, db, ids[i], co);
      StepKeepsInvariants(a, db, ids[i], co);
      var st := Step(a, db, ids[i], co);
      if st.1.None? {
        BatchKeepsMove(a, st.0, ids, i + 1, co, m);
      }
    }
  }

  /** A state-only batch leaves the record it stopped at as it was. */
  lemma {:induction false} StateBatchStopsCleanly(a: Action, db: Db, ids: seq<OrderId>, i: nat, co: Company)
    requires a != Confirm && i <= |ids| && InOrders(db, ids) && NoDup(ids)
    ensures var res := BatchFrom(a, db, ids, i, co);
      res.1.Failed? ==> res.0.orders[ids[res.1.index]] == db.orders[ids[res.1.index]]
    decreases |ids| - i
  {
    if i < |ids| {
      var id := ids[i];
      StateStep(a, db, id, co);
      if Allowed(a, db.orders[id], db.moves) {
        var next := SetState(db, id, Target(a));
        BatchAdvance(a, db, ids, i, co);
        StateBatchStopsCleanly(a, next, ids, i + 1, co);
        var res := BatchFrom(a, next, ids, i + 1, co);
        if res.1.Failed? {
          assert ids[res.1.index] != id;
        }
      }
    }
  }

  /** A record a state-only batch got through ends with the target state
      and nothing else changed. */
  lemma {:induction false} StateBatchEffectAt(a: Action, db: Db, ids: seq<OrderId>, i: nat, co: Company, j: nat)
    requires a != Confirm && i <= j < |ids| && InOrders(db, ids) && NoDup(ids)
    requires j < Passed(BatchFrom(a, db, ids, i, co).1, |ids|)
    ensures BatchFrom(a, db, ids, i, co).0.orders[ids[j]] == db.orders[ids[j]].(state := Target(a))
    decreases j - i
  {
    var id := ids[i];
    BatchAdvance(a, db, ids, i, co);
    StateStep(a, db, id, co);
    var next := SetState(db, id, Target(a));
    if j == i {
      NoDupLater(ids, i);
      BatchSkips(a, next, ids, i + 1, co, id);
    } else {
      StateBatchEffectAt(a, next, ids, i + 1, co, j);
      assert ids[i] != ids[j];
    }
  }

  /** A state-only batch writes its target state on the records before the one
      it stopped at. */
  lemma StateBatchEffect(a: Action, db: Db, ids: seq<OrderId>, i: nat, co: Company)
    requires a != Confirm && i <= |ids| && InOrders(db, ids) && NoDup(ids)
    ensures var res := BatchFrom(a, db, ids, i, co);
      forall j :: i <= j < Passed(res.1, |ids|) ==> res.0.orders[ids[j]] == db.orders[ids[j]].(state := Target(a))
  {
    var res := BatchFrom(a, db, ids, i, co);
    forall j | i <= j < Passed(res.1, |ids|)
      ensures res.0.orders[ids[j]] == db.orders[ids[j]].(state := Target(a))
    {
      StateBatchEffectAt(a, db, ids, i, co, j);
    }
  }

  // ---------------------------------------------------------------------------
  // action_confirm
  // ---------------------------------------------------------------------------

  lemma ConfirmStepRaises(db: Db, id: OrderId, co: Company)
    requires id in db.orders
    ensures var st := ConfirmStep(db, id, co);
      && (st.1.Some? <==> ConfirmRaises(db.orders[id], co))
      && (st.1.Some? ==> st.1.value == ConfirmError(db.orders[id], co))
      && (st.1.Some? ==> st.0.orders[id] == (if db.orders[id].state != Draft then db.orders[id]
                                              else db.orders[id].(state := Confirmed)))
  {
  }

  /** A confirmation batch that stops does so at the first record that
      raises, with its error: "Only draft orders can be confirmed." when it is
      not a draft, which is then left as it was, or the invoice error when its
      invoice cannot be created, which then stays confirmed. */
  lemma {:induction false} ConfirmBatchFailure(db: Db, ids: seq<OrderId>, i: nat, co: Company)
    requires i <= |ids| && InOrders(db, ids) && NoDup(ids)
    ensures var res := BatchFrom(Confirm, db, ids, i, co);
      var out := res.1;
      out.Failed? ==>
        && i <= out.index < |ids| && ConfirmRaises(db.orders[ids[out.index]], co)
        && out.error == ConfirmError(db.orders[ids[out.index]], co)
        && res.0.orders[ids[out.index]] == (if db.orders[ids[out.index]].state != Draft then db.orders[ids[out.index]]
                                            else db.orders[ids[out.index]].(state := Confirmed))
    decreases |ids| - i
  {
    if i < |ids| {
      var id := ids[i];
      ConfirmStepRaises(db, id, co);
      var st := ConfirmStep(db, id, co);
      if st.1.None? {
        BatchAdvance(Confirm, db, ids, i, co);
        ConfirmBatchFailure(st.0, ids, i + 1, co);
        StepKeepsLater(Confirm, db, ids, i, co);
      }
    }
  }

  /** Every record a confirmation batch got through was a draft that does
      not raise. */
  lemma {:induction false} ConfirmBatchPassed(db: Db, ids: seq<OrderId>, i: nat, co: Company)
    requires i <= |ids| && InOrders(db, ids) && NoDup(ids)
    ensures var out := BatchFrom(Confirm, db, ids, i, co).1;
      forall j :: i <= j < Passed(out, |ids|) ==> db.orders[ids[j]].state == Draft && !ConfirmRaises(db.orders[ids[j]], co)
    decreases |ids| - i
  {
    if i < |ids| {
      var id := ids[i];
      ConfirmStepRaises(db, id, co);
      var st := ConfirmStep(db, id, co);
      if st.1.None? {
        BatchAdvance(Confirm, db, ids, i, co);
        ConfirmBatchPassed(st.0, ids, i + 1, co);
        StepKeepsLater(Confirm, db, ids, i, co);
      }
    }
  }

  /** A confirmation batch completes exactly when no record raises. */
  lemma ConfirmBatchCompletes(db: Db, ids: seq<OrderId>, i: nat, co: Company)
    requires i <= |ids| && InOrders(db, ids) && NoDup(ids)
    ensures var out := BatchFrom(Confirm, db, ids, i, co).1;
      out.Completed? <==> forall j :: i <= j < |ids| ==> !ConfirmRaises(db.orders[ids[j]], co)
  {
    ConfirmBatchFailure(db, ids, i, co);
    ConfirmBatchPassed(db, ids, i, co);
  }

  /** `ConfirmedAs` still holds when the new invoice is checked against
      fewer earlier moves. */
  lemma ConfirmedAsFewerBefore(o: Order, after: Order, before: map<InvoiceId, Move>,
                               more: map<InvoiceId, Move>, moves: map<InvoiceId, Move>, co: Company)
    requires before.Keys <= more.Keys && ConfirmedAs(o, after, more, moves, co)
    ensures ConfirmedAs(o, after, before, moves, co)
  {
  }

  lemma ConfirmStepEffect(db: Db, id: OrderId, co: Company)
    requires id in db.orders && WellFormed(db)
    requires ConfirmStep(db, id, co).1.None?
    ensures var next := ConfirmStep(db, id, co).0;
      ConfirmedAs(db.orders[id], next.orders[id], db.moves, next.moves, co)
  {
    CreateInvoiceKeepsInvariants(SetState(db, id, Confirmed), id, co);
  }

  /** The first record a confirmation batch gets through keeps, to the end of
      the batch, what its own confirmation made of it. */
  lemma ConfirmBatchEffectHead(db: Db, ids: seq<OrderId>, i: nat, co: Company)
    requires i < |ids| && InOrders(db, ids) && NoDup(ids) && WellFormed(db)
    requires ConfirmStep(db, ids[i], co).1.None?
    ensures var res := BatchFrom(Confirm, ConfirmStep(db, ids[i], co).0, ids, i + 1, co);
      ConfirmedAs(db.orders[ids[i]], res.0.orders[ids[i]], db.moves, res.0.moves, co)
  {
    var id := ids[i];
    var next := ConfirmStep(db, id, co).0;
    ConfirmStepOutcome(db, id, co);
    ConfirmStepKeepsInvariants(db, id, co);
    NoDupLater(ids, i);
    BatchSkips(Confirm, next, ids, i + 1, co, id);
    var o := db.orders[id];
    if o.amount > 0.0 && o.invoice.None? {
      BatchKeepsMove(Confirm, next, ids, i + 1, co, next.orders[id].invoice.value);
    }
  }

  /** A record a confirmation batch got through was confirmed, and got an
      invoice of its own, created by this batch, when its amount is
      positive. */
  lemma {:induction false} ConfirmBatchEffectAt(db: Db, ids: seq<OrderId>, i: nat, co: Company, j: nat)
    requires i <= j < |ids| && InOrders(db, ids) && NoDup(ids) && WellFormed(db)
    requires j < Passed(BatchFrom(Confirm, db, ids, i, co).1, |ids|)
    ensures var res := BatchFrom(Confirm, db, ids, i, co);
      ConfirmedAs(db.orders[ids[j]], res.0.orders[ids[j]], db.moves, res.0.moves, co)
    decreases j - i
  {
    var id := ids[i];
    var next := ConfirmStep(db, id, co).0;
    BatchAdvance(Confirm, db, ids, i, co);
    if j == i {
      ConfirmBatchEffectHead(db, ids, i, co);
    } else {
      ConfirmStepKeepsInvariants(db, id, co);
      ConfirmStepFrame(db, id, co);
      ConfirmBatchEffectAt(next, ids, i + 1, co, j);
      assert ids[i] != ids[j];
      var res := BatchFrom(Confirm, next, ids, i + 1, co);
      ConfirmedAsFewerBefore(db.orders[ids[j]], res.0.orders[ids[j]], db.moves, next.moves, res.0.moves, co);
    }
  }

  /** Every record a confirmation batch got through was confirmed, and got an
      invoice of its own, created by this batch, when its amount is
      positive. */
  lemma ConfirmBatchEffect(db: Db, ids: seq<OrderId>, i: nat, co: Company)
    requires i <= |ids| && InOrders(db, ids) && NoDup(ids) && WellFormed(db)
    ensures var res := BatchFrom(Confirm, db, ids, i, co);
      forall j :: i <= j < Passed(res.1, |ids|) ==>
        ConfirmedAs(db.orders[ids[j]], res.0.orders[ids[j]], db.moves, res.0.moves, co)
  {
    var res := BatchFrom(Confirm, db, ids, i, co);
    forall j | i <= j < Passed(res.1, |ids|)
      ensures ConfirmedAs(db.orders[ids[j]], res.0.orders[ids[j]], db.moves, res.0.moves, co)
    {
      ConfirmBatchEffectAt(db, ids, i, co, j);
    }
  }

  // ---------------------------------------------------------------------------
  // action_create_invoice and action_view_invoice
  // ---------------------------------------------------------------------------

  /** The invoice `action_create_invoice` creates: a customer invoice for the
      order's customer, with the order's reference as origin and reference,
      and a single line of quantity one at the order's amount, booked on the
      income account; the action returned opens it, as `action_view_invoice`
      does afterwards. */
  lemma CreatedInvoiceContents(db: Db, id: OrderId, co: Company)
    requires id in db.orders && WellFormed(db)
    requires CreateInvoice(db, id, co).1.Success?
    ensures var after := CreateInvoice(db, id, co).0;
      var res := CreateInvoice(db, id, co).1;
      var o := db.orders[id];
      var m := res.value.resId;
      && m !in db.moves && m in after.moves && !after.moves[m].posted
      && after.moves[m].vals.moveType == "out_invoice"
      && o.partner.Some? && after.moves[m].vals.partner == o.partner.value
      && after.moves[m].vals.origin == o.name && after.moves[m].vals.reference == o.name
      && |after.moves[m].vals.lines| == 1
      && after.moves[m].vals.lines[0].quantity == 1
      && after.moves[m].vals.lines[0].priceUnit == o.amount
      && after.moves[m].vals.lines[0].description == LineDescription(o)
      && after.moves[m].vals.lines[0].account == co.incomeAccount.value
      && after.orders[id].state == Invoiced && after.orders[id].invoice == Some(m)
      && after.orders[id].invoiceCount == 1
      && after.orders[id].messages == o.messages + [InvoiceCreated(m)]
      && ViewInvoice(after.orders[id]) == res
  {
  }

  /** A second `action_create_invoice` on the same order fails with "Invoice
      already exists" and changes nothing. */
  lemma CreateInvoiceTwice(db: Db, id: OrderId, co: Company)
    requires id in db.orders && CreateInvoice(db, id, co).1.Success?
    ensures var after := CreateInvoice(db, id, co).0;
      id in after.orders && CreateInvoice(after, id, co) == (after, Failure(InvoiceExists))
  {
  }

  /** Recomputing the invoice count from position `i` on gives every record
      listed there the count of its own invoice link, however often it is
      listed, and leaves every other record as it was. */
  lemma {:induction false} InvoiceCountsPointwise(db: Db, ids: seq<OrderId>, i: nat, y: OrderId)
    requires i <= |ids| && InOrders(db, ids) && y in db.orders
    ensures InvoiceCountsFrom(db, ids, i).orders[y] ==
            if y in ids[i..] then WithInvoiceCount(db.orders[y]) else db.orders[y]
    decreases |ids| - i
  {
    if i < |ids| {
      InvoiceCountsAdvance(db, ids, i);
      InvoiceCountsPointwise(CountOne(db, ids[i]), ids, i + 1, y);
      assert ids[i..] == [ids[i]] + ids[i + 1..];
    }
  }

  /** The whole recordset: `invoice_count` is one on a listed record exactly
      when it has an invoice, and no other field or record changes. */
  lemma InvoiceCountsEffect(db: Db, ids: seq<OrderId>, y: OrderId)
    requires InOrders(db, ids) && y in db.orders
    ensures var after := InvoiceCountsFrom(db, ids, 0).orders[y];
      && (y in ids ==> after == db.orders[y].(invoiceCount := if db.orders[y].invoice.Some? then 1 else 0))
      && (y !in ids ==> after == db.orders[y])
  {
    InvoiceCountsPointwise(db, ids, 0, y);
    assert ids[0..] == ids;
  }

  /** The table after one record's count is recomputed. */
  function CountOne(db: Db, id: OrderId): Db
    requires id in db.orders
  {
    db.(orders := db.orders[id := WithInvoiceCount(db.orders[id])])
  }

  /** Replacing an order by one with the same state and invoice link keeps
      the table invariants, and keeps the counts current when the new order's
      own count is. */
  lemma ReplaceKeepsInvariants(db: Db, id: OrderId, o: Order)
    requires id in db.orders && o.state == db.orders[id].state && o.invoice == db.orders[id].invoice
    ensures WellFormed(db) ==> WellFormed(db.(orders := db.orders[id := o]))
    ensures DraftHasNoInvoice(db) ==> DraftHasNoInvoice(db.(orders := db.orders[id := o]))
    ensures CountsCurrent(db) && o.invoiceCount == InvoiceCount(o) ==> CountsCurrent(db.(orders := db.orders[id := o]))
  {
    var after := db.(orders := db.orders[id := o]);
    assert forall x :: x in after.orders ==>
      after.orders[x].invoice == db.orders[x].invoice && after.orders[x].state == db.orders[x].state;
  }

  /** One record's count changes neither its state nor its invoice link, so
      the table invariants survive it. */
  lemma CountOneKeepsInvariants(db: Db, id: OrderId)
    requires id in db.orders
    ensures WellFormed(db) ==> WellFormed(CountOne(db, id))
    ensures DraftHasNoInvoice(db) ==> DraftHasNoInvoice(CountOne(db, id))
    ensures CountsCurrent(db) ==> CountsCurrent(CountOne(db, id))
  {
    ReplaceKeepsInvariants(db, id, WithInvoiceCount(db.orders[id]));
  }

  /** One turn of the recomputing loop. */
  lemma InvoiceCountsAdvance(db: Db, ids: seq<OrderId>, i: nat)
    requires i < |ids| && InOrders(db, ids)
    ensures InOrders(CountOne(db, ids[i]), ids)
    ensures InvoiceCountsFrom(db, ids, i) == InvoiceCountsFrom(CountOne(db, ids[i]), ids, i + 1)
  {
  }

  /** Recomputing the invoice count keeps the table invariants. */
  lemma {:induction false} InvoiceCountsKeepInvariants(db: Db, ids: seq<OrderId>, i: nat)
    requires i <= |ids| && InOrders(db, ids)
    ensures WellFormed(db) ==> WellFormed(InvoiceCountsFrom(db, ids, i))
    ensures DraftHasNoInvoice(db) ==> DraftHasNoInvoice(InvoiceCountsFrom(db, ids, i))
    ensures CountsCurrent(db) ==> CountsCurrent(InvoiceCountsFrom(db, ids, i))
    decreases |ids| - i
  {
    if i < |ids| {
      InvoiceCountsAdvance(db, ids, i);
      CountOneKeepsInvariants(db, ids[i]);
      InvoiceCountsKeepInvariants(CountOne(db, ids[i]), ids, i + 1);
    }
  }

  /** On a table whose counts are current, as the host keeps them,
      recomputing the invoice count changes nothing. */
  lemma {:induction false} InvoiceCountsIdle(db: Db, ids: seq<OrderId>, i: nat)
    requires i <= |ids| && InOrders(db, ids) && CountsCurrent(db)
    ensures InvoiceCountsFrom(db, ids, i) == db
    decreases |ids| - i
  {
    if i < |ids| {
      InvoiceCountsAdvance(db, ids, i);
      assert CountOne(db, ids[i]) == db;
      InvoiceCountsIdle(CountOne(db, ids[i]), ids, i + 1);
    }
  }

  /** The line description names the service type and the car. */
  lemma LineDescriptionExample(o: Order, owner: Option<PartnerId>)
    requires o.serviceType == Some(ServiceType("Oil Change", None)) && o.car == Some(Car("ABC-123", owner))
    ensures LineDescription(o) == "Service: Oil Change for ABC-123"
  {
  }

  /** Without a service type or a car the description falls back to generic
      names. */
  lemma LineDescriptionFallback(o: Order)
    requires o.serviceType.None? && o.car.None?
    ensures LineDescription(o) == "Service: Car Service for Vehicle"
  {
  }

  // ---------------------------------------------------------------------------
  // create
  // ---------------------------------------------------------------------------

  /** A reference drawn from the sequence is never the placeholder, and two
      orders created one after the other without a reference get different
      references. */
  lemma {:induction false} DrawnReferencesAreUnique(v1: Vals, v2: Vals, sq: SequenceState)
    requires v1.name.None? || v1.name == Some(Placeholder)
    requires v2.name.None? || v2.name == Some(Placeholder)
    requires CreateRecord(v1, Some(sq)).1.Success?
    requires CreateRecord(v2, CreateRecord(v1, Some(sq)).0).1.Success?
    ensures CreateRecord(v1, Some(sq)).1.value.name != Placeholder
    ensures CreateRecord(v2, CreateRecord(v1, Some(sq)).0).1.value.name != Placeholder
    ensures CreateRecord(v1, Some(sq)).1.value.name != CreateRecord(v2, CreateRecord(v1, Some(sq)).0).1.value.name
  {
    var later := sq.(next := sq.next + 1);
    var first := CreateRecord(v1, Some(sq));
    assert first.0 == Some(later) && first.1.value.name == Render(sq);
    assert CreateRecord(v2, first.0).1.value.name == Render(later);
    RenderIsNotPlaceholder(sq);
    RenderIsNotPlaceholder(later);
    SuccessiveDrawsDiffer(sq);
  }

  /** A drawn reference ends in a digit, so it is never the placeholder. */
  lemma RenderIsNotPlaceholder(sq: SequenceState)
    ensures Render(sq) != Placeholder
  {
    RenderEndsInDigit(sq);
    assert !IsDigit(Placeholder[|Placeholder| - 1]);
  }

  /** Adding an order with no invoice under a fresh id keeps the tables well
      formed and keeps draft orders free of invoices; with a count of zero it
      keeps the counts current. */
  lemma AddOrderKeepsInvariants(db: Db, id: OrderId, o: Order)
    requires id !in db.orders && o.invoice.None?
    ensures WellFormed(db) ==> WellFormed(db.(orders := db.orders[id := o]))
    ensures DraftHasNoInvoice(db) ==> DraftHasNoInvoice(db.(orders := db.orders[id := o]))
    ensures CountsCurrent(db) && o.invoiceCount == 0 ==> CountsCurrent(db.(orders := db.orders[id := o]))
  {
  }

  /** Adding a created record under a fresh id keeps the invariants. */
  lemma CreateKeepsInvariants(db: Db, id: OrderId, vals: Vals, sq: Option<SequenceState>)
    requires id !in db.orders && CreateRecord(vals, sq).1.Success?
    ensures var d := db.(orders := db.orders[id := CreateRecord(vals, sq).1.value]);
      && (WellFormed(db) ==> WellFormed(d))
      && (DraftHasNoInvoice(db) ==> DraftHasNoInvoice(d))
      && (CountsCurrent(db) ==> CountsCurrent(d))
  {
    AddOrderKeepsInvariants(db, id, CreateRecord(vals, sq).1.value);
  }

  /** The customer the creation hook derives from a car is the one
      `_onchange_car` would have selected. */
  lemma CreateAgreesWithCarOnchange(vals: Vals, sq: Option<SequenceState>)
    requires vals.car.Some? && vals.partner.None? && CreateRecord(vals, sq).1.Success?
    ensures CreateRecord(vals, sq).1.value.partner == OnCarChanged(CreateRecord(vals, sq).1.value).partner
  {
  }

  // ---------------------------------------------------------------------------
  // A worked example
  // ---------------------------------------------------------------------------

  /** Confirming a draft order of 150.0 for an oil change on car ABC-123, whose
      owner is customer 7, invoices it with one line "Service: Oil Change for
      ABC-123" at 150.0. */
  lemma ConfirmExample()
    ensures var o := Order("SO0001", Some(Car("ABC-123", Some(7))), Some(7), Some(ServiceType("Oil Change", None)),
                           150.0, None, Draft, 0, []);
      var db := Db(map[1 := o], map[], 1);
      var res := BatchFrom(Confirm, db, [1], 0, Company("My Company", Some(40)));
      && res.1 == Completed
      && res.0.orders[1].state == Invoiced && res.0.orders[1].invoice == Some(1)
      && res.0.moves[1].vals.lines == [InvoiceLine("Service: Oil Change for ABC-123", 1, 150.0, 40)]
      && res.0.moves[1].vals.partner == 7
  {
    var o := Order("SO0001", Some(Car("ABC-123", Some(7))), Some(7), Some(ServiceType("Oil Change", None)),
                   150.0, None, Draft, 0, []);
    var db := Db(map[1 := o], map[], 1);
    var co := Company("My Company", Some(40));
    LineDescriptionExample(o, Some(7));
    var st := ConfirmStep(db, 1, co);
    assert st.1.None? && st.0.orders[1] == WithInvoice(o, 1);
    assert st.0.moves[1] == Move(InvoiceValues(o, 40), false);
    assert BatchFrom(Confirm, db, [1], 0, co) == BatchFrom(Confirm, st.0, [1], 1, co) == (st.0, Completed);
  }

  /** A recordset that lists a draft twice: the first visit confirms it and
      the second raises "Only draft orders can be confirmed.", although the
      record does not raise on the table the batch started from. */
  lemma RepeatedRecordConfirm()
    ensures var o := Order("SO0001", None, None, None, 0.0, None, Draft, 0, []);
      var co := Company("My Company", None);
      var res := BatchFrom(Confirm, Db(map[1 := o], map[], 1), [1, 1], 0, co);
      && !ConfirmRaises(o, co)
      && res.1 == Failed(1, NotDraft)
      && res.0.orders[1] == o.(state := Confirmed)
  {
    var o := Order("SO0001", None, None, None, 0.0, None, Draft, 0, []);
    var co := Company("My Company", None);
    var db := Db(map[1 := o], map[], 1);
    var first := ConfirmStep(db, 1, co);
    assert first == (SetState(db, 1, Confirmed), None);
    assert ConfirmStep(first.0, 1, co) == (first.0, Some(NotDraft));
    assert BatchFrom(Confirm, db, [1, 1], 0, co) == BatchFrom(Confirm, first.0, [1, 1], 1, co);
  }
}
