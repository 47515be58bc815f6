/**
 * The `car.service.order` model of the Car Service Manager module: the order
 * record, the invoice it generates, the workflow transitions taken one record
 * at a time and over a whole recordset, and the creation hook.
 *
 * The host platform's tables are the value `Db`: the service orders by id, the
 * accounting moves (invoices) by id with their posted flag, and the id the
 * accounting component gives to the next invoice it creates.
 */
module ServiceOrder {
  import opened Wrappers
  import opened IrSequence

  type OrderId = nat
  type InvoiceId = nat
  type PartnerId = nat
  type AccountId = nat

  /** The `state` selection of an order. */
  datatype State = Draft | Confirmed | Done | Cancelled | Invoiced

  /** A car (`car.service`): its licence plate and its owner, when it has one. */
  datatype Car = Car(name: string, owner: Option<PartnerId>)

  /** A service type (`car.service.type`). The model in this repository declares
      no price, so `price` is `None` for every service type it can hold. */
  datatype ServiceType = ServiceType(name: string, price: Option<real>)

  /** A chatter entry posted on an order. */
  datatype Note = InvoiceCreated(invoice: InvoiceId)

  /** A service-order record, with the fields the workflow reads or writes. */
  datatype Order = Order(
    name: string,
    car: Option<Car>,
    partner: Option<PartnerId>,
    serviceType: Option<ServiceType>,
    amount: real,
    invoice: Option<InvoiceId>,
    state: State,
    invoiceCount: nat,
    messages: seq<Note>)

  /** One invoice line as `action_create_invoice` builds it. */
  datatype InvoiceLine = InvoiceLine(description: string, quantity: int, priceUnit: real, account: AccountId)

  /** The values the invoice is created from. */
  datatype InvoiceVals = InvoiceVals(moveType: string, partner: PartnerId, origin: string, reference: string, lines: seq<InvoiceLine>)

  /** An accounting move as the accounting component holds it. */
  datatype Move = Move(vals: InvoiceVals, posted: bool)

  /** The window action returned to the client to open an invoice. */
  datatype WindowAction = WindowAction(kind: string, title: string, viewMode: string, resModel: string, resId: InvoiceId, target: string)

  /** The current company: its name and the first income account the account
      search finds for it, if any. */
  datatype Company = Company(name: string, incomeAccount: Option<AccountId>)

  datatype Db = Db(orders: map<OrderId, Order>, moves: map<InvoiceId, Move>, nextMove: InvoiceId)

  /** The user errors the model raises. */
  datatype Error =
    | InvoiceExists
    | NonPositiveAmount
    | NoCustomer
    | NoIncomeAccount(company: string)
    | NoInvoice
    | NotDraft
    | NotConfirmed
    | CancelCompleted
    | CancelPosted
    | DraftWithInvoice
    | CarWithoutCustomer

  function Message(e: Error): string
  {
    match e
    case InvoiceExists => "Invoice already exists for this service order."
    case NonPositiveAmount => "Cannot create invoice with zero or negative amount."
    case NoCustomer => "No customer linked with this service order."
    case NoIncomeAccount(company) => "No income account found for company " + company + "."
    case NoInvoice => "No invoice found for this service order."
    case NotDraft => "Only draft orders can be confirmed."
    case NotConfirmed => "Service order must be confirmed first."
    case CancelCompleted => "Cannot cancel completed service orders."
    case CancelPosted => "Cannot cancel service order with posted invoice."
    case DraftWithInvoice => "Cannot set to draft when invoice exists. Delete invoice first."
    case CarWithoutCustomer => "Selected car has no linked customer. Please assign a customer."
  }

  /** The default order reference, kept when no sequence number can be drawn. */
  const Placeholder: string := "New"

  // ---------------------------------------------------------------------------
  // Invariants of the tables
  // ---------------------------------------------------------------------------

  /** Every linked invoice exists, no invoice is linked to two orders, and the
      next invoice id is not yet taken. */
  ghost predicate WellFormed(db: Db)
  {
    (forall m :: m in db.moves ==> m < db.nextMove)
    && (forall x :: x in db.orders && db.orders[x].invoice.Some? ==> db.orders[x].invoice.value in db.moves)
    && (forall x, y :: x in db.orders && y in db.orders && x != y && db.orders[x].invoice.Some?
          ==> db.orders[x].invoice != db.orders[y].invoice)
  }

  /** A draft order never has an invoice linked. */
  ghost predicate DraftHasNoInvoice(db: Db)
  {
    forall x :: x in db.orders && db.orders[x].state == Draft ==> db.orders[x].invoice.None?
  }

  /** Every order's `invoice_count` is the one its invoice link gives, as the
      host keeps a computed field current. */
  ghost predicate CountsCurrent(db: Db)
  {
    forall x :: x in db.orders ==> db.orders[x].invoiceCount == InvoiceCount(db.orders[x])
  }

  predicate InOrders(db: Db, ids: seq<OrderId>)
  {
    forall j :: 0 <= j < |ids| ==> ids[j] in db.orders
  }

  predicate NoDup(ids: seq<OrderId>)
  {
    forall p, q :: 0 <= p < q < |ids| ==> ids[p] != ids[q]
  }

  // ---------------------------------------------------------------------------
  // Derived values and UI helpers
  // ---------------------------------------------------------------------------

  /** `_compute_invoice_count`. */
  function InvoiceCount(o: Order): (n: nat)
    ensures n == 1 <==> o.invoice.Some?
    ensures n == 0 <==> o.invoice.None?
  {
    if o.invoice.Some? then 1 else 0
  }

  function WithInvoiceCount(o: Order): Order
  {
    o.(invoiceCount := InvoiceCount(o))
  }

  /** `_compute_invoice_count` over a recordset from position `i` on: each
      record in turn gets the count its invoice link gives. */
  function InvoiceCountsFrom(db: Db, ids: seq<OrderId>, i: nat): (r: Db)
    requires i <= |ids| && InOrders(db, ids)
    ensures r.orders.Keys == db.orders.Keys && r.moves == db.moves && r.nextMove == db.nextMove
    decreases |ids| - i
  {
    if i == |ids| then db
    else InvoiceCountsFrom(db.(orders := db.orders[ids[i] := WithInvoiceCount(db.orders[ids[i]])]), ids, i + 1)
  }

  /** The action that opens invoice `m` in a form view. */
  function InvoiceAction(m: InvoiceId): WindowAction
  {
    WindowAction("ir.actions.act_window", "Customer Invoice", "form", "account.move", m, "current")
  }

  /** `action_view_invoice`. */
  function ViewInvoice(o: Order): (r: Result<WindowAction, Error>)
    ensures r.Success? <==> o.invoice.Some?
    ensures r.Failure? ==> r.error == NoInvoice
    ensures r.Success? ==> r.value.resId == o.invoice.value && r.value.resModel == "account.move"
                           && r.value.kind == "ir.actions.act_window" && r.value.viewMode == "form"
  {
    if o.invoice.None? then Failure(NoInvoice) else Success(InvoiceAction(o.invoice.value))
  }

  /** The customer `_onchange_car` and the creation hook take from a car. */
  function CarOwner(car: Option<Car>): Option<PartnerId>
  {
    if car.Some? then car.value.owner else None
  }

  /** `_onchange_car`: the customer follows the selected car's owner and is
      cleared when there is no car or the car has no owner. */
  function OnCarChanged(o: Order): (r: Order)
    ensures r.partner.Some? <==> o.car.Some? && o.car.value.owner.Some?
    ensures r.partner.Some? ==> r.partner == o.car.value.owner
    ensures r.(partner := o.partner) == o
  {
    if o.car.Some? && o.car.value.owner.Some? then o.(partner := o.car.value.owner) else o.(partner := None)
  }

  /** `_onchange_service_type`: the amount takes the service type's price when
      there is a service type that has one, and is left alone otherwise. */
  function OnServiceTypeChanged(o: Order): (r: Order)
    ensures o.serviceType.Some? && o.serviceType.value.price.Some? ==> r.amount == o.serviceType.value.price.value
    ensures !(o.serviceType.Some? && o.serviceType.value.price.Some?) ==> r == o
    ensures r.(amount := o.amount) == o
  {
    if o.serviceType.Some? && o.serviceType.value.price.Some? then o.(amount := o.serviceType.value.price.value) else o
  }

  // ---------------------------------------------------------------------------
  // Invoice creation
  // ---------------------------------------------------------------------------

  function ServiceLabel(st: Option<ServiceType>): string
  {
    if st.Some? then st.value.name else "Car Service"
  }

  function CarLabel(car: Option<Car>): string
  {
    if car.Some? then car.value.name else "Vehicle"
  }

  /** The description of the single invoice line. */
  function LineDescription(o: Order): string
  {
    "Service: " + ServiceLabel(o.serviceType) + " for " + CarLabel(o.car)
  }

  function InvoiceValues(o: Order, account: AccountId): InvoiceVals
    requires o.partner.Some?
  {
    InvoiceVals("out_invoice", o.partner.value, o.name, o.name,
                [InvoiceLine(LineDescription(o), 1, o.amount, account)])
  }

  /** The order once invoice `m` is linked to it and announced in its chatter;
      `invoice_count` follows the new link. */
  function WithInvoice(o: Order, m: InvoiceId): (r: Order)
    ensures r.invoice == Some(m) && r.state == Invoiced && r.invoiceCount == InvoiceCount(r)
    ensures r.messages == o.messages + [InvoiceCreated(m)]
    ensures r.(invoice := o.invoice, state := o.state, invoiceCount := o.invoiceCount, messages := o.messages) == o
  {
    o.(invoice := Some(m), state := Invoiced, invoiceCount := 1, messages := o.messages + [InvoiceCreated(m)])
  }

  /** The checks of `action_create_invoice`, in the order the code makes them:
      the first one that fails decides the error. */
  function InvoiceCheck(o: Order, co: Company): (r: Option<Error>)
    ensures r == Some(InvoiceExists) <==> o.invoice.Some?
    ensures r == Some(NonPositiveAmount) <==> o.invoice.None? && o.amount <= 0.0
    ensures r == Some(NoCustomer) <==> o.invoice.None? && o.amount > 0.0 && o.partner.None?
    ensures r == Some(NoIncomeAccount(co.name)) <==>
              o.invoice.None? && o.amount > 0.0 && o.partner.Some? && co.incomeAccount.None?
    ensures r.None? <==> o.invoice.None? && o.amount > 0.0 && o.partner.Some? && co.incomeAccount.Some?
  {
    if o.invoice.Some? then Some(InvoiceExists)
    else if o.amount <= 0.0 then Some(NonPositiveAmount)
    else if o.partner.None? then Some(NoCustomer)
    else if co.incomeAccount.None? then Some(NoIncomeAccount(co.name))
    else None
  }

  /** `action_create_invoice` on order `id`: on success a new draft invoice gets
      the next free id, is linked to the order, and the order becomes invoiced;
      on failure nothing changes. */
  function CreateInvoice(db: Db, id: OrderId, co: Company): (r: (Db, Result<WindowAction, Error>))
    requires id in db.orders
    ensures r.1.Failure? <==> InvoiceCheck(db.orders[id], co).Some?
    ensures r.1.Failure? ==> r.1.error == InvoiceCheck(db.orders[id], co).value && r.0 == db
    ensures r.1.Success? ==>
      var o := db.orders[id];
      var m := r.1.value.resId;
      && m == db.nextMove
      && r.1.value == InvoiceAction(m)
      && r.0.orders == db.orders[id := WithInvoice(o, m)]
      && r.0.moves == db.moves[m := Move(InvoiceValues(o, co.incomeAccount.value), false)]
      && r.0.nextMove == m + 1
  {
    var o := db.orders[id];
    match InvoiceCheck(o, co)
    case Some(e) => (db, Failure(e))
    case None =>
      var m := db.nextMove;
      var move := Move(InvoiceValues(o, co.incomeAccount.value), false);
      (Db(db.orders[id := WithInvoice(o, m)], db.moves[m := move], m + 1), Success(InvoiceAction(m)))
  }

  // ---------------------------------------------------------------------------
  // Workflow transitions on one record
  // ---------------------------------------------------------------------------

  function SetState(db: Db, id: OrderId, s: State): (r: Db)
    requires id in db.orders
    ensures r.orders.Keys == db.orders.Keys && r.moves == db.moves && r.nextMove == db.nextMove
    ensures r.orders[id] == db.orders[id].(state := s)
    ensures forall y :: y in db.orders && y != id ==> r.orders[y] == db.orders[y]
  {
    db.(orders := db.orders[id := db.orders[id].(state := s)])
  }

  predicate Posted(moves: map<InvoiceId, Move>, m: InvoiceId)
  {
    m in moves && moves[m].posted
  }

  /** One iteration of `action_confirm`. The state is written before the
      invoice is created, so an invoice failure leaves the order confirmed. */
  function ConfirmStep(db: Db, id: OrderId, co: Company): (r: (Db, Option<Error>))
    requires id in db.orders
    ensures r.0.orders.Keys == db.orders.Keys
  {
    var o := db.orders[id];
    if o.state != Draft then (db, Some(NotDraft))
    else
      var confirmed := SetState(db, id, Confirmed);
      if o.amount > 0.0 && o.invoice.None? then
        var created := CreateInvoice(confirmed, id, co);
        (created.0, if created.1.Failure? then Some(created.1.error) else None)
      else
        (confirmed, None)
  }

  /** One iteration of `action_done`. */
  function DoneStep(db: Db, id: OrderId): (r: (Db, Option<Error>))
    requires id in db.orders
    ensures r.1.None? <==> db.orders[id].state == Confirmed || db.orders[id].state == Invoiced
    ensures r.1.None? ==> r.0 == SetState(db, id, Done)
    ensures r.1.Some? ==> r == (db, Some(NotConfirmed))
  {
    var o := db.orders[id];
    if !(o.state == Confirmed || o.state == Invoiced) then (db, Some(NotConfirmed))
    else (SetState(db, id, Done), None)
  }

  /** One iteration of `action_cancel`. */
  function CancelStep(db: Db, id: OrderId): (r: (Db, Option<Error>))
    requires id in db.orders
    ensures var o := db.orders[id];
      && (r.1 == Some(CancelCompleted) <==> o.state == Done)
      && (r.1 == Some(CancelPosted) <==> o.state != Done && o.invoice.Some? && Posted(db.moves, o.invoice.value))
      && (r.1.None? <==> o.state != Done && !(o.invoice.Some? && Posted(db.moves, o.invoice.value)))
      && (r.1.None? ==> r.0 == SetState(db, id, Cancelled))
      && (r.1.Some? ==> r.0 == db)
  {
    var o := db.orders[id];
    if o.state == Done then (db, Some(CancelCompleted))
    else if o.invoice.Some? && Posted(db.moves, o.invoice.value) then (db, Some(CancelPosted))
    else (SetState(db, id, Cancelled), None)
  }

  /** One iteration of `action_set_draft`. */
  function SetDraftStep(db: Db, id: OrderId): (r: (Db, Option<Error>))
    requires id in db.orders
    ensures r.1.None? <==> db.orders[id].invoice.None?
    ensures r.1.None? ==> r.0 == SetState(db, id, Draft)
    ensures r.1.Some? ==> r == (db, Some(DraftWithInvoice))
  {
    if db.orders[id].invoice.Some? then (db, Some(DraftWithInvoice))
    else (SetState(db, id, Draft), None)
  }

  // ---------------------------------------------------------------------------
  // Batch transitions over a recordset
  // ---------------------------------------------------------------------------

  /** The four workflow buttons. */
  datatype Action = Confirm | MarkDone | Cancel | ResetToDraft

  /** How a batch ended: every record done, or stopped by the error of the
      record at `index`. */
  datatype BatchOutcome = Completed | Failed(index: nat, error: Error)

  /** The guarded transition of `a` on one record. */
  function Step(a: Action, db: Db, id: OrderId, co: Company): (r: (Db, Option<Error>))
    requires id in db.orders
    ensures r.0.orders.Keys == db.orders.Keys
  {
    match a
    case Confirm => ConfirmStep(db, id, co)
    case MarkDone => DoneStep(db, id)
    case Cancel => CancelStep(db, id)
    case ResetToDraft => SetDraftStep(db, id)
  }

  /** The loop of a batch action from position `i` on: each record in turn,
      stopping at the first error. What earlier records got stays written. */
  function BatchFrom(a: Action, db: Db, ids: seq<OrderId>, i: nat, co: Company): (r: (Db, BatchOutcome))
    requires i <= |ids| && InOrders(db, ids)
    ensures r.0.orders.Keys == db.orders.Keys
    ensures r.1.Failed? ==> i <= r.1.index < |ids|
    decreases |ids| - i
  {
    if i == |ids| then (db, Completed)
    else
      var st := Step(a, db, ids[i], co);
      if st.1.Some? then (st.0, Failed(i, st.1.value))
      else BatchFrom(a, st.0, ids, i + 1, co)
  }

  /** The number of leading records a batch gets through without error. */
  function Passed(out: BatchOutcome, n: nat): nat
  {
    if out.Failed? then out.index else n
  }

  /** The number of leading records a batch may have written to. */
  function Reached(out: BatchOutcome, n: nat): nat
  {
    if out.Failed? then out.index + 1 else n
  }

  // ---------------------------------------------------------------------------
  // The creation hook
  // ---------------------------------------------------------------------------

  /** The values given to `create` that the hook inspects or passes on. */
  datatype Vals = Vals(name: Option<string>, car: Option<Car>, partner: Option<PartnerId>,
                       serviceType: Option<ServiceType>, amount: real)

  /** The reference the hook settles on and the sequence afterwards. */
  function ResolveName(given: Option<string>, sq: Option<SequenceState>): (r: (string, Option<SequenceState>))
    ensures given.Some? && given.value != Placeholder ==> r == (given.value, sq)
    ensures (given.None? || given.value == Placeholder) && sq.Some? ==>
      r == (Render(sq.value), Some(sq.value.(next := sq.value.next + 1)))
    ensures (given.None? || given.value == Placeholder) && sq.None? ==> r == (Placeholder, None)
  {
    if given.None? || given.value == Placeholder then
      var drawn := NextByCode(sq);
      (if drawn.0.Some? then drawn.0.value else Placeholder, drawn.1)
    else
      (given.value, sq)
  }

  /** `create`: the sequence as the hook leaves it, and the new record or the
      error that stops the creation. */
  function CreateRecord(vals: Vals, sq: Option<SequenceState>): (r: (Option<SequenceState>, Result<Order, Error>))
    ensures r.1.Failure? <==> vals.car.Some? && vals.partner.None? && vals.car.value.owner.None?
    ensures r.1.Failure? ==> r.1.error == CarWithoutCustomer
    ensures r.1.Success? ==>
      var o := r.1.value;
      && o.state == Draft && o.invoice.None? && o.invoiceCount == 0 && o.messages == []
      && o.car == vals.car && o.serviceType == vals.serviceType && o.amount == vals.amount
      && o.partner == (if vals.partner.Some? then vals.partner else CarOwner(vals.car))
    ensures vals.name.Some? && vals.name.value != Placeholder ==>
      r.0 == sq && (r.1.Success? ==> r.1.value.name == vals.name.value)
    ensures (vals.name.None? || vals.name.value == Placeholder) && sq.Some? ==>
      r.0 == Some(sq.value.(next := sq.value.next + 1)) && (r.1.Success? ==> r.1.value.name == Render(sq.value))
    ensures (vals.name.None? || vals.name.value == Placeholder) && sq.None? ==>
      r.0 == None && (r.1.Success? ==> r.1.value.name == Placeholder)
  {
    var resolved := ResolveName(vals.name, sq);
    var name := resolved.0;
    var after := resolved.1;
    var partner := if vals.car.Some? && vals.partner.None? then vals.car.value.owner else vals.partner;
    if partner.None? && vals.car.Some? && vals.partner.None? then (after, Failure(CarWithoutCustomer))
    else (after, Success(Order(name, vals.car, partner, vals.serviceType, vals.amount, None, Draft, 0, [])))
  }
}
