/**
 The four event handlers as functions from the business tables to the business
 tables: what one committed event does.
 */
module Handlers {
  import opened Prelude
  import opened Schema
  import opened AddressHistory

  // ---- lookups ----

  function FindClientFrom(clients: seq<ClientRow>, uid: string, from: nat): (r: Option<nat>)
    requires from <= |clients|
    ensures r.Some? ==> from <= r.value < |clients| && clients[r.value].uid == uid
    ensures r.None? ==> forall i :: from <= i < |clients| ==> clients[i].uid != uid
    decreases |clients| - from
  {
    if from == |clients| then None
    else if clients[from].uid == uid then Some(from)
    else FindClientFrom(clients, uid, from + 1)
  }

  function FindClient(clients: seq<ClientRow>, uid: string): Option<nat> {
    FindClientFrom(clients, uid, 0)
  }

  function FindOrderFrom(orders: seq<OrderRow>, uid: string, from: nat): (r: Option<nat>)
    requires from <= |orders|
    ensures r.Some? ==> from <= r.value < |orders| && orders[r.value].uid == uid
    ensures r.None? ==> forall i :: from <= i < |orders| ==> orders[i].uid != uid
    decreases |orders| - from
  {
    if from == |orders| then None
    else if orders[from].uid == uid then Some(from)
    else FindOrderFrom(orders, uid, from + 1)
  }

  function FindOrder(orders: seq<OrderRow>, uid: string): Option<nat> {
    FindOrderFrom(orders, uid, 0)
  }

  function FindPaymentFrom(payments: seq<PaymentRow>, provider: string, tx: string, from: nat): (r: Option<nat>)
    requires from <= |payments|
    ensures r.Some? ==> from <= r.value < |payments| && payments[r.value].provider == provider && payments[r.value].providerTx == tx
    ensures r.None? ==> forall i :: from <= i < |payments| ==> !(payments[i].provider == provider && payments[i].providerTx == tx)
    decreases |payments| - from
  {
    if from == |payments| then None
    else if payments[from].provider == provider && payments[from].providerTx == tx then Some(from)
    else FindPaymentFrom(payments, provider, tx, from + 1)
  }

  function FindPayment(payments: seq<PaymentRow>, provider: string, tx: string): Option<nat> {
    FindPaymentFrom(payments, provider, tx, 0)
  }

  /** The newest payment of an order. */
  function LatestPayment(payments: seq<PaymentRow>, orderId: nat): Option<PaymentRow> {
    if payments == [] then None
    else if payments[|payments| - 1].orderId == orderId then Some(payments[|payments| - 1])
    else LatestPayment(payments[..|payments| - 1], orderId)
  }

  predicate InvoicedOrder(invoices: seq<InvoiceRow>, orderId: nat) {
    exists i :: 0 <= i < |invoices| && invoices[i].orderId == orderId
  }

  predicate NumberTaken(invoices: seq<InvoiceRow>, number: string, series: string) {
    exists i :: 0 <= i < |invoices| && invoices[i].number == number && invoices[i].series == series
  }

  /** The lines of an order, in insertion order. */
  function ItemsOf(items: seq<ItemRow>, orderId: nat): seq<ItemRow> {
    if items == [] then []
    else
      var last := items[|items| - 1];
      ItemsOf(items[..|items| - 1], orderId) + if last.orderId == orderId then [last] else []
  }

  // ---- repository operations ----

  /** The client table and the position of the client in it. */
  function UpsertClient(clients: seq<ClientRow>, d: ClientData, now: Time): (seq<ClientRow>, nat) {
    var row := ClientRow(d.uid, d.fullName, d.document, d.email, now);
    match FindClient(clients, d.uid)
    case None => (clients + [row], |clients|)
    case Some(c) => (clients[c := row], c)
  }

  /** `unit_price * quantity`, as repeated addition: the proofs about tables need no multiplication. */
  function LineTotal(unitPrice: Money, quantity: int): Money
    decreases if quantity < 0 then -quantity else quantity
  {
    if quantity == 0 then 0
    else if quantity > 0 then LineTotal(unitPrice, quantity - 1) + unitPrice
    else LineTotal(unitPrice, quantity + 1) - unitPrice
  }

  lemma {:induction false} LineTotalIsProduct(unitPrice: Money, quantity: int)
    ensures LineTotal(unitPrice, quantity) == unitPrice * quantity
    decreases if quantity < 0 then -quantity else quantity
  {
    if quantity > 0 {
      LineTotalIsProduct(unitPrice, quantity - 1);
      assert unitPrice * quantity == unitPrice * (quantity - 1) + unitPrice;
    } else if quantity < 0 {
      LineTotalIsProduct(unitPrice, quantity + 1);
      assert unitPrice * quantity == unitPrice * (quantity + 1) - unitPrice;
    }
  }

  function TotalAmount(items: seq<ItemData>): Money {
    if items == [] then 0
    else TotalAmount(items[..|items| - 1]) + LineTotal(items[|items| - 1].unitPrice, items[|items| - 1].quantity)
  }

  function NewItem(orderId: nat, d: ItemData): ItemRow {
    ItemRow(orderId, d.sku, d.description, d.quantity, d.unitPrice, LineTotal(d.unitPrice, d.quantity))
  }

  function NewItems(orderId: nat, items: seq<ItemData>): seq<ItemRow> {
    if items == [] then []
    else NewItems(orderId, items[..|items| - 1]) + [NewItem(orderId, items[|items| - 1])]
  }

  predicate TransitionAllowed(current: OrderStatus, target: OrderStatus) {
    target in AllowedTransitions(current)
  }

  function Moved(o: OrderRow, target: OrderStatus, closedAt: Time): OrderRow {
    o.(status := target, closedAt := Some(closedAt))
  }

  function UpsertPayment(payments: seq<PaymentRow>, orderId: nat, d: PaymentData): seq<PaymentRow> {
    var approved := d.status == PAY_APPROVED;
    match FindPayment(payments, d.provider, d.providerTx)
    case None =>
      payments + [PaymentRow(orderId, d.provider, d.providerTx, d.kind, d.status, d.amount,
                             if approved then Some(d.occurredAt) else None)]
    case Some(p) =>
      payments[p := payments[p].(
        status := d.status,
        approvedAt := if approved && payments[p].approvedAt.None? then Some(d.occurredAt) else payments[p].approvedAt)]
  }

  function ItemSections(items: seq<ItemRow>): seq<ItemSection> {
    if items == [] then []
    else
      var i := items[0];
      [ItemSection(i.sku, i.description, i.quantity, i.unitPrice, i.lineTotal)] + ItemSections(items[1..])
  }

  function AddressSectionOf(addresses: seq<AddressRow>, id: nat): AddressSection
    requires id < |addresses|
  {
    AddressSection(addresses[id].uid, id, addresses[id].fields)
  }

  function PaymentSectionOf(p: Option<PaymentRow>): Option<PaymentSection> {
    match p
    case None => None
    case Some(p) => Some(PaymentSection(p.provider, p.providerTx, p.kind, p.status, p.amount, p.approvedAt))
  }

  predicate LinksInRange(db: Db, o: OrderRow) {
    o.clientId < |db.clients| && o.shippingId < |db.addresses| && o.billingId < |db.addresses|
  }

  function BuildOrderPayload(db: Db, orderId: nat): OrderPayload
    requires orderId < |db.orders| && LinksInRange(db, db.orders[orderId])
  {
    var o := db.orders[orderId];
    var c := db.clients[o.clientId];
    OrderPayload(
      OrderSection(o.uid, o.status, o.currency, o.total, o.placedAt, o.closedAt),
      CustomerSection(c.uid, c.fullName, c.document, c.email),
      AddressSectionOf(db.addresses, o.shippingId),
      AddressSectionOf(db.addresses, o.billingId),
      ItemSections(ItemsOf(db.items, orderId)),
      PaymentSectionOf(LatestPayment(db.payments, orderId)))
  }

  // ---- handlers ----

  /** How a handler ends: its new tables, or the exception that undoes it. */
  datatype HandlerResult =
    | Done(db: Db)
    | NotReady(missing: string)
    | Malformed
    | Violates

  predicate OrderValid(d: OrderData) {
    |d.items| > 0 && forall i :: 0 <= i < |d.items| ==> d.items[i].quantity > 0 && d.items[i].unitPrice >= 0
  }

  function HandleClient(db: Db, d: ClientData, now: Time): HandlerResult {
    var (clients, id) := UpsertClient(db.clients, d, now);
    Done(db.(clients := clients,
             addresses := UpsertVersion(db.addresses, d.address.uid, id, d.address.fields, now)))
  }

  predicate BillsToShipping(d: OrderData) {
    d.billingUid.None? || d.billingUid.value == "" || d.billingUid.value == d.shippingUid
  }

  function HandleOrder(db: Db, eventId: string, d: OrderData): HandlerResult {
    if !OrderValid(d) then Malformed
    else if FindOrder(db.orders, d.uid).Some? then Done(db)
    else match FindClient(db.clients, d.clientUid)
      case None => NotReady(d.clientUid)
      case Some(client) =>
        match FindCurrent(db.addresses, d.shippingUid)
        case None => NotReady(d.shippingUid)
        case Some(shipping) =>
          if BillsToShipping(d) then Done(CreateOrder(db, eventId, d, client, shipping, shipping))
          else match FindCurrent(db.addresses, d.billingUid.value)
            case None => NotReady(d.billingUid.value)
            case Some(billing) => Done(CreateOrder(db, eventId, d, client, shipping, billing))
  }

  function CreateOrder(db: Db, eventId: string, d: OrderData, client: nat, shipping: nat, billing: nat): Db {
    db.(orders := db.orders + [OrderRow(d.uid, client, shipping, billing, PENDING, d.currency,
                                        TotalAmount(d.items), d.placedAt, None, eventId)],
        items := db.items + NewItems(|db.orders|, d.items))
  }

  /** The order approved and, in the same write, `payload` queued for the ERP. */
  function ApproveWith(db: Db, orderId: nat, at: Time, payload: OrderPayload, now: Time): Db
    requires orderId < |db.orders|
  {
    db.(orders := db.orders[orderId := Moved(db.orders[orderId], APPROVED, at)],
        outbox := db.outbox + [FreshRow(db.orders[orderId].uid, payload, now)])
  }

  function ApproveAndEnqueue(db: Db, orderId: nat, at: Time, now: Time): Db
    requires orderId < |db.orders| && LinksInRange(db, db.orders[orderId])
  {
    var approved := db.(orders := db.orders[orderId := Moved(db.orders[orderId], APPROVED, at)]);
    ApproveWith(db, orderId, at, BuildOrderPayload(approved, orderId), now)
  }

  /**
   The payment recorded and, if it approves the order, the approval.  The foreign
   keys make the `LinksInRange` test succeed in every table the handlers write.
   */
  function RecordPayment(db: Db, o: nat, d: PaymentData, now: Time): HandlerResult
    requires o < |db.orders|
  {
    var paid := db.(payments := UpsertPayment(db.payments, o, d));
    if d.status != PAY_APPROVED || !TransitionAllowed(db.orders[o].status, APPROVED) then Done(paid)
    else if !LinksInRange(paid, paid.orders[o]) then Violates
    else Done(ApproveAndEnqueue(paid, o, d.occurredAt, now))
  }

  function HandlePayment(db: Db, d: PaymentData, now: Time): HandlerResult {
    if d.amount < 0 then Malformed
    else match FindOrder(db.orders, d.orderUid)
      case None => NotReady(d.orderUid)
      case Some(o) => RecordPayment(db, o, d, now)
  }

  function NewInvoice(orderId: nat, d: InvoiceData): InvoiceRow {
    InvoiceRow(orderId, d.number, d.series, d.accessKey, d.issuedAt, d.total)
  }

  /** The invoice inserted and, if the transition is allowed, the order moved. */
  function Invoiced(db: Db, o: nat, d: InvoiceData, moves: bool): Db
    requires o < |db.orders|
  {
    db.(invoices := db.invoices + [NewInvoice(o, d)],
        orders := if moves then db.orders[o := Moved(db.orders[o], INVOICED, d.issuedAt)] else db.orders)
  }

  function HandleInvoice(db: Db, d: InvoiceData): HandlerResult {
    if d.total < 0 then Malformed
    else match FindOrder(db.orders, d.orderUid)
      case None => NotReady(d.orderUid)
      case Some(o) =>
        if InvoicedOrder(db.invoices, o) then Done(db)
        else if NumberTaken(db.invoices, d.number, d.series) then Violates
        else Done(Invoiced(db, o, d, TransitionAllowed(db.orders[o].status, INVOICED)))
  }

  /** The handler registered for the envelope's type, on data that decodes to that type. */
  function Handle(db: Db, e: Envelope, now: Time): HandlerResult {
    match (e.eventType, e.body)
    case (CLIENT_UPSERTED, ClientBody(d)) => HandleClient(db, d, now)
    case (ORDER_CREATED, OrderBody(d)) => HandleOrder(db, e.eventId, d)
    case (PAYMENT_UPDATED, PaymentBody(d)) => HandlePayment(db, d, now)
    case (INVOICE_ISSUED, InvoiceBody(d)) => HandleInvoice(db, d)
    case _ => Malformed
  }
}
