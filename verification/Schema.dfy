/**
 The rows of the SQL tables and the payloads of the four event types.

 Surrogate keys are row positions: `order_id`, `address_id`, `outbox_id` and so
 on are indices into the sequence that holds the table.  Money is counted in
 ten-thousandths, times are seconds on one clock.
 */
module Schema {
  import opened Prelude

  type Time = real
  type Money = int

  datatype OrderStatus = PENDING | APPROVED | INVOICED | CANCELLED
  datatype PaymentStatus = PAY_PENDING | PAY_AUTHORIZED | PAY_APPROVED | PAY_REFUSED | PAY_REFUNDED
  datatype PaymentMethod = PIX | CREDIT_CARD | BOLETO
  datatype DispatchStatus = QUEUED | IN_FLIGHT | SENT | DLQ

  predicate IsTerminal(s: OrderStatus) {
    s in {APPROVED, INVOICED, CANCELLED}
  }

  function AllowedTransitions(s: OrderStatus): set<OrderStatus> {
    match s
    case PENDING => {APPROVED, CANCELLED}
    case APPROVED => {INVOICED, CANCELLED}
    case INVOICED => {}
    case CANCELLED => {}
  }

  datatype ClientRow = ClientRow(uid: string, fullName: string, document: string, email: string, updatedAt: Time)

  /** The seven columns whose change opens a new version of an address. */
  datatype AddressFields = AddressFields(
    street: string, number: string, complement: Option<string>,
    district: string, city: string, state: string, zipCode: string)

  datatype AddressRow = AddressRow(
    uid: string, clientId: nat, fields: AddressFields,
    validFrom: Time, validTo: Option<Time>, isCurrent: bool)

  datatype OrderRow = OrderRow(
    uid: string, clientId: nat, shippingId: nat, billingId: nat,
    status: OrderStatus, currency: string, total: Money,
    placedAt: Time, closedAt: Option<Time>, sourceEvent: string)

  datatype ItemRow = ItemRow(
    orderId: nat, sku: string, description: string,
    quantity: int, unitPrice: Money, lineTotal: Money)

  datatype PaymentRow = PaymentRow(
    orderId: nat, provider: string, providerTx: string, kind: PaymentMethod,
    status: PaymentStatus, amount: Money, approvedAt: Option<Time>)

  datatype InvoiceRow = InvoiceRow(
    orderId: nat, number: string, series: string, accessKey: string,
    issuedAt: Time, total: Money)

  datatype OrderSection = OrderSection(
    uid: string, status: OrderStatus, currency: string, total: Money,
    placedAt: Time, closedAt: Option<Time>)
  datatype CustomerSection = CustomerSection(uid: string, fullName: string, document: string, email: string)
  datatype AddressSection = AddressSection(uid: string, versionId: nat, fields: AddressFields)
  datatype ItemSection = ItemSection(sku: string, description: string, quantity: int, unitPrice: Money, lineTotal: Money)
  datatype PaymentSection = PaymentSection(
    provider: string, providerTx: string, kind: PaymentMethod,
    status: PaymentStatus, amount: Money, approvedAt: Option<Time>)

  /** The JSON document queued for the ERP. */
  datatype OrderPayload = OrderPayload(
    order: OrderSection, customer: CustomerSection,
    shipping: AddressSection, billing: AddressSection,
    items: seq<ItemSection>, payment: Option<PaymentSection>)

  datatype OutboxRow = OutboxRow(
    aggregateId: string, payload: OrderPayload,
    status: DispatchStatus, attempts: nat, nextAttemptAt: Time,
    lockedBy: Option<string>, lockedAt: Option<Time>,
    lastError: Option<string>, sentAt: Option<Time>)

  /** A row as `enqueue` inserts it: due at once, never tried. */
  function FreshRow(aggregateId: string, payload: OrderPayload, now: Time): OutboxRow {
    OutboxRow(aggregateId, payload, QUEUED, 0, now, None, None, None, None)
  }

  /** Every business table. */
  datatype Db = Db(
    clients: seq<ClientRow>, addresses: seq<AddressRow>,
    orders: seq<OrderRow>, items: seq<ItemRow>,
    payments: seq<PaymentRow>, invoices: seq<InvoiceRow>,
    outbox: seq<OutboxRow>)

  const EMPTY_DB := Db([], [], [], [], [], [], [])

  datatype AddressData = AddressData(uid: string, fields: AddressFields)
  datatype ItemData = ItemData(sku: string, description: string, quantity: int, unitPrice: Money)
  datatype ClientData = ClientData(uid: string, fullName: string, document: string, email: string, address: AddressData)
  datatype OrderData = OrderData(
    uid: string, clientUid: string, shippingUid: string, billingUid: Option<string>,
    currency: string, placedAt: Time, items: seq<ItemData>)
  datatype PaymentData = PaymentData(
    orderUid: string, provider: string, providerTx: string, kind: PaymentMethod,
    status: PaymentStatus, amount: Money, occurredAt: Time)
  datatype InvoiceData = InvoiceData(
    orderUid: string, number: string, series: string, accessKey: string,
    issuedAt: Time, total: Money)

  datatype EventType = CLIENT_UPSERTED | ORDER_CREATED | PAYMENT_UPDATED | INVOICE_ISSUED

  /** What the `data` object of an envelope decodes to. */
  datatype Body =
    | ClientBody(client: ClientData)
    | OrderBody(order: OrderData)
    | PaymentBody(payment: PaymentData)
    | InvoiceBody(invoice: InvoiceData)
    | Undecodable

  datatype Envelope = Envelope(eventId: string, eventType: EventType, body: Body)
}
