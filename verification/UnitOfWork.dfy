/**
 The database session the handlers write through, in place: a unit of work
 holds its own copy of the tables until it commits.  Each repository method is
 proved against the function of the same name in `Handlers`.
 */
module UnitOfWorks {
  import opened Prelude
  import opened Schema
  import opened AddressHistory
  import opened OrderRuns
  import H = Handlers
  import Processing

  class Database {
    var tables: Db
    var ledger: seq<Event>

    constructor ()
      ensures tables == EMPTY_DB && ledger == []
    {
      tables, ledger := EMPTY_DB, [];
    }
  }

  class UnitOfWork {
    const database: Database
    var clients: seq<ClientRow>
    var addresses: seq<AddressRow>
    var orders: seq<OrderRow>
    var items: seq<ItemRow>
    var payments: seq<PaymentRow>
    var invoices: seq<InvoiceRow>
    var outbox: seq<OutboxRow>
    var processedEvents: seq<Event>

    function Tables(): Db
      reads this
    {
      Db(clients, addresses, orders, items, payments, invoices, outbox)
    }

    constructor (database: Database)
      ensures this.database == database
      ensures Tables() == database.tables && processedEvents == database.ledger
    {
      this.database := database;
      var t := database.tables;
      clients, addresses, orders, items := t.clients, t.addresses, t.orders, t.items;
      payments, invoices, outbox := t.payments, t.invoices, t.outbox;
      processedEvents := database.ledger;
    }

    method Commit()
      modifies database
      ensures database.tables == Tables() && database.ledger == processedEvents
    {
      database.tables := Tables();
      database.ledger := processedEvents;
    }

    method Rollback()
      modifies this
      ensures Tables() == database.tables && processedEvents == database.ledger
    {
      var t := database.tables;
      clients, addresses, orders, items := t.clients, t.addresses, t.orders, t.items;
      payments, invoices, outbox := t.payments, t.invoices, t.outbox;
      processedEvents := database.ledger;
    }

    /** The ledger insert; false is the primary key violation. */
    method Register(e: Event) returns (inserted: bool)
      modifies this`processedEvents
      ensures inserted <==> !Processing.InLedger(old(processedEvents), e.envelope.eventId)
      ensures processedEvents == if inserted then old(processedEvents) + [e] else old(processedEvents)
    {
      if Processing.InLedger(processedEvents, e.envelope.eventId) {
        return false;
      }
      processedEvents := processedEvents + [e];
      return true;
    }

    method UpsertClient(d: ClientData, now: Time) returns (id: nat)
      modifies this`clients
      ensures (clients, id) == H.UpsertClient(old(clients), d, now)
    {
      match H.FindClient(clients, d.uid) {
        case None =>
          id := |clients|;
          clients := clients + [ClientRow(d.uid, d.fullName, d.document, d.email, now)];
        case Some(c) =>
          id := c;
          clients := clients[c := ClientRow(d.uid, d.fullName, d.document, d.email, now)];
      }
    }

    method UpsertVersion(uid: string, clientId: nat, fields: AddressFields, now: Time)
      modifies this`addresses
      ensures addresses == AddressHistory.UpsertVersion(old(addresses), uid, clientId, fields, now)
    {
      var current := FindCurrent(addresses, uid);
      if current.Some? {
        if addresses[current.value].fields == fields {
          return;
        }
        addresses := addresses[current.value := Closed(addresses[current.value], now)];
      }
      addresses := addresses + [Opened(uid, clientId, fields, now)];
    }

    method CreateOrder(eventId: string, d: OrderData, client: nat, shipping: nat, billing: nat)
      modifies this`orders, this`items
      ensures Tables() == H.CreateOrder(old(Tables()), eventId, d, client, shipping, billing)
    {
      var orderId := |orders|;
      orders := orders + [OrderRow(d.uid, client, shipping, billing, PENDING, d.currency,
                                   H.TotalAmount(d.items), d.placedAt, None, eventId)];
      var k := 0;
      while k < |d.items|
        invariant 0 <= k <= |d.items|
        invariant orders == old(orders) + [OrderRow(d.uid, client, shipping, billing, PENDING, d.currency,
                                                    H.TotalAmount(d.items), d.placedAt, None, eventId)]
        invariant items == old(items) + H.NewItems(orderId, d.items[..k])
      {
        var item := d.items[k];
        assert d.items[..k + 1][..k] == d.items[..k];
        H.LineTotalIsProduct(item.unitPrice, item.quantity);
        items := items + [ItemRow(orderId, item.sku, item.description, item.quantity, item.unitPrice,
                                  item.unitPrice * item.quantity)];
        k := k + 1;
      }
      assert d.items[..k] == d.items;
    }

    method Transition(orderId: nat, seen: OrderStatus, target: OrderStatus, closedAt: Time) returns (done: bool)
      requires orderId < |orders|
      modifies this`orders
      ensures done == H.TransitionAllowed(seen, target)
      ensures orders == if done then old(orders)[orderId := H.Moved(old(orders)[orderId], target, closedAt)] else old(orders)
    {
      if target !in AllowedTransitions(seen) {
        return false;
      }
      orders := orders[orderId := orders[orderId].(status := target, closedAt := Some(closedAt))];
      return true;
    }

    method UpsertPayment(orderId: nat, d: PaymentData)
      modifies this`payments
      ensures payments == H.UpsertPayment(old(payments), orderId, d)
    {
      var found := H.FindPayment(payments, d.provider, d.providerTx);
      var p: nat;
      if found.None? {
        p := |payments|;
        payments := payments + [PaymentRow(orderId, d.provider, d.providerTx, d.kind, d.status, d.amount, None)];
      } else {
        p := found.value;
      }
      payments := payments[p := payments[p].(status := d.status)];
      if d.status == PAY_APPROVED && payments[p].approvedAt.None? {
        payments := payments[p := payments[p].(approvedAt := Some(d.occurredAt))];
      }
    }

    /** The invoice insert; false is a unique constraint violation. */
    method CreateInvoice(orderId: nat, d: InvoiceData) returns (inserted: bool)
      modifies this`invoices
      ensures inserted <==> !H.InvoicedOrder(old(invoices), orderId) && !H.NumberTaken(old(invoices), d.number, d.series)
      ensures invoices == if inserted then old(invoices) + [H.NewInvoice(orderId, d)] else old(invoices)
    {
      if H.InvoicedOrder(invoices, orderId) || H.NumberTaken(invoices, d.number, d.series) {
        return false;
      }
      invoices := invoices + [H.NewInvoice(orderId, d)];
      return true;
    }

    method Enqueue(aggregateId: string, payload: OrderPayload, now: Time)
      modifies this`outbox
      ensures outbox == old(outbox) + [FreshRow(aggregateId, payload, now)]
    {
      outbox := outbox + [FreshRow(aggregateId, payload, now)];
    }

    // ---- the handlers ----

    method HandleClient(d: ClientData, now: Time) returns (r: Raised)
      modifies this`clients, this`addresses
      ensures Ends(H.HandleClient(old(Tables()), d, now), r, Tables())
    {
      var id := UpsertClient(d, now);
      UpsertVersion(d.address.uid, id, d.address.fields, now);
      return Nothing;
    }

    method HandleOrder(eventId: string, d: OrderData) returns (r: Raised)
      modifies this`orders, this`items
      ensures Ends(H.HandleOrder(old(Tables()), eventId, d), r, Tables())
    {
      if !H.OrderValid(d) { return ValidationError; }
      if H.FindOrder(orders, d.uid).Some? { return Nothing; }
      var client := H.FindClient(clients, d.clientUid);
      if client.None? { return DependencyNotReady; }
      var shipping := FindCurrent(addresses, d.shippingUid);
      if shipping.None? { return DependencyNotReady; }
      var billing := shipping;
      if !H.BillsToShipping(d) {
        billing := FindCurrent(addresses, d.billingUid.value);
        if billing.None? { return DependencyNotReady; }
      }
      CreateOrder(eventId, d, client.value, shipping.value, billing.value);
      return Nothing;
    }

    method HandlePayment(d: PaymentData, now: Time) returns (r: Raised)
      modifies this`payments, this`orders, this`outbox
      ensures Ends(H.HandlePayment(old(Tables()), d, now), r, Tables())
    {
      if d.amount < 0 { return ValidationError; }
      var found := H.FindOrder(orders, d.orderUid);
      if found.None? { return DependencyNotReady; }
      var o := found.value;
      UpsertPayment(o, d);
      if d.status != PAY_APPROVED { return Nothing; }
      if H.TransitionAllowed(orders[o].status, APPROVED) && !H.LinksInRange(Tables(), orders[o]) { return IntegrityError; }
      var approvedNow := Transition(o, orders[o].status, APPROVED, d.occurredAt);
      if approvedNow {
        Enqueue(orders[o].uid, H.BuildOrderPayload(Tables(), o), now);
      }
      return Nothing;
    }

    method HandleInvoice(d: InvoiceData) returns (r: Raised)
      modifies this`invoices, this`orders
      ensures Ends(H.HandleInvoice(old(Tables()), d), r, Tables())
    {
      if d.total < 0 { return ValidationError; }
      var found := H.FindOrder(orders, d.orderUid);
      if found.None? { return DependencyNotReady; }
      var o := found.value;
      if H.InvoicedOrder(invoices, o) { return Nothing; }
      var inserted := CreateInvoice(o, d);
      if !inserted { return IntegrityError; }
      var moved := Transition(o, orders[o].status, INVOICED, d.issuedAt);
      return Nothing;
    }

    /** The handler of the envelope's type, on its data. */
    method Handle(e: Envelope, now: Time) returns (r: Raised)
      modifies this`clients, this`addresses, this`orders, this`items, this`payments, this`invoices, this`outbox
      ensures Ends(H.Handle(old(Tables()), e, now), r, Tables())
    {
      match (e.eventType, e.body) {
        case (CLIENT_UPSERTED, ClientBody(d)) => r := HandleClient(d, now);
        case (ORDER_CREATED, OrderBody(d)) => r := HandleOrder(e.eventId, d);
        case (PAYMENT_UPDATED, PaymentBody(d)) => r := HandlePayment(d, now);
        case (INVOICE_ISSUED, InvoiceBody(d)) => r := HandleInvoice(d);
        case _ => r := ValidationError;
      }
    }
  }

  /** The exception a handler ended with. */
  datatype Raised = Nothing | DependencyNotReady | ValidationError | IntegrityError

  /** A method that raised `r` and left `tables` did what the handler function says; tables to be rolled back are free. */
  ghost predicate Ends(expected: H.HandlerResult, r: Raised, tables: Db) {
    match expected
    case Done(db) => r == Nothing && tables == db
    case NotReady(_) => r == DependencyNotReady
    case Malformed => r == ValidationError
    case Violates => r == IntegrityError
  }
}
