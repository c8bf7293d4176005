/** What one committed event does, told without the handlers' own bodies. */
module HandlerOutcomes {
  import opened Prelude
  import opened Schema
  import opened AddressHistory
  import opened Handlers
  import opened OrderTables
  import opened OrderRuns
  import opened Processing
  import A = AddressRaces

  /** Which status changes there are. */
  lemma TransitionsAre(from: OrderStatus, to: OrderStatus)
    ensures TransitionAllowed(from, to)
            <==> (from == PENDING && to == APPROVED) || (from == APPROVED && to == INVOICED)
                 || (from in {PENDING, APPROVED} && to == CANCELLED)
  {
  }

  // ---- a client and its address ----

  /** Row `c` is the client as the event describes it, and every other row is as it was. */
  ghost predicate ClientIs(before: seq<ClientRow>, after: seq<ClientRow>, c: nat, d: ClientData, now: Time) {
    && c < |after| && |before| <= |after| <= Max(|before|, c + 1)
    && after[c].uid == d.uid && after[c].fullName == d.fullName && after[c].document == d.document
    && after[c].email == d.email && after[c].updatedAt == now
    && forall i :: 0 <= i < |before| && i != c ==> after[i] == before[i]
  }

  /** Version `i` is the one current for the event's address. */
  predicate CurrentFor(rows: seq<AddressRow>, i: int, uid: string) {
    0 <= i < |rows| && rows[i].uid == uid && rows[i].isCurrent
  }

  /**
   A client event leaves one row for its client, as the event describes it.  The
   address gets a new version, open and current, unless the current one already
   reads so; the version it replaces ends when the new one begins.
   */
  lemma ClientOutcome(db: Db, d: ClientData, now: Time) returns (c: nat)
    requires KeysOk(db) && A.UniqueCurrent(db.addresses)
    ensures var db' := HandleClient(db, d, now).db;
            && ClientIs(db.clients, db'.clients, c, d, now)
            && (c < |db.clients| ==> db.clients[c].uid == d.uid)
            && (c < |db.clients| <==> HasClient(db.clients, d.uid))
            && (if exists i :: CurrentFor(db.addresses, i, d.address.uid) && db.addresses[i].fields == d.address.fields
                then db'.addresses == db.addresses
                else && |db'.addresses| == |db.addresses| + 1
                     && db'.addresses[|db.addresses|] == AddressRow(d.address.uid, c, d.address.fields, now, None, true)
                     && forall i :: 0 <= i < |db.addresses| ==>
                          db'.addresses[i] == if CurrentFor(db.addresses, i, d.address.uid)
                                              then db.addresses[i].(validTo := Some(now), isCurrent := false) else db.addresses[i])
            && db'.orders == db.orders && db'.items == db.items && db'.payments == db.payments
            && db'.invoices == db.invoices && db'.outbox == db.outbox
  {
    c := UpsertClient(db.clients, d, now).1;
    var current := FindCurrent(db.addresses, d.address.uid);
    forall i | CurrentFor(db.addresses, i, d.address.uid) ensures current == Some(i) {
      assert CurrentFor(db.addresses, current.value, d.address.uid);
    }
  }

  // ---- a new order ----

  lemma {:induction false} TotalIsSum(orderId: nat, ds: seq<ItemData>)
    ensures LineSum(NewItems(orderId, ds)) == TotalAmount(ds)
  {
    if ds != [] {
      TotalIsSum(orderId, ds[..|ds| - 1]);
      assert NewItems(orderId, ds)[..|ds| - 1] == NewItems(orderId, ds[..|ds| - 1]) by { NewItemsOrder(orderId, ds); NewItemsOrder(orderId, ds[..|ds| - 1]); }
      NewItemsOrder(orderId, ds);
    }
  }

  /** The address an order is billed to: the one it names, or its shipping address if it names none. */
  function BillTo(d: OrderData): string {
    match d.billingUid
    case None => d.shippingUid
    case Some(uid) => if uid == "" then d.shippingUid else uid
  }

  /** Row `i` of the orders pins versions that are current, under the uids the event named. */
  ghost predicate PinsCurrent(db: Db, i: nat, d: OrderData) {
    && i < |db.orders| && LinksInRange(db, db.orders[i])
    && var o := db.orders[i];
       && db.clients[o.clientId].uid == d.clientUid
       && db.addresses[o.shippingId].uid == d.shippingUid && db.addresses[o.shippingId].isCurrent
       && db.addresses[o.billingId].isCurrent
       && db.addresses[o.billingId].uid == BillTo(d)
  }

  /** The links of a new order, and that the lookups found them. */
  lemma OrderLinks(db: Db, eventId: string, d: OrderData) returns (client: nat, shipping: nat, billing: nat)
    requires HandleOrder(db, eventId, d).Done? && !HasOrder(db.orders, d.uid)
    ensures HandleOrder(db, eventId, d).db == CreateOrder(db, eventId, d, client, shipping, billing)
    ensures client < |db.clients| && db.clients[client].uid == d.clientUid
    ensures CurrentFor(db.addresses, shipping, d.shippingUid) && CurrentFor(db.addresses, billing, BillTo(d))
  {
    assert FindOrder(db.orders, d.uid).None?;
    client := FindClient(db.clients, d.clientUid).value;
    shipping := FindCurrent(db.addresses, d.shippingUid).value;
    billing := if BillsToShipping(d) then shipping else FindCurrent(db.addresses, d.billingUid.value).value;
  }

  /** The lines after the first `n` are the event's items, in order, for order `i`. */
  ghost predicate LinesAre(items: seq<ItemRow>, n: nat, i: nat, ds: seq<ItemData>) {
    && |items| == n + |ds|
    && forall k :: 0 <= k < |ds| ==>
         var line := items[n + k];
         && line.orderId == i && line.sku == ds[k].sku && line.description == ds[k].description
         && line.quantity == ds[k].quantity && line.unitPrice == ds[k].unitPrice
         && line.lineTotal == ds[k].unitPrice * ds[k].quantity
  }

  lemma NewLinesAre(items: seq<ItemRow>, i: nat, ds: seq<ItemData>)
    ensures LinesAre(items + NewItems(i, ds), |items|, i, ds)
    ensures (items + NewItems(i, ds))[|items|..] == NewItems(i, ds)
    ensures (items + NewItems(i, ds))[..|items|] == items
  {
    NewItemsOrder(i, ds);
    forall k | 0 <= k < |ds| ensures LineTotal(ds[k].unitPrice, ds[k].quantity) == ds[k].unitPrice * ds[k].quantity {
      LineTotalIsProduct(ds[k].unitPrice, ds[k].quantity);
    }
  }

  /**
   A new order is pending and pinned to the versions current when it was created,
   with the event's columns, a line per item in order, and their sum as its total.
   */
  lemma OrderPinsCurrentVersions(db: Db, eventId: string, d: OrderData)
    requires HandleOrder(db, eventId, d).Done? && !HasOrder(db.orders, d.uid)
    ensures var db' := HandleOrder(db, eventId, d).db;
            && |db'.orders| == |db.orders| + 1 && db'.orders[..|db.orders|] == db.orders
            && PinsCurrent(db', |db.orders|, d)
            && var o := db'.orders[|db.orders|];
               && o.uid == d.uid && o.status == PENDING && o.closedAt == None && o.currency == d.currency
               && o.placedAt == d.placedAt && o.sourceEvent == eventId
               && LinesAre(db'.items, |db.items|, |db.orders|, d.items) && db'.items[..|db.items|] == db.items
               && o.total == LineSum(db'.items[|db.items|..])
  {
    var client, shipping, billing := OrderLinks(db, eventId, d);
    NewLinesAre(db.items, |db.orders|, d.items);
    TotalIsSum(|db.orders|, d.items);
  }

  /** A message due at once, never tried, held by nobody. */
  predicate IsFresh(row: OutboxRow, orderUid: string, now: Time) {
    && row.aggregateId == orderUid && row.status == QUEUED && row.attempts == 0 && row.nextAttemptAt == now
    && row.lockedBy == None && row.lockedAt == None && row.lastError == None && row.sentAt == None
  }

  /**
   A payment moves its order if and only if it is approved and the order was
   pending; then the order closes at the payment's time and one message is
   queued, and in every other case orders and messages stay as they were.
   */
  lemma PaymentOutcome(db: Db, d: PaymentData, now: Time, o: nat)
    requires DbInv(db) && o < |db.orders| && db.orders[o].uid == d.orderUid && d.amount >= 0
    ensures var r := HandlePayment(db, d, now);
            && r.Done?
            && if d.status == PAY_APPROVED && db.orders[o].status == PENDING
               then && r.db.orders == db.orders[o := db.orders[o].(status := APPROVED, closedAt := Some(d.occurredAt))]
                    && |r.db.outbox| == |db.outbox| + 1 && r.db.outbox[..|db.outbox|] == db.outbox
                    && IsFresh(r.db.outbox[|db.outbox|], d.orderUid, now)
               else r.db.orders == db.orders && r.db.outbox == db.outbox
  {
    FoundOrder(db, o);
    assert OrderOk(db, o);
  }

  /** The provider transaction of `d` is row `p`, in the status just reported. */
  ghost predicate RecordedAs(before: Db, after: Db, p: nat, d: PaymentData, o: nat) {
    && p < |after.payments|
    && after.payments[p].provider == d.provider && after.payments[p].providerTx == d.providerTx
    && after.payments[p].status == d.status
    && (if p < |before.payments|
        then && after.payments[p].amount == before.payments[p].amount && after.payments[p].kind == before.payments[p].kind
             && after.payments[p].orderId == before.payments[p].orderId
             && (before.payments[p].approvedAt.Some? ==> after.payments[p].approvedAt == before.payments[p].approvedAt)
             && (before.payments[p].approvedAt.None? ==>
                   after.payments[p].approvedAt == if d.status == PAY_APPROVED then Some(d.occurredAt) else None)
        else && after.payments[p].orderId == o && after.payments[p].amount == d.amount && after.payments[p].kind == d.kind
             && after.payments[p].approvedAt == if d.status == PAY_APPROVED then Some(d.occurredAt) else None)
  }

  /** A payment is one row per provider transaction: found and updated, or added. */
  lemma PaymentIsRecorded(db: Db, d: PaymentData, now: Time, o: nat) returns (p: nat)
    requires DbInv(db) && o < |db.orders| && db.orders[o].uid == d.orderUid && d.amount >= 0
    ensures var db' := HandlePayment(db, d, now).db;
            && RecordedAs(db, db', p, d, o)
            && |db'.payments| <= |db.payments| + 1
            && forall q :: 0 <= q < |db'.payments| && q != p ==> q < |db.payments| && db'.payments[q] == db.payments[q]
  {
    PaymentOutcome(db, d, now, o);
    FoundOrder(db, o);
    var found := FindPayment(db.payments, d.provider, d.providerTx);
    p := if found.Some? then found.value else |db.payments|;
    assert RecordedAs(db, HandlePayment(db, d, now).db, p, d, o);
  }

  /**
   An invoice is added exactly when the order has none and its number is free; it
   moves the order to INVOICED if and only if it was added and the order was approved.
   */
  lemma InvoiceOutcome(db: Db, d: InvoiceData, o: nat)
    requires DbInv(db) && o < |db.orders| && db.orders[o].uid == d.orderUid && d.total >= 0
    ensures var r := HandleInvoice(db, d);
            && (r.Violates? <==> !InvoicedOrder(db.invoices, o) && NumberTaken(db.invoices, d.number, d.series))
            && (r.Done? <==> !r.Violates?)
            && (r.Done? ==>
                  && InvoicedOrder(r.db.invoices, o)
                  && (r.db.invoices == db.invoices <==> InvoicedOrder(db.invoices, o))
                  && (!InvoicedOrder(db.invoices, o) ==>
                        r.db.invoices == db.invoices + [InvoiceRow(o, d.number, d.series, d.accessKey, d.issuedAt, d.total)])
                  && r.db.outbox == db.outbox
                  && r.db.orders == if !InvoicedOrder(db.invoices, o) && db.orders[o].status == APPROVED
                                    then db.orders[o := db.orders[o].(status := INVOICED, closedAt := Some(d.issuedAt))]
                                    else db.orders)
  {
    FoundOrder(db, o);
    assert OrderOk(db, o);
    var r := HandleInvoice(db, d);
    if r.Done? && !InvoicedOrder(db.invoices, o) {
      assert r.db.invoices[|db.invoices|].orderId == o;
    }
  }

  // ---- the other endings ----

  predicate Decodes(e: Envelope) {
    match e.eventType
    case CLIENT_UPSERTED => e.body.ClientBody?
    case ORDER_CREATED => e.body.OrderBody?
    case PAYMENT_UPDATED => e.body.PaymentBody?
    case INVOICE_ISSUED => e.body.InvoiceBody?
  }

  /** Data that does not decode, an order without lines or with a bad one, a negative amount or total: nothing else is malformed. */
  lemma MalformedIff(db: Db, e: Envelope, now: Time)
    ensures Handle(db, e, now) == Malformed
            <==> || !Decodes(e)
                 || (e.body.OrderBody? && (e.body.order.items == []
                       || exists i :: 0 <= i < |e.body.order.items|
                            && (e.body.order.items[i].quantity <= 0 || e.body.order.items[i].unitPrice < 0)))
                 || (e.body.PaymentBody? && e.body.payment.amount < 0)
                 || (e.body.InvoiceBody? && e.body.invoice.total < 0)
  {
  }

  /** A payment or an invoice waits for its order and for nothing else. */
  lemma WaitsForOrder(db: Db, e: Envelope, now: Time)
    requires Decodes(e) && (e.body.PaymentBody? || e.body.InvoiceBody?) && Handle(db, e, now) != Malformed
    ensures Handle(db, e, now).NotReady?
            <==> !HasOrder(db.orders, if e.body.PaymentBody? then e.body.payment.orderUid else e.body.invoice.orderUid)
  {
  }

  /** Handled alone, the only event a constraint refuses is an invoice whose number is taken. */
  lemma RefusedIff(db: Db, e: Envelope, now: Time)
    requires DbInv(db)
    ensures Handle(db, e, now) == Violates
            <==> && Decodes(e) && e.body.InvoiceBody? && e.body.invoice.total >= 0
                 && (exists i :: 0 <= i < |db.orders| && db.orders[i].uid == e.body.invoice.orderUid && !InvoicedOrder(db.invoices, i))
                 && exists k :: 0 <= k < |db.invoices| && db.invoices[k].number == e.body.invoice.number
                                && db.invoices[k].series == e.body.invoice.series
  {
    if e.body.InvoiceBody? {
      var o := FindOrder(db.orders, e.body.invoice.orderUid);
      forall i | 0 <= i < |db.orders| && db.orders[i].uid == e.body.invoice.orderUid ensures o == Some(i) { FoundOrder(db, i); }
    }
  }

  // ---- an order waits for its parts ----

  ghost predicate HasClient(clients: seq<ClientRow>, uid: string) {
    exists i :: 0 <= i < |clients| && clients[i].uid == uid
  }

  ghost predicate HasCurrent(rows: seq<AddressRow>, uid: string) {
    exists i :: 0 <= i < |rows| && rows[i].uid == uid && rows[i].isCurrent
  }

  /** Client and addresses of the order have been ingested. */
  ghost predicate Ready(db: Db, d: OrderData) {
    && HasClient(db.clients, d.clientUid)
    && HasCurrent(db.addresses, d.shippingUid)
    && (BillsToShipping(d) || HasCurrent(db.addresses, d.billingUid.value))
  }

  lemma CurrentStays(rows: seq<AddressRow>, u: Upsert, uid: string)
    requires HasCurrent(rows, uid)
    ensures HasCurrent(UpsertVersion(rows, u.uid, u.clientId, u.fields, u.at), uid)
  {
    var rows' := UpsertVersion(rows, u.uid, u.clientId, u.fields, u.at);
    var i :| 0 <= i < |rows| && rows[i].uid == uid && rows[i].isCurrent;
    if rows' != rows {
      assert rows'[|rows|].uid == u.uid && rows'[|rows|].isCurrent;
      if uid != u.uid { assert rows'[i] == rows[i]; }
    }
  }

  lemma HandleKeepsReady(db: Db, e: Envelope, now: Time, d: OrderData)
    requires Ready(db, d) && Handle(db, e, now).Done?
    ensures Ready(Handle(db, e, now).db, d)
  {
    var db' := Handle(db, e, now).db;
    HandleExtends(db, e, now);
    var c :| 0 <= c < |db.clients| && db.clients[c].uid == d.clientUid;
    assert db'.clients[c].uid == d.clientUid;
    if e.body.ClientBody? {
      var a := e.body.client;
      var u := Upsert(a.address.uid, UpsertClient(db.clients, a, now).1, a.address.fields, now);
      CurrentStays(db.addresses, u, d.shippingUid);
      if !BillsToShipping(d) { CurrentStays(db.addresses, u, d.billingUid.value); }
    } else {
      assert db'.addresses == db.addresses;
    }
  }

  lemma {:induction false} ReadyStays(registry: set<EventType>, w: World, ds: seq<Delivery>, d: OrderData)
    requires Ready(w.db, d)
    ensures Ready(ProcessAll(registry, w, ds).db, d)
    decreases |ds|
  {
    if ds != [] {
      var e := ds[0].event;
      var w' := Process(registry, w, e, ds[0].faults).0;
      if w'.db != w.db { HandleKeepsReady(w.db, e.envelope, e.at, d); }
      ReadyStays(registry, w', ds[1..], d);
    }
  }

  const NO_FAULTS := Faults(RedisUp, false, DbUp)

  lemma PlacedExactlyWhenReady(db: Db, eventId: string, d: OrderData)
    requires OrderValid(d)
    ensures HandleOrder(db, eventId, d).Done? || HandleOrder(db, eventId, d).NotReady?
    ensures HandleOrder(db, eventId, d).Done? <==> HasOrder(db.orders, d.uid) || Ready(db, d)
    ensures HandleOrder(db, eventId, d).Done? ==> HasOrder(HandleOrder(db, eventId, d).db.orders, d.uid)
  {
    var r := HandleOrder(db, eventId, d);
    if FindOrder(db.orders, d.uid).Some? {
      assert HasOrder(db.orders, d.uid);
    } else if r.Done? {
      assert r.db.orders[|db.orders|].uid == d.uid;
    }
  }

  /**
   After any deliveries, an order.created that is neither reserved nor committed
   is retried exactly as long as its client or a current version of an address is
   missing, and leaves nothing behind; once they have arrived, however long ago,
   it is placed.
   */
  lemma OrderIsRetriedUntilReady(w: World, ds: seq<Delivery>, e: Event, d: OrderData)
    requires e.envelope.eventType == ORDER_CREATED && e.envelope.body == OrderBody(d) && OrderValid(d)
    requires var w1 := ProcessAll(FULL_REGISTRY, w, ds);
             e.envelope.eventId !in w1.keys && !InLedger(w1.ledger, e.envelope.eventId)
    ensures var w1 := ProcessAll(FULL_REGISTRY, w, ds);
            var (w2, outcome) := Process(FULL_REGISTRY, w1, e, NO_FAULTS);
            && (outcome == RETRY <==> !HasOrder(w1.db.orders, d.uid) && !Ready(w1.db, d))
            && (outcome == RETRY ==> w2 == w1)
            && (outcome != RETRY ==> outcome == PROCESSED && HasOrder(w2.db.orders, d.uid))
            && (Ready(w.db, d) ==> outcome == PROCESSED)
  {
    var w1 := ProcessAll(FULL_REGISTRY, w, ds);
    if Ready(w.db, d) { ReadyStays(FULL_REGISTRY, w, ds, d); }
    PlacedExactlyWhenReady(w1.db, e.envelope.eventId, d);
    assert w1.keys + {e.envelope.eventId} - {e.envelope.eventId} == w1.keys;
  }
}
