/**
 What every sequence of committed events keeps true of the business tables:
 keys, the order life cycle, totals, pinned addresses and queued payloads.
 */
module OrderTables {
  import opened Prelude
  import opened Schema
  import opened AddressHistory
  import opened Handlers

  // ---- what never changes once written ----

  function Rank(s: OrderStatus): nat {
    match s
    case PENDING => 0
    case APPROVED => 1
    case INVOICED => 2
    case CANCELLED => 2
  }

  predicate SameProtected(a: OrderRow, b: OrderRow) {
    && a.uid == b.uid && a.clientId == b.clientId
    && a.shippingId == b.shippingId && a.billingId == b.billingId
    && a.currency == b.currency && a.total == b.total
    && a.placedAt == b.placedAt && a.sourceEvent == b.sourceEvent
  }

  predicate SameVersion(a: AddressRow, b: AddressRow) {
    a.uid == b.uid && a.clientId == b.clientId && a.fields == b.fields && a.validFrom == b.validFrom
  }

  predicate SameTransaction(a: PaymentRow, b: PaymentRow) {
    && a.orderId == b.orderId && a.provider == b.provider && a.providerTx == b.providerTx
    && a.kind == b.kind && a.amount == b.amount
    && (a.approvedAt.Some? ==> b.approvedAt.Some?)
  }

  predicate SamePayment(a: PaymentRow, b: PaymentRow) {
    SameTransaction(a, b) && (a.approvedAt.Some? ==> b.approvedAt == a.approvedAt)
  }

  predicate SameMessage(a: OutboxRow, b: OutboxRow) {
    a.aggregateId == b.aggregateId && a.payload == b.payload
  }

  /**
   `b` is a later state of the tables than `a`, transactions overlapping as they
   may: keys, protected columns, versions, lines, invoices, payments and messages
   stay, and no status goes back.
   */
  ghost predicate Grows(a: Db, b: Db) {
    && |a.clients| <= |b.clients| && (forall i :: 0 <= i < |a.clients| ==> a.clients[i].uid == b.clients[i].uid)
    && |a.addresses| <= |b.addresses| && (forall i :: 0 <= i < |a.addresses| ==> SameVersion(a.addresses[i], b.addresses[i]))
    && |a.orders| <= |b.orders|
    && (forall i :: 0 <= i < |a.orders| ==>
         SameProtected(a.orders[i], b.orders[i]) && Rank(a.orders[i].status) <= Rank(b.orders[i].status))
    && a.items <= b.items && (forall k :: |a.items| <= k < |b.items| ==> |a.orders| <= b.items[k].orderId)
    && |a.payments| <= |b.payments| && (forall i :: 0 <= i < |a.payments| ==> SameTransaction(a.payments[i], b.payments[i]))
    && a.invoices <= b.invoices
    && |a.outbox| <= |b.outbox| && (forall k :: 0 <= k < |a.outbox| ==> SameMessage(a.outbox[k], b.outbox[k]))
  }

  /** A later state reached by whole transactions: approval times stay too. */
  ghost predicate Extends(a: Db, b: Db) {
    Grows(a, b) && forall i :: 0 <= i < |a.payments| ==> SamePayment(a.payments[i], b.payments[i])
  }

  /** Equal but for the columns of the outbox that dispatching writes. */
  ghost predicate SameTables(a: Db, b: Db) {
    && a.clients == b.clients && a.addresses == b.addresses && a.orders == b.orders && a.items == b.items
    && a.payments == b.payments && a.invoices == b.invoices
    && |a.outbox| == |b.outbox|
    && forall k :: 0 <= k < |a.outbox| ==> SameMessage(a.outbox[k], b.outbox[k])
  }

  // ---- the invariant ----

  /** Outbox rows queued for one order. */
  function QueuedFor(outbox: seq<OutboxRow>, uid: string): nat {
    if outbox == [] then 0
    else QueuedFor(outbox[..|outbox| - 1], uid) + if outbox[|outbox| - 1].aggregateId == uid then 1 else 0
  }

  function LineSum(items: seq<ItemRow>): Money {
    if items == [] then 0 else LineSum(items[..|items| - 1]) + items[|items| - 1].lineTotal
  }

  ghost predicate KeysOk(db: Db) {
    && (forall i, j :: 0 <= i < j < |db.clients| ==> db.clients[i].uid != db.clients[j].uid)
    && (forall i, j :: 0 <= i < j < |db.orders| ==> db.orders[i].uid != db.orders[j].uid)
    && (forall i, j :: 0 <= i < j < |db.payments| ==>
         !(db.payments[i].provider == db.payments[j].provider && db.payments[i].providerTx == db.payments[j].providerTx))
    && (forall i, j :: 0 <= i < j < |db.invoices| ==> db.invoices[i].orderId != db.invoices[j].orderId)
    && (forall i, j :: 0 <= i < j < |db.invoices| ==>
         !(db.invoices[i].number == db.invoices[j].number && db.invoices[i].series == db.invoices[j].series))
  }

  ghost predicate HasOrder(orders: seq<OrderRow>, uid: string) {
    exists i :: 0 <= i < |orders| && orders[i].uid == uid
  }

  ghost predicate ReferencesOk(db: Db) {
    && (forall i :: 0 <= i < |db.orders| ==> LinksInRange(db, db.orders[i]))
    && (forall k :: 0 <= k < |db.items| ==>
         db.items[k].orderId < |db.orders| && db.items[k].lineTotal == LineTotal(db.items[k].unitPrice, db.items[k].quantity))
    && (forall k :: 0 <= k < |db.payments| ==> db.payments[k].orderId < |db.orders|)
    && (forall k :: 0 <= k < |db.invoices| ==> db.invoices[k].orderId < |db.orders|)
    && (forall k :: 0 <= k < |db.outbox| ==> HasOrder(db.orders, db.outbox[k].aggregateId))
  }

  /** One order: its stage, what that stage implies elsewhere, and its total. */
  ghost predicate OrderOk(db: Db, i: nat)
    requires i < |db.orders|
  {
    var o := db.orders[i];
    && o.status != CANCELLED
    && (o.status == PENDING <==> o.closedAt.None?)
    && QueuedFor(db.outbox, o.uid) == (if o.status == PENDING then 0 else 1)
    && (o.status == INVOICED ==> InvoicedOrder(db.invoices, i))
    && o.total == LineSum(ItemsOf(db.items, i))
  }

  /** A section of the message carries the columns of a line, and of an address version. */
  predicate LineTold(section: ItemSection, line: ItemRow) {
    && section.sku == line.sku && section.description == line.description && section.quantity == line.quantity
    && section.unitPrice == line.unitPrice && section.lineTotal == line.lineTotal
  }

  predicate LinesTold(sections: seq<ItemSection>, lines: seq<ItemRow>) {
    |sections| == |lines| && forall k :: 0 <= k < |lines| ==> LineTold(sections[k], lines[k])
  }

  predicate AddressTold(section: AddressSection, addresses: seq<AddressRow>, id: nat)
    requires id < |addresses|
  {
    && section.versionId == id && section.uid == addresses[id].uid
    && section.fields.street == addresses[id].fields.street && section.fields.number == addresses[id].fields.number
    && section.fields.complement == addresses[id].fields.complement && section.fields.district == addresses[id].fields.district
    && section.fields.city == addresses[id].fields.city && section.fields.state == addresses[id].fields.state
    && section.fields.zipCode == addresses[id].fields.zipCode
  }

  /** A queued message still describes its order's protected columns, items and pinned addresses. */
  ghost predicate PayloadOk(db: Db, p: OrderPayload, i: nat)
    requires i < |db.orders| && LinksInRange(db, db.orders[i])
  {
    var o := db.orders[i];
    && p.order.uid == o.uid && p.order.currency == o.currency && p.order.total == o.total && p.order.placedAt == o.placedAt
    && p.order.status == APPROVED && p.order.closedAt.Some?
    && p.customer.uid == db.clients[o.clientId].uid
    && AddressTold(p.shipping, db.addresses, o.shippingId)
    && AddressTold(p.billing, db.addresses, o.billingId)
    && LinesTold(p.items, ItemsOf(db.items, i))
  }

  ghost predicate PayloadsOk(db: Db)
    requires ReferencesOk(db)
  {
    forall k, i :: 0 <= k < |db.outbox| && 0 <= i < |db.orders| && db.outbox[k].aggregateId == db.orders[i].uid ==>
      PayloadOk(db, db.outbox[k].payload, i)
  }

  ghost predicate DbInv(db: Db) {
    && KeysOk(db)
    && ReferencesOk(db)
    && (forall i :: 0 <= i < |db.orders| ==> OrderOk(db, i))
    && PayloadsOk(db)
  }

  // ---- items of an order ----

  lemma {:induction false} ItemsStable(items: seq<ItemRow>, more: seq<ItemRow>, orderId: nat)
    requires forall k :: 0 <= k < |more| ==> more[k].orderId != orderId
    ensures ItemsOf(items + more, orderId) == ItemsOf(items, orderId)
  {
    if more == [] {
      assert items + more == items;
    } else {
      assert (items + more)[..|items + more| - 1] == items + more[..|more| - 1];
      ItemsStable(items, more[..|more| - 1], orderId);
    }
  }

  lemma ItemAppended(items: seq<ItemRow>, last: ItemRow)
    ensures LineSum(ItemsOf(items + [last], last.orderId)) == LineSum(ItemsOf(items, last.orderId)) + last.lineTotal
  {
    var all, lines := items + [last], ItemsOf(items, last.orderId);
    assert all[..|all| - 1] == items;
    assert ItemsOf(all, last.orderId) == lines + [last];
    assert (lines + [last])[..|lines|] == lines;
  }

  lemma {:induction false} NewItemsSummed(items: seq<ItemRow>, orderId: nat, ds: seq<ItemData>)
    requires forall k :: 0 <= k < |items| ==> items[k].orderId != orderId
    ensures LineSum(ItemsOf(items + NewItems(orderId, ds), orderId)) == TotalAmount(ds)
  {
    if ds == [] {
      assert items + NewItems(orderId, ds) == items;
      NoItems(items, orderId);
    } else {
      var before, last := ds[..|ds| - 1], NewItem(orderId, ds[|ds| - 1]);
      NewItemsSummed(items, orderId, before);
      assert items + NewItems(orderId, ds) == (items + NewItems(orderId, before)) + [last];
      ItemAppended(items + NewItems(orderId, before), last);
    }
  }

  lemma {:induction false} NoItems(items: seq<ItemRow>, orderId: nat)
    requires forall k :: 0 <= k < |items| ==> items[k].orderId != orderId
    ensures ItemsOf(items, orderId) == []
  {
    if items != [] { NoItems(items[..|items| - 1], orderId); }
  }

  lemma ItemsFrozen(a: Db, b: Db, i: nat)
    requires Grows(a, b) && i < |a.orders|
    ensures ItemsOf(b.items, i) == ItemsOf(a.items, i)
  {
    assert b.items == a.items + b.items[|a.items|..];
    ItemsStable(a.items, b.items[|a.items|..], i);
  }

  lemma {:induction false} SectionsTell(lines: seq<ItemRow>)
    ensures LinesTold(ItemSections(lines), lines)
  {
    if lines != [] { SectionsTell(lines[1..]); }
  }

  // ---- messages of an order ----

  lemma {:induction false} QueuedNone(outbox: seq<OutboxRow>, uid: string)
    requires forall k :: 0 <= k < |outbox| ==> outbox[k].aggregateId != uid
    ensures QueuedFor(outbox, uid) == 0
  {
    if outbox != [] { QueuedNone(outbox[..|outbox| - 1], uid); }
  }

  lemma {:induction false} QueuedSame(a: seq<OutboxRow>, b: seq<OutboxRow>, uid: string)
    requires |a| == |b| && forall k :: 0 <= k < |a| ==> a[k].aggregateId == b[k].aggregateId
    ensures QueuedFor(a, uid) == QueuedFor(b, uid)
  {
    if a != [] { QueuedSame(a[..|a| - 1], b[..|b| - 1], uid); }
  }

  lemma {:induction false} QueuedTwice(outbox: seq<OutboxRow>, j: nat, k: nat)
    requires j < k < |outbox| && outbox[j].aggregateId == outbox[k].aggregateId
    ensures QueuedFor(outbox, outbox[k].aggregateId) >= 2
  {
    var before := outbox[..|outbox| - 1];
    if k < |before| {
      QueuedTwice(before, j, k);
    } else {
      QueuedOnce(before, j);
    }
  }

  lemma {:induction false} QueuedOnce(outbox: seq<OutboxRow>, j: nat)
    requires j < |outbox|
    ensures QueuedFor(outbox, outbox[j].aggregateId) >= 1
  {
    if j < |outbox| - 1 { QueuedOnce(outbox[..|outbox| - 1], j); }
  }

  // ---- each handler extends the tables ----

  lemma GrowsTransitive(a: Db, b: Db, c: Db)
    requires Grows(a, b) && Grows(b, c)
    ensures Grows(a, c)
  {
    assert forall i :: 0 <= i < |a.orders| ==> SameProtected(a.orders[i], b.orders[i]) && SameProtected(b.orders[i], c.orders[i]);
    assert forall i :: 0 <= i < |a.addresses| ==> SameVersion(a.addresses[i], b.addresses[i]) && SameVersion(b.addresses[i], c.addresses[i]);
    assert forall i :: 0 <= i < |a.payments| ==> SameTransaction(a.payments[i], b.payments[i]) && SameTransaction(b.payments[i], c.payments[i]);
    assert forall k :: 0 <= k < |a.outbox| ==> SameMessage(a.outbox[k], b.outbox[k]) && SameMessage(b.outbox[k], c.outbox[k]);
    assert forall k :: 0 <= k < |a.items| ==> c.items[k] == b.items[k] == a.items[k];
  }

  lemma ExtendsTransitive(a: Db, b: Db, c: Db)
    requires Extends(a, b) && Extends(b, c)
    ensures Extends(a, c)
  {
    GrowsTransitive(a, b, c);
    assert forall i :: 0 <= i < |a.payments| ==> SamePayment(a.payments[i], b.payments[i]) && SamePayment(b.payments[i], c.payments[i]);
  }

  lemma ClientExtends(db: Db, d: ClientData, now: Time)
    ensures Extends(db, HandleClient(db, d, now).db)
  {
  }

  lemma CreateExtends(db: Db, eventId: string, d: OrderData, client: nat, shipping: nat, billing: nat)
    ensures Extends(db, CreateOrder(db, eventId, d, client, shipping, billing))
  {
    NewItemsOrder(|db.orders|, d.items);
  }

  lemma OrderExtends(db: Db, eventId: string, d: OrderData)
    requires HandleOrder(db, eventId, d).Done?
    ensures Extends(db, HandleOrder(db, eventId, d).db)
  {
    if FindOrder(db.orders, d.uid).None? {
      var c := FindClient(db.clients, d.clientUid).value;
      var s := FindCurrent(db.addresses, d.shippingUid).value;
      CreateExtends(db, eventId, d, c, s, if BillsToShipping(d) then s else FindCurrent(db.addresses, d.billingUid.value).value);
    }
  }

  lemma PaidExtends(db: Db, o: nat, d: PaymentData)
    ensures Extends(db, db.(payments := UpsertPayment(db.payments, o, d)))
  {
  }

  lemma ApproveExtends(db: Db, o: nat, at: Time, payload: OrderPayload, now: Time)
    requires o < |db.orders| && db.orders[o].status == PENDING
    ensures Extends(db, ApproveWith(db, o, at, payload, now))
  {
  }

  lemma PaymentExtends(db: Db, d: PaymentData, now: Time)
    requires HandlePayment(db, d, now).Done?
    ensures Extends(db, HandlePayment(db, d, now).db)
  {
    var o := FindOrder(db.orders, d.orderUid).value;
    var paid := db.(payments := UpsertPayment(db.payments, o, d));
    PaidExtends(db, o, d);
    if d.status == PAY_APPROVED && TransitionAllowed(db.orders[o].status, APPROVED) {
      var approved := paid.(orders := paid.orders[o := Moved(paid.orders[o], APPROVED, d.occurredAt)]);
      ApproveExtends(paid, o, d.occurredAt, BuildOrderPayload(approved, o), now);
      ExtendsTransitive(db, paid, ApproveAndEnqueue(paid, o, d.occurredAt, now));
    }
  }

  lemma InvoiceExtends(db: Db, d: InvoiceData)
    requires HandleInvoice(db, d).Done?
    ensures Extends(db, HandleInvoice(db, d).db)
  {
  }

  /** A committed event only ever adds: nothing already written under a key is taken back. */
  lemma HandleExtends(db: Db, e: Envelope, now: Time)
    requires Handle(db, e, now).Done?
    ensures Extends(db, Handle(db, e, now).db)
  {
    match e.body
    case ClientBody(d) => ClientExtends(db, d, now);
    case OrderBody(d) => OrderExtends(db, e.eventId, d);
    case PaymentBody(d) => PaymentExtends(db, d, now);
    case InvoiceBody(d) => InvoiceExtends(db, d);
  }

  lemma {:induction false} NewItemsOrder(orderId: nat, ds: seq<ItemData>)
    ensures |NewItems(orderId, ds)| == |ds|
    ensures forall k :: 0 <= k < |ds| ==> NewItems(orderId, ds)[k] == NewItem(orderId, ds[k])
  {
    if ds != [] { NewItemsOrder(orderId, ds[..|ds| - 1]); }
  }

  // ---- each handler keeps the invariant ----

  /** An order the event does not touch keeps its part of the invariant. */
  lemma OrderKept(a: Db, b: Db, i: nat)
    requires Grows(a, b) && i < |a.orders| && OrderOk(a, i)
    requires b.orders[i] == a.orders[i]
    requires QueuedFor(b.outbox, a.orders[i].uid) == QueuedFor(a.outbox, a.orders[i].uid)
    ensures OrderOk(b, i)
  {
    ItemsFrozen(a, b, i);
    if InvoicedOrder(a.invoices, i) {
      var k :| 0 <= k < |a.invoices| && a.invoices[k].orderId == i;
      assert b.invoices[k].orderId == i;
    }
  }

  lemma PayloadKept(a: Db, b: Db, p: OrderPayload, i: nat)
    requires Grows(a, b) && i < |a.orders| && LinksInRange(a, a.orders[i]) && PayloadOk(a, p, i)
    ensures LinksInRange(b, b.orders[i]) && PayloadOk(b, p, i)
  {
    ItemsFrozen(a, b, i);
    assert SameProtected(a.orders[i], b.orders[i]);
    assert SameVersion(a.addresses[a.orders[i].shippingId], b.addresses[a.orders[i].shippingId]);
    assert SameVersion(a.addresses[a.orders[i].billingId], b.addresses[a.orders[i].billingId]);
  }

  lemma OwnersKept(a: Db, b: Db)
    requires ReferencesOk(a) && Grows(a, b) && |b.outbox| == |a.outbox|
    ensures forall k :: 0 <= k < |b.outbox| ==> HasOrder(b.orders, b.outbox[k].aggregateId)
  {
    forall k | 0 <= k < |b.outbox| ensures HasOrder(b.orders, b.outbox[k].aggregateId) {
      assert SameMessage(a.outbox[k], b.outbox[k]);
      var i :| 0 <= i < |a.orders| && a.orders[i].uid == a.outbox[k].aggregateId;
      assert SameProtected(a.orders[i], b.orders[i]);
    }
  }

  lemma PayloadsKept(a: Db, b: Db)
    requires DbInv(a) && Grows(a, b) && ReferencesOk(b) && KeysOk(b)
    requires |b.outbox| == |a.outbox|
    ensures PayloadsOk(b)
  {
    forall k, i | 0 <= k < |b.outbox| && 0 <= i < |b.orders| && b.outbox[k].aggregateId == b.orders[i].uid
      ensures PayloadOk(b, b.outbox[k].payload, i)
    {
      assert SameMessage(a.outbox[k], b.outbox[k]);
      var j :| 0 <= j < |a.orders| && a.orders[j].uid == a.outbox[k].aggregateId;
      assert SameProtected(a.orders[j], b.orders[j]);
      SameOrder(b, i, j);
      PayloadKept(a, b, a.outbox[k].payload, i);
    }
  }

  lemma SameOrder(db: Db, i: nat, j: nat)
    requires KeysOk(db) && i < |db.orders| && j < |db.orders| && db.orders[i].uid == db.orders[j].uid
    ensures i == j
  {
  }

  lemma FoundOrder(db: Db, i: nat)
    requires KeysOk(db) && i < |db.orders|
    ensures FindOrder(db.orders, db.orders[i].uid) == Some(i)
  {
    SameOrder(db, i, FindOrder(db.orders, db.orders[i].uid).value);
  }

  /** Only clients and addresses change. */
  lemma ClientsKeepInv(db: Db, db': Db)
    requires DbInv(db) && Grows(db, db') && db' == db.(clients := db'.clients, addresses := db'.addresses) && KeysOk(db')
    ensures DbInv(db')
  {
    OwnersKept(db, db');
    forall i | 0 <= i < |db'.orders| ensures OrderOk(db', i) { OrderKept(db, db', i); }
    PayloadsKept(db, db');
  }

  lemma ClientKeepsInv(db: Db, d: ClientData, now: Time)
    requires DbInv(db)
    ensures DbInv(HandleClient(db, d, now).db)
  {
    ClientExtends(db, d, now);
    ClientsKeepInv(db, HandleClient(db, d, now).db);
  }

  lemma CreateKeepsKeys(db: Db, eventId: string, d: OrderData, client: nat, shipping: nat, billing: nat)
    requires KeysOk(db) && ReferencesOk(db) && FindOrder(db.orders, d.uid).None?
    requires client < |db.clients| && shipping < |db.addresses| && billing < |db.addresses|
    ensures KeysOk(CreateOrder(db, eventId, d, client, shipping, billing))
    ensures ReferencesOk(CreateOrder(db, eventId, d, client, shipping, billing))
  {
    var db' := CreateOrder(db, eventId, d, client, shipping, billing);
    NewItemsOrder(|db.orders|, d.items);
    CreateExtends(db, eventId, d, client, shipping, billing);
    OwnersKept(db, db');
  }

  /** The order just created: pending, unqueued, its total the sum of its lines. */
  lemma CreatedOrderOk(db: Db, eventId: string, d: OrderData, client: nat, shipping: nat, billing: nat)
    requires DbInv(db) && FindOrder(db.orders, d.uid).None?
    ensures OrderOk(CreateOrder(db, eventId, d, client, shipping, billing), |db.orders|)
  {
    NewItemsSummed(db.items, |db.orders|, d.items);
    QueuedNone(db.outbox, d.uid);
  }

  lemma CreateKeepsInv(db: Db, eventId: string, d: OrderData, client: nat, shipping: nat, billing: nat)
    requires DbInv(db) && FindOrder(db.orders, d.uid).None?
    requires client < |db.clients| && shipping < |db.addresses| && billing < |db.addresses|
    ensures DbInv(CreateOrder(db, eventId, d, client, shipping, billing))
  {
    var db' := CreateOrder(db, eventId, d, client, shipping, billing);
    CreateKeepsKeys(db, eventId, d, client, shipping, billing);
    CreateExtends(db, eventId, d, client, shipping, billing);
    forall i | 0 <= i < |db'.orders| ensures OrderOk(db', i) {
      if i < |db.orders| {
        OrderKept(db, db', i);
      } else {
        CreatedOrderOk(db, eventId, d, client, shipping, billing);
      }
    }
    PayloadsKept(db, db');
  }

  lemma OrderKeepsInv(db: Db, eventId: string, d: OrderData)
    requires DbInv(db) && HandleOrder(db, eventId, d).Done?
    ensures DbInv(HandleOrder(db, eventId, d).db)
  {
    if FindOrder(db.orders, d.uid).None? {
      var c := FindClient(db.clients, d.clientUid).value;
      var s := FindCurrent(db.addresses, d.shippingUid).value;
      if BillsToShipping(d) {
        CreateKeepsInv(db, eventId, d, c, s, s);
      } else {
        CreateKeepsInv(db, eventId, d, c, s, FindCurrent(db.addresses, d.billingUid.value).value);
      }
    }
  }

  /** Only the payments change, and no key, amount or owner among those there. */
  lemma PaymentsKeepInv(db: Db, db': Db)
    requires DbInv(db) && Grows(db, db') && db' == db.(payments := db'.payments)
    requires KeysOk(db') && forall k :: 0 <= k < |db'.payments| ==> db'.payments[k].orderId < |db.orders|
    ensures DbInv(db')
  {
    OwnersKept(db, db');
    forall i | 0 <= i < |db'.orders| ensures OrderOk(db', i) { OrderKept(db, db', i); }
    PayloadsKept(db, db');
  }

  lemma PaidKeepsInv(db: Db, o: nat, d: PaymentData)
    requires DbInv(db) && o < |db.orders|
    ensures DbInv(db.(payments := UpsertPayment(db.payments, o, d)))
  {
    PaidExtends(db, o, d);
    PaymentsKeepInv(db, db.(payments := UpsertPayment(db.payments, o, d)));
  }

  lemma ApproveKeepsReferences(db: Db, o: nat, at: Time, payload: OrderPayload, now: Time)
    requires DbInv(db) && o < |db.orders| && db.orders[o].status == PENDING
    ensures KeysOk(ApproveWith(db, o, at, payload, now))
    ensures ReferencesOk(ApproveWith(db, o, at, payload, now))
  {
    var db' := ApproveWith(db, o, at, payload, now);
    ApproveExtends(db, o, at, payload, now);
    OwnersKept(db, db'.(outbox := db.outbox));
    assert db'.orders[o].uid == db'.outbox[|db.outbox|].aggregateId;
  }

  lemma ApproveKeepsOrder(db: Db, o: nat, at: Time, payload: OrderPayload, now: Time, i: nat)
    requires DbInv(db) && o < |db.orders| && db.orders[o].status == PENDING && i < |db.orders|
    ensures OrderOk(ApproveWith(db, o, at, payload, now), i)
  {
    var db' := ApproveWith(db, o, at, payload, now);
    assert db'.outbox[..|db'.outbox| - 1] == db.outbox;
    assert OrderOk(db, i);
    if i != o {
      if db.orders[i].uid == db.orders[o].uid { SameOrder(db, i, o); }
      ApproveExtends(db, o, at, payload, now);
      OrderKept(db, db', i);
    }
  }

  /** Approving a pending order with a message that describes it keeps every invariant. */
  lemma ApproveKeepsInv(db: Db, o: nat, at: Time, payload: OrderPayload, now: Time)
    requires DbInv(db) && o < |db.orders| && db.orders[o].status == PENDING && PayloadOk(db, payload, o)
    ensures DbInv(ApproveWith(db, o, at, payload, now))
  {
    ApproveKeepsReferences(db, o, at, payload, now);
    forall i | 0 <= i < |db.orders| ensures OrderOk(ApproveWith(db, o, at, payload, now), i) {
      ApproveKeepsOrder(db, o, at, payload, now, i);
    }
    ApproveExtends(db, o, at, payload, now);
    ApprovePayloads(db, o, at, payload, now);
  }

  lemma ApprovePayloads(db: Db, o: nat, at: Time, payload: OrderPayload, now: Time)
    requires DbInv(db) && o < |db.orders| && db.orders[o].status == PENDING && PayloadOk(db, payload, o)
    requires var db' := ApproveWith(db, o, at, payload, now); Extends(db, db') && ReferencesOk(db') && KeysOk(db')
    ensures PayloadsOk(ApproveWith(db, o, at, payload, now))
  {
    var db' := ApproveWith(db, o, at, payload, now);
    var shorter := db'.(outbox := db.outbox);
    OwnersKept(db, shorter);
    PayloadsKept(db, shorter);
    PayloadKept(db, shorter, payload, o);
    forall k, i | 0 <= k < |db'.outbox| && 0 <= i < |db'.orders| && db'.outbox[k].aggregateId == db'.orders[i].uid
      ensures PayloadOk(db', db'.outbox[k].payload, i)
    {
      if k < |db.outbox| {
        assert PayloadOk(shorter, shorter.outbox[k].payload, i);
      } else {
        SameOrder(db', i, o);
      }
    }
  }

  lemma PaymentKeepsInv(db: Db, d: PaymentData, now: Time)
    requires DbInv(db) && HandlePayment(db, d, now).Done?
    ensures DbInv(HandlePayment(db, d, now).db)
  {
    var o := FindOrder(db.orders, d.orderUid).value;
    var paid := db.(payments := UpsertPayment(db.payments, o, d));
    PaidKeepsInv(db, o, d);
    if d.status == PAY_APPROVED && TransitionAllowed(db.orders[o].status, APPROVED) {
      var approved := paid.(orders := paid.orders[o := Moved(paid.orders[o], APPROVED, d.occurredAt)]);
      SectionsTell(ItemsOf(approved.items, o));
      ApproveKeepsInv(paid, o, d.occurredAt, BuildOrderPayload(approved, o), now);
    }
  }

  /** `Invoiced` inserts what both unique constraints allow, and moves only an approved order. */
  ghost predicate Invoices(db: Db, o: nat, d: InvoiceData, moves: bool) {
    && o < |db.orders| && !InvoicedOrder(db.invoices, o) && !NumberTaken(db.invoices, d.number, d.series)
    && (moves ==> db.orders[o].status == APPROVED)
  }

  lemma InvoicedExtends(db: Db, o: nat, d: InvoiceData, moves: bool)
    requires Invoices(db, o, d, moves)
    ensures Extends(db, Invoiced(db, o, d, moves))
  {
  }

  lemma InvoicedKeepsReferences(db: Db, o: nat, d: InvoiceData, moves: bool)
    requires DbInv(db) && Invoices(db, o, d, moves)
    ensures KeysOk(Invoiced(db, o, d, moves))
    ensures ReferencesOk(Invoiced(db, o, d, moves))
  {
    InvoicedExtends(db, o, d, moves);
    OwnersKept(db, Invoiced(db, o, d, moves));
  }

  lemma InvoicedKeepsOrder(db: Db, o: nat, d: InvoiceData, moves: bool, i: nat)
    requires DbInv(db) && Invoices(db, o, d, moves) && i < |db.orders|
    ensures OrderOk(Invoiced(db, o, d, moves), i)
  {
    var db' := Invoiced(db, o, d, moves);
    assert OrderOk(db, i);
    InvoicedExtends(db, o, d, moves);
    if i == o {
      assert db'.invoices[|db.invoices|].orderId == i;
    } else {
      OrderKept(db, db', i);
    }
  }

  lemma InvoicedKeepsInv(db: Db, o: nat, d: InvoiceData, moves: bool)
    requires DbInv(db) && Invoices(db, o, d, moves)
    ensures DbInv(Invoiced(db, o, d, moves))
  {
    var db' := Invoiced(db, o, d, moves);
    InvoicedKeepsReferences(db, o, d, moves);
    forall i | 0 <= i < |db'.orders| ensures OrderOk(db', i) { InvoicedKeepsOrder(db, o, d, moves, i); }
    InvoicedExtends(db, o, d, moves);
    PayloadsKept(db, db');
  }

  lemma InvoiceKeepsInv(db: Db, d: InvoiceData)
    requires DbInv(db) && HandleInvoice(db, d).Done?
    ensures DbInv(HandleInvoice(db, d).db)
  {
    var o := FindOrder(db.orders, d.orderUid).value;
    if !InvoicedOrder(db.invoices, o) {
      InvoicedKeepsInv(db, o, d, TransitionAllowed(db.orders[o].status, INVOICED));
    }
  }

  lemma HandleKeepsInv(db: Db, e: Envelope, now: Time)
    requires DbInv(db) && Handle(db, e, now).Done?
    ensures DbInv(Handle(db, e, now).db)
  {
    match e.body
    case ClientBody(d) => ClientKeepsInv(db, d, now);
    case OrderBody(d) => OrderKeepsInv(db, e.eventId, d);
    case PaymentBody(d) => PaymentKeepsInv(db, d, now);
    case InvoiceBody(d) => InvoiceKeepsInv(db, d);
  }
}
