/**
 Handler transactions that overlap.  Each of a transaction's lookups reads some
 state committed since the transaction began, the reads in the order in which
 they are made; its writes change the columns it changed of the rows it found,
 and take effect at its commit.  The unique constraints and the filtered index
 are checked on what is committed then.
 */
module Transactions {
  import opened Prelude
  import opened Schema
  import opened AddressHistory
  import opened Handlers
  import opened OrderTables
  import opened OrderRuns
  import opened Processing
  import A = AddressRaces

  // ---- what one transaction reads and writes ----

  /** The committed states its lookups read, first to last. */
  datatype Seen = Seen(first: Db, second: Db, third: Db, fourth: Db)

  predicate NoLonger(a: Db, b: Db) {
    && |a.clients| <= |b.clients| && |a.addresses| <= |b.addresses|
    && |a.orders| <= |b.orders| && |a.payments| <= |b.payments|
  }

  /** No table the handlers write ever loses a row, so the rows found are still there. */
  predicate Fits(seen: Seen, db: Db) {
    && NoLonger(seen.first, seen.second) && NoLonger(seen.second, seen.third)
    && NoLonger(seen.third, seen.fourth) && NoLonger(seen.fourth, db)
  }

  /** An UPDATE sets only the columns whose value the transaction changed. */
  function Set<T(==)>(read: T, wanted: T, stored: T): T {
    if wanted == read then stored else wanted
  }

  function ClientWritten(clients: seq<ClientRow>, found: Option<nat>, read: seq<ClientRow>, d: ClientData, now: Time): (seq<ClientRow>, nat)
    requires found.Some? ==> found.value < |read| <= |clients|
  {
    match found
    case None => (clients + [ClientRow(d.uid, d.fullName, d.document, d.email, now)], |clients|)
    case Some(c) =>
      (clients[c := ClientRow(clients[c].uid, Set(read[c].fullName, d.fullName, clients[c].fullName),
                              Set(read[c].document, d.document, clients[c].document),
                              Set(read[c].email, d.email, clients[c].email), now)], c)
  }

  /** `current` is the version the upsert found, the second lookup of its transaction. */
  function AddressTxn(seen: Seen, clientId: nat, d: AddressData, now: Time): A.Txn {
    A.Txn(d.uid, clientId, d.fields, FindCurrent(seen.second.addresses, d.uid), now)
  }

  ghost function ClientFrom(seen: Seen, db: Db, d: ClientData, now: Time): HandlerResult
    requires Fits(seen, db)
  {
    var found := FindClient(seen.first.clients, d.uid);
    if found.None? && FindClient(db.clients, d.uid).Some? then Violates
    else
      var (clients, id) := ClientWritten(db.clients, found, seen.first.clients, d, now);
      var t := AddressTxn(seen, id, d.address, now);
      var addresses := if A.Writes(db.addresses, t) then A.Written(db.addresses, t, now) else db.addresses;
      if A.UniqueCurrent(addresses) then Done(db.(clients := clients, addresses := addresses)) else Violates
  }

  function Place(db: Db, eventId: string, d: OrderData, client: nat, shipping: nat, billing: nat): HandlerResult {
    if FindOrder(db.orders, d.uid).Some? then Violates else Done(CreateOrder(db, eventId, d, client, shipping, billing))
  }

  function OrderFrom(seen: Seen, db: Db, eventId: string, d: OrderData): HandlerResult {
    if !OrderValid(d) then Malformed
    else if FindOrder(seen.first.orders, d.uid).Some? then Done(db)
    else match FindClient(seen.second.clients, d.clientUid)
      case None => NotReady(d.clientUid)
      case Some(client) =>
        match FindCurrent(seen.third.addresses, d.shippingUid)
        case None => NotReady(d.shippingUid)
        case Some(shipping) =>
          if BillsToShipping(d) then Place(db, eventId, d, client, shipping, shipping)
          else match FindCurrent(seen.fourth.addresses, d.billingUid.value)
            case None => NotReady(d.billingUid.value)
            case Some(billing) => Place(db, eventId, d, client, shipping, billing)
  }

  /** The payment as the transaction has it in hand: the row it read, or a new one. */
  function InHand(read: Option<PaymentRow>, o: nat, d: PaymentData): PaymentRow {
    var approved := d.status == PAY_APPROVED;
    match read
    case None =>
      PaymentRow(o, d.provider, d.providerTx, d.kind, d.status, d.amount, if approved then Some(d.occurredAt) else None)
    case Some(row) =>
      row.(status := d.status, approvedAt := if approved && row.approvedAt.None? then Some(d.occurredAt) else row.approvedAt)
  }

  function PaymentWritten(payments: seq<PaymentRow>, found: Option<nat>, read: seq<PaymentRow>, o: nat, d: PaymentData): seq<PaymentRow>
    requires found.Some? ==> found.value < |read| <= |payments|
  {
    match found
    case None => payments + [InHand(None, o, d)]
    case Some(p) =>
      var row, mine := payments[p], InHand(Some(read[p]), o, d);
      payments[p := row.(status := Set(read[p].status, mine.status, row.status),
                         approvedAt := Set(read[p].approvedAt, mine.approvedAt, row.approvedAt))]
  }

  /** The tables as `build_order_payload` reads them: committed rows, and the transaction's own order and payment. */
  function PayloadTables(seen: Seen, o: nat, d: PaymentData): Db
    requires |seen.second.payments| <= |seen.third.payments|
    requires o < |seen.first.orders| <= |seen.fourth.orders|
  {
    var found := FindPayment(seen.second.payments, d.provider, d.providerTx);
    seen.fourth.(
      orders := seen.fourth.orders[o := Moved(seen.first.orders[o], APPROVED, d.occurredAt)],
      payments := match found
                  case None => seen.third.payments + [InHand(None, o, d)]
                  case Some(p) => seen.third.payments[p := InHand(Some(seen.second.payments[p]), o, d)])
  }

  function Paid(seen: Seen, db: Db, o: nat, d: PaymentData): Db
    requires |seen.second.payments| <= |db.payments|
  {
    var found := FindPayment(seen.second.payments, d.provider, d.providerTx);
    db.(payments := PaymentWritten(db.payments, found, seen.second.payments, o, d))
  }

  function PaymentFrom(seen: Seen, db: Db, d: PaymentData, now: Time): HandlerResult
    requires Fits(seen, db)
  {
    if d.amount < 0 then Malformed
    else match FindOrder(seen.first.orders, d.orderUid)
      case None => NotReady(d.orderUid)
      case Some(o) =>
        var found := FindPayment(seen.second.payments, d.provider, d.providerTx);
        if found.None? && FindPayment(db.payments, d.provider, d.providerTx).Some? then Violates
        else if d.status != PAY_APPROVED || !TransitionAllowed(seen.first.orders[o].status, APPROVED) then Done(Paid(seen, db, o, d))
        else
          var view := PayloadTables(seen, o, d);
          if !LinksInRange(view, view.orders[o]) then Violates
          else Done(ApproveWith(Paid(seen, db, o, d), o, d.occurredAt, BuildOrderPayload(view, o), now))
  }

  function InvoiceFrom(seen: Seen, db: Db, d: InvoiceData): HandlerResult
    requires Fits(seen, db)
  {
    if d.total < 0 then Malformed
    else match FindOrder(seen.first.orders, d.orderUid)
      case None => NotReady(d.orderUid)
      case Some(o) =>
        if InvoicedOrder(seen.second.invoices, o) then Done(db)
        else if InvoicedOrder(db.invoices, o) || NumberTaken(db.invoices, d.number, d.series) then Violates
        else Done(Invoiced(db, o, d, TransitionAllowed(seen.first.orders[o].status, INVOICED)))
  }

  /** How the transaction ends that read `seen` and commits to `db`. */
  ghost function HandleFrom(seen: Seen, db: Db, e: Envelope, now: Time): HandlerResult {
    if !Fits(seen, db) then Violates
    else match (e.eventType, e.body)
      case (CLIENT_UPSERTED, ClientBody(d)) => ClientFrom(seen, db, d, now)
      case (ORDER_CREATED, OrderBody(d)) => OrderFrom(seen, db, e.eventId, d)
      case (PAYMENT_UPDATED, PaymentBody(d)) => PaymentFrom(seen, db, d, now)
      case (INVOICE_ISSUED, InvoiceBody(d)) => InvoiceFrom(seen, db, d)
      case _ => Malformed
  }

  /**
   The payment approves an order it read as pending and another transaction has
   moved since.  Serialising the transactions on one order rules this out.
   */
  predicate Overtaken(seen: Seen, db: Db, e: Envelope) {
    && e.eventType == PAYMENT_UPDATED && e.body.PaymentBody? && e.body.payment.status == PAY_APPROVED
    && var o := FindOrder(seen.first.orders, e.body.payment.orderUid);
       && o.Some? && seen.first.orders[o.value].status == PENDING
       && o.value < |db.orders| && db.orders[o.value].status != PENDING
  }

  // ---- with nothing in between, it is the handler ----

  /** Every lookup read the tables as they are. */
  ghost predicate UpToDate(seen: Seen, db: Db) {
    SameTables(seen.first, db) && SameTables(seen.second, db) && SameTables(seen.third, db) && SameTables(seen.fourth, db)
  }

  lemma WrittenIsUpsert(rows: seq<AddressRow>, t: A.Txn, now: Time)
    requires A.UniqueCurrent(rows) && t.seen == FindCurrent(rows, t.uid)
    ensures UpsertVersion(rows, t.uid, t.clientId, t.fields, now) == if A.Writes(rows, t) then A.Written(rows, t, now) else rows
    ensures A.UniqueCurrent(UpsertVersion(rows, t.uid, t.clientId, t.fields, now))
  {
  }

  lemma SerialClient(seen: Seen, db: Db, d: ClientData, now: Time)
    requires UpToDate(seen, db) && A.UniqueCurrent(db.addresses)
    ensures ClientFrom(seen, db, d, now) == HandleClient(db, d, now)
  {
    WrittenIsUpsert(db.addresses, AddressTxn(seen, UpsertClient(db.clients, d, now).1, d.address, now), now);
  }

  lemma SerialPayment(seen: Seen, db: Db, d: PaymentData, now: Time)
    requires UpToDate(seen, db)
    ensures PaymentFrom(seen, db, d, now) == HandlePayment(db, d, now)
  {
    var o := FindOrder(db.orders, d.orderUid);
    if o.Some? {
      var paid := db.(payments := UpsertPayment(db.payments, o.value, d));
      var approved := paid.(orders := paid.orders[o.value := Moved(paid.orders[o.value], APPROVED, d.occurredAt)]);
      assert PayloadTables(seen, o.value, d) == approved.(outbox := seen.fourth.outbox);
    }
  }

  /** A transaction none of whose reads is out of date does what the handler does. */
  lemma SerialIsHandle(seen: Seen, db: Db, e: Envelope, now: Time)
    requires UpToDate(seen, db) && A.UniqueCurrent(db.addresses)
    ensures HandleFrom(seen, db, e, now) == Handle(db, e, now)
    ensures !Overtaken(seen, db, e)
  {
    match (e.eventType, e.body)
    case (CLIENT_UPSERTED, ClientBody(d)) => SerialClient(seen, db, d, now);
    case (PAYMENT_UPDATED, PaymentBody(d)) => SerialPayment(seen, db, d, now);
    case _ =>
  }

  // ---- what a commit keeps ----

  /** The states read, in the order in which they were committed. */
  ghost predicate Precedes(seen: Seen, db: Db) {
    && Grows(seen.first, seen.second) && Grows(seen.second, seen.third) && Grows(seen.third, seen.fourth)
    && Grows(seen.first, seen.fourth)
    && Grows(seen.first, db) && Grows(seen.second, db) && Grows(seen.third, db) && Grows(seen.fourth, db)
  }

  lemma PrecedingFits(seen: Seen, db: Db)
    requires Precedes(seen, db)
    ensures Fits(seen, db)
  {
  }

  lemma VersionsKept(rows: seq<AddressRow>, t: A.Txn, now: Time)
    ensures var rows' := A.Written(rows, t, now);
            |rows| <= |rows'| && forall i :: 0 <= i < |rows| ==> SameVersion(rows[i], rows'[i])
  {
  }

  lemma ClientCommitGrows(seen: Seen, db: Db, d: ClientData, now: Time)
    requires Fits(seen, db) && ClientFrom(seen, db, d, now).Done?
    ensures Grows(db, ClientFrom(seen, db, d, now).db)
  {
    var (_, id) := ClientWritten(db.clients, FindClient(seen.first.clients, d.uid), seen.first.clients, d, now);
    VersionsKept(db.addresses, AddressTxn(seen, id, d.address, now), now);
  }

  lemma ClientCommitKeepsInv(seen: Seen, db: Db, d: ClientData, now: Time)
    requires DbInv(db) && Fits(seen, db) && ClientFrom(seen, db, d, now).Done?
    ensures DbInv(ClientFrom(seen, db, d, now).db)
  {
    ClientCommitGrows(seen, db, d, now);
    ClientsKeepInv(db, ClientFrom(seen, db, d, now).db);
  }

  /** Nothing, or an order with links to rows that were there when they were read. */
  lemma OrderCommitShape(seen: Seen, db: Db, eventId: string, d: OrderData) returns (client: nat, shipping: nat, billing: nat)
    requires Fits(seen, db) && OrderFrom(seen, db, eventId, d).Done? && FindOrder(seen.first.orders, d.uid).None?
    ensures client < |db.clients| && shipping < |db.addresses| && billing < |db.addresses| && FindOrder(db.orders, d.uid).None?
    ensures OrderFrom(seen, db, eventId, d).db == CreateOrder(db, eventId, d, client, shipping, billing)
  {
    client := FindClient(seen.second.clients, d.clientUid).value;
    shipping := FindCurrent(seen.third.addresses, d.shippingUid).value;
    billing := if BillsToShipping(d) then shipping else FindCurrent(seen.fourth.addresses, d.billingUid.value).value;
  }

  lemma OrderCommitKeeps(seen: Seen, db: Db, eventId: string, d: OrderData)
    requires DbInv(db) && Fits(seen, db) && OrderFrom(seen, db, eventId, d).Done?
    ensures DbInv(OrderFrom(seen, db, eventId, d).db)
    ensures Grows(db, OrderFrom(seen, db, eventId, d).db)
  {
    if FindOrder(seen.first.orders, d.uid).None? {
      var c, s, b := OrderCommitShape(seen, db, eventId, d);
      CreateExtends(db, eventId, d, c, s, b);
      CreateKeepsInv(db, eventId, d, c, s, b);
    }
  }

  /** One row per provider transaction, and no owner or amount changed. */
  lemma PaymentWrittenKeeps(payments: seq<PaymentRow>, read: seq<PaymentRow>, o: nat, d: PaymentData)
    requires |read| <= |payments| && forall i :: 0 <= i < |read| ==> SameTransaction(read[i], payments[i])
    requires var found := FindPayment(read, d.provider, d.providerTx);
             found.None? ==> FindPayment(payments, d.provider, d.providerTx).None?
    ensures var payments' := PaymentWritten(payments, FindPayment(read, d.provider, d.providerTx), read, o, d);
            && |payments| <= |payments'|
            && (forall i :: 0 <= i < |payments| ==> SameTransaction(payments[i], payments'[i]))
            && (forall i :: |payments| <= i < |payments'| ==> payments'[i].orderId == o)
            && (forall i, j :: 0 <= j < i && |payments| <= i < |payments'| ==>
                  !(payments'[j].provider == payments'[i].provider && payments'[j].providerTx == payments'[i].providerTx))
  {
  }

  lemma PaidCommitKeeps(seen: Seen, db: Db, o: nat, d: PaymentData)
    requires DbInv(db) && Grows(seen.second, db) && o < |db.orders|
    requires var found := FindPayment(seen.second.payments, d.provider, d.providerTx);
             found.None? ==> FindPayment(db.payments, d.provider, d.providerTx).None?
    ensures DbInv(Paid(seen, db, o, d)) && Grows(db, Paid(seen, db, o, d))
  {
    PaymentWrittenKeeps(db.payments, seen.second.payments, o, d);
    PaymentsKeepInv(db, Paid(seen, db, o, d));
  }

  /** The payload, put together from states of different ages, describes the order as it is. */
  lemma PayloadDescribes(seen: Seen, db: Db, o: nat, d: PaymentData)
    requires ReferencesOk(db) && Fits(seen, db) && Grows(seen.first, db) && Grows(seen.fourth, db) && o < |seen.first.orders|
    requires var view := PayloadTables(seen, o, d); LinksInRange(view, view.orders[o])
    ensures PayloadOk(db, BuildOrderPayload(PayloadTables(seen, o, d), o), o)
  {
    ItemsFrozen(seen.fourth, db, o);
    SectionsTell(ItemsOf(db.items, o));
    var row := seen.first.orders[o];
    assert SameProtected(row, db.orders[o]);
    assert SameVersion(seen.fourth.addresses[row.shippingId], db.addresses[row.shippingId]);
    assert SameVersion(seen.fourth.addresses[row.billingId], db.addresses[row.billingId]);
  }

  lemma ApprovalCommitKeeps(seen: Seen, db: Db, o: nat, d: PaymentData, now: Time)
    requires DbInv(db) && Fits(seen, db) && Grows(seen.first, db) && Grows(seen.fourth, db)
    requires o < |seen.first.orders| && db.orders[o].status == PENDING
    requires DbInv(Paid(seen, db, o, d)) && Grows(db, Paid(seen, db, o, d))
    requires var view := PayloadTables(seen, o, d); LinksInRange(view, view.orders[o])
    ensures var approved := ApproveWith(Paid(seen, db, o, d), o, d.occurredAt, BuildOrderPayload(PayloadTables(seen, o, d), o), now);
            DbInv(approved) && Grows(db, approved)
  {
    var paid, payload := Paid(seen, db, o, d), BuildOrderPayload(PayloadTables(seen, o, d), o);
    PayloadDescribes(seen, db, o, d);
    ApproveExtends(paid, o, d.occurredAt, payload, now);
    ApproveKeepsInv(paid, o, d.occurredAt, payload, now);
    GrowsTransitive(db, paid, ApproveWith(paid, o, d.occurredAt, payload, now));
  }

  /** The payment alone, or with the approval of an order read as pending. */
  lemma PaymentCommitShape(seen: Seen, db: Db, d: PaymentData, now: Time, o: nat)
    requires Fits(seen, db) && PaymentFrom(seen, db, d, now).Done? && FindOrder(seen.first.orders, d.orderUid) == Some(o)
    ensures var found := FindPayment(seen.second.payments, d.provider, d.providerTx);
            found.None? ==> FindPayment(db.payments, d.provider, d.providerTx).None?
    ensures if d.status == PAY_APPROVED && seen.first.orders[o].status == PENDING
            then var view := PayloadTables(seen, o, d);
                 LinksInRange(view, view.orders[o])
                 && PaymentFrom(seen, db, d, now).db
                    == ApproveWith(Paid(seen, db, o, d), o, d.occurredAt, BuildOrderPayload(view, o), now)
            else PaymentFrom(seen, db, d, now).db == Paid(seen, db, o, d)
  {
  }

  lemma PaymentCommitKeeps(seen: Seen, db: Db, d: PaymentData, now: Time, o: nat)
    requires DbInv(db) && Fits(seen, db) && Grows(seen.first, db) && Grows(seen.second, db) && Grows(seen.fourth, db)
    requires PaymentFrom(seen, db, d, now).Done? && FindOrder(seen.first.orders, d.orderUid) == Some(o)
    requires d.status == PAY_APPROVED && seen.first.orders[o].status == PENDING ==> db.orders[o].status == PENDING
    ensures DbInv(PaymentFrom(seen, db, d, now).db) && Grows(db, PaymentFrom(seen, db, d, now).db)
  {
    PaymentCommitShape(seen, db, d, now, o);
    PaidCommitKeeps(seen, db, o, d);
    if d.status == PAY_APPROVED && seen.first.orders[o].status == PENDING {
      ApprovalCommitKeeps(seen, db, o, d, now);
    }
  }

  /**
   A recorded approval time is overwritten exactly by an approval at another time
   that read the payment before it was approved.  Transactions on the payment's own
   order being serialised, only one that uses the provider transaction for another
   order can do that.
   */
  lemma ApprovalTimeKeptIff(seen: Seen, db: Db, d: PaymentData, now: Time, p: nat)
    requires Fits(seen, db) && PaymentFrom(seen, db, d, now).Done?
    requires FindPayment(seen.second.payments, d.provider, d.providerTx) == Some(p) && db.payments[p].approvedAt.Some?
    ensures PaymentFrom(seen, db, d, now).db.payments[p].approvedAt == db.payments[p].approvedAt
            <==> d.status != PAY_APPROVED || seen.second.payments[p].approvedAt.Some? || db.payments[p].approvedAt == Some(d.occurredAt)
  {
    PaymentCommitShape(seen, db, d, now, FindOrder(seen.first.orders, d.orderUid).value);
  }

  /** An order read as approved either still is or has an invoice. */
  lemma ReadAsApproved(first: Db, db: Db, o: nat)
    requires DbInv(db) && Grows(first, db) && o < |first.orders| && first.orders[o].status == APPROVED
    ensures db.orders[o].status == APPROVED || InvoicedOrder(db.invoices, o)
  {
    assert OrderOk(db, o);
  }

  lemma InvoiceCommitKeeps(seen: Seen, db: Db, d: InvoiceData)
    requires DbInv(db) && Grows(seen.first, db) && Fits(seen, db) && InvoiceFrom(seen, db, d).Done?
    ensures DbInv(InvoiceFrom(seen, db, d).db)
    ensures Grows(db, InvoiceFrom(seen, db, d).db)
  {
    var o := FindOrder(seen.first.orders, d.orderUid).value;
    if !InvoicedOrder(seen.second.invoices, o) {
      var moves := TransitionAllowed(seen.first.orders[o].status, INVOICED);
      if moves { ReadAsApproved(seen.first, db, o); }
      InvoicedExtends(db, o, d, moves);
      InvoicedKeepsInv(db, o, d, moves);
    }
  }

  /** Whatever its reads missed, a commit that is not overtaken keeps the tables in order and only adds. */
  lemma CommitKeeps(seen: Seen, db: Db, e: Envelope, now: Time)
    requires DbInv(db) && Precedes(seen, db) && HandleFrom(seen, db, e, now).Done? && !Overtaken(seen, db, e)
    ensures DbInv(HandleFrom(seen, db, e, now).db)
    ensures Grows(db, HandleFrom(seen, db, e, now).db)
  {
    PrecedingFits(seen, db);
    match (e.eventType, e.body)
    case (CLIENT_UPSERTED, ClientBody(d)) =>
      ClientCommitKeepsInv(seen, db, d, now);
      ClientCommitGrows(seen, db, d, now);
    case (ORDER_CREATED, OrderBody(d)) => OrderCommitKeeps(seen, db, e.eventId, d);
    case (PAYMENT_UPDATED, PaymentBody(d)) => PaymentCommitKeeps(seen, db, d, now, FindOrder(seen.first.orders, d.orderUid).value);
    case (INVOICE_ISSUED, InvoiceBody(d)) => InvoiceCommitKeeps(seen, db, d);
  }

  lemma CommitKeepsIndex(seen: Seen, db: Db, e: Envelope, now: Time)
    requires A.UniqueCurrent(db.addresses) && HandleFrom(seen, db, e, now).Done?
    ensures A.UniqueCurrent(HandleFrom(seen, db, e, now).db.addresses)
  {
  }

  lemma OvertakenQueuesTwice(seen: Seen, db: Db, e: Envelope, now: Time, o: nat)
    requires DbInv(db) && Precedes(seen, db) && HandleFrom(seen, db, e, now).Done?
    requires Overtaken(seen, db, e) && FindOrder(seen.first.orders, e.body.payment.orderUid) == Some(o)
    ensures var db' := HandleFrom(seen, db, e, now).db;
            && |db'.outbox| == |db.outbox| + 1 && o < |db'.orders| == |db.orders|
            && QueuedFor(db'.outbox, db'.orders[o].uid) == 2
  {
    var db' := HandleFrom(seen, db, e, now).db;
    PaymentCommitShape(seen, db, e.body.payment, now, o);
    assert OrderOk(db, o);
    assert db'.outbox[..|db'.outbox| - 1] == db.outbox;
  }

  /**
   That approvals are not overtaken is exactly what the tables need of the
   serialisation of transactions on one order: a commit keeps them in order if
   and only if it is not an overtaken approval.
   */
  lemma InOrderIffNotOvertaken(seen: Seen, db: Db, e: Envelope, now: Time)
    requires DbInv(db) && Precedes(seen, db) && HandleFrom(seen, db, e, now).Done?
    ensures DbInv(HandleFrom(seen, db, e, now).db) <==> !Overtaken(seen, db, e)
  {
    if Overtaken(seen, db, e) {
      var o := FindOrder(seen.first.orders, e.body.payment.orderUid).value;
      OvertakenQueuesTwice(seen, db, e, now, o);
      assert !OrderOk(HandleFrom(seen, db, e, now).db, o);
    } else {
      CommitKeeps(seen, db, e, now);
    }
  }

  // ---- the machine ----

  type Worker = string

  /** An open transaction: its event, and the newest committed state when it began. */
  datatype Txn = Txn(envelope: Envelope, began: nat)

  /** `past` holds every state committed so far, the newest last, as far as handlers can read it. */
  datatype State = State(db: Db, past: seq<Db>, open: map<Worker, Txn>, ledger: seq<Event>)

  /** Which committed state each lookup read. */
  datatype Picks = Picks(first: nat, second: nat, third: nat, fourth: nat)

  datatype Step =
    | Begin(w: Worker, envelope: Envelope)
    | Commit(w: Worker, picks: Picks, at: Time)
    | Abort(w: Worker)

  const START := State(EMPTY_DB, [EMPTY_DB], map[], [])

  /** Each lookup reads a state no older than the transaction and the lookup before. */
  predicate InOrderSince(picks: Picks, began: nat, end: nat) {
    began <= picks.first <= picks.second <= picks.third <= picks.fourth < end
  }

  function SeenBy(s: State, picks: Picks): Seen
    requires InOrderSince(picks, 0, |s.past|)
  {
    Seen(s.past[picks.first], s.past[picks.second], s.past[picks.third], s.past[picks.fourth])
  }

  ghost predicate Enabled(s: State, step: Step) {
    match step
    case Begin(w, _) => w !in s.open
    case Commit(w, picks, at) =>
      && w in s.open && InOrderSince(picks, s.open[w].began, |s.past|)
      && var e := s.open[w].envelope;
         && !InLedger(s.ledger, e.eventId)
         && HandleFrom(SeenBy(s, picks), s.db, e, at).Done?
         // transactions on one order are serialised, as far as it matters
         && !Overtaken(SeenBy(s, picks), s.db, e)
    case Abort(w) => w in s.open
  }

  ghost function Apply(s: State, step: Step): State
    requires Enabled(s, step)
  {
    match step
    case Begin(w, envelope) => s.(open := s.open[w := Txn(envelope, Max(|s.past| - 1, 0))])
    case Commit(w, picks, at) =>
      var e := s.open[w].envelope;
      var db := HandleFrom(SeenBy(s, picks), s.db, e, at).db;
      State(db, s.past + [db], s.open - {w}, s.ledger + [Event(e, at)])
    case Abort(w) => s.(open := s.open - {w})
  }

  // ---- what every step keeps ----

  /** Committed states in commit order, the last of them the tables up to what dispatching wrote. */
  ghost predicate HistoryOk(past: seq<Db>, db: Db) {
    && |past| > 0 && SameTables(past[|past| - 1], db)
    && (forall i, j :: 0 <= i <= j < |past| ==> Grows(past[i], past[j]))
    && (forall i :: 0 <= i < |past| ==> Grows(past[i], db))
  }

  ghost predicate TablesOk(db: Db, past: seq<Db>, ledger: seq<Event>) {
    && DbInv(db) && A.UniqueCurrent(db.addresses)
    && HistoryOk(past, db)
    && (forall i, j :: 0 <= i < j < |ledger| ==> ledger[i].envelope.eventId != ledger[j].envelope.eventId)
  }

  ghost predicate Inv(s: State) {
    TablesOk(s.db, s.past, s.ledger)
  }

  lemma ReadsPrecede(s: State, picks: Picks)
    requires HistoryOk(s.past, s.db) && InOrderSince(picks, 0, |s.past|)
    ensures Precedes(SeenBy(s, picks), s.db)
  {
  }

  lemma HistoryExtended(past: seq<Db>, db: Db, db': Db)
    requires HistoryOk(past, db) && Grows(db, db')
    ensures HistoryOk(past + [db'], db')
  {
    forall i | 0 <= i < |past| ensures Grows(past[i], db') { GrowsTransitive(past[i], db, db'); }
  }

  lemma CommitStepKeeps(s: State, step: Step)
    requires Inv(s) && Enabled(s, step) && step.Commit?
    ensures Inv(Apply(s, step)) && Grows(s.db, Apply(s, step).db)
  {
    var seen, e := SeenBy(s, step.picks), s.open[step.w].envelope;
    ReadsPrecede(s, step.picks);
    CommitKeeps(seen, s.db, e, step.at);
    CommitKeepsIndex(seen, s.db, e, step.at);
    HistoryExtended(s.past, s.db, Apply(s, step).db);
  }

  lemma OnlyCommitsWrite(s: State, step: Step)
    requires Enabled(s, step) && !step.Commit?
    ensures var s' := Apply(s, step); s'.db == s.db && s'.past == s.past && s'.ledger == s.ledger
  {
  }

  lemma GrowsReflexive(db: Db)
    ensures Grows(db, db)
  {
  }

  lemma StepKeepsInv(s: State, step: Step)
    requires Inv(s) && Enabled(s, step)
    ensures Inv(Apply(s, step)) && Grows(s.db, Apply(s, step).db)
  {
    if step.Commit? {
      CommitStepKeeps(s, step);
    } else {
      OnlyCommitsWrite(s, step);
      GrowsReflexive(s.db);
    }
  }
}
