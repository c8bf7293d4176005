/** What an overlapping transaction writes, in terms of what it read and of what it found at its commit. */
module TransactionOutcomes {
  import opened Prelude
  import opened Schema
  import opened AddressHistory
  import opened Handlers
  import opened OrderTables
  import opened OrderRuns
  import opened Processing
  import opened HandlerOutcomes
  import opened Transactions
  import opened TransactionRuns
  import A = AddressRaces

  /** A column the transaction did not change keeps what others have written there; one it changed is the transaction's. */
  predicate ColumnAfter<T(==)>(read: T, wanted: T, stored: T, after: T) {
    (wanted == read ==> after == stored) && (wanted != read ==> after == wanted)
  }

  /** A client that was there when read: column by column. */
  lemma ClientColumnsSurvive(seen: Seen, db: Db, d: ClientData, now: Time, c: nat)
    requires Fits(seen, db) && ClientFrom(seen, db, d, now).Done? && FindClient(seen.first.clients, d.uid) == Some(c)
    ensures var read, stored, clients := seen.first.clients[c], db.clients[c], ClientFrom(seen, db, d, now).db.clients;
            && |clients| == |db.clients| && (forall i :: 0 <= i < |clients| && i != c ==> clients[i] == db.clients[i])
            && clients[c].uid == stored.uid && clients[c].updatedAt == now
            && ColumnAfter(read.fullName, d.fullName, stored.fullName, clients[c].fullName)
            && ColumnAfter(read.document, d.document, stored.document, clients[c].document)
            && ColumnAfter(read.email, d.email, stored.email, clients[c].email)
  {
  }

  /** A client that was not: a new row, or a refusal if somebody else has added it. */
  lemma ClientAddedOrRefused(seen: Seen, db: Db, d: ClientData, now: Time)
    requires Fits(seen, db) && FindClient(seen.first.clients, d.uid).None?
    ensures HasClient(db.clients, d.uid) ==> ClientFrom(seen, db, d, now) == Violates
    ensures ClientFrom(seen, db, d, now).Done? ==>
              ClientFrom(seen, db, d, now).db.clients == db.clients + [ClientRow(d.uid, d.fullName, d.document, d.email, now)]
  {
  }

  /**
   Its address: nothing is written if the version read as current has the event's
   fields; otherwise that version is closed and a new one opened, unless the index
   finds another current one.
   */
  lemma AddressWritten(seen: Seen, db: Db, d: ClientData, now: Time)
    requires Fits(seen, db) && Grows(seen.first, db) && Grows(seen.second, db) && ClientFrom(seen, db, d, now).Done?
    ensures var rows, after := db.addresses, ClientFrom(seen, db, d, now).db.addresses;
            var current := FindCurrent(seen.second.addresses, d.address.uid);
            && A.UniqueCurrent(after)
            && if current.Some? && seen.second.addresses[current.value].fields == d.address.fields then after == rows
               else && |after| == |rows| + 1
                    && after[|rows|].uid == d.address.uid && after[|rows|].fields == d.address.fields
                    && after[|rows|].validFrom == now && after[|rows|].validTo == None && after[|rows|].isCurrent
                    && after[|rows|].clientId < |ClientFrom(seen, db, d, now).db.clients|
                    && ClientFrom(seen, db, d, now).db.clients[after[|rows|].clientId].uid == d.uid
                    && forall i :: 0 <= i < |rows| ==>
                         after[i] == if current == Some(i) then rows[i].(validTo := Some(now), isCurrent := false) else rows[i]
  {
    var current := FindCurrent(seen.second.addresses, d.address.uid);
    if current.Some? { assert SameVersion(seen.second.addresses[current.value], db.addresses[current.value]); }
  }

  /** A new order pins the client and the versions its transaction read as current, or is refused if another has placed it. */
  lemma OrderPinsWhatItRead(seen: Seen, db: Db, eventId: string, d: OrderData)
    requires Fits(seen, db) && FindOrder(seen.first.orders, d.uid).None?
    ensures HasOrder(db.orders, d.uid) ==> !OrderFrom(seen, db, eventId, d).Done?
    ensures OrderFrom(seen, db, eventId, d).Done? ==>
              var db' := OrderFrom(seen, db, eventId, d).db;
              && |db'.orders| == |db.orders| + 1
              && var o := db'.orders[|db.orders|];
                 && o.uid == d.uid && o.status == PENDING && o.sourceEvent == eventId && o.currency == d.currency && o.placedAt == d.placedAt
                 && o.clientId < |seen.second.clients| && seen.second.clients[o.clientId].uid == d.clientUid
                 && o.shippingId < |seen.third.addresses| && CurrentFor(seen.third.addresses, o.shippingId, d.shippingUid)
                 && (if BillTo(d) == d.shippingUid then o.billingId == o.shippingId
                     else o.billingId < |seen.fourth.addresses| && CurrentFor(seen.fourth.addresses, o.billingId, BillTo(d)))
  {
  }

  /** A payment found by its provider transaction: status and approval time, column by column, and no other row. */
  lemma PaymentColumnsSurvive(seen: Seen, db: Db, d: PaymentData, now: Time, o: nat, p: nat)
    requires Fits(seen, db) && PaymentFrom(seen, db, d, now).Done? && FindOrder(seen.first.orders, d.orderUid) == Some(o)
    requires FindPayment(seen.second.payments, d.provider, d.providerTx) == Some(p)
    ensures var read, stored, payments := seen.second.payments[p], db.payments[p], PaymentFrom(seen, db, d, now).db.payments;
            && |payments| == |db.payments| && (forall i :: 0 <= i < |payments| && i != p ==> payments[i] == db.payments[i])
            && payments[p] == stored.(status := payments[p].status, approvedAt := payments[p].approvedAt)
            && ColumnAfter(read.status, d.status, stored.status, payments[p].status)
            && (if d.status == PAY_APPROVED && read.approvedAt.None?
                then payments[p].approvedAt == Some(d.occurredAt) else payments[p].approvedAt == stored.approvedAt)
  {
    PaymentCommitShape(seen, db, d, now, o);
  }

  /** A new one is added with the event's columns, or refused if somebody else has added it. */
  lemma PaymentAddedOrRefused(seen: Seen, db: Db, d: PaymentData, now: Time, o: nat)
    requires Fits(seen, db) && FindOrder(seen.first.orders, d.orderUid) == Some(o) && d.amount >= 0
    requires FindPayment(seen.second.payments, d.provider, d.providerTx).None?
    ensures (exists i :: 0 <= i < |db.payments| && db.payments[i].provider == d.provider && db.payments[i].providerTx == d.providerTx)
              ==> PaymentFrom(seen, db, d, now) == Violates
    ensures PaymentFrom(seen, db, d, now).Done? ==>
              PaymentFrom(seen, db, d, now).db.payments
              == db.payments + [PaymentRow(o, d.provider, d.providerTx, d.kind, d.status, d.amount,
                                           if d.status == PAY_APPROVED then Some(d.occurredAt) else None)]
  {
  }

  /** The order moves on the status that was read; nothing else of it changes, nor any other order. */
  lemma PaymentMoves(seen: Seen, db: Db, d: PaymentData, now: Time, o: nat)
    requires Fits(seen, db) && PaymentFrom(seen, db, d, now).Done? && FindOrder(seen.first.orders, d.orderUid) == Some(o)
    ensures var db' := PaymentFrom(seen, db, d, now).db;
            if d.status == PAY_APPROVED && seen.first.orders[o].status == PENDING
            then && db'.orders == db.orders[o := db.orders[o].(status := APPROVED, closedAt := Some(d.occurredAt))]
                 && |db'.outbox| == |db.outbox| + 1 && db'.outbox[..|db.outbox|] == db.outbox
                 && IsFresh(db'.outbox[|db.outbox|], db.orders[o].uid, now)
            else db'.orders == db.orders && db'.outbox == db.outbox
  {
    PaymentCommitShape(seen, db, d, now, o);
  }

  /**
   An invoice: nothing if one was read for the order; refused if there is one now,
   or its number is taken; else added, and the order moves if it read as approved.
   */
  lemma InvoiceFromOutcome(seen: Seen, db: Db, d: InvoiceData, o: nat)
    requires Fits(seen, db) && d.total >= 0 && FindOrder(seen.first.orders, d.orderUid) == Some(o)
    ensures var r := InvoiceFrom(seen, db, d);
            if InvoicedOrder(seen.second.invoices, o) then r == Done(db)
            else if InvoicedOrder(db.invoices, o) || NumberTaken(db.invoices, d.number, d.series) then r == Violates
            else && r.Done?
                 && r.db.invoices == db.invoices + [InvoiceRow(o, d.number, d.series, d.accessKey, d.issuedAt, d.total)]
                 && r.db.orders == (if seen.first.orders[o].status == APPROVED
                                    then db.orders[o := db.orders[o].(status := INVOICED, closedAt := Some(d.issuedAt))] else db.orders)
                 && r.db.outbox == db.outbox && r.db.payments == db.payments
  {
  }

  // ---- overlapping is possible ----

  /** Nothing is known of the event's client and address. */
  ghost predicate Unknown(db: Db, d: ClientData) {
    !HasClient(db.clients, d.uid) && !HasCurrent(db.addresses, d.address.uid)
  }

  function WithClient(db: Db, d: ClientData, now: Time): Db {
    db.(clients := db.clients + [ClientRow(d.uid, d.fullName, d.document, d.email, now)],
        addresses := db.addresses + [AddressRow(d.address.uid, |db.clients|, d.address.fields, now, None, true)])
  }

  lemma NewClientCommits(seen: Seen, db: Db, d: ClientData, now: Time)
    requires Fits(seen, db) && A.UniqueCurrent(db.addresses)
    requires Unknown(seen.first, d) && Unknown(seen.second, d) && Unknown(db, d)
    ensures ClientFrom(seen, db, d, now) == Done(WithClient(db, d, now))
  {
    var found := FindClient(db.clients, d.uid);
    assert FindClient(seen.first.clients, d.uid).None? && found.None?;
    assert FindCurrent(seen.second.addresses, d.address.uid).None?;
  }

  function ClientEvent(id: string, d: ClientData): Envelope {
    Envelope(id, CLIENT_UPSERTED, ClientBody(d))
  }

  /** The newest committed state reads as the tables do. */
  ghost predicate Settled(s: State) {
    |s.past| > 0 && SameTables(s.past[|s.past| - 1], s.db)
  }

  lemma UnknownEnds(seen: Seen, s: Db, db: Db, d: ClientData, id: string, at: Time)
    requires UpToDate(seen, s) && NoLonger(s, db) && A.UniqueCurrent(db.addresses)
    requires Unknown(s, d) && Unknown(db, d)
    ensures HandleFrom(seen, db, ClientEvent(id, d), at) == Done(WithClient(db, d, at))
    ensures !Overtaken(seen, db, ClientEvent(id, d))
  {
    NewClientCommits(seen, db, d, at);
  }

  function Committed(t: State, d: ClientData, id: string, w: Worker, at: Time): State {
    State(WithClient(t.db, d, at), t.past + [WithClient(t.db, d, at)], t.open - {w}, t.ledger + [Event(ClientEvent(id, d), at)])
  }

  /** A commit of a client unknown to all states read and to the tables now, `s` being when it began. */
  lemma UnknownMayCommit(s: State, t: State, d: ClientData, id: string, w: Worker, at: Time)
    requires Settled(s) && s.past <= t.past && NoLonger(s.db, t.db) && A.UniqueCurrent(t.db.addresses)
    requires w in t.open && t.open[w] == Txn(ClientEvent(id, d), |s.past| - 1) && !InLedger(t.ledger, id)
    requires Unknown(s.db, d) && Unknown(t.db, d)
    ensures Enabled(t, Commit(w, Newest(s), at)) && Apply(t, Commit(w, Newest(s), at)) == Committed(t, d, id, w, at)
  {
    assert t.past[|s.past| - 1] == s.past[|s.past| - 1];
    UnknownEnds(SeenBy(t, Newest(s)), s.db, t.db, d, id, at);
  }

  /**
   Each lookup may read a state of its own: a client that none of the states read
   knows, nor the tables, commits whichever they are, as long as none is older
   than the transaction and none older than the one before.
   */
  lemma AnyLookupsMayCommit(t: State, picks: Picks, d: ClientData, id: string, w: Worker, at: Time)
    requires HistoryOk(t.past, t.db) && A.UniqueCurrent(t.db.addresses)
    requires w in t.open && t.open[w].envelope == ClientEvent(id, d) && !InLedger(t.ledger, id)
    requires t.open[w].began <= picks.first && picks.first <= picks.second && picks.second <= picks.third
    requires picks.third <= picks.fourth && picks.fourth < |t.past|
    requires Unknown(t.past[picks.first], d) && Unknown(t.past[picks.second], d) && Unknown(t.db, d)
    ensures Enabled(t, Commit(w, picks, at)) && Apply(t, Commit(w, picks, at)) == Committed(t, d, id, w, at)
  {
    var seen := SeenBy(t, picks);
    ReadsPrecede(t, picks);
    PrecedingFits(seen, t.db);
    NewClientEnds(seen, t.db, d, id, at);
  }

  lemma NewClientEnds(seen: Seen, db: Db, d: ClientData, id: string, at: Time)
    requires Fits(seen, db) && A.UniqueCurrent(db.addresses)
    requires Unknown(seen.first, d) && Unknown(seen.second, d) && Unknown(db, d)
    ensures HandleFrom(seen, db, ClientEvent(id, d), at) == Done(WithClient(db, d, at))
    ensures !Overtaken(seen, db, ClientEvent(id, d))
  {
    NewClientCommits(seen, db, d, at);
  }

  /** The state in which both transactions are open. */
  function BothOpen(s: State, a: ClientData, b: ClientData, v: Worker, w: Worker): State {
    s.(open := s.open[v := Txn(ClientEvent("a", a), Max(|s.past| - 1, 0))][w := Txn(ClientEvent("b", b), Max(|s.past| - 1, 0))])
  }

  /** Two unrelated clients that begin together both commit: the second has read nothing of the first. */
  lemma UnrelatedOverlap(s: State, a: ClientData, b: ClientData, v: Worker, w: Worker, at: Time)
    requires Settled(s) && A.UniqueCurrent(s.db.addresses) && v != w && v !in s.open && w !in s.open
    requires !InLedger(s.ledger, "a") && !InLedger(s.ledger, "b")
    requires Unknown(s.db, a) && Unknown(s.db, b) && a.uid != b.uid && a.address.uid != b.address.uid
    ensures Enabled(s, Begin(v, ClientEvent("a", a)))
    ensures Enabled(Apply(s, Begin(v, ClientEvent("a", a))), Begin(w, ClientEvent("b", b)))
    ensures Apply(Apply(s, Begin(v, ClientEvent("a", a))), Begin(w, ClientEvent("b", b))) == BothOpen(s, a, b, v, w)
    ensures var s2, first, second := BothOpen(s, a, b, v, w), Commit(v, Newest(s), at), Commit(w, Newest(s), at);
            && Enabled(s2, first) && Enabled(Apply(s2, first), second)
            && Apply(Apply(s2, first), second).db == WithClient(WithClient(s.db, a, at), b, at)
  {
    var s2 := BothOpen(s, a, b, v, w);
    UnknownMayCommit(s, s2, a, "a", v, at);
    var s3 := Committed(s2, a, "a", v, at);
    StillUnknown(s.db, a, b, at);
    LedgerWithout(s.ledger, Event(ClientEvent("a", a), at), "b");
    UnknownMayCommit(s, s3, b, "b", w, at);
  }

  lemma StillUnknown(db: Db, a: ClientData, b: ClientData, at: Time)
    requires Unknown(db, a) && Unknown(db, b) && a.uid != b.uid && a.address.uid != b.address.uid && A.UniqueCurrent(db.addresses)
    ensures Unknown(WithClient(db, a, at), b) && A.UniqueCurrent(WithClient(db, a, at).addresses)
  {
  }

  lemma LedgerWithout(ledger: seq<Event>, e: Event, id: string)
    requires !InLedger(ledger, id) && e.envelope.eventId != id
    ensures !InLedger(ledger + [e], id)
  {
  }
}
