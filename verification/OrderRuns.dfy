/** Whole runs of serially committed events, from empty tables on. */
module OrderRuns {
  import opened Prelude
  import opened Schema
  import opened AddressHistory
  import opened Handlers
  import opened OrderTables

  datatype Event = Event(envelope: Envelope, at: Time)

  /** One transaction: kept if the handler ends, undone as a whole if it raises. */
  function Step(db: Db, e: Event): Db {
    match Handle(db, e.envelope, e.at)
    case Done(db') => db'
    case _ => db
  }

  function AfterEvents(db: Db, events: seq<Event>): Db
    decreases |events|
  {
    if events == [] then db else AfterEvents(Step(db, events[0]), events[1..])
  }

  ghost predicate Reachable(db: Db) {
    exists events :: db == AfterEvents(EMPTY_DB, events)
  }

  lemma {:induction false} RunKeepsInv(db: Db, events: seq<Event>)
    requires DbInv(db)
    ensures DbInv(AfterEvents(db, events))
    decreases |events|
  {
    if events != [] {
      var e := events[0];
      if Handle(db, e.envelope, e.at).Done? { HandleKeepsInv(db, e.envelope, e.at); }
      RunKeepsInv(Step(db, e), events[1..]);
    }
  }

  lemma {:induction false} RunExtends(db: Db, events: seq<Event>)
    ensures Extends(db, AfterEvents(db, events))
    decreases |events|
  {
    if events != [] {
      var e := events[0];
      if Handle(db, e.envelope, e.at).Done? { HandleExtends(db, e.envelope, e.at); }
      RunExtends(Step(db, e), events[1..]);
      ExtendsTransitive(db, Step(db, e), AfterEvents(db, events));
    }
  }

  lemma ReachableInv(db: Db)
    requires Reachable(db)
    ensures DbInv(db)
  {
    var events :| db == AfterEvents(EMPTY_DB, events);
    RunKeepsInv(EMPTY_DB, events);
  }

  // ---- reissued facts ----
  //
  // `later` is any state reached from the one in which the fact was first
  // applied: every run, of serial or of overlapping transactions, grows the tables.

  /** An `order.created` already applied changes nothing, whatever came between and under any event id. */
  lemma RepeatedOrderAbsorbed(db: Db, id: string, d: OrderData, later: Db, again: string)
    requires DbInv(db) && HandleOrder(db, id, d).Done? && Grows(HandleOrder(db, id, d).db, later)
    ensures HandleOrder(later, again, d) == Done(later)
  {
    var first := HandleOrder(db, id, d).db;
    var o := FindOrder(first.orders, d.uid);
    if FindOrder(db.orders, d.uid).None? { assert first.orders[|db.orders|].uid == d.uid; }
    assert SameProtected(first.orders[o.value], later.orders[o.value]);
  }

  /** Likewise for `invoice.issued`. */
  lemma RepeatedInvoiceAbsorbed(db: Db, d: InvoiceData, later: Db)
    requires DbInv(db) && HandleInvoice(db, d).Done? && Grows(HandleInvoice(db, d).db, later) && KeysOk(later)
    ensures HandleInvoice(later, d) == Done(later)
  {
    var first := HandleInvoice(db, d).db;
    var o := FindOrder(db.orders, d.orderUid).value;
    assert SameProtected(first.orders[o], later.orders[o]);
    FoundOrder(later, o);
    var k := |db.invoices|;
    if InvoicedOrder(db.invoices, o) {
      k :| 0 <= k < |db.invoices| && db.invoices[k].orderId == o;
    }
    assert first.invoices[k].orderId == o && later.invoices[k] == first.invoices[k];
  }

  lemma ApprovedPaymentLeaves(db: Db, d: PaymentData, now: Time)
    requires DbInv(db) && d.status == PAY_APPROVED && HandlePayment(db, d, now).Done?
    ensures var first := HandlePayment(db, d, now).db;
            && FindOrder(db.orders, d.orderUid).Some?
            && first.orders[FindOrder(db.orders, d.orderUid).value].status != PENDING
            && (exists p :: PaidAs(first, p, d))
  {
    var first := HandlePayment(db, d, now).db;
    var p := FindPayment(db.payments, d.provider, d.providerTx);
    assert PaidAs(first, if p.Some? then p.value else |db.payments|, d);
  }

  /** Row `p` is the provider transaction of `d`, approved at some time. */
  ghost predicate PaidAs(db: Db, p: nat, d: PaymentData) {
    p < |db.payments| && db.payments[p].provider == d.provider && db.payments[p].providerTx == d.providerTx
    && db.payments[p].approvedAt.Some?
  }

  lemma RepeatOnPaid(db: Db, o: nat, p: nat, d: PaymentData, again: Time)
    requires KeysOk(db) && FindOrder(db.orders, d.orderUid) == Some(o) && db.orders[o].status != PENDING
    requires PaidAs(db, p, d) && d.status == PAY_APPROVED && d.amount >= 0
    ensures HandlePayment(db, d, again)
            == Done(db.(payments := db.payments[p := db.payments[p].(status := PAY_APPROVED)]))
  {
    FoundPayment(db, p);
  }

  /**
   An approved payment already applied adds no row anywhere and keeps its
   approval time; at most the payment's status column returns to APPROVED.
   */
  lemma RepeatedPaymentAbsorbed(db: Db, d: PaymentData, now: Time, later: Db, again: Time) returns (p: nat)
    requires DbInv(db) && d.status == PAY_APPROVED && HandlePayment(db, d, now).Done?
    requires Grows(HandlePayment(db, d, now).db, later) && KeysOk(later)
    ensures p < |later.payments|
    ensures HandlePayment(later, d, again)
            == Done(later.(payments := later.payments[p := later.payments[p].(status := PAY_APPROVED)]))
  {
    var first := HandlePayment(db, d, now).db;
    PaymentExtends(db, d, now);
    ApprovedPaymentLeaves(db, d, now);
    var o := FindOrder(db.orders, d.orderUid).value;
    assert SameProtected(db.orders[o], first.orders[o]) && SameProtected(first.orders[o], later.orders[o]);
    FoundOrder(later, o);
    p :| PaidAs(first, p, d);
    assert SameTransaction(first.payments[p], later.payments[p]);
    RepeatOnPaid(later, o, p, d, again);
  }

  lemma FoundPayment(db: Db, p: nat)
    requires KeysOk(db) && p < |db.payments|
    ensures FindPayment(db.payments, db.payments[p].provider, db.payments[p].providerTx) == Some(p)
  {
    var r := FindPayment(db.payments, db.payments[p].provider, db.payments[p].providerTx);
    assert r.Some?;
  }

  /** In a serial run a payment's approval time, once set, never changes. */
  lemma ApprovalTimeIsFinal(db: Db, events: seq<Event>, p: nat)
    requires p < |db.payments| && db.payments[p].approvedAt.Some?
    ensures p < |AfterEvents(db, events).payments|
    ensures AfterEvents(db, events).payments[p].approvedAt == db.payments[p].approvedAt
  {
    RunExtends(db, events);
    assert SamePayment(db.payments[p], AfterEvents(db, events).payments[p]);
  }

  // ---- the address table of a run ----

  /** The upsert an event commits, if it does. */
  function UpsertsOfStep(db: Db, e: Event): seq<Upsert> {
    if Handle(db, e.envelope, e.at).Done? && e.envelope.body.ClientBody? then
      var d := e.envelope.body.client;
      [Upsert(d.address.uid, UpsertClient(db.clients, d, e.at).1, d.address.fields, e.at)]
    else []
  }

  /** The upserts a run commits, as a plain log. */
  function UpsertsOf(db: Db, events: seq<Event>): seq<Upsert>
    decreases |events|
  {
    if events == [] then [] else UpsertsOfStep(db, events[0]) + UpsertsOf(Step(db, events[0]), events[1..])
  }

  ghost predicate UpTo(log: seq<Upsert>, latest: Time) {
    forall i :: 0 <= i < |log| ==> log[i].at <= latest
  }

  lemma StepRefines(db: Db, e: Event, log: seq<Upsert>, latest: Time)
    requires Refines(db.addresses, log, latest) && UpTo(log, latest) && latest <= e.at
    ensures Refines(Step(db, e).addresses, log + UpsertsOfStep(db, e), e.at)
    ensures UpTo(log + UpsertsOfStep(db, e), e.at)
  {
    if UpsertsOfStep(db, e) != [] {
      UpsertRefines(db.addresses, log, UpsertsOfStep(db, e)[0], latest);
    } else {
      assert Step(db, e).addresses == db.addresses && log + [] == log;
      RefinesLater(db.addresses, log, latest, e.at);
    }
  }

  /** The events happen between `start` and `end`, on a clock that never goes back. */
  predicate InOrder(events: seq<Event>, start: Time, end: Time)
    decreases |events|
  {
    if events == [] then start <= end
    else start <= events[0].at && InOrder(events[1..], events[0].at, end)
  }

  lemma {:induction false} AddressesAgree(db: Db, events: seq<Event>, log: seq<Upsert>, latest: Time, end: Time)
    requires Refines(db.addresses, log, latest) && UpTo(log, latest)
    requires InOrder(events, latest, end)
    ensures Refines(AfterEvents(db, events).addresses, log + UpsertsOf(db, events), end)
    decreases |events|
  {
    if events == [] {
      assert log + UpsertsOf(db, events) == log;
      RefinesLater(db.addresses, log, latest, end);
    } else {
      var e := events[0];
      var us := UpsertsOfStep(db, e);
      StepRefines(db, e, log, latest);
      AddressesAgree(Step(db, e), events[1..], log + us, e.at, end);
      assert log + UpsertsOf(db, events) == (log + us) + UpsertsOf(Step(db, e), events[1..]);
    }
  }

  /** In every run on a clock that never goes back, the address table refines the log of the run's upserts. */
  lemma RunRefinesUpsertLog(events: seq<Event>, start: Time, end: Time)
    requires InOrder(events, start, end)
    ensures Refines(AfterEvents(EMPTY_DB, events).addresses, UpsertsOf(EMPTY_DB, events), end)
  {
    VersionsRefineLog([], start);
    AddressesAgree(EMPTY_DB, events, [], start, end);
    assert [] + UpsertsOf(EMPTY_DB, events) == UpsertsOf(EMPTY_DB, events);
  }
}
