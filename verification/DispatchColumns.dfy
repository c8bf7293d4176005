/** The columns the dispatcher writes: no handler reads them and no invariant of the tables speaks of them. */
module DispatchColumns {
  import opened Prelude
  import opened Schema
  import opened Handlers
  import opened OrderTables

  lemma PayloadIgnoresOutbox(a: Db, b: Db, o: nat)
    requires SameTables(a, b) && o < |a.orders| && LinksInRange(a, a.orders[o])
    ensures BuildOrderPayload(a, o) == BuildOrderPayload(b, o)
  {
  }

  lemma PaymentIgnoresDispatch(a: Db, b: Db, d: PaymentData, now: Time)
    requires SameTables(a, b)
    ensures var r, q := HandlePayment(a, d, now), HandlePayment(b, d, now);
            if r.Done? then q.Done? && SameTables(r.db, q.db) else q == r
  {
    if FindOrder(a.orders, d.orderUid).Some? {
      var o := FindOrder(a.orders, d.orderUid).value;
      var paid := a.(payments := UpsertPayment(a.payments, o, d));
      var paid' := b.(payments := UpsertPayment(b.payments, o, d));
      if d.status == PAY_APPROVED && LinksInRange(paid, paid.orders[o]) {
        var x := paid.(orders := paid.orders[o := Moved(paid.orders[o], APPROVED, d.occurredAt)]);
        var y := paid'.(orders := paid'.orders[o := Moved(paid'.orders[o], APPROVED, d.occurredAt)]);
        assert SameTables(x, y);
        PayloadIgnoresOutbox(x, y, o);
      }
    }
  }

  lemma OrderIgnoresDispatch(a: Db, b: Db, eventId: string, d: OrderData)
    requires SameTables(a, b)
    ensures var r, q := HandleOrder(a, eventId, d), HandleOrder(b, eventId, d);
            if r.Done? then q.Done? && SameTables(r.db, q.db) else q == r
  {
  }

  /** A handler ends the same way whatever the dispatcher did to the outbox. */
  lemma HandleIgnoresDispatch(a: Db, b: Db, e: Envelope, now: Time)
    requires SameTables(a, b)
    ensures var r, q := Handle(a, e, now), Handle(b, e, now);
            if r.Done? then q.Done? && SameTables(r.db, q.db) else q == r
  {
    match e.body
    case PaymentBody(d) => PaymentIgnoresDispatch(a, b, d, now);
    case OrderBody(d) => OrderIgnoresDispatch(a, b, e.eventId, d);
    case _ =>
  }

  lemma DispatchKeepsOrder(a: Db, b: Db, i: nat)
    requires SameTables(a, b) && i < |a.orders| && OrderOk(a, i)
    ensures OrderOk(b, i)
  {
    QueuedSame(a.outbox, b.outbox, a.orders[i].uid);
  }

  lemma DispatchKeepsTables(a: Db, b: Db)
    requires SameTables(a, b) && DbInv(a)
    ensures DbInv(b)
  {
    forall k | 0 <= k < |b.outbox| ensures HasOrder(b.orders, b.outbox[k].aggregateId) {
      assert SameMessage(a.outbox[k], b.outbox[k]);
    }
    forall i | 0 <= i < |b.orders| ensures OrderOk(b, i) { DispatchKeepsOrder(a, b, i); }
    forall k, i | 0 <= k < |b.outbox| && 0 <= i < |b.orders| && b.outbox[k].aggregateId == b.orders[i].uid
      ensures PayloadOk(b, b.outbox[k].payload, i)
    {
      assert SameMessage(a.outbox[k], b.outbox[k]);
      assert PayloadOk(a, a.outbox[k].payload, i);
    }
  }
}
