/**
 What the message queued for the ERP says, column by column: of the tables it was
 built from, and of the tables as they are however much later.
 */
module Messages {
  import opened Prelude
  import opened Schema
  import opened Handlers
  import opened OrderTables
  import opened TransactionRuns
  import T = Transactions

  // ---- the lines of an order ----

  /** The positions of the order's lines in the table, first to last. */
  ghost predicate LinesAt(items: seq<ItemRow>, orderId: nat, at: seq<nat>) {
    && (forall j, k :: 0 <= j < k < |at| ==> at[j] < at[k])
    && (forall k :: 0 <= k < |at| ==> at[k] < |items| && items[at[k]].orderId == orderId)
    && (forall i: nat :: i < |items| && items[i].orderId == orderId ==> i in at)
  }

  lemma OneMoreLine(items: seq<ItemRow>, orderId: nat, before: seq<nat>)
    requires items != [] && LinesAt(items[..|items| - 1], orderId, before)
    ensures LinesAt(items, orderId, before + if items[|items| - 1].orderId == orderId then [|items| - 1] else [])
  {
    var n := |items| - 1;
    var at := before + if items[n].orderId == orderId then [n] else [];
    forall i: nat | i < |items| && items[i].orderId == orderId ensures i in at {
      if i < n { assert items[..n][i].orderId == orderId; } else { assert at[|before|] == n; }
    }
    forall k | 0 <= k < |at| ensures at[k] < |items| && items[at[k]].orderId == orderId {
      if k < |before| { assert items[..n][before[k]].orderId == orderId; }
    }
  }

  /** `ItemsOf` is all lines of the order, each once, in the order of the table. */
  lemma {:induction false} LinesOfOrder(items: seq<ItemRow>, orderId: nat) returns (at: seq<nat>)
    ensures LinesAt(items, orderId, at) && |at| == |ItemsOf(items, orderId)|
    ensures forall k :: 0 <= k < |at| ==> ItemsOf(items, orderId)[k] == items[at[k]]
  {
    if items == [] {
      at := [];
    } else {
      var n := |items| - 1;
      var before := LinesOfOrder(items[..n], orderId);
      OneMoreLine(items, orderId, before);
      at := before + if items[n].orderId == orderId then [n] else [];
    }
  }

  function TotalOf(sections: seq<ItemSection>): Money {
    if sections == [] then 0 else TotalOf(sections[..|sections| - 1]) + sections[|sections| - 1].lineTotal
  }

  lemma {:induction false} ToldTotal(sections: seq<ItemSection>, lines: seq<ItemRow>)
    requires LinesTold(sections, lines)
    ensures TotalOf(sections) == LineSum(lines)
  {
    if lines != [] {
      var n := |lines| - 1;
      assert LineTold(sections[n], lines[n]);
      forall k | 0 <= k < n ensures LineTold(sections[..n][k], lines[..n][k]) { assert LineTold(sections[k], lines[k]); }
      ToldTotal(sections[..n], lines[..n]);
    }
  }

  // ---- every queued message, however much later ----

  /** The message's lines are those of order `i`, in order, each with its own product, and sum to its total. */
  ghost predicate LinesRight(db: Db, p: OrderPayload, i: nat, at: seq<nat>) {
    && LinesAt(db.items, i, at) && |p.items| == |at|
    && (forall k :: 0 <= k < |at| ==>
          var section, line := p.items[k], db.items[at[k]];
          && section.sku == line.sku && section.description == line.description && section.quantity == line.quantity
          && section.unitPrice == line.unitPrice && section.lineTotal == line.lineTotal
          && section.lineTotal == section.unitPrice * section.quantity)
    && TotalOf(p.items) == p.order.total
  }

  lemma ToldLinesAreRight(db: Db, p: OrderPayload, i: nat) returns (at: seq<nat>)
    requires ReferencesOk(db) && i < |db.orders| && OrderOk(db, i) && PayloadOk(db, p, i)
    ensures LinesRight(db, p, i, at)
  {
    at := LinesOfOrder(db.items, i);
    ToldTotal(p.items, ItemsOf(db.items, i));
    forall k | 0 <= k < |at|
      ensures LineTold(p.items[k], db.items[at[k]]) && p.items[k].lineTotal == p.items[k].unitPrice * p.items[k].quantity
    {
      assert LineTold(p.items[k], ItemsOf(db.items, i)[k]);
      LineTotalIsProduct(p.items[k].unitPrice, p.items[k].quantity);
    }
  }

  /** The order's columns that never change, its two pinned addresses, and that it was approved. */
  ghost predicate HeadRight(db: Db, p: OrderPayload, i: nat) {
    && i < |db.orders| && LinksInRange(db, db.orders[i])
    && var o := db.orders[i];
       && p.order.uid == o.uid && p.order.currency == o.currency && p.order.total == o.total && p.order.placedAt == o.placedAt
       && p.order.status == APPROVED && p.order.closedAt.Some?
       && p.customer.uid == db.clients[o.clientId].uid
       && p.shipping == AddressSection(db.addresses[o.shippingId].uid, o.shippingId, db.addresses[o.shippingId].fields)
       && p.billing == AddressSection(db.addresses[o.billingId].uid, o.billingId, db.addresses[o.billingId].fields)
  }

  /**
   In every reachable state of overlapping transactions each queued message names
   one order, carries that order's columns and pinned addresses, and lists its
   lines one by one.
   */
  lemma QueuedMessageIsRight(s: T.State, k: nat) returns (i: nat, at: seq<nat>)
    requires Reachable(s) && k < |s.db.outbox|
    ensures i < |s.db.orders| && s.db.orders[i].uid == s.db.outbox[k].aggregateId
    ensures HeadRight(s.db, s.db.outbox[k].payload, i) && LinesRight(s.db, s.db.outbox[k].payload, i, at)
  {
    ReachableInv(s);
    assert HasOrder(s.db.orders, s.db.outbox[k].aggregateId);
    i :| 0 <= i < |s.db.orders| && s.db.orders[i].uid == s.db.outbox[k].aggregateId;
    assert OrderOk(s.db, i) && PayloadOk(s.db, s.db.outbox[k].payload, i);
    at := ToldLinesAreRight(s.db, s.db.outbox[k].payload, i);
  }

  // ---- the message as it is queued ----

  predicate NewestOf(payments: seq<PaymentRow>, orderId: nat, j: nat) {
    j < |payments| && payments[j].orderId == orderId && forall k :: j < k < |payments| ==> payments[k].orderId != orderId
  }

  /** The section is the order's newest payment, or there is none. */
  ghost predicate PaymentTold(section: Option<PaymentSection>, payments: seq<PaymentRow>, orderId: nat) {
    if section.None? then forall j :: 0 <= j < |payments| ==> payments[j].orderId != orderId
    else exists j: nat :: NewestOf(payments, orderId, j)
           && section.value.provider == payments[j].provider && section.value.providerTx == payments[j].providerTx
           && section.value.kind == payments[j].kind && section.value.status == payments[j].status
           && section.value.amount == payments[j].amount && section.value.approvedAt == payments[j].approvedAt
  }

  lemma {:induction false} LatestIsTold(payments: seq<PaymentRow>, orderId: nat)
    ensures PaymentTold(PaymentSectionOf(LatestPayment(payments, orderId)), payments, orderId)
  {
    if payments != [] {
      var n := |payments| - 1;
      var section := PaymentSectionOf(LatestPayment(payments, orderId));
      if payments[n].orderId == orderId {
        assert NewestOf(payments, orderId, n);
      } else {
        LatestIsTold(payments[..n], orderId);
        if section.Some? {
          var j: nat :| NewestOf(payments[..n], orderId, j)
            && section.value == PaymentSection(payments[j].provider, payments[j].providerTx, payments[j].kind,
                                               payments[j].status, payments[j].amount, payments[j].approvedAt);
          assert NewestOf(payments, orderId, j);
        } else {
          forall j | 0 <= j < |payments| ensures payments[j].orderId != orderId {
            if j < n { assert payments[..n][j].orderId != orderId; }
          }
        }
      }
    }
  }

  /** The message says of order `i` and all it points to what these tables say. */
  ghost predicate Tells(db: Db, p: OrderPayload, i: nat) {
    && i < |db.orders| && LinksInRange(db, db.orders[i])
    && var o := db.orders[i];
       && p.order == OrderSection(o.uid, o.status, o.currency, o.total, o.placedAt, o.closedAt)
       && p.customer.uid == db.clients[o.clientId].uid && p.customer.fullName == db.clients[o.clientId].fullName
       && p.customer.document == db.clients[o.clientId].document && p.customer.email == db.clients[o.clientId].email
       && AddressTold(p.shipping, db.addresses, o.shippingId) && AddressTold(p.billing, db.addresses, o.billingId)
       && LinesTold(p.items, ItemsOf(db.items, i))
       && PaymentTold(p.payment, db.payments, i)
  }

  lemma BuiltMessageTells(db: Db, i: nat)
    requires i < |db.orders| && LinksInRange(db, db.orders[i])
    ensures Tells(db, BuildOrderPayload(db, i), i)
  {
    SectionsTell(ItemsOf(db.items, i));
    LatestIsTold(db.payments, i);
  }

  /** A payment that approves its order queues a message that says what the tables say once it has committed. */
  lemma ApprovalMessageTells(db: Db, d: PaymentData, now: Time, o: nat)
    requires DbInv(db) && o < |db.orders| && db.orders[o].uid == d.orderUid && d.amount >= 0
    requires d.status == PAY_APPROVED && db.orders[o].status == PENDING
    ensures var r := HandlePayment(db, d, now);
            && r.Done? && |r.db.outbox| == |db.outbox| + 1
            && r.db.outbox[|db.outbox|].payload.order.status == APPROVED
            && r.db.outbox[|db.outbox|].payload.order.closedAt == Some(d.occurredAt)
            && Tells(r.db, r.db.outbox[|db.outbox|].payload, o)
  {
    FoundOrder(db, o);
    var paid := db.(payments := UpsertPayment(db.payments, o, d));
    BuiltMessageTells(paid.(orders := paid.orders[o := Moved(paid.orders[o], APPROVED, d.occurredAt)]), o);
  }

  function ApprovedNow(read: PaymentRow, at: Time): PaymentRow {
    PaymentRow(read.orderId, read.provider, read.providerTx, read.kind, PAY_APPROVED, read.amount,
               if read.approvedAt.Some? then read.approvedAt else Some(at))
  }

  /**
   With overlapping transactions it says what its transaction read: customer,
   addresses and lines from the last committed state it looked at, the order and
   the payment as the transaction itself has them; and, where another payment of
   the order was the newest by then, that one.
   */
  lemma CommitMessageTells(seen: T.Seen, db: Db, d: PaymentData, now: Time, o: nat)
    requires T.Fits(seen, db) && T.PaymentFrom(seen, db, d, now).Done? && FindOrder(seen.first.orders, d.orderUid) == Some(o)
    requires d.status == PAY_APPROVED && seen.first.orders[o].status == PENDING
    ensures var row, view, after := seen.first.orders[o], seen.fourth, T.PaymentFrom(seen, db, d, now).db;
            && |after.outbox| == |db.outbox| + 1
            && var p := after.outbox[|db.outbox|].payload;
               && p.order == OrderSection(row.uid, APPROVED, row.currency, row.total, row.placedAt, Some(d.occurredAt))
               && row.clientId < |view.clients| && row.shippingId < |view.addresses| && row.billingId < |view.addresses|
               && p.customer == CustomerSection(view.clients[row.clientId].uid, view.clients[row.clientId].fullName,
                                                view.clients[row.clientId].document, view.clients[row.clientId].email)
               && AddressTold(p.shipping, view.addresses, row.shippingId) && AddressTold(p.billing, view.addresses, row.billingId)
               && LinesTold(p.items, ItemsOf(view.items, o))
               && match FindPayment(seen.second.payments, d.provider, d.providerTx)
                  case None =>
                    p.payment == Some(PaymentSection(d.provider, d.providerTx, d.kind, PAY_APPROVED, d.amount, Some(d.occurredAt)))
                  case Some(k) =>
                    var read := seen.second.payments[k];
                    PaymentTold(p.payment, seen.third.payments[k := ApprovedNow(read, d.occurredAt)], o)
  {
    T.PaymentCommitShape(seen, db, d, now, o);
    BuiltMessageTells(T.PayloadTables(seen, o, d), o);
  }
}
