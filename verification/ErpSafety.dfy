/**
 What every run of the whole pipeline keeps: at most one ERP order per order,
 and no row SENT without one.
 */
module ErpSafety {
  import opened Prelude
  import opened Schema
  import opened Handlers
  import opened OrderTables
  import opened DispatchColumns
  import opened ErpMock
  import opened EndToEnd
  import Outbox
  import Dispatch
  import T = Transactions

  // ---- the invariant ----

  /** The ERP's record under a row's key tells of that row's message. */
  ghost predicate Records(erp: Erp, r: Record, row: OutboxRow) {
    && r.orderUid == row.aggregateId && r.orderUid == row.payload.order.uid
    && r.total == row.payload.order.total && r.items == |row.payload.items|
    && r.city == row.payload.shipping.fields.city
    && r.orderUid in erp.byOrder && erp.byOrder[r.orderUid] == r.erpOrderId
  }

  ghost predicate Registered(s: State, id: nat)
    requires id < |s.tables.db.outbox|
  {
    KeyOf(id) in s.erp.byKey && Records(s.erp, s.erp.byKey[KeyOf(id)], s.tables.db.outbox[id])
  }

  ghost predicate Known(s: State, uid: string) {
    exists id :: 0 <= id < |s.tables.db.outbox| && KeyOf(id) in s.erp.byKey && s.tables.db.outbox[id].aggregateId == uid
  }

  /** Both dictionaries and the log tell of the same registrations, one per order. */
  ghost predicate CountsOk(erp: Erp) {
    && |erp.log| == |erp.byKey| == |erp.byOrder|
    && Distinct(erp.log)
    && forall uid :: uid in erp.log <==> uid in erp.byOrder
  }

  ghost predicate ErpOk(s: State) {
    && CountsOk(s.erp)
    && (forall id: nat :: KeyOf(id) in s.erp.byKey ==> id < |s.tables.db.outbox| && Registered(s, id))
    && (forall uid :: uid in s.erp.byOrder ==> Known(s, uid))
  }

  ghost predicate MailOk(s: State) {
    && (forall c :: c in s.sent ==> c.0 < |s.tables.db.outbox|)
    && (forall c :: c in s.answers ==> c in s.sent)
    && (forall c :: c in s.answers && s.answers[c].Ack? ==>
          KeyOf(c.0) in s.erp.byKey && s.erp.byKey[KeyOf(c.0)].erpOrderId == s.answers[c].erpOrderId)
    && (forall c :: c in s.answers && s.answers[c].Unavailable? ==> s.answers[c].code in SERVER_ERROR_CODES)
  }

  ghost predicate SentOk(s: State) {
    forall id: nat :: id < |s.tables.db.outbox| && s.tables.db.outbox[id].status == SENT ==> KeyOf(id) in s.erp.byKey
  }

  ghost predicate Inv(s: State) {
    && |s.books| == |s.tables.db.outbox|
    && T.Inv(s.tables)
    && ErpOk(s) && MailOk(s) && SentOk(s)
  }

  // ---- each step keeps it ----

  /** Rows keep their message, and only a delivered settlement makes one SENT. */
  ghost predicate RowsMove(a: seq<OutboxRow>, b: seq<OutboxRow>, sent: set<nat>) {
    && |a| <= |b|
    && (forall k :: 0 <= k < |a| ==> SameMessage(a[k], b[k]))
    && (forall k: nat :: k < |b| && b[k].status == SENT ==> k in sent || (k < |a| && a[k].status == SENT))
  }

  lemma MovedRowsKeep(s: State, s': State, sent: set<nat>)
    requires ErpOk(s) && MailOk(s) && SentOk(s)
    requires s'.erp == s.erp && s'.answers == s.answers && s'.sent == s.sent
    requires RowsMove(s.tables.db.outbox, s'.tables.db.outbox, sent)
    requires forall k :: k in sent ==> KeyOf(k) in s.erp.byKey
    ensures ErpOk(s') && MailOk(s') && SentOk(s')
  {
    forall id: nat | KeyOf(id) in s'.erp.byKey ensures id < |s'.tables.db.outbox| && Registered(s', id) {
      assert Registered(s, id);
      assert SameMessage(s.tables.db.outbox[id], s'.tables.db.outbox[id]);
    }
    forall uid | uid in s'.erp.byOrder ensures Known(s', uid) {
      var id :| 0 <= id < |s.tables.db.outbox| && KeyOf(id) in s.erp.byKey && s.tables.db.outbox[id].aggregateId == uid;
      assert SameMessage(s.tables.db.outbox[id], s'.tables.db.outbox[id]);
    }
  }

  lemma QueuedRowsMove(a: Db, b: Db, now: Time)
    requires Grows(a, b) && Queues(a, b, now)
    ensures RowsMove(a.outbox, b.outbox, {})
  {
  }

  lemma TransactKeeps(cfg: Outbox.Config, s: State, step: Step)
    requires Inv(s) && Enabled(cfg, s, step) && step.Transact?
    ensures Inv(Apply(cfg, s, step))
  {
    var s' := Apply(cfg, s, step);
    T.StepKeepsInv(s.tables, step.step);
    TransactionQueues(s.tables, step.step, s.now);
    QueuedRowsMove(s.tables.db, s'.tables.db, s.now);
    MovedRowsKeep(s, s', {});
  }

  /** Claims, releases, crashes and ticks leave messages alone and settle nothing. */
  lemma TableMoves(cfg: Outbox.Config, v: Outbox.State, d: Outbox.Step)
    requires |v.rows| == |v.books| && Outbox.Enabled(cfg, v, d)
    requires d.Tick? || d.Claim? || d.ReleaseStale? || d.Crash?
    ensures var v' := Outbox.Apply(cfg, v, d); |v'.rows| == |v.rows| && RowsMove(v.rows, v'.rows, {})
  {
  }

  lemma SettleMoves(cfg: Outbox.Config, v: Outbox.State, d: Outbox.Step)
    requires |v.rows| == |v.books| && Outbox.Enabled(cfg, v, d) && d.Settle?
    ensures var v' := Outbox.Apply(cfg, v, d);
            |v'.rows| == |v.rows| && RowsMove(v.rows, v'.rows, if d.verdict.Delivered? then {d.id} else {})
  {
  }

  lemma HistoryIgnoresDispatch(past: seq<Db>, db: Db, db': Db)
    requires T.HistoryOk(past, db) && SameTables(db, db')
    ensures T.HistoryOk(past, db')
  {
    forall i | 0 <= i < |past| ensures Grows(past[i], db') { GrowsTransitive(past[i], db, db'); }
    var last := past[|past| - 1];
    assert forall k :: 0 <= k < |db.outbox| ==> SameMessage(last.outbox[k], db.outbox[k]) && SameMessage(db.outbox[k], db'.outbox[k]);
  }

  /** What dispatching writes disturbs neither the tables nor the transactions that are open. */
  lemma ViewKeepsTables(s: State, v: Outbox.State, sent: set<nat>)
    requires T.Inv(s.tables) && |v.rows| == |s.tables.db.outbox| && RowsMove(s.tables.db.outbox, v.rows, sent)
    ensures T.Inv(WithView(s, v).tables)
  {
    var db' := WithView(s, v).tables.db;
    DispatchKeepsTables(s.tables.db, db');
    HistoryIgnoresDispatch(s.tables.past, s.tables.db, db');
  }

  lemma TableKeeps(cfg: Outbox.Config, s: State, step: Step)
    requires Inv(s) && Enabled(cfg, s, step) && step.Table?
    ensures Inv(Apply(cfg, s, step))
  {
    TableMoves(cfg, View(s), step.dispatch);
    ViewKeepsTables(s, Outbox.Apply(cfg, View(s), step.dispatch), {});
    MovedRowsKeep(s, Apply(cfg, s, step), {});
  }

  /** Only an answer that acknowledged the key counts as delivered. */
  lemma DeliveredMeansAcknowledged(cfg: Outbox.Config, s: State, step: Step)
    requires |s.books| == |s.tables.db.outbox| && MailOk(s) && Enabled(cfg, s, step) && step.Settle?
    ensures SettleStep(step).verdict.Delivered? ==> KeyOf(step.claim.0) in s.erp.byKey
  {
  }

  /** A worker marks a row SENT only after hearing the ERP acknowledge that row's key. */
  lemma SettleKeeps(cfg: Outbox.Config, s: State, step: Step)
    requires Inv(s) && Enabled(cfg, s, step) && step.Settle?
    ensures Inv(Apply(cfg, s, step))
  {
    var d := SettleStep(step);
    var sent: set<nat> := if d.verdict.Delivered? then {d.id} else {};
    SettleMoves(cfg, View(s), d);
    DeliveredMeansAcknowledged(cfg, s, step);
    ViewKeepsTables(s, Outbox.Apply(cfg, View(s), d), sent);
    MovedRowsKeep(s, Apply(cfg, s, step), sent);
  }

  lemma QueuedAtMostOnce(db: Db, k: nat)
    requires DbInv(db) && k < |db.outbox|
    ensures QueuedFor(db.outbox, db.outbox[k].aggregateId) <= 1
  {
    assert HasOrder(db.orders, db.outbox[k].aggregateId);
    var i :| 0 <= i < |db.orders| && db.orders[i].uid == db.outbox[k].aggregateId;
    assert OrderOk(db, i);
  }

  lemma OneRowPerOrder(db: Db, j: nat, k: nat)
    requires DbInv(db) && j < |db.outbox| && k < |db.outbox| && db.outbox[j].aggregateId == db.outbox[k].aggregateId
    ensures j == k
  {
    QueuedAtMostOnce(db, k);
    if j < k {
      QueuedTwice(db.outbox, j, k);
    } else if k < j {
      QueuedTwice(db.outbox, k, j);
    }
  }

  lemma MessageNamesOrder(db: Db, k: nat)
    requires DbInv(db) && k < |db.outbox|
    ensures db.outbox[k].payload.order.uid == db.outbox[k].aggregateId
  {
    assert HasOrder(db.orders, db.outbox[k].aggregateId);
    var i :| 0 <= i < |db.orders| && db.orders[i].uid == db.outbox[k].aggregateId;
    assert PayloadOk(db, db.outbox[k].payload, i);
  }

  /** The order of a row whose key the ERP has not acknowledged is one the ERP does not hold. */
  lemma UnknownKeyIsNewOrder(s: State, id: nat)
    requires Inv(s) && id < |s.tables.db.outbox| && KeyOf(id) !in s.erp.byKey
    ensures s.tables.db.outbox[id].payload.order.uid == s.tables.db.outbox[id].aggregateId
    ensures s.tables.db.outbox[id].aggregateId !in s.erp.byOrder
  {
    var uid := s.tables.db.outbox[id].aggregateId;
    MessageNamesOrder(s.tables.db, id);
    if uid in s.erp.byOrder {
      var other := KnownBy(s, uid);
      OneRowPerOrder(s.tables.db, id, other);
      assert false;
    }
  }

  lemma KnownBy(s: State, uid: string) returns (id: nat)
    requires Known(s, uid)
    ensures id < |s.tables.db.outbox| && KeyOf(id) in s.erp.byKey && s.tables.db.outbox[id].aggregateId == uid
  {
    id :| 0 <= id < |s.tables.db.outbox| && KeyOf(id) in s.erp.byKey && s.tables.db.outbox[id].aggregateId == uid;
  }

  /** The ERP registers the message of row `id`, whose key and order it did not know. */
  ghost predicate Registers(s: State, s': State, id: nat, r: Record)
    requires id < |s.tables.db.outbox|
  {
    && s'.tables == s.tables
    && KeyOf(id) !in s.erp.byKey && r.orderUid !in s.erp.byOrder
    && s'.erp == Erp(s.erp.byKey[KeyOf(id) := r], s.erp.byOrder[r.orderUid := r.erpOrderId], s.erp.log + [r.orderUid])
    && Records(s'.erp, r, s.tables.db.outbox[id])
  }

  lemma RegisteredStill(s: State, s': State, id: nat, r: Record, other: nat)
    requires ErpOk(s) && id < |s.tables.db.outbox| && Registers(s, s', id, r)
    requires KeyOf(other) in s'.erp.byKey
    ensures other < |s.tables.db.outbox| && Registered(s', other)
  {
    if other != id {
      if KeyOf(other) == KeyOf(id) { KeysDiffer(other, id); }
      assert Registered(s, other);
    }
  }

  lemma KnownStill(s: State, s': State, id: nat, r: Record, uid: string)
    requires ErpOk(s) && id < |s.tables.db.outbox| && Registers(s, s', id, r)
    requires uid in s'.erp.byOrder
    ensures Known(s', uid)
  {
    if uid in s.erp.byOrder {
      var other :| 0 <= other < |s.tables.db.outbox| && KeyOf(other) in s.erp.byKey && s.tables.db.outbox[other].aggregateId == uid;
      assert KeyOf(other) in s'.erp.byKey;
    } else {
      assert KeyOf(id) in s'.erp.byKey;
    }
  }

  lemma RegisterKeepsCounts(erp: Erp, key: string, r: Record)
    requires CountsOk(erp) && key !in erp.byKey && r.orderUid !in erp.byOrder
    ensures CountsOk(Erp(erp.byKey[key := r], erp.byOrder[r.orderUid := r.erpOrderId], erp.log + [r.orderUid]))
  {
    var log := erp.log + [r.orderUid];
    assert |erp.byKey[key := r]| == |erp.byKey| + 1;
    assert |erp.byOrder[r.orderUid := r.erpOrderId]| == |erp.byOrder| + 1;
    assert r.orderUid == log[|erp.log|] && forall uid :: uid in log <==> uid in erp.log || uid == r.orderUid;
  }

  lemma RegisterKeepsErp(s: State, s': State, id: nat, r: Record)
    requires ErpOk(s) && id < |s.tables.db.outbox| && Registers(s, s', id, r)
    ensures ErpOk(s')
  {
    forall other: nat | KeyOf(other) in s'.erp.byKey ensures other < |s'.tables.db.outbox| && Registered(s', other) {
      RegisteredStill(s, s', id, r, other);
    }
    forall uid | uid in s'.erp.byOrder ensures Known(s', uid) { KnownStill(s, s', id, r, uid); }
    RegisterKeepsCounts(s.erp, KeyOf(id), r);
  }

  lemma SameErpKeeps(s: State, s': State)
    requires ErpOk(s) && s'.tables == s.tables && s'.erp == s.erp
    ensures ErpOk(s')
  {
    assert forall id: nat :: KeyOf(id) in s.erp.byKey ==> Registered(s, id) && Registered(s', id);
    assert forall uid :: Known(s, uid) ==> Known(s', uid);
  }

  lemma ArriveKeepsErp(cfg: Outbox.Config, s: State, step: Step)
    requires Inv(s) && Enabled(cfg, s, step) && step.Arrive?
    ensures ErpOk(Apply(cfg, s, step))
  {
    var s' := Apply(cfg, s, step);
    var id := step.claim.0;
    if KeyOf(id) !in s.erp.byKey && step.failure.None? {
      UnknownKeyIsNewOrder(s, id);
      RegisterKeepsErp(s, s', id, RecordOf(RequestOf(s, step)));
    } else {
      SameErpKeeps(s, s');
    }
  }

  lemma ArriveKeeps(cfg: Outbox.Config, s: State, step: Step)
    requires Inv(s) && Enabled(cfg, s, step) && step.Arrive?
    ensures Inv(Apply(cfg, s, step))
  {
    ArriveKeepsErp(cfg, s, step);
    ArriveKeepsMail(cfg, s, step);
  }

  lemma ArriveKeepsMail(cfg: Outbox.Config, s: State, step: Step)
    requires |s.books| == |s.tables.db.outbox| && MailOk(s) && SentOk(s) && Enabled(cfg, s, step) && step.Arrive?
    ensures MailOk(Apply(cfg, s, step)) && SentOk(Apply(cfg, s, step))
  {
  }

  lemma StepKeeps(cfg: Outbox.Config, s: State, step: Step)
    requires Inv(s) && Enabled(cfg, s, step)
    ensures Inv(Apply(cfg, s, step))
  {
    match step
    case Transact(_) => TransactKeeps(cfg, s, step);
    case Table(_) => TableKeeps(cfg, s, step);
    case Arrive(_, _, _) => ArriveKeeps(cfg, s, step);
    case Settle(_, _, _) => SettleKeeps(cfg, s, step);
    case Post(_) => SameErpKeeps(s, Apply(cfg, s, step));
  }
}
