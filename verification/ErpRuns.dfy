/** What whole runs of the pipeline guarantee at the ERP. */
module ErpRuns {
  import opened Prelude
  import opened Schema
  import opened Handlers
  import opened OrderTables
  import opened Processing
  import opened DispatchColumns
  import opened ErpMock
  import opened EndToEnd
  import opened ErpSafety
  import OrderRuns
  import Outbox
  import OutboxRuns
  import T = Transactions
  import TransactionRuns

  lemma {:induction false} RunKeeps(cfg: Outbox.Config, s: State, steps: seq<Step>)
    requires Inv(s) && Run(cfg, s, steps)
    ensures Inv(After(cfg, s, steps))
    decreases |steps|
  {
    if steps != [] {
      StepKeeps(cfg, s, steps[0]);
      StepShapes(cfg, s, steps[0]);
      RunKeeps(cfg, Apply(cfg, s, steps[0]), steps[1..]);
    }
  }

  lemma StartInv()
    ensures Inv(START)
  {
    TransactionRuns.StartInv();
  }

  lemma ReachableHolds(cfg: Outbox.Config, s: State)
    requires Reachable(cfg, s)
    ensures Inv(s)
  {
    var steps :| Run(cfg, START, steps) && After(cfg, START, steps) == s;
    StartInv();
    RunKeeps(cfg, START, steps);
  }

  /**
   Whatever is redelivered, lost, late or dead, the ERP registers an order at
   most once: its log repeats no order uid, and both its dictionaries hold one
   entry per registration.
   */
  lemma OneErpOrderPerOrder(cfg: Outbox.Config, s: State)
    requires Reachable(cfg, s)
    ensures Distinct(s.erp.log)
    ensures |s.erp.log| == |s.erp.byKey| == |s.erp.byOrder|
    ensures forall uid :: uid in s.erp.log <==> uid in s.erp.byOrder
  {
    ReachableHolds(cfg, s);
  }

  /** A SENT row means the ERP holds that order, under that row's key and as that row's message describes it. */
  lemma SentMeansHeld(cfg: Outbox.Config, s: State, id: nat)
    requires Reachable(cfg, s) && id < |s.tables.db.outbox| && s.tables.db.outbox[id].status == SENT
    ensures s.tables.db.outbox[id].aggregateId in s.erp.byOrder
    ensures KeyOf(id) in s.erp.byKey && Records(s.erp, s.erp.byKey[KeyOf(id)], s.tables.db.outbox[id])
  {
    ReachableHolds(cfg, s);
    assert Registered(s, id);
  }

  // ---- the ERP holds only what was sold ----

  /** Record and order agree: approved, same total, same number of lines, same city. */
  ghost predicate Sold(s: State, uid: string, i: nat, key: string) {
    && i < |s.tables.db.orders| && key in s.erp.byKey && s.tables.db.orders[i].uid == uid
    && LinksInRange(s.tables.db, s.tables.db.orders[i])
    && var o, r := s.tables.db.orders[i], s.erp.byKey[key];
       && r.orderUid == uid && uid in s.erp.byOrder && r.erpOrderId == s.erp.byOrder[uid]
       && o.status in {APPROVED, INVOICED}
       && r.total == o.total == LineSum(ItemsOf(s.tables.db.items, i))
       && r.items == |ItemsOf(s.tables.db.items, i)|
       && r.city == s.tables.db.addresses[o.shippingId].fields.city
  }

  /** A queued message belongs to an approved order and describes it. */
  lemma QueuedMeansApproved(db: Db, k: nat) returns (i: nat)
    requires DbInv(db) && k < |db.outbox|
    ensures i < |db.orders| && db.orders[i].uid == db.outbox[k].aggregateId
    ensures db.orders[i].status in {APPROVED, INVOICED} && OrderOk(db, i) && PayloadOk(db, db.outbox[k].payload, i)
  {
    assert HasOrder(db.orders, db.outbox[k].aggregateId);
    i :| 0 <= i < |db.orders| && db.orders[i].uid == db.outbox[k].aggregateId;
    assert OrderOk(db, i);
    QueuedOnce(db.outbox, k);
  }

  /** Every order the ERP holds is an approved one, with the total, the lines and the city it has in the tables. */
  lemma ErpHoldsOnlyApprovedOrders(cfg: Outbox.Config, s: State, uid: string) returns (i: nat, key: string)
    requires Reachable(cfg, s) && uid in s.erp.byOrder
    ensures Sold(s, uid, i, key)
  {
    ReachableHolds(cfg, s);
    var id := KnownBy(s, uid);
    key := KeyOf(id);
    assert Registered(s, id);
    i := QueuedMeansApproved(s.tables.db, id);
  }

  // ---- one id per order, for good ----

  lemma ArriveKeepsIds(cfg: Outbox.Config, s: State, step: Step, uid: string)
    requires Inv(s) && Enabled(cfg, s, step) && step.Arrive? && uid in s.erp.byOrder
    ensures var erp := Apply(cfg, s, step).erp; uid in erp.byOrder && erp.byOrder[uid] == s.erp.byOrder[uid]
  {
    if KeyOf(step.claim.0) !in s.erp.byKey {
      UnknownKeyIsNewOrder(s, step.claim.0);
    }
  }

  lemma {:induction false} RunKeepsIds(cfg: Outbox.Config, s: State, steps: seq<Step>, uid: string)
    requires Inv(s) && Run(cfg, s, steps) && uid in s.erp.byOrder
    ensures var erp := After(cfg, s, steps).erp; uid in erp.byOrder && erp.byOrder[uid] == s.erp.byOrder[uid]
    decreases |steps|
  {
    if steps != [] {
      var s' := Apply(cfg, s, steps[0]);
      if steps[0].Arrive? { ArriveKeepsIds(cfg, s, steps[0], uid); }
      StepKeeps(cfg, s, steps[0]);
      StepShapes(cfg, s, steps[0]);
      RunKeepsIds(cfg, s', steps[1..], uid);
    }
  }

  /** Once an order has an ERP id it keeps it. */
  lemma ErpIdIsFinal(cfg: Outbox.Config, s: State, later: State, uid: string)
    requires Reachable(cfg, s) && LeadsTo(cfg, s, later) && uid in s.erp.byOrder
    ensures uid in later.erp.byOrder && later.erp.byOrder[uid] == s.erp.byOrder[uid]
  {
    ReachableHolds(cfg, s);
    var steps :| Run(cfg, s, steps) && After(cfg, s, steps) == later;
    RunKeepsIds(cfg, s, steps, uid);
  }

  /** All acknowledgements for an order, to whichever claim of whichever row, name the same ERP order. */
  lemma AcknowledgementsAgree(cfg: Outbox.Config, s: State, c: Claim)
    requires Reachable(cfg, s) && c in s.answers && s.answers[c].Ack?
    ensures c.0 < |s.tables.db.outbox|
    ensures var uid := s.tables.db.outbox[c.0].aggregateId;
            uid in s.erp.byOrder && s.answers[c].erpOrderId == s.erp.byOrder[uid]
  {
    ReachableHolds(cfg, s);
    assert Registered(s, c.0);
  }

  // ---- transactions that miss nothing ----

  /** The tables are the fold of the handlers over the ledger, up to what dispatching wrote. */
  ghost predicate ReplaysLedger(db: Db, ledger: seq<OrderRuns.Event>) {
    SameTables(OrderRuns.AfterEvents(EMPTY_DB, ledger), db) && AllCommit(EMPTY_DB, ledger)
  }

  /** No committing transaction of the run missed another one's writes. */
  ghost predicate SerialRun(cfg: Outbox.Config, s: State, steps: seq<Step>)
    requires |s.tables.db.outbox| == |s.books| && Run(cfg, s, steps)
    decreases |steps|
  {
    steps == [] || (
      && (steps[0].Transact? ==> TransactionRuns.Serial(s.tables, steps[0].step))
      && (StepShapes(cfg, s, steps[0]);
          SerialRun(cfg, Apply(cfg, s, steps[0]), steps[1..])))
  }

  lemma EventReplays(db: Db, db': Db, ledger: seq<OrderRuns.Event>, e: OrderRuns.Event)
    requires ReplaysLedger(db, ledger) && Handle(db, e.envelope, e.at) == Done(db')
    ensures ReplaysLedger(db', ledger + [e])
  {
    var replay := OrderRuns.AfterEvents(EMPTY_DB, ledger);
    HandleIgnoresDispatch(replay, db, e.envelope, e.at);
    ReplayAppend(EMPTY_DB, ledger, e);
  }

  lemma CommitReplays(s: T.State, step: T.Step)
    requires T.Inv(s) && T.Enabled(s, step) && TransactionRuns.Serial(s, step) && ReplaysLedger(s.db, s.ledger)
    ensures ReplaysLedger(T.Apply(s, step).db, T.Apply(s, step).ledger)
  {
    if step.Commit? {
      var e := OrderRuns.Event(s.open[step.w].envelope, step.at);
      T.SerialIsHandle(T.SeenBy(s, step.picks), s.db, e.envelope, e.at);
      EventReplays(s.db, T.Apply(s, step).db, s.ledger, e);
    }
  }

  lemma MovedRowsReplay(db: Db, rows: seq<OutboxRow>, ledger: seq<OrderRuns.Event>, sent: set<nat>)
    requires ReplaysLedger(db, ledger) && |rows| == |db.outbox| && RowsMove(db.outbox, rows, sent)
    ensures ReplaysLedger(db.(outbox := rows), ledger)
  {
    var replay := OrderRuns.AfterEvents(EMPTY_DB, ledger);
    forall k | 0 <= k < |rows| ensures SameMessage(replay.outbox[k], rows[k]) {
      assert SameMessage(replay.outbox[k], db.outbox[k]) && SameMessage(db.outbox[k], rows[k]);
    }
  }

  lemma StepReplays(cfg: Outbox.Config, s: State, step: Step)
    requires Inv(s) && Enabled(cfg, s, step) && ReplaysLedger(s.tables.db, s.tables.ledger)
    requires step.Transact? ==> TransactionRuns.Serial(s.tables, step.step)
    ensures var s' := Apply(cfg, s, step); ReplaysLedger(s'.tables.db, s'.tables.ledger)
  {
    match step
    case Transact(t) => CommitReplays(s.tables, t);
    case Table(d) =>
      TableMoves(cfg, View(s), d);
      MovedRowsReplay(s.tables.db, Outbox.Apply(cfg, View(s), d).rows, s.tables.ledger, {});
    case Settle(_, _, _) =>
      var d := SettleStep(step);
      SettleMoves(cfg, View(s), d);
      MovedRowsReplay(s.tables.db, Outbox.Apply(cfg, View(s), d).rows, s.tables.ledger, if d.verdict.Delivered? then {d.id} else {});
    case _ =>
  }

  lemma {:induction false} SerialRunReplays(cfg: Outbox.Config, s: State, steps: seq<Step>)
    requires Inv(s) && Run(cfg, s, steps) && SerialRun(cfg, s, steps) && ReplaysLedger(s.tables.db, s.tables.ledger)
    ensures var s' := After(cfg, s, steps); ReplaysLedger(s'.tables.db, s'.tables.ledger)
    decreases |steps|
  {
    if steps != [] {
      StepReplays(cfg, s, steps[0]);
      StepKeeps(cfg, s, steps[0]);
      StepShapes(cfg, s, steps[0]);
      SerialRunReplays(cfg, Apply(cfg, s, steps[0]), steps[1..]);
    }
  }

  /**
   In a run whose committing transactions missed nothing, dispatch included, the
   tables replay the ledger up to the outbox's own columns.
   */
  lemma TablesReplayLedger(cfg: Outbox.Config, steps: seq<Step>)
    requires Run(cfg, START, steps) && SerialRun(cfg, START, steps)
    ensures var s := After(cfg, START, steps); ReplaysLedger(s.tables.db, s.tables.ledger)
  {
    StartInv();
    SerialRunReplays(cfg, START, steps);
  }

  // ---- why approvals of one order must be serialised ----

  /** Two requests under two unknown keys for one order are two registrations. */
  lemma TwoKeysRegisterTwice(erp: Erp, a: Request, b: Request)
    requires a.failure.None? && b.failure.None? && a.key != b.key && a.key !in erp.byKey && b.key !in erp.byKey
    requires a.payload.order.uid == b.payload.order.uid
    ensures ReceiveAll(erp, [a, b]).log == erp.log + [a.payload.order.uid, a.payload.order.uid]
  {
    var erp1 := Receive(erp, a).0;
    assert [a, b][1..] == [b] && [b][1..] == [];
    assert ReceiveAll(erp, [a, b]) == ReceiveAll(erp1, [b]) == Receive(erp1, b).0;
  }

  /** The request that posts row `id`. */
  function PostOf(db: Db, id: nat, drawnId: string, at: Time): Request
    requires id < |db.outbox|
  {
    Request(KeyOf(id), db.outbox[id].payload, drawnId, at, None)
  }

  /** An overtaken approval queues a second row for its order. */
  lemma StaleApprovalQueuesSecond(seen: T.Seen, db: Db, d: PaymentData, now: Time, o: nat) returns (j: nat)
    requires DbInv(db) && T.Fits(seen, db) && T.PaymentFrom(seen, db, d, now).Done? && d.status == PAY_APPROVED
    requires FindOrder(seen.first.orders, d.orderUid) == Some(o) && SameProtected(seen.first.orders[o], db.orders[o])
    requires seen.first.orders[o].status == PENDING != db.orders[o].status
    ensures var outbox := T.PaymentFrom(seen, db, d, now).db.outbox;
            && j < |db.outbox| < |outbox|
            && outbox[j].payload.order.uid == d.orderUid && outbox[|db.outbox|].payload.order.uid == d.orderUid
  {
    T.PaymentCommitShape(seen, db, d, now, o);
    assert OrderOk(db, o);
    j := QueuedRow(db.outbox, db.orders[o].uid);
    MessageNamesOrder(db, j);
  }

  /** And so the ERP registers the order twice. */
  lemma StaleApprovalRegistersTwice(seen: T.Seen, db: Db, e: Envelope, now: Time, erp: Erp) returns (j: nat, k: nat)
    requires DbInv(db) && T.Precedes(seen, db) && T.HandleFrom(seen, db, e, now).Done? && T.Overtaken(seen, db, e)
    requires forall id: nat :: KeyOf(id) !in erp.byKey
    ensures var db' := T.HandleFrom(seen, db, e, now).db;
            && j < k < |db'.outbox|
            && ReceiveAll(erp, [PostOf(db', j, "A", now), PostOf(db', k, "B", now)]).log
               == erp.log + [e.body.payment.orderUid, e.body.payment.orderUid]
  {
    var o := FindOrder(seen.first.orders, e.body.payment.orderUid).value;
    assert SameProtected(seen.first.orders[o], db.orders[o]);
    j := StaleApprovalQueuesSecond(seen, db, e.body.payment, now, o);
    k := |db.outbox|;
    var db' := T.HandleFrom(seen, db, e, now).db;
    if KeyOf(j) == KeyOf(k) { KeysDiffer(j, k); }
    TwoKeysRegisterTwice(erp, PostOf(db', j, "A", now), PostOf(db', k, "B", now));
  }

  lemma {:induction false} QueuedRow(outbox: seq<OutboxRow>, uid: string) returns (j: nat)
    requires QueuedFor(outbox, uid) > 0
    ensures j < |outbox| && outbox[j].aggregateId == uid
  {
    if outbox[|outbox| - 1].aggregateId == uid {
      j := |outbox| - 1;
    } else {
      j := QueuedRow(outbox[..|outbox| - 1], uid);
    }
  }

  // ---- the dispatch protocol inside the pipeline ----

  /** The dispatch steps a step of the pipeline amounts to. */
  ghost function ViewSteps(cfg: Outbox.Config, s: State, step: Step): seq<Outbox.Step>
    requires |s.tables.db.outbox| == |s.books| && Enabled(cfg, s, step)
  {
    match step
    case Transact(_) =>
      var outbox := Apply(cfg, s, step).tables.db.outbox;
      if |outbox| > |s.books| then [Outbox.Enqueue(outbox[|outbox| - 1].aggregateId, outbox[|outbox| - 1].payload)] else []
    case Table(d) => [d]
    case Settle(_, _, _) => [SettleStep(step)]
    case _ => []
  }

  lemma OneStep(cfg: Outbox.Config, v: Outbox.State, d: Outbox.Step)
    requires |v.rows| == |v.books| && Outbox.Enabled(cfg, v, d)
    ensures Outbox.Run(cfg, v, [d]) && Outbox.After(cfg, v, [d]) == Outbox.Apply(cfg, v, d)
  {
    OutboxRuns.RunExtend(cfg, v, [], d);
    assert [] + [d] == [d];
  }

  lemma StepProjects(cfg: Outbox.Config, s: State, step: Step)
    requires |s.tables.db.outbox| == |s.books| && Enabled(cfg, s, step)
    ensures Outbox.Run(cfg, View(s), ViewSteps(cfg, s, step))
    ensures Outbox.After(cfg, View(s), ViewSteps(cfg, s, step)) == View(Apply(cfg, s, step))
  {
    match step
    case Transact(t) =>
      TransactionQueues(s.tables, t, s.now);
      if ViewSteps(cfg, s, step) != [] {
        OneStep(cfg, View(s), ViewSteps(cfg, s, step)[0]);
      }
    case Table(d) => OneStep(cfg, View(s), d);
    case Settle(_, _, _) => OneStep(cfg, View(s), SettleStep(step));
    case _ =>
  }

  /** Every run of the pipeline is, at the outbox, a run of the dispatch protocol. */
  lemma {:induction false} RunProjects(cfg: Outbox.Config, s: State, steps: seq<Step>) returns (ds: seq<Outbox.Step>)
    requires |s.tables.db.outbox| == |s.books| && Run(cfg, s, steps)
    ensures Outbox.Run(cfg, View(s), ds) && Outbox.After(cfg, View(s), ds) == View(After(cfg, s, steps))
    decreases |steps|
  {
    ds := [];
    if steps != [] {
      StepProjects(cfg, s, steps[0]);
      StepShapes(cfg, s, steps[0]);
      var first := ViewSteps(cfg, s, steps[0]);
      var rest := RunProjects(cfg, Apply(cfg, s, steps[0]), steps[1..]);
      OutboxRuns.RunAppend(cfg, View(s), first, rest);
      ds := first + rest;
    }
  }

  // ---- how often the ERP is called ----

  ghost predicate PostsOk(cfg: Outbox.Config, s: State) {
    && Outbox.Inv(cfg, View(s))
    && forall c :: c in s.sent ==> c.0 < |s.tables.db.outbox| && 1 <= c.1 <= s.tables.db.outbox[c.0].attempts
  }

  lemma {:induction false} RunKeepsPosts(cfg: Outbox.Config, s: State, steps: seq<Step>)
    requires PostsOk(cfg, s) && Run(cfg, s, steps)
    ensures PostsOk(cfg, After(cfg, s, steps))
    decreases |steps|
  {
    if steps != [] {
      StepKeepsPosts(cfg, s, steps[0]);
      StepShapes(cfg, s, steps[0]);
      RunKeepsPosts(cfg, Apply(cfg, s, steps[0]), steps[1..]);
    }
  }

  lemma StepKeepsPosts(cfg: Outbox.Config, s: State, step: Step)
    requires PostsOk(cfg, s) && Enabled(cfg, s, step)
    ensures PostsOk(cfg, Apply(cfg, s, step))
  {
    var s' := Apply(cfg, s, step);
    var ds := ViewSteps(cfg, s, step);
    StepProjects(cfg, s, step);
    Outbox.RunKeepsInv(cfg, View(s), ds);
    forall c | c in s'.sent
      ensures c.0 < |s'.tables.db.outbox| && 1 <= c.1 <= s'.tables.db.outbox[c.0].attempts
    {
      if c !in s.sent {
        assert Outbox.RowInv(cfg, s.tables.db.outbox[c.0], s.books[c.0]);
      }
      Outbox.RowsPersist(cfg, View(s), ds, c.0);
    }
  }

  ghost function PostsOf(s: State, id: nat): set<nat> {
    set c | c in s.sent && c.0 == id :: c.1
  }

  ghost function AnswersOf(s: State, id: nat): set<nat> {
    set c | c in s.answers.Keys && c.0 == id :: c.1
  }

  /** The requests made for row `id` in a run, and those the ERP received. */
  function Posts(steps: seq<Step>, id: nat): nat {
    if steps == [] then 0 else (if steps[0].Post? && steps[0].claim.0 == id then 1 else 0) + Posts(steps[1..], id)
  }

  function Receipts(steps: seq<Step>, id: nat): nat {
    if steps == [] then 0 else (if steps[0].Arrive? && steps[0].claim.0 == id then 1 else 0) + Receipts(steps[1..], id)
  }

  lemma MailGrows(cfg: Outbox.Config, s: State, step: Step)
    requires PostsOk(cfg, s) && |s.tables.db.outbox| == |s.books| && Enabled(cfg, s, step)
    ensures var s' := Apply(cfg, s, step);
            && s'.sent == s.sent + (if step.Post? then {step.claim} else {})
            && s'.answers.Keys == s.answers.Keys + (if step.Arrive? then {step.claim} else {})
  {
  }

  lemma OneMore(a: set<Claim>, b: set<Claim>, c: Claim, id: nat)
    requires c !in a && b == a + {c}
    ensures |(set x | x in b && x.0 == id :: x.1)| == |(set x | x in a && x.0 == id :: x.1)| + if c.0 == id then 1 else 0
  {
    var before, after := (set x | x in a && x.0 == id :: x.1), (set x | x in b && x.0 == id :: x.1);
    if c.0 == id {
      assert c.1 !in before by { assert c == (id, c.1); }
      assert after == before + {c.1};
    } else {
      assert after == before;
    }
  }

  lemma StepCounts(cfg: Outbox.Config, s: State, step: Step, id: nat)
    requires PostsOk(cfg, s) && |s.tables.db.outbox| == |s.books| && Enabled(cfg, s, step) && s.answers.Keys <= s.sent
    ensures var s' := Apply(cfg, s, step);
            && s'.answers.Keys <= s'.sent
            && |PostsOf(s', id)| == |PostsOf(s, id)| + (if step.Post? && step.claim.0 == id then 1 else 0)
            && |AnswersOf(s', id)| == |AnswersOf(s, id)| + (if step.Arrive? && step.claim.0 == id then 1 else 0)
  {
    MailGrows(cfg, s, step);
    var s' := Apply(cfg, s, step);
    if step.Post? { OneMore(s.sent, s'.sent, step.claim, id); }
    if step.Arrive? { OneMore(s.answers.Keys, s'.answers.Keys, step.claim, id); }
  }

  lemma {:induction false} RunCounts(cfg: Outbox.Config, s: State, steps: seq<Step>, id: nat)
    requires PostsOk(cfg, s) && Run(cfg, s, steps) && s.answers.Keys <= s.sent
    ensures var s' := After(cfg, s, steps);
            && s'.answers.Keys <= s'.sent
            && |PostsOf(s', id)| == |PostsOf(s, id)| + Posts(steps, id)
            && |AnswersOf(s', id)| == |AnswersOf(s, id)| + Receipts(steps, id)
    decreases |steps|
  {
    if steps != [] {
      StepKeepsPosts(cfg, s, steps[0]);
      StepShapes(cfg, s, steps[0]);
      StepCounts(cfg, s, steps[0], id);
      RunCounts(cfg, Apply(cfg, s, steps[0]), steps[1..], id);
    }
  }

  /**
   In every run the ERP receives no more requests for a row than were made, and
   those are at most the row's attempts, so at most the allowed attempts plus one
   request per release of the row.
   */
  lemma PostsBounded(cfg: Outbox.Config, steps: seq<Step>, id: nat)
    requires Run(cfg, START, steps) && id < |After(cfg, START, steps).tables.db.outbox|
    ensures var s := After(cfg, START, steps);
            id < |s.books|
            && Receipts(steps, id) <= Posts(steps, id) <= s.tables.db.outbox[id].attempts <= Outbox.Allowance(cfg) + s.books[id].releases
  {
    var s := After(cfg, START, steps);
    RunKeepsPosts(cfg, START, steps);
    RunCounts(cfg, START, steps, id);
    assert PostsOf(START, id) == {} && AnswersOf(START, id) == {};
    BoundedSetSize(PostsOf(s, id), s.tables.db.outbox[id].attempts);
    assert AnswersOf(s, id) <= PostsOf(s, id);
    Outbox.SubsetSize(AnswersOf(s, id), PostsOf(s, id));
    assert Outbox.RowInv(cfg, View(s).rows[id], View(s).books[id]);
  }
}
