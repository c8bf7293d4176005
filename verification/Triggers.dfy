/**
 The two immutability triggers, as predicates over the rows a statement deletes
 and inserts, and what they guarantee over runs of arbitrary statements.
 */
module Triggers {
  import opened Prelude
  import opened Schema
  import opened AddressHistory
  import opened Handlers
  import opened OrderTables
  import T = Transactions

  datatype Tables = Tables(orders: map<nat, OrderRow>, items: map<nat, ItemRow>)

  /** `touched` are the keys in the statement's `deleted` and `inserted` pseudo-tables. */
  datatype Statement =
    | InsertOrders(inserted: map<nat, OrderRow>)
    | ChangeOrders(touched: set<nat>, orders: map<nat, OrderRow>)
    | ChangeItems(touched: set<nat>, items: map<nat, ItemRow>)

  /** Every column the orders trigger compares. */
  predicate SameGuarded(a: OrderRow, b: OrderRow) {
    && a.total == b.total && a.clientId == b.clientId
    && a.shippingId == b.shippingId && a.billingId == b.billingId
    && a.uid == b.uid && a.currency == b.currency && a.placedAt == b.placedAt
  }

  predicate OrdersTriggerThrows(deleted: map<nat, OrderRow>, inserted: map<nat, OrderRow>) {
    exists k :: k in deleted && IsTerminal(deleted[k].status) && !(k in inserted && SameGuarded(inserted[k], deleted[k]))
  }

  predicate ItemsTriggerThrows(orders: map<nat, OrderRow>, deleted: map<nat, ItemRow>, inserted: map<nat, ItemRow>) {
    exists o :: o in orders && IsTerminal(orders[o].status)
      && ((exists k :: k in inserted && inserted[k].orderId == o) || (exists k :: k in deleted && deleted[k].orderId == o))
  }

  function Rows<T>(table: map<nat, T>, keys: set<nat>): map<nat, T> {
    map k | k in keys && k in table :: table[k]
  }

  /** A statement says what it does: rows it does not touch stay, identity keys are not reused. */
  ghost predicate WellFormed(s: Tables, st: Statement) {
    match st
    case InsertOrders(inserted) => inserted.Keys !! s.orders.Keys
    case ChangeOrders(touched, orders) =>
      orders.Keys <= s.orders.Keys && forall k :: k in s.orders && k !in touched ==> k in orders && orders[k] == s.orders[k]
    case ChangeItems(touched, items) =>
      && (forall k :: k in s.items && k !in touched ==> k in items && items[k] == s.items[k])
      && (forall k :: k in items && k !in touched ==> k in s.items)
  }

  /** Status columns move along the allowed transitions only. */
  ghost predicate FollowsTransitions(s: Tables, st: Statement) {
    st.ChangeOrders? ==>
      forall k :: k in s.orders && k in st.orders ==>
        st.orders[k].status == s.orders[k].status || TransitionAllowed(s.orders[k].status, st.orders[k].status)
  }

  /** A statement whose trigger throws is rolled back. */
  function Execute(s: Tables, st: Statement): Tables {
    match st
    case InsertOrders(inserted) => s.(orders := s.orders + inserted)
    case ChangeOrders(touched, orders) =>
      if OrdersTriggerThrows(Rows(s.orders, touched), Rows(orders, touched)) then s else s.(orders := orders)
    case ChangeItems(touched, items) =>
      if ItemsTriggerThrows(s.orders, Rows(s.items, touched), Rows(items, touched)) then s else s.(items := items)
  }

  function ExecuteAll(s: Tables, sts: seq<Statement>): Tables
    decreases |sts|
  {
    if sts == [] then s else ExecuteAll(Execute(s, sts[0]), sts[1..])
  }

  ghost predicate Legal(s: Tables, st: Statement) {
    WellFormed(s, st) && FollowsTransitions(s, st)
  }

  ghost predicate LegalRun(s: Tables, sts: seq<Statement>)
    decreases |sts|
  {
    sts == [] || (Legal(s, sts[0]) && LegalRun(Execute(s, sts[0]), sts[1..]))
  }

  function ItemsOfOrder(s: Tables, o: nat): map<nat, ItemRow> {
    map k | k in s.items && s.items[k].orderId == o :: s.items[k]
  }

  ghost predicate ClosedIn(s: Tables, o: nat) {
    o in s.orders && s.orders[o].status != PENDING
  }

  /** The rows read alike but for `status`, `closedAt` and `sourceEvent`. */
  predicate AlikeButStatus(a: OrderRow, b: OrderRow) {
    b == a.(status := b.status, closedAt := b.closedAt, sourceEvent := b.sourceEvent)
  }

  /** The columns the trigger compares are all the others. */
  lemma GuardsTheRest(a: OrderRow, b: OrderRow)
    ensures SameGuarded(a, b) <==> AlikeButStatus(a, b)
  {
  }

  /** Order `o` is still there, with all columns but those three, and its items. */
  ghost predicate Kept(s: Tables, s': Tables, o: nat)
    requires o in s.orders
  {
    o in s'.orders && AlikeButStatus(s.orders[o], s'.orders[o]) && ItemsOfOrder(s', o) == ItemsOfOrder(s, o)
  }

  lemma StepFreezes(s: Tables, st: Statement, o: nat)
    requires ClosedIn(s, o) && WellFormed(s, st)
    ensures Kept(s, Execute(s, st), o)
  {
    var s' := Execute(s, st);
    match st
    case InsertOrders(inserted) =>
    case ChangeOrders(touched, orders) =>
      if s' != s {
        if o in touched {
          assert o in Rows(s.orders, touched);
          assert o in Rows(orders, touched);
        }
      }
    case ChangeItems(touched, items) =>
      if s' != s {
        forall k | k in touched ensures !(k in s.items && s.items[k].orderId == o) && !(k in items && items[k].orderId == o) {
          assert k in s.items ==> Rows(s.items, touched)[k].orderId != o;
          assert k in items ==> Rows(items, touched)[k].orderId != o;
        }
        assert ItemsOfOrder(s', o) == ItemsOfOrder(s, o);
      }
  }

  /** The triggers protect an order from every statement if and only if it is not pending. */
  lemma ProtectedIffClosed(s: Tables, o: nat)
    requires o in s.orders
    ensures (forall st :: WellFormed(s, st) ==> Kept(s, Execute(s, st), o)) <==> s.orders[o].status != PENDING
  {
    if s.orders[o].status != PENDING {
      forall st | WellFormed(s, st) ensures Kept(s, Execute(s, st), o) { StepFreezes(s, st, o); }
    } else {
      var dearer := s.orders[o := s.orders[o].(total := s.orders[o].total + 1)];
      var st := ChangeOrders({o}, dearer);
      assert Rows(s.orders, {o}) == map[o := s.orders[o]];
      assert WellFormed(s, st) && !Kept(s, Execute(s, st), o);
    }
  }

  /** The statement takes away an order that is not pending, or changes one beyond those three columns. */
  ghost predicate ChangesClosed(s: Tables, touched: set<nat>, orders: map<nat, OrderRow>) {
    exists k :: k in touched && k in s.orders && s.orders[k].status != PENDING
                && !(k in orders && AlikeButStatus(s.orders[k], orders[k]))
  }

  /** What a statement on orders does: nothing if it changes a closed order, all it says if not. */
  lemma OrdersPassIff(s: Tables, touched: set<nat>, orders: map<nat, OrderRow>)
    ensures Execute(s, ChangeOrders(touched, orders)) == if ChangesClosed(s, touched, orders) then s else s.(orders := orders)
  {
    var deleted, inserted := Rows(s.orders, touched), Rows(orders, touched);
    if k :| k in deleted && IsTerminal(deleted[k].status) && !(k in inserted && SameGuarded(inserted[k], deleted[k])) {
      assert k in touched && k in s.orders && s.orders[k].status != PENDING;
    }
    if ChangesClosed(s, touched, orders) {
      var k :| k in touched && k in s.orders && s.orders[k].status != PENDING && !(k in orders && AlikeButStatus(s.orders[k], orders[k]));
      assert k in deleted && !(k in inserted && SameGuarded(inserted[k], deleted[k]));
    }
  }

  /** In particular those three columns of a closed order can be set to anything. */
  lemma StatusColumnsAreFree(s: Tables, o: nat, row: OrderRow)
    requires o in s.orders && AlikeButStatus(s.orders[o], row)
    ensures Execute(s, ChangeOrders({o}, s.orders[o := row])).orders == s.orders[o := row]
  {
    OrdersPassIff(s, {o}, s.orders[o := row]);
  }

  predicate OfClosedOrder(s: Tables, lines: map<nat, ItemRow>, k: nat) {
    k in lines && lines[k].orderId in s.orders && s.orders[lines[k].orderId].status != PENDING
  }

  /** What a statement on lines does: nothing if a line it touches is or becomes one of a closed order, all it says if not. */
  lemma ItemsPassIff(s: Tables, touched: set<nat>, items: map<nat, ItemRow>)
    ensures Execute(s, ChangeItems(touched, items))
            == if exists k :: k in touched && (OfClosedOrder(s, s.items, k) || OfClosedOrder(s, items, k))
               then s else s.(items := items)
  {
    var deleted, inserted := Rows(s.items, touched), Rows(items, touched);
    if k :| k in touched && (OfClosedOrder(s, s.items, k) || OfClosedOrder(s, items, k)) {
      assert k in s.items ==> k in deleted && deleted[k] == s.items[k];
      assert k in items ==> k in inserted && inserted[k] == items[k];
    }
  }

  /** The statements are arbitrary but for one thing: none leaves the status of `o` open. */
  ghost predicate ClosedThroughout(s: Tables, sts: seq<Statement>, o: nat)
    decreases |sts|
  {
    sts == [] || (
      && WellFormed(s, sts[0])
      && (o in Execute(s, sts[0]).orders ==> Execute(s, sts[0]).orders[o].status != PENDING)
      && ClosedThroughout(Execute(s, sts[0]), sts[1..], o))
  }

  /** As long as the status of a closed order is left closed, the order is frozen, whatever happens to all others. */
  lemma {:induction false} FrozenWhileClosed(s: Tables, sts: seq<Statement>, o: nat)
    requires ClosedIn(s, o) && ClosedThroughout(s, sts, o)
    ensures Kept(s, ExecuteAll(s, sts), o) && ClosedIn(ExecuteAll(s, sts), o)
    decreases |sts|
  {
    if sts != [] {
      StepFreezes(s, sts[0], o);
      FrozenWhileClosed(Execute(s, sts[0]), sts[1..], o);
    }
  }

  /** Status changes along the allowed transitions leave a closed order closed. */
  lemma {:induction false} LegalRunsCloseForGood(s: Tables, sts: seq<Statement>, o: nat)
    requires ClosedIn(s, o) && LegalRun(s, sts)
    ensures ClosedThroughout(s, sts, o)
    decreases |sts|
  {
    if sts != [] {
      StepFreezes(s, sts[0], o);
      LegalRunsCloseForGood(Execute(s, sts[0]), sts[1..], o);
    }
  }

  /**
   Over every run of arbitrary statements filtered by the triggers whose status
   changes follow the allowed transitions, a closed order stays, stays closed,
   and keeps its guarded columns and its items.
   */
  lemma ClosedOrdersAreFrozen(s: Tables, sts: seq<Statement>, o: nat)
    requires ClosedIn(s, o) && LegalRun(s, sts)
    ensures var s' := ExecuteAll(s, sts);
            ClosedIn(s', o) && AlikeButStatus(s.orders[o], s'.orders[o]) && ItemsOfOrder(s', o) == ItemsOfOrder(s, o)
  {
    LegalRunsCloseForGood(s, sts, o);
    FrozenWhileClosed(s, sts, o);
  }

  /** The triggers alone are not enough: putting the status back to PENDING passes, and then so does a new total. */
  lemma StatusRollbackThaws(s: Tables, o: nat, total: Money) returns (sts: seq<Statement>)
    requires ClosedIn(s, o)
    ensures |sts| == 2 && WellFormed(s, sts[0]) && WellFormed(Execute(s, sts[0]), sts[1])
    ensures ExecuteAll(s, sts).orders == s.orders[o := s.orders[o].(status := PENDING, total := total)]
  {
    var reopened := s.orders[o := s.orders[o].(status := PENDING)];
    var changed := s.orders[o := s.orders[o].(status := PENDING, total := total)];
    sts := [ChangeOrders({o}, reopened), ChangeOrders({o}, changed)];
    assert Rows(s.orders, {o}) == map[o := s.orders[o]];
    assert Rows(reopened, {o}) == map[o := reopened[o]];
    var s1 := Execute(s, sts[0]);
    assert s1.orders == reopened;
    assert !OrdersTriggerThrows(Rows(reopened, {o}), Rows(changed, {o}));
    assert sts[1..][0] == sts[1] && sts[1..][1..] == [];
    assert ExecuteAll(s1, sts[1..]) == ExecuteAll(Execute(s1, sts[1]), []);
  }

  // ---- the handlers under the triggers ----

  function TablesOf(db: Db): Tables {
    Tables(map i | 0 <= i < |db.orders| :: db.orders[i], map k | 0 <= k < |db.items| :: db.items[k])
  }

  /** The statements on orders and items that take `a` to `b`: new orders, their lines, then changed orders. */
  function StatementsOf(a: Db, b: Db): seq<Statement>
    requires |a.orders| <= |b.orders| && |a.items| <= |b.items|
  {
    [InsertOrders(map i | |a.orders| <= i < |b.orders| :: b.orders[i]),
     ChangeItems(TablesOf(b).items.Keys - TablesOf(a).items.Keys, TablesOf(b).items),
     ChangeOrders((set i | 0 <= i < |a.orders| && a.orders[i] != b.orders[i]), TablesOf(b).orders)]
  }

  /** New orders are pending, and the others move along the allowed transitions. */
  ghost predicate MovesAllowed(a: Db, b: Db) {
    && (forall i :: |a.orders| <= i < |b.orders| ==> b.orders[i].status == PENDING)
    && (forall i :: 0 <= i < |a.orders| && i < |b.orders| ==>
          b.orders[i].status == a.orders[i].status || TransitionAllowed(a.orders[i].status, b.orders[i].status))
  }

  lemma HandlersMoveAllowed(db: Db, e: Envelope, now: Time)
    requires Handle(db, e, now).Done?
    ensures MovesAllowed(db, Handle(db, e, now).db)
  {
  }

  lemma PaymentMovesAllowed(seen: T.Seen, db: Db, d: PaymentData, now: Time, o: nat)
    requires T.Fits(seen, db) && T.PaymentFrom(seen, db, d, now).Done? && FindOrder(seen.first.orders, d.orderUid) == Some(o)
    requires d.status == PAY_APPROVED && seen.first.orders[o].status == PENDING ==> db.orders[o].status == PENDING
    ensures MovesAllowed(db, T.PaymentFrom(seen, db, d, now).db)
  {
    T.PaymentCommitShape(seen, db, d, now, o);
  }

  lemma InvoiceMovesAllowed(seen: T.Seen, db: Db, d: InvoiceData)
    requires DbInv(db) && Grows(seen.first, db) && T.Fits(seen, db) && T.InvoiceFrom(seen, db, d).Done?
    ensures MovesAllowed(db, T.InvoiceFrom(seen, db, d).db)
  {
    var o := FindOrder(seen.first.orders, d.orderUid).value;
    if !InvoicedOrder(seen.second.invoices, o) && seen.first.orders[o].status == APPROVED {
      T.ReadAsApproved(seen.first, db, o);
    }
  }

  lemma CommitsMoveAllowed(seen: T.Seen, db: Db, e: Envelope, now: Time)
    requires DbInv(db) && Grows(seen.first, db) && T.Fits(seen, db)
    requires T.HandleFrom(seen, db, e, now).Done? && !T.Overtaken(seen, db, e)
    ensures MovesAllowed(db, T.HandleFrom(seen, db, e, now).db)
  {
    match (e.eventType, e.body)
    case (PAYMENT_UPDATED, PaymentBody(d)) =>
      PaymentMovesAllowed(seen, db, d, now, FindOrder(seen.first.orders, d.orderUid).value);
    case (INVOICE_ISSUED, InvoiceBody(d)) => InvoiceMovesAllowed(seen, db, d);
    case _ =>
  }

  lemma InsertPasses(a: Db, b: Db)
    requires Grows(a, b)
    ensures WellFormed(TablesOf(a), StatementsOf(a, b)[0])
    ensures Execute(TablesOf(a), StatementsOf(a, b)[0]).items == TablesOf(a).items
    ensures var s := Execute(TablesOf(a), StatementsOf(a, b)[0]);
            s.orders.Keys == TablesOf(b).orders.Keys
            && forall i :: 0 <= i < |b.orders| ==> s.orders[i] == if i < |a.orders| then a.orders[i] else b.orders[i]
  {
  }

  /** A transaction inserts lines of its new orders only, and those are pending. */
  lemma NewLinesAreOpen(a: Db, b: Db, s: Tables)
    requires Grows(a, b) && s == Execute(TablesOf(a), StatementsOf(a, b)[0]) && MovesAllowed(a, b)
    ensures var st := StatementsOf(a, b)[1];
            && Rows(s.items, st.touched) == map[]
            && !ItemsTriggerThrows(s.orders, Rows(s.items, st.touched), Rows(st.items, st.touched))
  {
    InsertPasses(a, b);
    var st := StatementsOf(a, b)[1];
    assert Rows(s.items, st.touched) == map[];
    forall k | k in Rows(st.items, st.touched)
      ensures var o := Rows(st.items, st.touched)[k].orderId; o in s.orders ==> !IsTerminal(s.orders[o].status)
    {
      assert |a.items| <= k < |b.items| && |a.orders| <= b.items[k].orderId;
    }
  }

  lemma LinesPass(a: Db, b: Db, s: Tables)
    requires Grows(a, b) && s == Execute(TablesOf(a), StatementsOf(a, b)[0]) && MovesAllowed(a, b)
    ensures WellFormed(s, StatementsOf(a, b)[1])
    ensures Execute(s, StatementsOf(a, b)[1]) == s.(items := TablesOf(b).items)
  {
    InsertPasses(a, b);
    NewLinesAreOpen(a, b, s);
  }

  lemma ChangesPass(a: Db, b: Db, s: Tables)
    requires Grows(a, b)
    requires s == Execute(TablesOf(a), StatementsOf(a, b)[0]).(items := TablesOf(b).items)
    requires MovesAllowed(a, b)
    ensures WellFormed(s, StatementsOf(a, b)[2]) && FollowsTransitions(s, StatementsOf(a, b)[2])
    ensures Execute(s, StatementsOf(a, b)[2]) == TablesOf(b)
  {
    InsertPasses(a, b);
    var st := StatementsOf(a, b)[2];
    forall k | k in Rows(s.orders, st.touched)
      ensures k in Rows(st.orders, st.touched) && SameGuarded(Rows(st.orders, st.touched)[k], s.orders[k])
    {
      assert SameProtected(a.orders[k], b.orders[k]);
    }
  }

  /** The statements from `a` to `b` pass both triggers and give exactly `b`. */
  ghost predicate Pass(a: Db, b: Db) {
    && |a.orders| <= |b.orders| && |a.items| <= |b.items|
    && LegalRun(TablesOf(a), StatementsOf(a, b))
    && ExecuteAll(TablesOf(a), StatementsOf(a, b)) == TablesOf(b)
  }

  lemma AllowedMovesPass(a: Db, b: Db)
    requires Grows(a, b) && MovesAllowed(a, b)
    ensures Pass(a, b)
  {
    var s0, sts := TablesOf(a), StatementsOf(a, b);
    InsertPasses(a, b);
    var s1 := Execute(s0, sts[0]);
    LinesPass(a, b, s1);
    var s2 := Execute(s1, sts[1]);
    ChangesPass(a, b, s2);
    Chained(s0, sts);
  }

  /** Every event handled serially passes both triggers: its statements, filtered by them, give exactly its tables. */
  lemma HandlersNeverTripTriggers(db: Db, e: Envelope, now: Time)
    requires Handle(db, e, now).Done?
    ensures Pass(db, Handle(db, e, now).db)
  {
    HandleExtends(db, e, now);
    HandlersMoveAllowed(db, e, now);
    AllowedMovesPass(db, Handle(db, e, now).db);
  }

  /** So does every transaction of a run, whatever it overlapped with. */
  lemma TransactionsNeverTripTriggers(s: T.State, step: T.Step)
    requires T.Inv(s) && T.Enabled(s, step)
    ensures Pass(s.db, T.Apply(s, step).db)
  {
    T.StepKeepsInv(s, step);
    if step.Commit? {
      T.ReadsPrecede(s, step.picks);
      CommitsMoveAllowed(T.SeenBy(s, step.picks), s.db, s.open[step.w].envelope, step.at);
    }
    AllowedMovesPass(s.db, T.Apply(s, step).db);
  }

  lemma Chained(s: Tables, sts: seq<Statement>)
    requires |sts| == 3
    ensures var s1 := Execute(s, sts[0]);
            var s2 := Execute(s1, sts[1]);
            ExecuteAll(s, sts) == Execute(s2, sts[2])
    ensures var s1 := Execute(s, sts[0]);
            var s2 := Execute(s1, sts[1]);
            Legal(s, sts[0]) && Legal(s1, sts[1]) && Legal(s2, sts[2]) ==> LegalRun(s, sts)
  {
    var s1 := Execute(s, sts[0]);
    var s2 := Execute(s1, sts[1]);
    var r1, r2 := sts[1..], sts[2..];
    assert r1[0] == sts[1] && r1[1..] == r2 && r2[0] == sts[2] && r2[1..] == [];
    assert ExecuteAll(s2, r2) == ExecuteAll(Execute(s2, sts[2]), []);
    assert ExecuteAll(s1, r1) == ExecuteAll(s2, r2);
    assert LegalRun(Execute(s2, sts[2]), []);
    assert LegalRun(s1, r1) <==> Legal(s1, sts[1]) && LegalRun(s2, r2);
  }
}
