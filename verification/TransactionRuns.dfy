/** Whole runs of overlapping transactions, from empty tables on. */
module TransactionRuns {
  import opened Prelude
  import opened Schema
  import opened Handlers
  import opened OrderTables
  import opened OrderRuns
  import opened Processing
  import opened Transactions
  import A = AddressRaces

  ghost predicate Run(s: State, steps: seq<Step>)
    decreases |steps|
  {
    steps == [] || (Enabled(s, steps[0]) && Run(Apply(s, steps[0]), steps[1..]))
  }

  ghost function After(s: State, steps: seq<Step>): State
    requires Run(s, steps)
    decreases |steps|
  {
    if steps == [] then s else After(Apply(s, steps[0]), steps[1..])
  }

  /** Some run leads from `s` to `t`. */
  ghost predicate LeadsTo(s: State, t: State) {
    exists steps :: Run(s, steps) && After(s, steps) == t
  }

  ghost predicate Reachable(s: State) {
    LeadsTo(START, s)
  }

  lemma {:induction false} RunKeeps(s: State, steps: seq<Step>)
    requires Inv(s) && Run(s, steps)
    ensures Inv(After(s, steps)) && Grows(s.db, After(s, steps).db)
    decreases |steps|
  {
    if steps != [] {
      var s' := Apply(s, steps[0]);
      StepKeepsInv(s, steps[0]);
      RunKeeps(s', steps[1..]);
      GrowsTransitive(s.db, s'.db, After(s, steps).db);
    }
  }

  lemma StartInv()
    ensures Inv(START)
  {
  }

  /** In every reachable state the tables are in order, and every event committed at most once. */
  lemma ReachableInv(s: State)
    requires Reachable(s)
    ensures Inv(s)
  {
    var steps :| Run(START, steps) && After(START, steps) == s;
    StartInv();
    RunKeeps(START, steps);
  }

  // ---- the life cycle ----

  /**
   In every reachable state an order has no queued message while pending and
   exactly one afterwards, an invoiced order has an invoice, `closed_at` is null
   exactly while pending, and the total is the sum of the lines.
   */
  lemma OrderLifeCycle(s: State, i: nat)
    requires Reachable(s) && i < |s.db.orders|
    ensures var o := s.db.orders[i];
            && QueuedFor(s.db.outbox, o.uid) == (if o.status == PENDING then 0 else 1)
            && (o.status == INVOICED ==> InvoicedOrder(s.db.invoices, i))
            && (o.closedAt.None? <==> o.status == PENDING)
            && o.status in {PENDING, APPROVED, INVOICED}
            && o.total == LineSum(ItemsOf(s.db.items, i))
  {
    ReachableInv(s);
    assert OrderOk(s.db, i);
  }

  /** How often the status of order `i` changes in a run. */
  ghost function StatusChanges(s: State, steps: seq<Step>, i: nat): nat
    requires Run(s, steps)
    decreases |steps|
  {
    if steps == [] then 0
    else
      var next := Apply(s, steps[0]);
      (if i < |s.db.orders| && i < |next.db.orders| && next.db.orders[i].status != s.db.orders[i].status then 1 else 0)
      + StatusChanges(next, steps[1..], i)
  }

  /** A status changes only upwards. */
  lemma LaterRanksHigher(db: Db, db': Db, i: nat)
    requires DbInv(db) && DbInv(db') && Grows(db, db') && i < |db.orders|
    ensures Rank(db.orders[i].status) + (if db'.orders[i].status != db.orders[i].status then 1 else 0) <= Rank(db'.orders[i].status)
  {
    assert OrderOk(db, i) && OrderOk(db', i);
  }

  lemma {:induction false} ChangesRaiseRank(s: State, steps: seq<Step>, i: nat)
    requires Inv(s) && Run(s, steps)
    ensures i < |After(s, steps).db.orders| ==>
              StatusChanges(s, steps, i) + (if i < |s.db.orders| then Rank(s.db.orders[i].status) else 0)
              <= Rank(After(s, steps).db.orders[i].status)
    decreases |steps|
  {
    if steps != [] {
      var s' := Apply(s, steps[0]);
      StepKeepsInv(s, steps[0]);
      if i < |s.db.orders| { LaterRanksHigher(s.db, s'.db, i); }
      ChangesRaiseRank(s', steps[1..], i);
    }
  }

  lemma StatusChangesAtMostTwice(steps: seq<Step>, i: nat)
    requires Run(START, steps) && i < |After(START, steps).db.orders|
    ensures StatusChanges(START, steps, i) <= 2
  {
    StartInv();
    ChangesRaiseRank(START, steps, i);
  }

  // ---- messages, totals and pinned addresses ----

  predicate VersionKept(db: Db, later: Db, id: nat) {
    && id < |db.addresses| && id < |later.addresses|
    && later.addresses[id].uid == db.addresses[id].uid && later.addresses[id].fields == db.addresses[id].fields
  }

  /** Between two states of the tables, what order `i` froze is still there. */
  ghost predicate SnapshotKept(db: Db, later: Db, i: nat) {
    && i < |db.orders| && i < |later.orders|
    && LinksInRange(db, db.orders[i]) && LinksInRange(later, later.orders[i])
    && SameProtected(db.orders[i], later.orders[i])
    && VersionKept(db, later, db.orders[i].shippingId) && later.orders[i].shippingId == db.orders[i].shippingId
    && VersionKept(db, later, db.orders[i].billingId) && later.orders[i].billingId == db.orders[i].billingId
    && ItemsOf(later.items, i) == ItemsOf(db.items, i)
    && (forall k :: 0 <= k < |later.outbox| && later.outbox[k].aggregateId == later.orders[i].uid ==>
          PayloadOk(later, later.outbox[k].payload, i))
  }

  lemma VersionStays(db: Db, later: Db, id: nat)
    requires Grows(db, later) && id < |db.addresses|
    ensures VersionKept(db, later, id)
  {
    assert SameVersion(db.addresses[id], later.addresses[id]);
  }

  lemma GrownSnapshot(db: Db, later: Db, i: nat)
    requires Grows(db, later) && i < |db.orders| && LinksInRange(db, db.orders[i])
    requires ReferencesOk(later) && PayloadsOk(later)
    ensures SnapshotKept(db, later, i)
  {
    ItemsFrozen(db, later, i);
    assert SameProtected(db.orders[i], later.orders[i]);
    VersionStays(db, later, db.orders[i].shippingId);
    VersionStays(db, later, db.orders[i].billingId);
  }

  /**
   However much later, a queued message matches the protected columns, the items
   and the address versions of its order, and those versions read as they did
   when the order pinned them.
   */
  lemma SnapshotsStayTrue(s: State, later: State, i: nat)
    requires Reachable(s) && LeadsTo(s, later) && i < |s.db.orders|
    ensures SnapshotKept(s.db, later.db, i)
  {
    ReachableInv(s);
    var steps :| Run(s, steps) && After(s, steps) == later;
    RunKeeps(s, steps);
    GrownSnapshot(s.db, later.db, i);
  }

  // ---- transactions that do not overlap ----

  /** A commit that missed nothing. */
  ghost predicate Serial(s: State, step: Step)
    requires Enabled(s, step)
  {
    step.Commit? ==> UpToDate(SeenBy(s, step.picks), s.db)
  }

  ghost predicate Replays(s: State) {
    s.db == AfterEvents(EMPTY_DB, s.ledger) && AllCommit(EMPTY_DB, s.ledger)
  }

  lemma SerialStepReplays(s: State, step: Step)
    requires Inv(s) && Enabled(s, step) && Serial(s, step) && Replays(s)
    ensures Replays(Apply(s, step))
  {
    if step.Commit? {
      var e := Event(s.open[step.w].envelope, step.at);
      SerialIsHandle(SeenBy(s, step.picks), s.db, e.envelope, e.at);
      ReplayAppend(EMPTY_DB, s.ledger, e);
    }
  }

  /** The read that misses nothing: every lookup reads the newest committed state. */
  function Newest(s: State): Picks
    requires |s.past| > 0
  {
    var n := |s.past| - 1;
    Picks(n, n, n, n)
  }

  lemma TwoSteps(s: State, a: Step, b: Step)
    requires Enabled(s, a) && Enabled(Apply(s, a), b)
    ensures Run(s, [a, b]) && After(s, [a, b]) == Apply(Apply(s, a), b)
  {
    var s1 := Apply(s, a);
    assert [a, b][1..] == [b] && [b][1..] == [];
    assert Run(Apply(s1, b), []);
    assert Run(s1, [b]) && After(s1, [b]) == Apply(s1, b);
  }

  lemma AloneIsHandle(s: State, e: Event)
    requires |s.past| > 0 && SameTables(s.past[|s.past| - 1], s.db) && A.UniqueCurrent(s.db.addresses)
    ensures HandleFrom(SeenBy(s, Newest(s)), s.db, e.envelope, e.at) == Handle(s.db, e.envelope, e.at)
    ensures !Overtaken(SeenBy(s, Newest(s)), s.db, e.envelope)
  {
    SerialIsHandle(SeenBy(s, Newest(s)), s.db, e.envelope, e.at);
  }

  /** Having just begun, reading nothing old, the transaction ends as the handler does and may commit. */
  lemma AloneMayCommit(s: State, e: Event, worker: Worker)
    requires |s.past| > 0 && SameTables(s.past[|s.past| - 1], s.db) && A.UniqueCurrent(s.db.addresses) && worker !in s.open
    requires !InLedger(s.ledger, e.envelope.eventId) && Handle(s.db, e.envelope, e.at).Done?
    ensures var s1, commit := Apply(s, Begin(worker, e.envelope)), Commit(worker, Newest(s), e.at);
            && Enabled(s1, commit)
            && Apply(s1, commit).db == Handle(s.db, e.envelope, e.at).db && Apply(s1, commit).ledger == s.ledger + [e]
  {
    var s1 := Apply(s, Begin(worker, e.envelope));
    AloneIsHandle(s, e);
    assert SeenBy(s1, Newest(s)) == SeenBy(s, Newest(s));
  }

  function StepsOfDelivery(s: State, e: Event, worker: Worker, commits: bool): seq<Step>
    requires |s.past| > 0
  {
    [Begin(worker, e.envelope), if commits then Commit(worker, Newest(s), e.at) else Abort(worker)]
  }

  /** A delivery that changes anything commits the handler's result under a new id. */
  lemma DeliveryCommits(registry: set<EventType>, w: World, e: Event, f: Faults)
    ensures var w' := Process(registry, w, e, f).0;
            if w'.ledger == w.ledger then w'.db == w.db
            else && !InLedger(w.ledger, e.envelope.eventId) && w'.ledger == w.ledger + [e]
                 && Handle(w.db, e.envelope, e.at) == Done(w'.db)
  {
    OnlyCommitsChangeTables(registry, w, e, f);
  }

  /** A delivery processed alone is such a transaction: it begins, and commits having missed nothing or leaves nothing. */
  lemma DeliveryIsTransaction(registry: set<EventType>, w: World, e: Event, f: Faults, s: State, worker: Worker)
    requires |s.past| > 0 && SameTables(s.past[|s.past| - 1], s.db) && A.UniqueCurrent(s.db.addresses)
    requires s.db == w.db && s.ledger == w.ledger && worker !in s.open
    ensures var w' := Process(registry, w, e, f).0;
            var steps := StepsOfDelivery(s, e, worker, w'.ledger != w.ledger);
            && Run(s, steps)
            && After(s, steps).db == w'.db && After(s, steps).ledger == w'.ledger
  {
    var w' := Process(registry, w, e, f).0;
    DeliveryCommits(registry, w, e, f);
    if w'.ledger != w.ledger {
      AloneMayCommit(s, e, worker);
      TwoSteps(s, Begin(worker, e.envelope), Commit(worker, Newest(s), e.at));
    } else {
      TwoSteps(s, Begin(worker, e.envelope), Abort(worker));
    }
  }
}
