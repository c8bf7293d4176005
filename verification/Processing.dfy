/**
 The three idempotence barriers for one delivery at a time: the Redis
 reservation, the ledger and the business constraints, with the failures each
 call can meet.
 */
module Processing {
  import opened Prelude
  import opened Schema
  import opened Handlers
  import opened OrderTables
  import opened OrderRuns

  datatype Outcome = PROCESSED | DUPLICATE | RETRY | REJECTED

  predicate ShouldAck(o: Outcome) {
    o != RETRY
  }

  /** Reserved event ids, committed events in commit order, business tables. */
  datatype World = World(keys: set<string>, ledger: seq<Event>, db: Db)

  /** `SET NX` answers, or raises with or without having stored the key. */
  datatype RedisFault = RedisUp | RedisDown(stored: bool)

  /** A database error undoes the transaction, however far it got, or hides a commit that took place. */
  datatype DbFault = DbUp | DbFails(at: Moment) | DbFailsAfterCommit

  /** Where in the transaction a database error strikes. */
  datatype Moment = AtRegister | AfterRegister | AfterHandler

  datatype Faults = Faults(claim: RedisFault, releaseLost: bool, database: DbFault)

  const FULL_REGISTRY: set<EventType> := {CLIENT_UPSERTED, ORDER_CREATED, PAYMENT_UPDATED, INVOICE_ISSUED}

  predicate InLedger(ledger: seq<Event>, id: string) {
    exists i :: 0 <= i < |ledger| && ledger[i].envelope.eventId == id
  }

  /** What `_apply` does, with the exception it ends in, if any, reported as RETRY. */
  function ApplyEvent(w: World, e: Event, fault: DbFault): (World, Outcome) {
    if fault == DbFails(AtRegister) then (w, RETRY)
    else if InLedger(w.ledger, e.envelope.eventId) then (w, DUPLICATE)
    else if fault == DbFails(AfterRegister) then (w, RETRY)
    else match Handle(w.db, e.envelope, e.at)
      case Done(db) =>
        if fault.DbFails? then (w, RETRY)
        else (w.(ledger := w.ledger + [e], db := db), if fault.DbUp? then PROCESSED else RETRY)
      case Violates => (w, DUPLICATE)
      case NotReady(_) => (w, RETRY)
      case Malformed => (w, RETRY)
  }

  function Process(registry: set<EventType>, w: World, e: Event, f: Faults): (World, Outcome) {
    var id := e.envelope.eventId;
    if e.envelope.eventType !in registry then (w, REJECTED)
    else if f.claim.RedisUp? && id in w.keys then (w, DUPLICATE)
    else
      var reserved := if f.claim.RedisUp? || f.claim.stored then w.(keys := w.keys + {id}) else w;
      var (w', outcome) := ApplyEvent(reserved, e, f.database);
      if outcome == RETRY && !f.releaseLost then (w'.(keys := w'.keys - {id}), outcome) else (w', outcome)
  }

  datatype Delivery = Delivery(event: Event, faults: Faults)

  function ProcessAll(registry: set<EventType>, w: World, ds: seq<Delivery>): World
    decreases |ds|
  {
    if ds == [] then w else ProcessAll(registry, Process(registry, w, ds[0].event, ds[0].faults).0, ds[1..])
  }

  // ---- the database is a replay of its ledger ----

  /** Every event was committable when it committed. */
  ghost predicate AllCommit(db: Db, events: seq<Event>)
    decreases |events|
  {
    events == [] || (Handle(db, events[0].envelope, events[0].at).Done? && AllCommit(Step(db, events[0]), events[1..]))
  }

  ghost predicate IsReplay(w: World) {
    && w.db == AfterEvents(EMPTY_DB, w.ledger)
    && AllCommit(EMPTY_DB, w.ledger)
    && forall i, j :: 0 <= i < j < |w.ledger| ==> w.ledger[i].envelope.eventId != w.ledger[j].envelope.eventId
  }

  lemma {:induction false} ReplayAppend(db: Db, events: seq<Event>, e: Event)
    requires AllCommit(db, events) && Handle(AfterEvents(db, events), e.envelope, e.at).Done?
    ensures AllCommit(db, events + [e])
    ensures AfterEvents(db, events + [e]) == Step(AfterEvents(db, events), e)
    decreases |events|
  {
    if events == [] {
      assert [e][1..] == [];
      assert AfterEvents(Step(db, e), []) == Step(db, e);
    } else {
      assert (events + [e])[0] == events[0] && (events + [e])[1..] == events[1..] + [e];
      ReplayAppend(Step(db, events[0]), events[1..], e);
    }
  }

  lemma ProcessKeepsReplay(registry: set<EventType>, w: World, e: Event, f: Faults)
    requires IsReplay(w)
    ensures IsReplay(Process(registry, w, e, f).0)
  {
    var (w', _) := Process(registry, w, e, f);
    if w'.ledger != w.ledger {
      assert w'.ledger == w.ledger + [e];
      ReplayAppend(EMPTY_DB, w.ledger, e);
    }
  }

  const FRESH := World({}, [], EMPTY_DB)

  lemma {:induction false} RunKeepsReplay(registry: set<EventType>, w: World, ds: seq<Delivery>)
    requires IsReplay(w)
    ensures IsReplay(ProcessAll(registry, w, ds))
    decreases |ds|
  {
    if ds != [] {
      ProcessKeepsReplay(registry, w, ds[0].event, ds[0].faults);
      RunKeepsReplay(registry, Process(registry, w, ds[0].event, ds[0].faults).0, ds[1..]);
    }
  }

  /**
   After any deliveries whatever, with duplicates, retries, refusals, Redis
   outages and lost commits, the tables are the fold of the handlers over the
   ledger, each event applied once, and so satisfy every invariant of the tables.
   */
  lemma DatabaseReplaysLedger(registry: set<EventType>, ds: seq<Delivery>)
    ensures IsReplay(ProcessAll(registry, FRESH, ds))
    ensures Reachable(ProcessAll(registry, FRESH, ds).db)
    ensures DbInv(ProcessAll(registry, FRESH, ds).db)
  {
    RunKeepsReplay(registry, FRESH, ds);
    ReachableInv(ProcessAll(registry, FRESH, ds).db);
  }

  /** A delivery changes the tables only by committing its own event; every other ending leaves them as they were. */
  lemma OnlyCommitsChangeTables(registry: set<EventType>, w: World, e: Event, f: Faults)
    ensures var (w', outcome) := Process(registry, w, e, f);
            (w'.db != w.db ==> w'.ledger == w.ledger + [e])
            && (outcome == PROCESSED ==> !InLedger(w.ledger, e.envelope.eventId) && InLedger(w'.ledger, e.envelope.eventId))
            && (outcome in {DUPLICATE, REJECTED} ==> w'.db == w.db && w'.ledger == w.ledger)
            && (outcome == RETRY && f.database != DbFailsAfterCommit ==> w'.db == w.db && w'.ledger == w.ledger)
  {
    var (w', _) := Process(registry, w, e, f);
    if w'.ledger != w.ledger { assert w'.ledger[|w.ledger|] == e; }
  }

  // ---- which outcome, and what it leaves ----

  /** The key was there and Redis said so. */
  predicate SeenReserved(w: World, e: Event, f: Faults) {
    f.claim == RedisUp && e.envelope.eventId in w.keys
  }

  /** The transaction got as far as reading the ledger, and to the handler. */
  predicate ReachesLedger(f: Faults) {
    f.database != DbFails(AtRegister)
  }

  predicate ReachesHandler(w: World, e: Event, f: Faults) {
    ReachesLedger(f) && f.database != DbFails(AfterRegister) && !InLedger(w.ledger, e.envelope.eventId)
  }

  /** Redis, the ledger or a constraint says that the event was there. */
  predicate ToldDuplicate(w: World, e: Event, f: Faults) {
    || SeenReserved(w, e, f)
    || (ReachesLedger(f) && InLedger(w.ledger, e.envelope.eventId))
    || (ReachesHandler(w, e, f) && Handle(w.db, e.envelope, e.at).Violates?)
  }

  /**
   Which outcome a delivery has: rejected for an unknown type; a duplicate if Redis,
   the ledger or a constraint says so; processed if its event has just been
   committed and the commit was reported; in every other case to be retried.
   */
  lemma OutcomeIff(registry: set<EventType>, w: World, e: Event, f: Faults)
    ensures var (w', outcome) := Process(registry, w, e, f);
            var r := Handle(w.db, e.envelope, e.at);
            && (outcome == REJECTED <==> e.envelope.eventType !in registry)
            && (outcome == DUPLICATE <==> e.envelope.eventType in registry && ToldDuplicate(w, e, f))
            && (outcome == PROCESSED <==> w'.ledger == w.ledger + [e] && f.database == DbUp)
            && (w'.ledger == w.ledger + [e] <==>
                  e.envelope.eventType in registry && !SeenReserved(w, e, f)
                  && ReachesHandler(w, e, f) && r.Done? && f.database in {DbUp, DbFailsAfterCommit})
            && (w'.ledger == w.ledger + [e] ==> w'.db == r.db)
            && (w'.ledger != w.ledger + [e] ==> w'.ledger == w.ledger && w'.db == w.db)
  {
    OnlyCommitsChangeTables(registry, w, e, f);
    assert |w.ledger + [e]| == |w.ledger| + 1;
  }

  /** A delivery leaves all other reservations alone, and its own set exactly when it neither released nor failed to make it. */
  lemma KeyAfter(registry: set<EventType>, w: World, e: Event, f: Faults)
    ensures var (w', outcome) := Process(registry, w, e, f);
            var id := e.envelope.eventId;
            && (forall k :: k != id ==> (k in w'.keys <==> k in w.keys))
            && (id in w'.keys <==>
                  if outcome == REJECTED then id in w.keys
                  else if outcome == RETRY && !f.releaseLost then false
                  else id in w.keys || f.claim == RedisUp || f.claim.stored)
  {
  }

  /** An outcome that is acknowledged means the event is dealt with, unless its key was there to begin with. */
  lemma AcknowledgedIsDealtWith(registry: set<EventType>, w: World, e: Event, f: Faults)
    requires Process(registry, w, e, f).1 in {PROCESSED, DUPLICATE, REJECTED} && e.envelope.eventId !in w.keys
    ensures || InLedger(Process(registry, w, e, f).0.ledger, e.envelope.eventId)
            || Handle(w.db, e.envelope, e.at).Violates?
            || e.envelope.eventType !in registry
  {
    OutcomeIff(registry, w, e, f);
    var w' := Process(registry, w, e, f).0;
    if w'.ledger == w.ledger + [e] { assert w'.ledger[|w.ledger|] == e; }
  }

  // ---- redelivery ----

  /** Deliveries of any other event. */
  function Without(ds: seq<Delivery>, id: string): seq<Delivery> {
    if ds == [] then []
    else (if ds[0].event.envelope.eventId == id then [] else [ds[0]]) + Without(ds[1..], id)
  }

  /** Equal but for the reservation of `id`. */
  predicate SameButKey(a: World, b: World, id: string) {
    a.ledger == b.ledger && a.db == b.db && a.keys - {id} == b.keys - {id}
  }

  lemma OthersIgnoreKey(registry: set<EventType>, a: World, b: World, e: Event, f: Faults, id: string)
    requires SameButKey(a, b, id) && e.envelope.eventId != id
    ensures SameButKey(Process(registry, a, e, f).0, Process(registry, b, e, f).0, id)
    ensures Process(registry, a, e, f).1 == Process(registry, b, e, f).1
  {
    var other := e.envelope.eventId;
    assert other in a.keys - {id} <==> other in b.keys - {id};
    var (a', _) := Process(registry, a, e, f);
    var (b', _) := Process(registry, b, e, f);
    forall k ensures k in a'.keys - {id} <==> k in b'.keys - {id} {
      assert k in a.keys - {id} <==> k in b.keys - {id};
    }
  }

  lemma CommittedStays(registry: set<EventType>, w: World, e: Event, f: Faults, id: string)
    requires InLedger(w.ledger, id)
    ensures InLedger(Process(registry, w, e, f).0.ledger, id)
    ensures e.envelope.eventId == id ==> SameButKey(Process(registry, w, e, f).0, w, id)
  {
    var i :| 0 <= i < |w.ledger| && w.ledger[i].envelope.eventId == id;
    assert Process(registry, w, e, f).0.ledger[i] == w.ledger[i];
  }

  /**
   Once an event is in the ledger, its redeliveries might as well not happen:
   whatever comes between and whatever fails, tables and ledger end the same.
   */
  lemma {:induction false} CommittedEventIsInert(registry: set<EventType>, w: World, v: World, ds: seq<Delivery>, id: string)
    requires InLedger(w.ledger, id) && SameButKey(w, v, id)
    ensures SameButKey(ProcessAll(registry, w, ds), ProcessAll(registry, v, Without(ds, id)), id)
    decreases |ds|
  {
    if ds != [] {
      var e, f := ds[0].event, ds[0].faults;
      CommittedStays(registry, w, e, f, id);
      if e.envelope.eventId == id {
        assert Without(ds, id) == Without(ds[1..], id);
        CommittedEventIsInert(registry, Process(registry, w, e, f).0, v, ds[1..], id);
      } else {
        assert Without(ds, id)[0] == ds[0] && Without(ds, id)[1..] == Without(ds[1..], id);
        OthersIgnoreKey(registry, w, v, e, f, id);
        CommittedEventIsInert(registry, Process(registry, w, e, f).0, Process(registry, v, e, f).0, ds[1..], id);
      }
    }
  }
}
