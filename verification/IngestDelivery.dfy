/**
 One delivery in the two models of it: whatever the processing function does under
 whatever faults, the worker of the ingest protocol can do, step by step, and ends
 with the same keys, the same ledger and the message where the batch loop puts it.
 */
module IngestDelivery {
  import opened Prelude
  import opened Schema
  import opened Handlers
  import opened OrderRuns
  import opened Processing
  import P = IngestProtocol

  // ---- the steps of one delivery ----

  /** What the transaction amounts to once the ledger row is in. */
  function HandlerStep(w: World, e: Event, f: Faults, worker: P.Worker): P.Step {
    match Handle(w.db, e.envelope, e.at)
    case Done(_) =>
      if f.database.DbFails? then P.Fail(worker) else P.Commit(worker, f.database.DbUp?)
    case Violates => P.Refuse(worker)
    case _ => P.Fail(worker)
  }

  /** The transaction, from a reserved event on. */
  function TransactionSteps(w: World, e: Event, f: Faults, worker: P.Worker): seq<P.Step> {
    if f.database == DbFails(AtRegister) then [P.Fail(worker)]
    else if InLedger(w.ledger, e.envelope.eventId) then [P.LedgerDuplicate(worker)]
    else if f.database == DbFails(AfterRegister) then [P.Register(worker), P.Fail(worker)]
    else [P.Register(worker), HandlerStep(w, e, f, worker)]
  }

  function ReserveStep(f: Faults, worker: P.Worker): P.Step {
    match f.claim
    case RedisUp => P.Reserve(worker)
    case RedisDown(stored) => P.ReserveBlind(worker, stored)
  }

  function DeliverySteps(w: World, e: Event, f: Faults, worker: P.Worker): seq<P.Step> {
    if f.claim.RedisUp? && e.envelope.eventId in w.keys then [P.SkipDuplicate(worker)]
    else
      [ReserveStep(f, worker)] + TransactionSteps(w, e, f, worker)
      + if Process(FULL_REGISTRY, w, e, f).1 == RETRY then [P.Release(worker, !f.releaseLost)] else []
  }

  // ---- the same state in both models ----

  /** Keys and ledger of the protocol are those of the world. */
  ghost predicate Agree(s: P.State, w: World) {
    && s.keys == w.keys
    && forall id :: id in s.ledger <==> InLedger(w.ledger, id)
  }

  /** The worker is about to handle the event, and nobody is committing it. */
  ghost predicate AboutTo(s: P.State, worker: P.Worker, id: string) {
    && P.At(s, worker, P.Idle) && P.EventOf(s, worker) == id
    && forall v :: v in s.workers && P.At(s, v, P.InTransaction) ==> P.EventOf(s, v) != id
  }

  /** Only the worker's own stage, and keys and ledger, have changed. */
  ghost predicate Underway(s: P.State, t: P.State, worker: P.Worker, stage: P.Stage) {
    && worker in s.workers && t.workers == s.workers[worker := s.workers[worker].(stage := stage)]
    && t == s.(keys := t.keys, ledger := t.ledger, workers := t.workers)
  }

  /** The worker is done with its first message, which now is where it belongs. */
  ghost predicate DealtWith(maxDelivery: int, s: P.State, t: P.State, worker: P.Worker, outcome: Outcome, refused: bool) {
    && worker in s.workers && |s.workers[worker].queue| > 0 && worker in t.workers
    && var l, d := s.workers[worker], s.workers[worker].queue[0];
       && t.workers[worker].queue == l.queue[1..] && t.workers[worker].stage == P.Idle
       && t.workers[worker].acks == l.acks + (if outcome in {PROCESSED, DUPLICATE} then {d.msg} else {})
       && t.workers[worker].deads == l.deads + (if outcome == RETRY && d.reported >= maxDelivery then [d] else [])
       && t.retried == s.retried + (if outcome == RETRY && d.reported < maxDelivery then [d] else [])
       && t.refused == s.refused + (if refused && d.msg < |s.stream| && s.stream[d.msg].Carries? then {s.stream[d.msg].id} else {})
       && (forall v :: v != worker ==> (v in t.workers <==> v in s.workers) && (v in s.workers ==> t.workers[v] == s.workers[v]))
       && t.stream == s.stream && t.trimmed == s.trimmed && t.delivered == s.delivered && t.acked == s.acked && t.dlq == s.dlq
  }

  // ---- runs ----

  lemma {:induction false} Appended(maxDelivery: int, s: P.State, a: seq<P.Step>, b: seq<P.Step>)
    requires P.Run(maxDelivery, s, a) && P.Run(maxDelivery, P.After(maxDelivery, s, a), b)
    ensures P.Run(maxDelivery, s, a + b) && P.After(maxDelivery, s, a + b) == P.After(maxDelivery, P.After(maxDelivery, s, a), b)
    decreases |a|
  {
    if a == [] {
      assert a + b == b;
    } else {
      assert (a + b)[0] == a[0] && (a + b)[1..] == a[1..] + b;
      Appended(maxDelivery, P.Apply(maxDelivery, s, a[0]), a[1..], b);
    }
  }

  lemma OneStep(maxDelivery: int, s: P.State, step: P.Step)
    requires P.Enabled(s, step)
    ensures P.Run(maxDelivery, s, [step]) && P.After(maxDelivery, s, [step]) == P.Apply(maxDelivery, s, step)
  {
    assert [step][1..] == [];
    assert P.Run(maxDelivery, P.Apply(maxDelivery, s, step), []);
  }

  lemma TwoSteps(maxDelivery: int, s: P.State, a: P.Step, b: P.Step)
    requires P.Enabled(s, a) && P.Enabled(P.Apply(maxDelivery, s, a), b)
    ensures P.Run(maxDelivery, s, [a, b])
    ensures P.After(maxDelivery, s, [a, b]) == P.Apply(maxDelivery, P.Apply(maxDelivery, s, a), b)
  {
    OneStep(maxDelivery, P.Apply(maxDelivery, s, a), b);
    assert [a, b][1..] == [b];
  }

  // ---- one delivery, stage by stage ----

  /** The key as the reservation leaves it. */
  function ReservedWorld(w: World, e: Event, f: Faults): World {
    if f.claim.RedisUp? || f.claim.stored then w.(keys := w.keys + {e.envelope.eventId}) else w
  }

  /** The worker is at `stage` with the event, and nobody is committing it. */
  ghost predicate AtStage(s: P.State, worker: P.Worker, stage: P.Stage, id: string) {
    && P.At(s, worker, stage) && P.EventOf(s, worker) == id
    && forall v :: v in s.workers && v != worker && P.At(s, v, P.InTransaction) ==> P.EventOf(s, v) != id
  }

  lemma Reserves(maxDelivery: int, s: P.State, w: World, e: Event, f: Faults, worker: P.Worker)
    requires AboutTo(s, worker, e.envelope.eventId) && Agree(s, w)
    requires !(f.claim.RedisUp? && e.envelope.eventId in w.keys)
    ensures P.Enabled(s, ReserveStep(f, worker))
    ensures var r := P.Apply(maxDelivery, s, ReserveStep(f, worker));
            Underway(s, r, worker, P.Reserved) && AtStage(r, worker, P.Reserved, e.envelope.eventId) && Agree(r, ReservedWorld(w, e, f))
  {
    var r := P.Apply(maxDelivery, s, ReserveStep(f, worker));
    assert forall v :: v in s.workers && v != worker ==> (P.At(r, v, P.InTransaction) <==> P.At(s, v, P.InTransaction));
  }

  lemma LedgerGains(a: seq<string>, ledger: seq<Event>, e: Event)
    requires forall id :: id in a <==> InLedger(ledger, id)
    ensures forall id :: id in a + [e.envelope.eventId] <==> InLedger(ledger + [e], id)
  {
    forall id ensures id in a + [e.envelope.eventId] <==> InLedger(ledger + [e], id) {
      if InLedger(ledger, id) {
        var i :| 0 <= i < |ledger| && ledger[i].envelope.eventId == id;
        assert (ledger + [e])[i] == ledger[i];
      }
      assert (ledger + [e])[|ledger|] == e;
    }
  }

  /** From the ledger row on: the handler's end is the protocol's. */
  lemma HandlerEnds(maxDelivery: int, s: P.State, w: World, e: Event, f: Faults, worker: P.Worker)
    requires AtStage(s, worker, P.InTransaction, e.envelope.eventId) && Agree(s, w)
    requires ReachesHandler(w, e, f)
    ensures P.Enabled(s, HandlerStep(w, e, f, worker))
    ensures var t, (w', outcome) := P.Apply(maxDelivery, s, HandlerStep(w, e, f, worker)), ApplyEvent(w, e, f.database);
            && Agree(t, w')
            && if outcome == RETRY then Underway(s, t, worker, P.Failed)
               else DealtWith(maxDelivery, s, t, worker, outcome, Handle(w.db, e.envelope, e.at).Violates?)
  {
    if Handle(w.db, e.envelope, e.at).Done? && !f.database.DbFails? { LedgerGains(s.ledger, w.ledger, e); }
  }

  lemma UnderwayDealt(maxDelivery: int, s: P.State, r: P.State, t: P.State, worker: P.Worker, stage: P.Stage, outcome: Outcome, refused: bool)
    requires Underway(s, r, worker, stage) && DealtWith(maxDelivery, r, t, worker, outcome, refused)
    ensures DealtWith(maxDelivery, s, t, worker, outcome, refused)
  {
  }

  lemma UnderwayOn(s: P.State, r: P.State, t: P.State, worker: P.Worker, stage: P.Stage, next: P.Stage)
    requires Underway(s, r, worker, stage) && Underway(r, t, worker, next)
    ensures Underway(s, t, worker, next)
  {
  }

  /** Registering the ledger row takes the worker into its transaction. */
  lemma Registers(maxDelivery: int, r: P.State, w: World, e: Event, worker: P.Worker)
    requires AtStage(r, worker, P.Reserved, e.envelope.eventId) && Agree(r, w) && !InLedger(w.ledger, e.envelope.eventId)
    ensures P.Enabled(r, P.Register(worker))
    ensures var t := P.Apply(maxDelivery, r, P.Register(worker));
            && Underway(r, t, worker, P.InTransaction) && AtStage(t, worker, P.InTransaction, e.envelope.eventId) && Agree(t, w)
  {
    var t := P.Apply(maxDelivery, r, P.Register(worker));
    assert forall v :: v in r.workers && v != worker ==> (P.At(t, v, P.InTransaction) <==> P.At(r, v, P.InTransaction));
  }

  lemma Fails(maxDelivery: int, s: P.State, w: World, worker: P.Worker)
    requires (P.At(s, worker, P.Reserved) || P.At(s, worker, P.InTransaction)) && Agree(s, w)
    ensures P.Enabled(s, P.Fail(worker))
    ensures Underway(s, P.Apply(maxDelivery, s, P.Fail(worker)), worker, P.Failed) && Agree(P.Apply(maxDelivery, s, P.Fail(worker)), w)
  {
  }

  /** How the transaction of a reserved event ends. */
  ghost predicate TransactionEnded(maxDelivery: int, r: P.State, t: P.State, w: World, e: Event, f: Faults, worker: P.Worker) {
    var (w', outcome) := ApplyEvent(w, e, f.database);
    && Agree(t, w')
    && if outcome == RETRY then Underway(r, t, worker, P.Failed)
       else DealtWith(maxDelivery, r, t, worker, outcome, ReachesHandler(w, e, f) && Handle(w.db, e.envelope, e.at).Violates?)
  }

  lemma RegisteredEnds(maxDelivery: int, r: P.State, w: World, e: Event, f: Faults, worker: P.Worker)
    requires AtStage(r, worker, P.Reserved, e.envelope.eventId) && Agree(r, w) && ReachesHandler(w, e, f)
    ensures P.Run(maxDelivery, r, TransactionSteps(w, e, f, worker))
    ensures TransactionEnded(maxDelivery, r, P.After(maxDelivery, r, TransactionSteps(w, e, f, worker)), w, e, f, worker)
  {
    Registers(maxDelivery, r, w, e, worker);
    HandlerEnds(maxDelivery, P.Apply(maxDelivery, r, P.Register(worker)), w, e, f, worker);
    TwoSteps(maxDelivery, r, P.Register(worker), HandlerStep(w, e, f, worker));
  }

  /** The transaction, from the reservation on. */
  lemma TransactionEnds(maxDelivery: int, r: P.State, w: World, e: Event, f: Faults, worker: P.Worker)
    requires AtStage(r, worker, P.Reserved, e.envelope.eventId) && Agree(r, w)
    ensures P.Run(maxDelivery, r, TransactionSteps(w, e, f, worker))
    ensures TransactionEnded(maxDelivery, r, P.After(maxDelivery, r, TransactionSteps(w, e, f, worker)), w, e, f, worker)
  {
    if f.database == DbFails(AtRegister) {
      Fails(maxDelivery, r, w, worker);
      OneStep(maxDelivery, r, P.Fail(worker));
    } else if InLedger(w.ledger, e.envelope.eventId) {
      OneStep(maxDelivery, r, P.LedgerDuplicate(worker));
    } else if f.database == DbFails(AfterRegister) {
      Registers(maxDelivery, r, w, e, worker);
      Fails(maxDelivery, P.Apply(maxDelivery, r, P.Register(worker)), w, worker);
      TwoSteps(maxDelivery, r, P.Register(worker), P.Fail(worker));
    } else {
      RegisteredEnds(maxDelivery, r, w, e, f, worker);
    }
  }

  /** A failed delivery releases its key, or fails to, and is handed back or dead-lettered. */
  lemma Releases(maxDelivery: int, s: P.State, w: World, e: Event, f: Faults, worker: P.Worker)
    requires P.At(s, worker, P.Failed) && P.EventOf(s, worker) == e.envelope.eventId && Agree(s, w)
    ensures P.Enabled(s, P.Release(worker, !f.releaseLost))
    ensures var t := P.Apply(maxDelivery, s, P.Release(worker, !f.releaseLost));
            && DealtWith(maxDelivery, s, t, worker, RETRY, false)
            && Agree(t, if f.releaseLost then w else w.(keys := w.keys - {e.envelope.eventId}))
  {
  }

  /** How a delivery ends in both models. */
  ghost predicate DeliveryEnded(maxDelivery: int, s: P.State, t: P.State, w: World, e: Event, f: Faults, worker: P.Worker) {
    var (w', outcome) := Process(FULL_REGISTRY, w, e, f);
    && Agree(t, w')
    && DealtWith(maxDelivery, s, t, worker, outcome,
                 !SeenReserved(w, e, f) && ReachesHandler(w, e, f) && Handle(w.db, e.envelope, e.at).Violates?)
  }

  lemma ProcessFromReservation(w: World, e: Event, f: Faults)
    requires !SeenReserved(w, e, f) && e.envelope.eventType in FULL_REGISTRY
    ensures var (w', outcome) := ApplyEvent(ReservedWorld(w, e, f), e, f.database);
            Process(FULL_REGISTRY, w, e, f)
            == (if outcome == RETRY && !f.releaseLost then w'.(keys := w'.keys - {e.envelope.eventId}) else w', outcome)
    ensures ReachesHandler(ReservedWorld(w, e, f), e, f) <==> ReachesHandler(w, e, f)
    ensures Handle(ReservedWorld(w, e, f).db, e.envelope, e.at) == Handle(w.db, e.envelope, e.at)
  {
  }

  lemma SettledDelivery(maxDelivery: int, s: P.State, r: P.State, t: P.State, w: World, e: Event, f: Faults, worker: P.Worker)
    requires !SeenReserved(w, e, f) && e.envelope.eventType in FULL_REGISTRY
    requires Underway(s, r, worker, P.Reserved) && TransactionEnded(maxDelivery, r, t, ReservedWorld(w, e, f), e, f, worker)
    requires ApplyEvent(ReservedWorld(w, e, f), e, f.database).1 != RETRY
    ensures DeliveryEnded(maxDelivery, s, t, w, e, f, worker)
  {
    ProcessFromReservation(w, e, f);
    UnderwayDealt(maxDelivery, s, r, t, worker, P.Reserved, ApplyEvent(ReservedWorld(w, e, f), e, f.database).1,
                  ReachesHandler(w, e, f) && Handle(w.db, e.envelope, e.at).Violates?);
  }

  lemma FailedDelivery(maxDelivery: int, s: P.State, r: P.State, t: P.State, w: World, e: Event, f: Faults, worker: P.Worker)
    requires AboutTo(s, worker, e.envelope.eventId) && !SeenReserved(w, e, f) && e.envelope.eventType in FULL_REGISTRY
    requires Underway(s, r, worker, P.Reserved) && TransactionEnded(maxDelivery, r, t, ReservedWorld(w, e, f), e, f, worker)
    requires ApplyEvent(ReservedWorld(w, e, f), e, f.database).1 == RETRY
    ensures P.Enabled(t, P.Release(worker, !f.releaseLost))
    ensures DeliveryEnded(maxDelivery, s, P.Apply(maxDelivery, t, P.Release(worker, !f.releaseLost)), w, e, f, worker)
  {
    ProcessFromReservation(w, e, f);
    UnderwayOn(s, r, t, worker, P.Reserved, P.Failed);
    Releases(maxDelivery, t, ApplyEvent(ReservedWorld(w, e, f), e, f.database).0, e, f, worker);
    UnderwayDealt(maxDelivery, s, t, P.Apply(maxDelivery, t, P.Release(worker, !f.releaseLost)), worker, P.Failed, RETRY, false);
    RetriedIsNotRefused(w, e, f);
  }

  lemma RetriedIsNotRefused(w: World, e: Event, f: Faults)
    requires ApplyEvent(ReservedWorld(w, e, f), e, f.database).1 == RETRY
    ensures !(ReachesHandler(w, e, f) && Handle(w.db, e.envelope, e.at).Violates?)
  {
  }

  lemma SkippedDelivery(maxDelivery: int, s: P.State, w: World, e: Event, f: Faults, worker: P.Worker)
    requires AboutTo(s, worker, e.envelope.eventId) && Agree(s, w) && SeenReserved(w, e, f) && e.envelope.eventType in FULL_REGISTRY
    ensures P.Enabled(s, P.SkipDuplicate(worker))
    ensures DeliveryEnded(maxDelivery, s, P.Apply(maxDelivery, s, P.SkipDuplicate(worker)), w, e, f, worker)
  {
  }

  /**
   Every delivery the processing function describes is one the protocol can make:
   the worker's steps lead to the same keys and the same ledger, and the message
   ends acknowledged, dead-lettered or handed back as its outcome says.
   */
  lemma DeliveryIsProtocolRun(maxDelivery: int, s: P.State, w: World, e: Event, f: Faults, worker: P.Worker)
    requires AboutTo(s, worker, e.envelope.eventId) && Agree(s, w) && e.envelope.eventType in FULL_REGISTRY
    ensures P.Run(maxDelivery, s, DeliverySteps(w, e, f, worker))
    ensures DeliveryEnded(maxDelivery, s, P.After(maxDelivery, s, DeliverySteps(w, e, f, worker)), w, e, f, worker)
  {
    if SeenReserved(w, e, f) {
      SkippedDelivery(maxDelivery, s, w, e, f, worker);
      OneStep(maxDelivery, s, P.SkipDuplicate(worker));
    } else {
      ReservedDelivery(maxDelivery, s, w, e, f, worker);
    }
  }

  lemma ReservedDelivery(maxDelivery: int, s: P.State, w: World, e: Event, f: Faults, worker: P.Worker)
    requires AboutTo(s, worker, e.envelope.eventId) && Agree(s, w) && !SeenReserved(w, e, f) && e.envelope.eventType in FULL_REGISTRY
    ensures P.Run(maxDelivery, s, DeliverySteps(w, e, f, worker))
    ensures DeliveryEnded(maxDelivery, s, P.After(maxDelivery, s, DeliverySteps(w, e, f, worker)), w, e, f, worker)
  {
    var reserve, rest, release := ReserveStep(f, worker), TransactionSteps(w, e, f, worker), P.Release(worker, !f.releaseLost);
    assert rest == TransactionSteps(ReservedWorld(w, e, f), e, f, worker);
    Reserves(maxDelivery, s, w, e, f, worker);
    OneStep(maxDelivery, s, reserve);
    var r := P.Apply(maxDelivery, s, reserve);
    TransactionEnds(maxDelivery, r, ReservedWorld(w, e, f), e, f, worker);
    Appended(maxDelivery, s, [reserve], rest);
    var t := P.After(maxDelivery, r, rest);
    ProcessFromReservation(w, e, f);
    if Process(FULL_REGISTRY, w, e, f).1 == RETRY {
      FailedDelivery(maxDelivery, s, r, t, w, e, f, worker);
      OneStep(maxDelivery, t, release);
      Appended(maxDelivery, s, [reserve] + rest, [release]);
    } else {
      SettledDelivery(maxDelivery, s, r, t, w, e, f, worker);
      assert [reserve] + rest + [] == [reserve] + rest;
    }
  }

  // ---- the end of a batch ----

  function MsgsOf(deads: seq<P.Delivery>): seq<nat> {
    if deads == [] then [] else [deads[0].msg] + MsgsOf(deads[1..])
  }

  /** The state in which `s` would be with these dead letters appended, these messages acknowledged and this worker. */
  function SettledTo(s: P.State, worker: P.Worker, l: P.Local, dead: seq<nat>, acked: set<nat>): P.State {
    s.(dlq := s.dlq + dead, acked := s.acked + acked, workers := s.workers[worker := l])
  }

  lemma OneDead(maxDelivery: int, s: P.State, worker: P.Worker)
    requires P.Settling(s, worker, P.Idle) && s.workers[worker].deads != []
    ensures P.Run(maxDelivery, s, [P.AppendDead(worker), P.AckDead(worker)])
    ensures var l := s.workers[worker];
            P.After(maxDelivery, s, [P.AppendDead(worker), P.AckDead(worker)])
            == SettledTo(s, worker, l.(deads := l.deads[1..]), [l.deads[0].msg], {l.deads[0].msg})
  {
    TwoSteps(maxDelivery, s, P.AppendDead(worker), P.AckDead(worker));
    var l := s.workers[worker];
    var t := P.Apply(maxDelivery, P.Apply(maxDelivery, s, P.AppendDead(worker)), P.AckDead(worker));
    assert t.workers == s.workers[worker := l.(deads := l.deads[1..])];
  }

  lemma {:induction false} DeadsSettle(maxDelivery: int, s: P.State, worker: P.Worker) returns (steps: seq<P.Step>)
    requires P.Settling(s, worker, P.Idle)
    ensures P.Run(maxDelivery, s, steps)
    ensures var l := s.workers[worker]; var dead := MsgsOf(l.deads);
            P.After(maxDelivery, s, steps) == SettledTo(s, worker, l.(deads := []), dead, set m | m in dead)
    decreases |s.workers[worker].deads|
  {
    var l := s.workers[worker];
    if l.deads == [] {
      steps := [];
      assert s.workers[worker := l] == s.workers;
    } else {
      OneDead(maxDelivery, s, worker);
      var s' := P.After(maxDelivery, s, [P.AppendDead(worker), P.AckDead(worker)]);
      var rest := DeadsSettle(maxDelivery, s', worker);
      Appended(maxDelivery, s, [P.AppendDead(worker), P.AckDead(worker)], rest);
      steps := [P.AppendDead(worker), P.AckDead(worker)] + rest;
      var dead := MsgsOf(l.deads);
      assert s.dlq + dead == s'.dlq + MsgsOf(l.deads[1..]);
      assert s.acked + (set m | m in dead) == s'.acked + (set m | m in MsgsOf(l.deads[1..]));
    }
  }

  lemma {:induction false} AcksSettle(maxDelivery: int, s: P.State, worker: P.Worker) returns (steps: seq<P.Step>)
    requires P.Settling(s, worker, P.Idle) && s.workers[worker].deads == []
    ensures P.Run(maxDelivery, s, steps)
    ensures var l := s.workers[worker]; P.After(maxDelivery, s, steps) == SettledTo(s, worker, l.(acks := {}), [], l.acks)
    decreases |s.workers[worker].acks|
  {
    var l := s.workers[worker];
    if l.acks == {} {
      steps := [];
      assert s.workers[worker := l] == s.workers && s.dlq + [] == s.dlq;
    } else {
      var m :| m in l.acks;
      OneStep(maxDelivery, s, P.Ack(worker, m));
      var s' := P.Apply(maxDelivery, s, P.Ack(worker, m));
      var rest := AcksSettle(maxDelivery, s', worker);
      Appended(maxDelivery, s, [P.Ack(worker, m)], rest);
      steps := [P.Ack(worker, m)] + rest;
      assert s.acked + l.acks == s'.acked + s'.workers[worker].acks;
    }
  }

  /**
   A worker through with its batch can settle it: its dead letters are appended in
   order and acknowledged, then its acknowledgements made, and it is ready to read again.
   */
  lemma BatchSettles(maxDelivery: int, s: P.State, worker: P.Worker) returns (steps: seq<P.Step>)
    requires P.Settling(s, worker, P.Idle)
    ensures P.Run(maxDelivery, s, steps)
    ensures var l := s.workers[worker]; var dead := MsgsOf(l.deads);
            P.After(maxDelivery, s, steps) == SettledTo(s, worker, P.NEW_WORKER, dead, (set m | m in dead) + l.acks)
  {
    var l := s.workers[worker];
    var dead := MsgsOf(l.deads);
    var first := DeadsSettle(maxDelivery, s, worker);
    var s' := P.After(maxDelivery, s, first);
    var rest := AcksSettle(maxDelivery, s', worker);
    Appended(maxDelivery, s, first, rest);
    steps := first + rest;
    assert s.dlq + dead + [] == s.dlq + dead && s.acked + (set m | m in dead) + l.acks == s.acked + ((set m | m in dead) + l.acks);
  }

  /** The worker is through with its batch, and a dead letter it is about to acknowledge is in the stream. */
  ghost predicate SettlingBatch(s: P.State, worker: P.Worker) {
    && worker in s.workers && s.workers[worker].queue == []
    && var l := s.workers[worker];
       l.stage == P.Idle || (l.stage == P.Appended && l.deads != [] && l.deads[0].msg in s.dlq)
  }

  /** Unless it dies, the worker goes on settling until no dead letter is left, each appended before it goes. */
  lemma SettlingGoesOn(maxDelivery: int, s: P.State, step: P.Step, worker: P.Worker)
    requires SettlingBatch(s, worker) && P.Enabled(s, step) && step != P.Crash(worker) && s.workers[worker].deads != []
    ensures var s' := P.Apply(maxDelivery, s, step);
            && SettlingBatch(s', worker) && s.dlq <= s'.dlq
            && forall d :: d in s.workers[worker].deads ==> d in s'.workers[worker].deads || d.msg in s'.dlq
    ensures !(step.Ack? && step.w == worker)
  {
    var deads := s.workers[worker].deads;
    assert deads == [deads[0]] + deads[1..];
  }

  lemma DlqGrows(maxDelivery: int, s: P.State, step: P.Step)
    requires P.Enabled(s, step)
    ensures s.dlq <= P.Apply(maxDelivery, s, step).dlq
  {
  }

  lemma {:induction false} DlqStays(maxDelivery: int, s: P.State, steps: seq<P.Step>)
    requires P.Run(maxDelivery, s, steps)
    ensures s.dlq <= P.After(maxDelivery, s, steps).dlq
    decreases |steps|
  {
    if steps != [] {
      DlqGrows(maxDelivery, s, steps[0]);
      DlqStays(maxDelivery, P.Apply(maxDelivery, s, steps[0]), steps[1..]);
    }
  }

  /**
   A worker acknowledges nothing of its batch before its dead letters: once it has,
   unless it died in between, every one of them is in the stream.
   */
  lemma {:induction false} DeadLettersComeFirst(maxDelivery: int, s: P.State, steps: seq<P.Step>, worker: P.Worker, k: nat)
    requires SettlingBatch(s, worker) && P.Run(maxDelivery, s, steps)
    requires k < |steps| && steps[k].Ack? && steps[k].w == worker && forall j :: 0 <= j < k ==> steps[j] != P.Crash(worker)
    ensures forall d :: d in s.workers[worker].deads ==> d.msg in P.After(maxDelivery, s, steps).dlq
    decreases |steps|
  {
    if s.workers[worker].deads != [] {
      var s' := P.Apply(maxDelivery, s, steps[0]);
      SettlingGoesOn(maxDelivery, s, steps[0], worker);
      DlqStays(maxDelivery, s', steps[1..]);
      DeadLettersComeFirst(maxDelivery, s', steps[1..], worker, k - 1);
    }
  }

  /**
   A new message is read by one worker, as its first delivery; one not acknowledged
   can be reclaimed by any, its count one behind; and a worker that has just read
   can read more behind it.
   */
  lemma DeliveriesCount(maxDelivery: int, s: P.State, worker: P.Worker, m: nat)
    requires var l := P.LocalOf(s, worker); l.stage == P.Idle && l.acks == {} && l.deads == []
    requires m < |s.stream| && m !in s.trimmed && m !in s.acked
    ensures var step := if m in s.delivered then P.Reclaim(worker, m) else P.Fetch(worker, m);
            && P.Enabled(s, step)
            && var t := P.Apply(maxDelivery, s, step);
               && worker in t.workers
               && t.workers[worker].queue
                  == P.LocalOf(s, worker).queue
                     + [if m in s.delivered then P.Delivery(m, s.delivered[m] + 1, s.delivered[m]) else P.Delivery(m, 1, 1)]
               && t.delivered == s.delivered[m := (if m in s.delivered then s.delivered[m] else 0) + 1]
               && (m in s.delivered <==> !P.Enabled(s, P.Fetch(worker, m)))
  {
  }

  /** A trimmed message is never delivered again, nor for the first time, whatever happens. */
  lemma {:induction false} TrimmedIsNotDelivered(maxDelivery: int, s: P.State, steps: seq<P.Step>, m: nat)
    requires m in s.trimmed && P.Run(maxDelivery, s, steps)
    ensures var s' := P.After(maxDelivery, s, steps);
            && (m in s'.delivered <==> m in s.delivered)
            && (m in s.delivered ==> s'.delivered[m] == s.delivered[m])
    decreases |steps|
  {
    if steps != [] {
      TrimmedIsNotDelivered(maxDelivery, P.Apply(maxDelivery, s, steps[0]), steps[1..], m);
    }
  }

  /** A key that expires opens its event to the next worker, whether or not the one before is done with it. */
  lemma ExpiredKeyIsFree(maxDelivery: int, s: P.State, worker: P.Worker, id: string)
    requires P.At(s, worker, P.Idle) && P.EventOf(s, worker) == id && id in s.keys
    ensures P.Enabled(s, P.Expire(id)) && !P.Enabled(s, P.Reserve(worker))
    ensures var t := P.Apply(maxDelivery, s, P.Expire(id));
            P.Enabled(t, P.Reserve(worker)) && t.keys == s.keys - {id} && t.workers == s.workers && t.ledger == s.ledger
  {
  }
}
