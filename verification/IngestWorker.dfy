/** The event processor and the ingest worker's batch loop, in place. */
module IngestWorkers {
  import opened Prelude
  import opened Schema
  import opened OrderRuns
  import opened Processing
  import opened UnitOfWorks
  import Handlers

  class EventProcessor {
    const registry: set<EventType>
    const database: Database
    var keys: set<string>

    constructor (registry: set<EventType>, database: Database)
      ensures this.registry == registry && this.database == database && keys == {}
    {
      this.registry, this.database, keys := registry, database, {};
    }

    function World(): Processing.World
      reads this, database
    {
      Processing.World(keys, database.ledger, database.tables)
    }

    /** `SET key NX EX`; an unreachable Redis counts as reserved. */
    method Claim(id: string, fault: RedisFault) returns (claimed: bool)
      modifies this
      ensures claimed <==> fault.RedisDown? || id !in old(keys)
      ensures keys == if fault.RedisUp? || fault.stored then old(keys) + {id} else old(keys)
    {
      match fault {
        case RedisUp =>
          claimed := id !in keys;
          keys := keys + {id};
        case RedisDown(stored) =>
          claimed := true;
          if stored { keys := keys + {id}; }
      }
    }

    method Release(id: string, lost: bool)
      modifies this
      ensures keys == if lost then old(keys) else old(keys) - {id}
    {
      if !lost { keys := keys - {id}; }
    }

    /**
     One transaction: ledger row and business effect commit together or not at
     all.  An error raised inside it leaves through `__exit__`, which rolls back.
     */
    method Apply(e: Event, fault: DbFault) returns (outcome: Outcome)
      modifies database
      ensures (World(), outcome) == ApplyEvent(old(World()), e, fault)
    {
      var uow := new UnitOfWork(database);
      if fault == DbFails(AtRegister) {
        uow.Rollback();
        return RETRY;
      }
      var inserted := uow.Register(e);
      if !inserted {
        uow.Rollback();
        return DUPLICATE;
      }
      if fault == DbFails(AfterRegister) {
        uow.Rollback();
        return RETRY;
      }
      var raised := uow.Handle(e.envelope, e.at);
      match raised {
        case Nothing =>
          if fault.DbFails? {
            uow.Rollback();
            return RETRY;
          }
          uow.Commit();
          return if fault.DbUp? then PROCESSED else RETRY;
        case IntegrityError =>
          uow.Rollback();
          return DUPLICATE;
        case _ =>
          uow.Rollback();
          return RETRY;
      }
    }

    method ProcessEvent(e: Event, f: Faults) returns (outcome: Outcome)
      modifies this, database
      ensures (World(), outcome) == Process(registry, old(World()), e, f)
    {
      if e.envelope.eventType !in registry { return REJECTED; }
      var claimed := Claim(e.envelope.eventId, f.claim);
      if !claimed {
        assert keys == old(keys);
        return DUPLICATE;
      }
      outcome := Apply(e, f.database);
      if outcome == RETRY {
        Release(e.envelope.eventId, f.releaseLost);
      }
    }
  }

  // ---- one batch ----

  /** A stream message as `read` or `reclaim_abandoned` reports it; `None` is a payload that does not parse. */
  datatype StreamMessage = StreamMessage(id: string, payload: Option<Event>, deliveryCount: int, faults: Faults)

  datatype Batch = Batch(world: Processing.World, acks: seq<string>, deads: seq<string>)

  /** What a batch leaves: the world, the ids to acknowledge and the ids for the dead-letter stream. */
  function Persisted(registry: set<EventType>, maxDelivery: int, w: Processing.World, ms: seq<StreamMessage>): Batch {
    if ms == [] then Batch(w, [], [])
    else
      var b := Persisted(registry, maxDelivery, w, ms[..|ms| - 1]);
      var m := ms[|ms| - 1];
      if m.payload.None? then b.(deads := b.deads + [m.id])
      else
        var (w', outcome) := Process(registry, b.world, m.payload.value, m.faults);
        if ShouldAck(outcome) then Batch(w', b.acks + [m.id], b.deads)
        else if m.deliveryCount >= maxDelivery then Batch(w', b.acks, b.deads + [m.id])
        else b.(world := w')
  }

  class IngestWorker {
    const processor: EventProcessor
    const maxDelivery: int

    constructor (processor: EventProcessor, maxDelivery: int)
      ensures this.processor == processor && this.maxDelivery == maxDelivery
    {
      this.processor, this.maxDelivery := processor, maxDelivery;
    }

    method Persist(messages: seq<StreamMessage>) returns (acks: seq<string>, deads: seq<string>)
      modifies processor, processor.database
      ensures Batch(processor.World(), acks, deads)
              == Persisted(processor.registry, maxDelivery, old(processor.World()), messages)
    {
      acks, deads := [], [];
      var k := 0;
      while k < |messages|
        invariant 0 <= k <= |messages|
        invariant Batch(processor.World(), acks, deads)
                  == Persisted(processor.registry, maxDelivery, old(processor.World()), messages[..k])
      {
        var m := messages[k];
        assert messages[..k + 1][..k] == messages[..k];
        match m.payload {
          case None =>
            deads := deads + [m.id];
          case Some(e) =>
            var outcome := processor.ProcessEvent(e, m.faults);
            if ShouldAck(outcome) {
              acks := acks + [m.id];
            } else if m.deliveryCount >= maxDelivery {
              deads := deads + [m.id];
            }
        }
        k := k + 1;
      }
      assert messages[..k] == messages;
    }
  }

  /** A batch keeps the database a replay of its ledger. */
  lemma {:induction false} BatchKeepsReplay(registry: set<EventType>, maxDelivery: int, w: Processing.World, ms: seq<StreamMessage>)
    requires IsReplay(w)
    ensures IsReplay(Persisted(registry, maxDelivery, w, ms).world)
  {
    if ms != [] {
      BatchKeepsReplay(registry, maxDelivery, w, ms[..|ms| - 1]);
      var m := ms[|ms| - 1];
      if m.payload.Some? {
        ProcessKeepsReplay(registry, Persisted(registry, maxDelivery, w, ms[..|ms| - 1]).world, m.payload.value, m.faults);
      }
    }
  }

  // ---- the fate of each message ----

  /** How the delivery of message `k` of the batch ended. */
  function EndedAs(registry: set<EventType>, maxDelivery: int, w: Processing.World, ms: seq<StreamMessage>, k: nat): Outcome
    requires k < |ms| && ms[k].payload.Some?
  {
    Process(registry, Persisted(registry, maxDelivery, w, ms[..k]).world, ms[k].payload.value, ms[k].faults).1
  }

  predicate Acknowledged(registry: set<EventType>, maxDelivery: int, w: Processing.World, ms: seq<StreamMessage>, k: nat)
    requires k < |ms|
  {
    ms[k].payload.Some? && EndedAs(registry, maxDelivery, w, ms, k) in {PROCESSED, DUPLICATE, REJECTED}
  }

  predicate DeadLettered(registry: set<EventType>, maxDelivery: int, w: Processing.World, ms: seq<StreamMessage>, k: nat)
    requires k < |ms|
  {
    ms[k].payload.None? || (EndedAs(registry, maxDelivery, w, ms, k) == RETRY && ms[k].deliveryCount >= maxDelivery)
  }

  /**
   What message `k` adds: its id to the acknowledged ones exactly if it parses and
   its delivery ended processed, a duplicate or rejected; to the dead letters
   exactly if it does not parse, or is to be retried at its last delivery; nothing
   exactly if it is to be retried before that.
   */
  lemma MessageAdds(registry: set<EventType>, maxDelivery: int, w: Processing.World, ms: seq<StreamMessage>, k: nat)
    requires k < |ms|
    ensures var b, b' := Persisted(registry, maxDelivery, w, ms[..k]), Persisted(registry, maxDelivery, w, ms[..k + 1]);
            && b'.acks == b.acks + (if Acknowledged(registry, maxDelivery, w, ms, k) then [ms[k].id] else [])
            && b'.deads == b.deads + (if DeadLettered(registry, maxDelivery, w, ms, k) then [ms[k].id] else [])
            && (b'.acks == b.acks && b'.deads == b.deads <==>
                  ms[k].payload.Some? && EndedAs(registry, maxDelivery, w, ms, k) == RETRY && ms[k].deliveryCount < maxDelivery)
            && b'.world == (if ms[k].payload.None? then b.world
                            else Process(registry, b.world, ms[k].payload.value, ms[k].faults).0)
  {
    assert ms[..k + 1][..k] == ms[..k];
    var b, b' := Persisted(registry, maxDelivery, w, ms[..k]), Persisted(registry, maxDelivery, w, ms[..k + 1]);
    assert |b.acks + [ms[k].id]| == |b.acks| + 1 && |b.deads + [ms[k].id]| == |b.deads| + 1;
  }

  /** Message numbers of a batch, in order: those `acknowledged`, or dead-lettered. */
  ghost function Chosen(registry: set<EventType>, maxDelivery: int, w: Processing.World, ms: seq<StreamMessage>, n: nat, dead: bool): seq<nat>
    requires n <= |ms|
  {
    if n == 0 then []
    else
      Chosen(registry, maxDelivery, w, ms, n - 1, dead)
      + if (if dead then DeadLettered(registry, maxDelivery, w, ms, n - 1) else Acknowledged(registry, maxDelivery, w, ms, n - 1))
        then [n - 1] else []
  }

  lemma {:induction false} ChosenInRange(registry: set<EventType>, maxDelivery: int, w: Processing.World, ms: seq<StreamMessage>, n: nat, dead: bool)
    requires n <= |ms|
    ensures var at := Chosen(registry, maxDelivery, w, ms, n, dead);
            && (forall j, k :: 0 <= j < k < |at| ==> at[j] < at[k])
            && (forall k :: 0 <= k < |at| ==> at[k] < n)
            && (forall k :: 0 <= k < n ==>
                 (k in at <==> if dead then DeadLettered(registry, maxDelivery, w, ms, k) else Acknowledged(registry, maxDelivery, w, ms, k)))
  {
    if n > 0 { ChosenInRange(registry, maxDelivery, w, ms, n - 1, dead); }
  }

  /** The two lists of a batch are the ids of exactly these messages, in the order of the batch. */
  lemma {:induction false} BatchLists(registry: set<EventType>, maxDelivery: int, w: Processing.World, ms: seq<StreamMessage>, n: nat)
    requires n <= |ms|
    ensures var b := Persisted(registry, maxDelivery, w, ms[..n]);
            var acked, dead := Chosen(registry, maxDelivery, w, ms, n, false), Chosen(registry, maxDelivery, w, ms, n, true);
            && |b.acks| == |acked| && (forall k :: 0 <= k < |acked| ==> acked[k] < n && b.acks[k] == ms[acked[k]].id)
            && |b.deads| == |dead| && (forall k :: 0 <= k < |dead| ==> dead[k] < n && b.deads[k] == ms[dead[k]].id)
  {
    if n > 0 {
      BatchLists(registry, maxDelivery, w, ms, n - 1);
      MessageAdds(registry, maxDelivery, w, ms, n - 1);
    }
  }

  lemma {:induction false} CommittedThroughBatch(registry: set<EventType>, maxDelivery: int, w: Processing.World, ms: seq<StreamMessage>, k: nat, id: string)
    requires k <= |ms| && InLedger(Persisted(registry, maxDelivery, w, ms[..k]).world.ledger, id)
    ensures InLedger(Persisted(registry, maxDelivery, w, ms).world.ledger, id)
    decreases |ms| - k
  {
    if k == |ms| {
      assert ms[..k] == ms;
    } else {
      MessageAdds(registry, maxDelivery, w, ms, k);
      if ms[k].payload.Some? {
        CommittedStays(registry, Persisted(registry, maxDelivery, w, ms[..k]).world, ms[k].payload.value, ms[k].faults, id);
      }
      CommittedThroughBatch(registry, maxDelivery, w, ms, k + 1, id);
    }
  }

  /**
   An event of a batch that is acknowledged, its key unset when its turn came, is in
   the ledger after the batch, or was refused by a constraint, or is of a type
   without a handler.
   */
  lemma AcknowledgedIsSafe(registry: set<EventType>, maxDelivery: int, w: Processing.World, ms: seq<StreamMessage>, k: nat)
    requires k < |ms| && Acknowledged(registry, maxDelivery, w, ms, k)
    requires ms[k].payload.value.envelope.eventId !in Persisted(registry, maxDelivery, w, ms[..k]).world.keys
    ensures var e, turn := ms[k].payload.value, Persisted(registry, maxDelivery, w, ms[..k]).world;
            || InLedger(Persisted(registry, maxDelivery, w, ms).world.ledger, e.envelope.eventId)
            || Handlers.Handle(turn.db, e.envelope, e.at).Violates?
            || e.envelope.eventType !in registry
  {
    var e, turn := ms[k].payload.value, Persisted(registry, maxDelivery, w, ms[..k]).world;
    AcknowledgedIsDealtWith(registry, turn, e, ms[k].faults);
    MessageAdds(registry, maxDelivery, w, ms, k);
    if InLedger(Process(registry, turn, e, ms[k].faults).0.ledger, e.envelope.eventId) {
      CommittedThroughBatch(registry, maxDelivery, w, ms, k + 1, e.envelope.eventId);
    }
  }

  /** The ids acknowledged and dead-lettered, with multiplicity. */
  ghost function Decided(b: Batch): multiset<string> {
    multiset(b.acks) + multiset(b.deads)
  }

  /** What one message adds to the two lists: its id to one of them, or nothing if it is not at its last delivery. */
  ghost predicate Listed(b: Batch, b': Batch, m: StreamMessage, maxDelivery: int) {
    || (b'.acks == b.acks + [m.id] && b'.deads == b.deads)
    || (b'.acks == b.acks && b'.deads == b.deads + [m.id])
    || (b'.acks == b.acks && b'.deads == b.deads && m.deliveryCount < maxDelivery)
  }

  lemma LastListed(registry: set<EventType>, maxDelivery: int, w: Processing.World, ms: seq<StreamMessage>)
    requires ms != []
    ensures Listed(Persisted(registry, maxDelivery, w, ms[..|ms| - 1]), Persisted(registry, maxDelivery, w, ms),
                   ms[|ms| - 1], maxDelivery)
  {
  }

  lemma ListedIsDecided(b: Batch, b': Batch, m: StreamMessage, maxDelivery: int)
    requires Listed(b, b', m, maxDelivery)
    ensures Decided(b') == Decided(b) + multiset{m.id} || (Decided(b') == Decided(b) && m.deliveryCount < maxDelivery)
  {
    assert multiset(b.acks + [m.id]) == multiset(b.acks) + multiset{m.id};
    assert multiset(b.deads + [m.id]) == multiset(b.deads) + multiset{m.id};
  }

  /** The ids of a batch, with multiplicity. */
  ghost function IdsOf(ms: seq<StreamMessage>): multiset<string> {
    if ms == [] then multiset{} else IdsOf(ms[..|ms| - 1]) + multiset{ms[|ms| - 1].id}
  }

  /**
   Each message of a batch is acknowledged or dead-lettered at most once, never
   both; every one is, when all are at their last delivery.
   */
  lemma {:induction false} BatchSplits(registry: set<EventType>, maxDelivery: int, w: Processing.World, ms: seq<StreamMessage>)
    ensures Decided(Persisted(registry, maxDelivery, w, ms)) <= IdsOf(ms)
    ensures (forall k :: 0 <= k < |ms| ==> ms[k].deliveryCount >= maxDelivery) ==> Decided(Persisted(registry, maxDelivery, w, ms)) == IdsOf(ms)
  {
    if ms != [] {
      BatchSplits(registry, maxDelivery, w, ms[..|ms| - 1]);
      LastListed(registry, maxDelivery, w, ms);
      ListedIsDecided(Persisted(registry, maxDelivery, w, ms[..|ms| - 1]), Persisted(registry, maxDelivery, w, ms),
                      ms[|ms| - 1], maxDelivery);
      Grown(Decided(Persisted(registry, maxDelivery, w, ms[..|ms| - 1])), Decided(Persisted(registry, maxDelivery, w, ms)),
            IdsOf(ms[..|ms| - 1]), ms[|ms| - 1].id);
    }
  }

  lemma Grown(a: multiset<string>, a': multiset<string>, b: multiset<string>, id: string)
    requires a <= b && (a' == a + multiset{id} || a' == a)
    ensures a' <= b + multiset{id}
    ensures a == b && a' == a + multiset{id} ==> a' == b + multiset{id}
  {
  }
}
