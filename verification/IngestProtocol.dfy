/**
 The ingest protocol under full concurrency: workers read or reclaim stream
 messages, reserve the event id in Redis, commit ledger row and business effect
 in one transaction, and acknowledge only afterwards.  Any worker may die at any
 point, keys may expire, Redis may be down and the stream may be trimmed.

 Commands that act on several messages at once (batch read, batch ack) appear as
 one step per message, so every interleaving of the batch form is included.
 What a transaction writes appears here as the ledger row alone; the tables it
 changes with it are added in `IngestDatabase`.
 */
module IngestProtocol {
  import opened Prelude

  type EventId = string
  type Worker = string

  datatype Message = Garbage | Carries(id: EventId)

  /** The `nth` delivery of a message, with the delivery count reported to the worker. */
  datatype Delivery = Delivery(msg: nat, nth: nat, reported: nat)

  /** Where a worker stands with the first message of its queue, or with its first dead letter. */
  datatype Stage = Idle | Reserved | InTransaction | Failed | Appended

  datatype Local = Local(queue: seq<Delivery>, stage: Stage, acks: set<nat>, deads: seq<Delivery>)

  const NEW_WORKER := Local([], Idle, {}, [])

  datatype State = State(
    stream: seq<Message>, trimmed: set<nat>,
    delivered: map<nat, nat>, acked: set<nat>,
    keys: set<EventId>,
    ledger: seq<EventId>, refused: set<EventId>,
    dlq: seq<nat>, retried: seq<Delivery>,
    workers: map<Worker, Local>)

  const START := State([], {}, map[], {}, {}, [], {}, [], [], map[])

  datatype Step =
    | Publish(message: Message)
    | Fetch(w: Worker, msg: nat)
    | Reclaim(w: Worker, msg: nat)
    | DropGarbage(w: Worker)
    | Reserve(w: Worker)
    | ReserveBlind(w: Worker, stored: bool)
    | SkipDuplicate(w: Worker)
    | Register(w: Worker)
    | LedgerDuplicate(w: Worker)
    | Commit(w: Worker, reported: bool)
    | Refuse(w: Worker)
    | Fail(w: Worker)
    | Release(w: Worker, ok: bool)
    | AppendDead(w: Worker)
    | AckDead(w: Worker)
    | Ack(w: Worker, msg: nat)
    | Crash(w: Worker)
    | Expire(id: EventId)
    | Trim(msg: nat)

  function LocalOf(s: State, w: Worker): Local {
    if w in s.workers then s.workers[w] else NEW_WORKER
  }

  predicate Has(s: State, m: nat, e: EventId) {
    m < |s.stream| && s.stream[m] == Carries(e)
  }

  /** The worker is at `stage` with an event message. */
  predicate At(s: State, w: Worker, stage: Stage) {
    && w in s.workers && s.workers[w].stage == stage
    && |s.workers[w].queue| > 0
    && s.workers[w].queue[0].msg < |s.stream|
    && s.stream[s.workers[w].queue[0].msg].Carries?
  }

  function Head(s: State, w: Worker): Delivery
    requires w in s.workers && |s.workers[w].queue| > 0
  {
    s.workers[w].queue[0]
  }

  function EventOf(s: State, w: Worker): EventId
    requires w in s.workers && |s.workers[w].queue| > 0
    requires Head(s, w).msg < |s.stream| && s.stream[Head(s, w).msg].Carries?
  {
    s.stream[Head(s, w).msg].id
  }

  /** All messages handled: the worker settles its batch. */
  predicate Settling(s: State, w: Worker, stage: Stage) {
    w in s.workers && s.workers[w].queue == [] && s.workers[w].stage == stage
  }

  ghost predicate Enabled(s: State, step: Step) {
    match step
    case Publish(_) => true
    case Fetch(w, m) =>
      && m < |s.stream| && m !in s.delivered && m !in s.trimmed
      && LocalOf(s, w).stage == Idle && LocalOf(s, w).acks == {} && LocalOf(s, w).deads == []
    case Reclaim(w, m) =>
      && m in s.delivered && m !in s.acked && m !in s.trimmed
      && LocalOf(s, w).stage == Idle && LocalOf(s, w).acks == {} && LocalOf(s, w).deads == []
    case DropGarbage(w) =>
      && w in s.workers && s.workers[w].stage == Idle && |s.workers[w].queue| > 0
      && Head(s, w).msg < |s.stream| && s.stream[Head(s, w).msg].Garbage?
    case Reserve(w) => At(s, w, Idle) && EventOf(s, w) !in s.keys
    case ReserveBlind(w, _) => At(s, w, Idle)
    case SkipDuplicate(w) => At(s, w, Idle) && EventOf(s, w) in s.keys
    case Register(w) =>
      // the primary key row is locked by any other transaction that has inserted it
      && At(s, w, Reserved) && EventOf(s, w) !in s.ledger
      && forall v :: v in s.workers && At(s, v, InTransaction) ==> EventOf(s, v) != EventOf(s, w)
    case LedgerDuplicate(w) => At(s, w, Reserved) && EventOf(s, w) in s.ledger
    case Commit(w, _) => At(s, w, InTransaction)
    case Refuse(w) => At(s, w, InTransaction)
    case Fail(w) => At(s, w, Reserved) || At(s, w, InTransaction)
    case Release(w, _) => At(s, w, Failed)
    case AppendDead(w) => Settling(s, w, Idle) && s.workers[w].deads != []
    case AckDead(w) => Settling(s, w, Appended) && s.workers[w].deads != []
    case Ack(w, m) => Settling(s, w, Idle) && s.workers[w].deads == [] && m in s.workers[w].acks
    case Crash(w) => w in s.workers
    case Expire(e) => e in s.keys
    case Trim(m) => m < |s.stream|
  }

  function Put(s: State, w: Worker, l: Local): State {
    s.(workers := s.workers[w := l])
  }

  /** The head is done with; an acknowledged one goes to the ack list. */
  function Done(s: State, w: Worker): State
    requires w in s.workers && |s.workers[w].queue| > 0
  {
    var l := s.workers[w];
    Put(s, w, l.(queue := l.queue[1..], stage := Idle, acks := l.acks + {l.queue[0].msg}))
  }

  function Staged(s: State, w: Worker, stage: Stage): State
    requires w in s.workers
  {
    Put(s, w, s.workers[w].(stage := stage))
  }

  function Enqueued(s: State, w: Worker, d: Delivery): State {
    Put(s, w, LocalOf(s, w).(queue := LocalOf(s, w).queue + [d]))
  }

  /** `maxDelivery` is `consumer_max_delivery`. */
  ghost function Apply(maxDelivery: int, s: State, step: Step): State
    requires Enabled(s, step)
  {
    match step
    case Publish(message) => s.(stream := s.stream + [message])
    case Fetch(w, m) => Enqueued(s, w, Delivery(m, 1, 1)).(delivered := s.delivered[m := 1])
    case Reclaim(w, m) =>
      // the count is read before XCLAIM raises it
      Enqueued(s, w, Delivery(m, s.delivered[m] + 1, s.delivered[m])).(delivered := s.delivered[m := s.delivered[m] + 1])
    case DropGarbage(w) =>
      var l := s.workers[w];
      Put(s, w, l.(queue := l.queue[1..], deads := l.deads + [l.queue[0]]))
    case Reserve(w) => Staged(s, w, Reserved).(keys := s.keys + {EventOf(s, w)})
    case ReserveBlind(w, stored) => Staged(s, w, Reserved).(keys := if stored then s.keys + {EventOf(s, w)} else s.keys)
    case SkipDuplicate(w) => Done(s, w)
    case Register(w) => Staged(s, w, InTransaction)
    case LedgerDuplicate(w) => Done(s, w)
    case Commit(w, reported) =>
      var e := EventOf(s, w);
      (if reported then Done(s, w) else Staged(s, w, Failed)).(ledger := s.ledger + [e])
    case Refuse(w) => Done(s, w).(refused := s.refused + {EventOf(s, w)})
    case Fail(w) => Staged(s, w, Failed)
    case Release(w, ok) =>
      var l := s.workers[w];
      var exhausted := l.queue[0].reported >= maxDelivery;
      Put(s, w, l.(queue := l.queue[1..], stage := Idle, deads := if exhausted then l.deads + [l.queue[0]] else l.deads))
      .(keys := if ok then s.keys - {EventOf(s, w)} else s.keys,
        retried := if exhausted then s.retried else s.retried + [l.queue[0]])
    case AppendDead(w) => Staged(s, w, Appended).(dlq := s.dlq + [s.workers[w].deads[0].msg])
    case AckDead(w) =>
      var l := s.workers[w];
      Put(s, w, l.(deads := l.deads[1..], stage := Idle)).(acked := s.acked + {l.deads[0].msg})
    case Ack(w, m) => Put(s, w, s.workers[w].(acks := s.workers[w].acks - {m})).(acked := s.acked + {m})
    case Crash(w) => s.(workers := s.workers - {w})
    case Expire(e) => s.(keys := s.keys - {e})
    case Trim(m) => s.(trimmed := s.trimmed + {m})
  }

  ghost predicate Run(maxDelivery: int, s: State, steps: seq<Step>)
    decreases |steps|
  {
    steps == [] || (Enabled(s, steps[0]) && Run(maxDelivery, Apply(maxDelivery, s, steps[0]), steps[1..]))
  }

  ghost function After(maxDelivery: int, s: State, steps: seq<Step>): State
    requires Run(maxDelivery, s, steps)
    decreases |steps|
  {
    if steps == [] then s else After(maxDelivery, Apply(maxDelivery, s, steps[0]), steps[1..])
  }

  // ---- at most once ----

  ghost predicate SafeInv(s: State) {
    && Distinct(s.ledger)
    && (forall w :: w in s.workers && s.workers[w].stage == InTransaction ==> At(s, w, InTransaction))
    && (forall w :: w in s.workers && At(s, w, InTransaction) ==> EventOf(s, w) !in s.ledger)
    && (forall w, v :: w in s.workers && v in s.workers && w != v && At(s, w, InTransaction) && At(s, v, InTransaction) ==>
          EventOf(s, w) != EventOf(s, v))
  }

  /** A worker inside a transaction was there before the step, on the same event, or has just entered. */
  lemma InTransactionBefore(maxDelivery: int, s: State, step: Step, v: Worker)
    requires SafeInv(s) && Enabled(s, step)
    requires var s' := Apply(maxDelivery, s, step); v in s'.workers && s'.workers[v].stage == InTransaction
    ensures var s' := Apply(maxDelivery, s, step);
            && At(s', v, InTransaction) && v in s.workers && |s.workers[v].queue| > 0
            && Head(s, v) == Head(s', v) && Head(s, v).msg < |s.stream| && s.stream[Head(s, v).msg].Carries?
            && EventOf(s, v) == EventOf(s', v)
            && (At(s, v, InTransaction) || (step.Register? && step.w == v))
  {
    if !(step.Register? && step.w == v) {
      UntouchedInTransaction(maxDelivery, s, step, v);
    }
  }

  /** A transaction goes on unless its own worker ends it. */
  lemma TransactionWaits(maxDelivery: int, s: State, step: Step, v: Worker)
    requires Enabled(s, step) && At(s, v, InTransaction)
    requires step.Commit? || step.Refuse? || step.Fail? || step.Crash? ==> step.w != v
    ensures v in Apply(maxDelivery, s, step).workers && Apply(maxDelivery, s, step).workers[v] == s.workers[v]
    ensures s.stream <= Apply(maxDelivery, s, step).stream
  {
  }

  lemma TransactionEnds(maxDelivery: int, s: State, step: Step)
    requires Enabled(s, step) && (step.Commit? || step.Refuse? || step.Fail? || step.Crash?)
    ensures var s' := Apply(maxDelivery, s, step); step.w !in s'.workers || s'.workers[step.w].stage != InTransaction
  {
  }

  lemma OnlyPublishesAdd(maxDelivery: int, s: State, step: Step)
    requires Enabled(s, step)
    ensures Apply(maxDelivery, s, step).stream == if step.Publish? then s.stream + [step.message] else s.stream
  {
  }

  lemma OnlyCommitsLedger(maxDelivery: int, s: State, step: Step)
    requires Enabled(s, step)
    ensures Apply(maxDelivery, s, step).ledger == if step.Commit? then s.ledger + [EventOf(s, step.w)] else s.ledger
  {
  }

  lemma UntouchedInTransaction(maxDelivery: int, s: State, step: Step, v: Worker)
    requires Enabled(s, step) && !(step.Register? && step.w == v)
    requires var s' := Apply(maxDelivery, s, step); v in s'.workers && s'.workers[v].stage == InTransaction
    ensures v in s.workers && Apply(maxDelivery, s, step).workers[v] == s.workers[v]
  {
  }

  lemma CommitKeepsSafe(maxDelivery: int, s: State, step: Step)
    requires SafeInv(s) && Enabled(s, step) && step.Commit?
    ensures SafeInv(Apply(maxDelivery, s, step))
  {
    var s' := Apply(maxDelivery, s, step);
    assert EventOf(s, step.w) !in s.ledger;
    forall v | v in s'.workers && s'.workers[v].stage == InTransaction
      ensures At(s', v, InTransaction) && EventOf(s', v) !in s'.ledger
    {
      InTransactionBefore(maxDelivery, s, step, v);
    }
  }

  lemma StepKeepsSafe(maxDelivery: int, s: State, step: Step)
    requires SafeInv(s) && Enabled(s, step)
    ensures SafeInv(Apply(maxDelivery, s, step))
  {
    if step.Commit? {
      CommitKeepsSafe(maxDelivery, s, step);
    } else {
      var s' := Apply(maxDelivery, s, step);
      assert s'.ledger == s.ledger;
      forall v | v in s'.workers && s'.workers[v].stage == InTransaction
        ensures At(s', v, InTransaction) && EventOf(s', v) !in s'.ledger
        ensures forall u :: u in s'.workers && u != v && At(s', u, InTransaction) ==> EventOf(s', u) != EventOf(s', v)
      {
        InTransactionBefore(maxDelivery, s, step, v);
        forall u | u in s'.workers && u != v && At(s', u, InTransaction) ensures EventOf(s', u) != EventOf(s', v) {
          InTransactionBefore(maxDelivery, s, step, u);
        }
      }
    }
  }

  lemma {:induction false} RunKeepsSafe(maxDelivery: int, s: State, steps: seq<Step>)
    requires SafeInv(s) && Run(maxDelivery, s, steps)
    ensures SafeInv(After(maxDelivery, s, steps))
    decreases |steps|
  {
    if steps != [] {
      StepKeepsSafe(maxDelivery, s, steps[0]);
      RunKeepsSafe(maxDelivery, Apply(maxDelivery, s, steps[0]), steps[1..]);
    }
  }

  /** The commits of event `e` in a run. */
  ghost function Commits(maxDelivery: int, s: State, steps: seq<Step>, e: EventId): nat
    requires Run(maxDelivery, s, steps)
    decreases |steps|
  {
    if steps == [] then 0
    else
      (if steps[0].Commit? && EventOf(s, steps[0].w) == e then 1 else 0)
      + Commits(maxDelivery, Apply(maxDelivery, s, steps[0]), steps[1..], e)
  }

  lemma {:induction false} CommitsAreLedgered(maxDelivery: int, s: State, steps: seq<Step>, e: EventId)
    requires SafeInv(s) && Run(maxDelivery, s, steps)
    ensures (if e in s.ledger then 1 else 0) + Commits(maxDelivery, s, steps, e)
            == if e in After(maxDelivery, s, steps).ledger then 1 else 0
    decreases |steps|
  {
    if steps != [] {
      StepKeepsSafe(maxDelivery, s, steps[0]);
      CommitsAreLedgered(maxDelivery, Apply(maxDelivery, s, steps[0]), steps[1..], e);
    }
  }

  /**
   Safety, under every step there is: an event commits at most once in a run, and
   it has committed exactly when the event is in the ledger.
   */
  lemma AtMostOnce(maxDelivery: int, steps: seq<Step>, e: EventId)
    requires Run(maxDelivery, START, steps)
    ensures Commits(maxDelivery, START, steps, e) == if e in After(maxDelivery, START, steps).ledger then 1 else 0
    ensures Distinct(After(maxDelivery, START, steps).ledger)
  {
    CommitsAreLedgered(maxDelivery, START, steps, e);
    RunKeepsSafe(maxDelivery, START, steps);
  }
}
