/**
 The ingest protocol with the tables its transactions write.  A worker's
 transaction begins with its ledger row, reads and writes as `Transactions` says,
 and commits both or neither, while other workers do whatever the protocol allows.
 */
module IngestDatabase {
  import opened Prelude
  import opened Schema
  import opened Handlers
  import opened OrderTables
  import opened OrderRuns
  import opened Processing
  import P = IngestProtocol
  import T = Transactions
  import TransactionRuns

  /** `None` is a message whose payload does not parse. */
  datatype State = State(proto: P.State, contents: seq<Option<Envelope>>, tables: T.State)

  const START := State(P.START, [], T.START)

  datatype Step =
    | Publish(content: Option<Envelope>)
    | Register(w: P.Worker)
    | Commit(w: P.Worker, picks: T.Picks, at: Time, reported: bool)
    | Refuse(w: P.Worker, picks: T.Picks, at: Time)
    | Fail(w: P.Worker)
    | Crash(w: P.Worker)
    | Other(step: P.Step)

  function MessageOf(content: Option<Envelope>): P.Message {
    if content.None? then P.Garbage else P.Carries(content.value.eventId)
  }

  function ProtoStep(step: Step): P.Step {
    match step
    case Publish(content) => P.Publish(MessageOf(content))
    case Register(w) => P.Register(w)
    case Commit(w, _, _, reported) => P.Commit(w, reported)
    case Refuse(w, _, _) => P.Refuse(w)
    case Fail(w) => P.Fail(w)
    case Crash(w) => P.Crash(w)
    case Other(p) => p
  }

  /** The step neither publishes nor concerns a transaction or the life of a worker. */
  predicate IsOther(p: P.Step) {
    !(p.Publish? || p.Register? || p.Commit? || p.Refuse? || p.Fail? || p.Crash?)
  }

  /** The worker's first message carries an envelope. */
  predicate InContents(s: State, w: P.Worker) {
    && w in s.proto.workers && |s.proto.workers[w].queue| > 0
    && P.Head(s.proto, w).msg < |s.contents| && s.contents[P.Head(s.proto, w).msg].Some?
  }

  function EnvelopeOf(s: State, w: P.Worker): Envelope
    requires InContents(s, w)
  {
    s.contents[P.Head(s.proto, w).msg].value
  }

  /** The transaction's step, if it takes one. */
  function TableStep(s: State, step: Step): Option<T.Step>
    requires step.Register? ==> InContents(s, step.w)
  {
    match step
    case Register(w) => Some(T.Begin(w, EnvelopeOf(s, w)))
    case Commit(w, picks, at, _) => Some(T.Commit(w, picks, at))
    case Refuse(w, _, _) => Some(T.Abort(w))
    case Fail(w) => if w in s.tables.open then Some(T.Abort(w)) else None
    case Crash(w) => if w in s.tables.open then Some(T.Abort(w)) else None
    case _ => None
  }

  /** A constraint refuses what the transaction would write. */
  ghost predicate Refused(s: T.State, w: T.Worker, picks: T.Picks, at: Time) {
    && w in s.open && T.InOrderSince(picks, s.open[w].began, |s.past|)
    && T.HandleFrom(T.SeenBy(s, picks), s.db, s.open[w].envelope, at).Violates?
  }

  ghost predicate Enabled(s: State, step: Step) {
    && P.Enabled(s.proto, ProtoStep(step))
    && (step.Register? ==> InContents(s, step.w))
    && (step.Refuse? ==> Refused(s.tables, step.w, step.picks, step.at))
    && (step.Other? ==> IsOther(step.step))
    && (TableStep(s, step).Some? ==> T.Enabled(s.tables, TableStep(s, step).value))
  }

  ghost function Apply(maxDelivery: int, s: State, step: Step): State
    requires Enabled(s, step)
  {
    State(P.Apply(maxDelivery, s.proto, ProtoStep(step)),
          if step.Publish? then s.contents + [step.content] else s.contents,
          if TableStep(s, step).Some? then T.Apply(s.tables, TableStep(s, step).value) else s.tables)
  }

  ghost predicate Run(maxDelivery: int, s: State, steps: seq<Step>)
    decreases |steps|
  {
    steps == [] || (Enabled(s, steps[0]) && Run(maxDelivery, Apply(maxDelivery, s, steps[0]), steps[1..]))
  }

  ghost function After(maxDelivery: int, s: State, steps: seq<Step>): State
    requires Run(maxDelivery, s, steps)
    decreases |steps|
  {
    if steps == [] then s else After(maxDelivery, Apply(maxDelivery, s, steps[0]), steps[1..])
  }

  // ---- the invariant ----

  function IdsOf(ledger: seq<Event>): seq<string> {
    if ledger == [] then [] else IdsOf(ledger[..|ledger| - 1]) + [ledger[|ledger| - 1].envelope.eventId]
  }

  ghost predicate ContentsOk(s: State) {
    && |s.contents| == |s.proto.stream|
    && forall m :: 0 <= m < |s.contents| ==> s.proto.stream[m] == MessageOf(s.contents[m])
  }

  /** Exactly the workers inside a transaction have one open, for the event at hand. */
  ghost predicate OpenOk(s: State) {
    && (forall w :: w in s.tables.open ==>
          P.At(s.proto, w, P.InTransaction) && InContents(s, w) && s.tables.open[w].envelope == EnvelopeOf(s, w))
    && (forall w :: w in s.proto.workers && P.At(s.proto, w, P.InTransaction) ==> w in s.tables.open)
  }

  ghost predicate Inv(s: State) {
    && P.SafeInv(s.proto) && ContentsOk(s) && OpenOk(s)
    && T.Inv(s.tables) && IdsOf(s.tables.ledger) == s.proto.ledger
  }

  lemma ContentsKept(maxDelivery: int, s: State, step: Step)
    requires ContentsOk(s) && Enabled(s, step)
    ensures ContentsOk(Apply(maxDelivery, s, step))
  {
    P.OnlyPublishesAdd(maxDelivery, s.proto, ProtoStep(step));
  }

  /** The step begins or ends the transaction of `w`. */
  predicate Concerns(step: Step, w: P.Worker) {
    (step.Register? || step.Commit? || step.Refuse? || step.Fail? || step.Crash?) && step.w == w
  }

  /** A transaction another worker's step leaves alone. */
  lemma UntouchedOpen(maxDelivery: int, s: State, step: Step, w: P.Worker)
    requires OpenOk(s) && Enabled(s, step) && w in s.tables.open && !Concerns(step, w)
    ensures var s' := Apply(maxDelivery, s, step);
            && w in s'.proto.workers && s'.proto.workers[w] == s.proto.workers[w]
            && s.proto.stream <= s'.proto.stream && s.contents <= s'.contents
            && w in s'.tables.open && s'.tables.open[w] == s.tables.open[w]
  {
    P.TransactionWaits(maxDelivery, s.proto, ProtoStep(step), w);
  }

  lemma BegunOpen(maxDelivery: int, s: State, step: Step)
    requires ContentsOk(s) && Enabled(s, step) && step.Register?
    ensures var s' := Apply(maxDelivery, s, step);
            && step.w in s'.tables.open
            && P.At(s'.proto, step.w, P.InTransaction) && InContents(s', step.w)
            && s'.tables.open[step.w].envelope == EnvelopeOf(s', step.w)
  {
  }

  lemma InsideIsOpen(maxDelivery: int, s: State, step: Step, w: P.Worker)
    requires P.SafeInv(s.proto) && ContentsOk(s) && OpenOk(s) && Enabled(s, step)
    requires var s' := Apply(maxDelivery, s, step); w in s'.proto.workers && P.At(s'.proto, w, P.InTransaction)
    ensures w in Apply(maxDelivery, s, step).tables.open
  {
    P.InTransactionBefore(maxDelivery, s.proto, ProtoStep(step), w);
    if Concerns(step, w) {
      if !step.Register? { P.TransactionEnds(maxDelivery, s.proto, ProtoStep(step)); }
    } else {
      UntouchedOpen(maxDelivery, s, step, w);
    }
  }

  lemma OpenKept(maxDelivery: int, s: State, step: Step)
    requires P.SafeInv(s.proto) && ContentsOk(s) && OpenOk(s) && Enabled(s, step)
    ensures OpenOk(Apply(maxDelivery, s, step))
  {
    var s' := Apply(maxDelivery, s, step);
    forall w | w in s'.tables.open
      ensures P.At(s'.proto, w, P.InTransaction) && InContents(s', w) && s'.tables.open[w].envelope == EnvelopeOf(s', w)
    {
      if step.Register? && step.w == w {
        BegunOpen(maxDelivery, s, step);
      } else {
        UntouchedOpen(maxDelivery, s, step, w);
      }
    }
    forall w | w in s'.proto.workers && P.At(s'.proto, w, P.InTransaction) ensures w in s'.tables.open {
      InsideIsOpen(maxDelivery, s, step, w);
    }
  }

  /** The event a worker's transaction is for is the one its protocol state is at. */
  lemma SameEvent(s: State, w: P.Worker)
    requires ContentsOk(s) && OpenOk(s) && w in s.tables.open
    ensures P.At(s.proto, w, P.InTransaction) && P.EventOf(s.proto, w) == s.tables.open[w].envelope.eventId
  {
  }

  lemma TableLedgerAfter(maxDelivery: int, s: State, step: Step)
    requires Enabled(s, step)
    ensures step.Commit? ==> step.w in s.tables.open
    ensures Apply(maxDelivery, s, step).tables.ledger
            == s.tables.ledger + if step.Commit? then [Event(s.tables.open[step.w].envelope, step.at)] else []
  {
  }

  lemma IdsAppend(ledger: seq<Event>, e: Event)
    ensures IdsOf(ledger + [e]) == IdsOf(ledger) + [e.envelope.eventId]
  {
    assert (ledger + [e])[..|ledger|] == ledger;
  }

  lemma LedgersAgree(maxDelivery: int, s: State, step: Step)
    requires ContentsOk(s) && OpenOk(s) && Enabled(s, step) && IdsOf(s.tables.ledger) == s.proto.ledger
    ensures var s' := Apply(maxDelivery, s, step); IdsOf(s'.tables.ledger) == s'.proto.ledger
  {
    P.OnlyCommitsLedger(maxDelivery, s.proto, ProtoStep(step));
    TableLedgerAfter(maxDelivery, s, step);
    if step.Commit? {
      SameEvent(s, step.w);
      IdsAppend(s.tables.ledger, Event(s.tables.open[step.w].envelope, step.at));
    }
  }

  lemma StepKeepsInv(maxDelivery: int, s: State, step: Step)
    requires Inv(s) && Enabled(s, step)
    ensures Inv(Apply(maxDelivery, s, step))
  {
    P.StepKeepsSafe(maxDelivery, s.proto, ProtoStep(step));
    ContentsKept(maxDelivery, s, step);
    OpenKept(maxDelivery, s, step);
    LedgersAgree(maxDelivery, s, step);
    if TableStep(s, step).Some? { T.StepKeepsInv(s.tables, TableStep(s, step).value); }
  }

  lemma {:induction false} RunKeepsInv(maxDelivery: int, s: State, steps: seq<Step>)
    requires Inv(s) && Run(maxDelivery, s, steps)
    ensures Inv(After(maxDelivery, s, steps))
    decreases |steps|
  {
    if steps != [] {
      StepKeepsInv(maxDelivery, s, steps[0]);
      RunKeepsInv(maxDelivery, Apply(maxDelivery, s, steps[0]), steps[1..]);
    }
  }

  lemma StartInv()
    ensures Inv(START)
  {
    TransactionRuns.StartInv();
  }

  // ---- what it gives ----

  lemma {:induction false} IdsCorrespond(ledger: seq<Event>, i: nat)
    requires i < |ledger|
    ensures |IdsOf(ledger)| == |ledger| && IdsOf(ledger)[i] == ledger[i].envelope.eventId
  {
    if i < |ledger| - 1 {
      IdsCorrespond(ledger[..|ledger| - 1], i);
    } else if i > 0 {
      IdsCorrespond(ledger[..|ledger| - 1], i - 1);
    }
  }

  lemma LedgerIds(ledger: seq<Event>, e: string)
    ensures e in IdsOf(ledger) <==> InLedger(ledger, e)
  {
    forall i | 0 <= i < |ledger| ensures |IdsOf(ledger)| == |ledger| && IdsOf(ledger)[i] == ledger[i].envelope.eventId {
      IdsCorrespond(ledger, i);
    }
    if ledger != [] { IdsCorrespond(ledger, 0); }
  }

  /**
   Under every interleaving of any number of workers, with overlapping
   transactions, crashes, failures, redeliveries, expired keys and Redis outages,
   an event is committed exactly when its id is in the ledger, no id twice, and
   the tables are in order.
   */
  lemma TablesStayInOrder(maxDelivery: int, steps: seq<Step>)
    requires Run(maxDelivery, START, steps)
    ensures var s := After(maxDelivery, START, steps);
            && DbInv(s.tables.db)
            && (forall i, j :: 0 <= i < j < |s.tables.ledger| ==>
                  s.tables.ledger[i].envelope.eventId != s.tables.ledger[j].envelope.eventId)
            && (forall e :: e in s.proto.ledger <==> InLedger(s.tables.ledger, e))
  {
    StartInv();
    RunKeepsInv(maxDelivery, START, steps);
    var s := After(maxDelivery, START, steps);
    forall e ensures e in s.proto.ledger <==> InLedger(s.tables.ledger, e) { LedgerIds(s.tables.ledger, e); }
  }

  /** The step of the two together that is this step of the protocol; what a message carries is free. */
  function Joint(p: P.Step): Step
    requires !p.Commit? && !p.Refuse?
  {
    match p
    case Publish(message) =>
      Publish(if message.Garbage? then None else Some(Envelope(message.id, CLIENT_UPSERTED, Undecodable)))
    case Register(w) => Register(w)
    case Fail(w) => Fail(w)
    case Crash(w) => Crash(w)
    case _ => Other(p)
  }

  /** Whatever the protocol can do next, short of ending a transaction, can be done with the tables too. */
  lemma ProtocolGoesOn(s: State, p: P.Step)
    requires ContentsOk(s) && OpenOk(s) && P.Enabled(s.proto, p) && !p.Commit? && !p.Refuse?
    ensures Enabled(s, Joint(p)) && ProtoStep(Joint(p)) == p
  {
    assert ProtoStep(Joint(p)) == p;
    if p.Register? {
      RegisterGoesOn(s, p.w);
    } else {
      assert TableStep(s, Joint(p)).Some? ==> TableStep(s, Joint(p)).value.Abort?;
    }
  }

  lemma RegisterGoesOn(s: State, w: P.Worker)
    requires ContentsOk(s) && OpenOk(s) && P.Enabled(s.proto, P.Register(w))
    ensures Enabled(s, Register(w))
  {
    assert P.At(s.proto, w, P.Reserved);
  }

  /** And a transaction that may commit can, whoever else has one open. */
  lemma CommitsGoOn(s: State, w: P.Worker, picks: T.Picks, at: Time, reported: bool)
    requires OpenOk(s) && T.Enabled(s.tables, T.Commit(w, picks, at))
    ensures Enabled(s, Commit(w, picks, at, reported))
  {
    assert P.At(s.proto, w, P.InTransaction);
  }

  /** One that would break a constraint can be refused. */
  lemma RefusalsGoOn(s: State, w: P.Worker, picks: T.Picks, at: Time)
    requires OpenOk(s) && Refused(s.tables, w, picks, at)
    ensures Enabled(s, Refuse(w, picks, at))
  {
    assert P.At(s.proto, w, P.InTransaction);
  }

  lemma OnlyRefusalsRefuse(maxDelivery: int, s: P.State, step: P.Step)
    requires P.Enabled(s, step)
    ensures P.Apply(maxDelivery, s, step).refused == s.refused + if step.Refuse? then {P.EventOf(s, step.w)} else {}
  {
  }

  /** The transaction would break a constraint; its end leaves tables and ledger as they are. */
  ghost predicate BreaksConstraint(t: T.State, t': T.State, w: T.Worker, picks: T.Picks, at: Time, e: P.EventId) {
    && w in t.open && t.open[w].envelope.eventId == e
    && T.InOrderSince(picks, t.open[w].began, |t.past|)
    && T.HandleFrom(T.SeenBy(t, picks), t.db, t.open[w].envelope, at).Violates?
    && t'.db == t.db && t'.ledger == t.ledger
  }

  lemma RefusalBreaksConstraint(maxDelivery: int, s: State, step: Step)
    requires ContentsOk(s) && OpenOk(s) && Enabled(s, step) && step.Refuse?
    ensures P.Enabled(s.proto, P.Refuse(step.w))
    ensures BreaksConstraint(s.tables, Apply(maxDelivery, s, step).tables, step.w, step.picks, step.at, P.EventOf(s.proto, step.w))
  {
    SameEvent(s, step.w);
  }

  lemma RefusingStep(maxDelivery: int, s: State, step: Step, e: P.EventId)
    requires Enabled(s, step) && e in Apply(maxDelivery, s, step).proto.refused && e !in s.proto.refused
    ensures step.Refuse? && P.Enabled(s.proto, P.Refuse(step.w)) && P.EventOf(s.proto, step.w) == e
  {
    OnlyRefusalsRefuse(maxDelivery, s.proto, ProtoStep(step));
  }

  /**
   In every run: an event is refused only when the transaction of a worker that has
   it would break a constraint, given what its lookups read; the tables stay as they are.
   */
  lemma RefusedByConstraintOnly(maxDelivery: int, steps: seq<Step>, step: Step, e: P.EventId)
    requires Run(maxDelivery, START, steps) && Enabled(After(maxDelivery, START, steps), step)
    requires var s := After(maxDelivery, START, steps);
             e in Apply(maxDelivery, s, step).proto.refused && e !in s.proto.refused
    ensures step.Refuse?
    ensures var s := After(maxDelivery, START, steps);
            BreaksConstraint(s.tables, Apply(maxDelivery, s, step).tables, step.w, step.picks, step.at, e)
  {
    StartInv();
    RunKeepsInv(maxDelivery, START, steps);
    var s := After(maxDelivery, START, steps);
    RefusingStep(maxDelivery, s, step, e);
    RefusalBreaksConstraint(maxDelivery, s, step);
  }

  ghost predicate MissesNothing(s: State, step: Step)
    requires Enabled(s, step)
  {
    TableStep(s, step).Some? ==> TransactionRuns.Serial(s.tables, TableStep(s, step).value)
  }

  /** No committing transaction of the run missed another one's writes. */
  ghost predicate SerialRun(maxDelivery: int, s: State, steps: seq<Step>)
    requires Run(maxDelivery, s, steps)
    decreases |steps|
  {
    steps == [] || (
      && MissesNothing(s, steps[0])
      && SerialRun(maxDelivery, Apply(maxDelivery, s, steps[0]), steps[1..]))
  }

  lemma StepReplays(maxDelivery: int, s: State, step: Step)
    requires T.Inv(s.tables) && Enabled(s, step) && TransactionRuns.Replays(s.tables)
    requires MissesNothing(s, step)
    ensures TransactionRuns.Replays(Apply(maxDelivery, s, step).tables)
  {
    if TableStep(s, step).Some? { TransactionRuns.SerialStepReplays(s.tables, TableStep(s, step).value); }
  }

  lemma {:induction false} SerialRunReplays(maxDelivery: int, s: State, steps: seq<Step>)
    requires Inv(s) && Run(maxDelivery, s, steps) && SerialRun(maxDelivery, s, steps) && TransactionRuns.Replays(s.tables)
    ensures TransactionRuns.Replays(After(maxDelivery, s, steps).tables)
    decreases |steps|
  {
    if steps != [] {
      StepKeepsInv(maxDelivery, s, steps[0]);
      StepReplays(maxDelivery, s, steps[0]);
      SerialRunReplays(maxDelivery, Apply(maxDelivery, s, steps[0]), steps[1..]);
    }
  }

  /**
   If the transactions that commit miss nothing, the tables are, under the same
   interleavings, the fold of the handlers over the committed events in commit
   order: the effect of an event is in the tables once if its id is in the ledger,
   and not at all otherwise.
   */
  lemma TablesReplayCommits(maxDelivery: int, steps: seq<Step>)
    requires Run(maxDelivery, START, steps) && SerialRun(maxDelivery, START, steps)
    ensures var s := After(maxDelivery, START, steps).tables;
            && s.db == AfterEvents(EMPTY_DB, s.ledger) && AllCommit(EMPTY_DB, s.ledger)
            && (forall i, j :: 0 <= i < j < |s.ledger| ==> s.ledger[i].envelope.eventId != s.ledger[j].envelope.eventId)
  {
    StartInv();
    TablesStayInOrder(maxDelivery, steps);
    SerialRunReplays(maxDelivery, START, steps);
  }

  /**
   Every run with tables is a run of the protocol, and in the tables a run of
   transactions, so what holds of those holds here.
   */
  lemma {:induction false} RunProjects(maxDelivery: int, s: State, steps: seq<Step>) returns (ps: seq<P.Step>, ts: seq<T.Step>)
    requires Run(maxDelivery, s, steps)
    ensures P.Run(maxDelivery, s.proto, ps) && P.After(maxDelivery, s.proto, ps) == After(maxDelivery, s, steps).proto
    ensures TransactionRuns.Run(s.tables, ts) && TransactionRuns.After(s.tables, ts) == After(maxDelivery, s, steps).tables
    decreases |steps|
  {
    ps, ts := [], [];
    if steps != [] {
      var ps', ts' := RunProjects(maxDelivery, Apply(maxDelivery, s, steps[0]), steps[1..]);
      ps, ts := [ProtoStep(steps[0])] + ps', ts';
      assert ps[1..] == ps';
      if TableStep(s, steps[0]).Some? {
        ts := [TableStep(s, steps[0]).value] + ts';
        assert ts[1..] == ts';
      }
    }
  }
}
