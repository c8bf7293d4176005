/**
 Ingest, outbox, dispatch and ERP together.  Handler transactions overlap as
 `Transactions` lets them, on any events at any workers; the ERP handles one
 request at a time; everything interleaves.  A request may arrive after its worker
 gave up, died or was superseded, and its answer may never be heard.
 */
module EndToEnd {
  import opened Prelude
  import opened Schema
  import opened Handlers
  import opened OrderTables
  import opened ErpMock
  import Outbox
  import Dispatch
  import T = Transactions

  // ---- idempotency keys ----

  const DIGITS := "0123456789"

  function Decimal(n: nat): (r: string)
    ensures |r| > 0
  {
    if n < 10 then [DIGITS[n]] else Decimal(n / 10) + [DIGITS[n % 10]]
  }

  function KeyOf(id: nat): (r: string)
    ensures r != ""
  {
    "outbox-" + Decimal(id)
  }

  lemma {:induction false} DecimalInjective(a: nat, b: nat)
    requires Decimal(a) == Decimal(b)
    ensures a == b
  {
    var s, t := Decimal(a), Decimal(b);
    assert s[|s| - 1] == DIGITS[a % 10] && t[|t| - 1] == DIGITS[b % 10];
    assert a % 10 == b % 10;
    if a >= 10 && b >= 10 {
      assert s[..|s| - 1] == Decimal(a / 10) && t[..|t| - 1] == Decimal(b / 10);
      DecimalInjective(a / 10, b / 10);
    }
  }

  /** Two outbox rows never share an idempotency key. */
  lemma KeysDiffer(a: nat, b: nat)
    requires KeyOf(a) == KeyOf(b)
    ensures a == b
  {
    assert KeyOf(a)[7..] == Decimal(a) && KeyOf(b)[7..] == Decimal(b);
    DecimalInjective(a, b);
  }

  // ---- the machine ----

  /** A claim, known by its row and the attempts value it read. */
  type Claim = (nat, nat)

  datatype State = State(
    tables: T.State, books: seq<Outbox.Book>, now: Time,
    sent: set<Claim>, answers: map<Claim, Answer>, erp: Erp)

  datatype Step =
    | Transact(step: T.Step)
    | Table(dispatch: Outbox.Step)
    | Post(claim: Claim)
    | Arrive(claim: Claim, drawnId: string, failure: Option<int>)
    | Settle(claim: Claim, reply: Dispatch.Reply, delay: real)

  const START := State(T.START, [], 0.0, {}, map[], EMPTY_ERP)

  /** What the dispatch protocol sees of a state. */
  function View(s: State): Outbox.State {
    Outbox.State(s.tables.db.outbox, s.books, s.now)
  }

  function WithView(s: State, v: Outbox.State): State {
    s.(tables := s.tables.(db := s.tables.db.(outbox := v.rows)), books := v.books, now := v.now)
  }

  function SettleStep(step: Step): Outbox.Step
    requires step.Settle?
  {
    Outbox.Settle(step.claim.0, step.claim.1, Dispatch.VerdictOf(step.reply, step.delay))
  }

  /** The HTTP status the ERP's answer travels as. */
  function CodeOf(a: Answer): int {
    match a
    case Ack(_, _) => 201
    case Unavailable(code) => code
  }

  ghost predicate Enabled(cfg: Outbox.Config, s: State, step: Step)
    requires |s.tables.db.outbox| == |s.books|
  {
    match step
    case Transact(t) => T.Enabled(s.tables, t) && (t.Commit? ==> t.at == s.now)
    case Table(d) => (d.Tick? || d.Claim? || d.ReleaseStale? || d.Crash?) && Outbox.Enabled(cfg, View(s), d)
    case Post(c) => c.0 < |s.books| && c.1 in s.books[c.0].held && c !in s.sent
    case Arrive(c, _, failure) => c in s.sent && c !in s.answers && (failure.Some? ==> failure.value in SERVER_ERROR_CODES)
    case Settle(c, reply, _) =>
      // a status code is what the ERP answered; a timeout or transport failure needs no answer
      && c in s.sent && (reply.Http? ==> c in s.answers && reply.code == CodeOf(s.answers[c]))
      && Outbox.Enabled(cfg, View(s), SettleStep(step))
  }

  function RequestOf(s: State, step: Step): Request
    requires step.Arrive? && step.claim.0 < |s.tables.db.outbox|
  {
    Request(KeyOf(step.claim.0), s.tables.db.outbox[step.claim.0].payload, step.drawnId, s.now, step.failure)
  }

  ghost function Apply(cfg: Outbox.Config, s: State, step: Step): State
    requires |s.tables.db.outbox| == |s.books| && Enabled(cfg, s, step)
  {
    match step
    case Transact(t) =>
      var tables := T.Apply(s.tables, t);
      s.(tables := tables,
         books := if |tables.db.outbox| > |s.books| then s.books + [Outbox.Book(map[], 0)] else s.books)
    case Table(d) => WithView(s, Outbox.Apply(cfg, View(s), d))
    case Post(c) => s.(sent := s.sent + {c})
    case Arrive(c, _, _) =>
      if c.0 < |s.books| then
        var (erp, answer) := Receive(s.erp, RequestOf(s, step));
        s.(erp := erp, answers := s.answers[c := answer])
      else s
    case Settle(_, _, _) => WithView(s, Outbox.Apply(cfg, View(s), SettleStep(step)))
  }

  // ---- a transaction queues at most one row ----

  /** The outbox is as before or one fresh row longer. */
  ghost predicate Queues(a: Db, b: Db, now: Time) {
    b.outbox == a.outbox || (exists uid, payload :: b.outbox == a.outbox + [FreshRow(uid, payload, now)])
  }

  lemma TransactionQueues(s: T.State, step: T.Step, now: Time)
    requires T.Enabled(s, step) && (step.Commit? ==> step.at == now)
    ensures Queues(s.db, T.Apply(s, step).db, now)
  {
    if step.Commit? {
      var seen, e := T.SeenBy(s, step.picks), s.open[step.w].envelope;
      if e.eventType == PAYMENT_UPDATED && e.body.PaymentBody? {
        T.PaymentCommitShape(seen, s.db, e.body.payment, now, FindOrder(seen.first.orders, e.body.payment.orderUid).value);
      }
    }
  }

  lemma StepShapes(cfg: Outbox.Config, s: State, step: Step)
    requires |s.tables.db.outbox| == |s.books| && Enabled(cfg, s, step)
    ensures |Apply(cfg, s, step).tables.db.outbox| == |Apply(cfg, s, step).books|
    ensures |s.books| <= |Apply(cfg, s, step).books|
  {
    if step.Transact? { TransactionQueues(s.tables, step.step, s.now); }
  }

  ghost predicate Run(cfg: Outbox.Config, s: State, steps: seq<Step>)
    requires |s.tables.db.outbox| == |s.books|
    decreases |steps|
  {
    steps == [] || (
      && Enabled(cfg, s, steps[0])
      && (StepShapes(cfg, s, steps[0]);
          Run(cfg, Apply(cfg, s, steps[0]), steps[1..])))
  }

  ghost function After(cfg: Outbox.Config, s: State, steps: seq<Step>): (s': State)
    requires |s.tables.db.outbox| == |s.books| && Run(cfg, s, steps)
    ensures |s'.tables.db.outbox| == |s'.books|
    decreases |steps|
  {
    if steps == [] then s
    else
      StepShapes(cfg, s, steps[0]);
      After(cfg, Apply(cfg, s, steps[0]), steps[1..])
  }

  /** Some run leads from `s` to `t`. */
  ghost predicate LeadsTo(cfg: Outbox.Config, s: State, t: State) {
    |s.tables.db.outbox| == |s.books| && exists steps :: Run(cfg, s, steps) && After(cfg, s, steps) == t
  }

  ghost predicate Reachable(cfg: Outbox.Config, s: State) {
    LeadsTo(cfg, START, s)
  }
}
