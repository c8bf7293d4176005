/**
 What an answered post comes to: an acknowledged one makes its row SENT, first or
 repeated, and whatever is queued can get there.
 */
module ErpSettlements {
  import opened Prelude
  import opened Schema
  import opened ErpMock
  import opened EndToEnd
  import opened ErpSafety
  import opened ErpRuns
  import Outbox
  import Dispatch
  import T = Transactions
  import TransactionRuns

  /** The row is SENT as of now, without error or lock, its message and attempts untouched. */
  predicate SentNow(s: State, later: State, id: nat)
    requires id < |s.tables.db.outbox|
  {
    && id < |later.tables.db.outbox|
    && var was, row := s.tables.db.outbox[id], later.tables.db.outbox[id];
       && row.status == SENT && row.sentAt == Some(later.now) && row.lastError == None
       && row.lockedBy == None && row.lockedAt == None
       && row.aggregateId == was.aggregateId && row.payload == was.payload
  }

  /** In every reachable state, settling an acknowledged post by its HTTP answer makes the row SENT, duplicate or not. */
  lemma AcknowledgedPostIsSent(cfg: Outbox.Config, s: State, step: Step)
    requires Reachable(cfg, s) && |s.books| == |s.tables.db.outbox|
    requires step.Settle? && step.reply.Http? && step.claim in s.answers && s.answers[step.claim].Ack?
    requires Enabled(cfg, s, step)
    ensures step.claim.0 < |s.tables.db.outbox| && SentNow(s, Apply(cfg, s, step), step.claim.0)
  {
  }

  lemma MailHolds(cfg: Outbox.Config, s: State)
    requires Reachable(cfg, s)
    ensures MailOk(s) && |s.books| == |s.tables.db.outbox|
  {
    ReachableHolds(cfg, s);
  }

  /** And some such settlement is possible as long as the claim is outstanding: the answer is a 201. */
  lemma AcknowledgedPostCanSettle(cfg: Outbox.Config, s: State, c: Claim, text: string, delay: real)
    requires Reachable(cfg, s) && |s.books| == |s.tables.db.outbox|
    requires c in s.answers && s.answers[c].Ack? && c.0 < |s.books| && c.1 in s.books[c.0].held
    ensures Enabled(cfg, s, Settle(c, Dispatch.Http(201, text), delay))
  {
    MailHolds(cfg, s);
  }

  lemma RefusalIsTemporary(s: State, step: Step)
    requires MailOk(s) && step.Settle? && step.reply.Http?
    requires step.claim in s.answers && s.answers[step.claim].Unavailable? && step.reply.code == CodeOf(s.answers[step.claim])
    ensures SettleStep(step).verdict.Temporary?
  {
  }

  /** A post the ERP refused for a failure of its own leaves its row queued again, or dead at the limit, never SENT. */
  lemma RefusedPostIsRetried(cfg: Outbox.Config, s: State, step: Step)
    requires Reachable(cfg, s) && |s.books| == |s.tables.db.outbox|
    requires step.Settle? && step.reply.Http? && step.claim in s.answers && s.answers[step.claim].Unavailable?
    requires Enabled(cfg, s, step)
    ensures step.claim.0 < |s.tables.db.outbox|
    ensures Apply(cfg, s, step).tables.db.outbox[step.claim.0].status == if step.claim.1 < cfg.maxAttempts then QUEUED else DLQ
  {
    MailHolds(cfg, s);
    RefusalIsTemporary(s, step);
  }

  // ---- runs that deliver ----

  lemma {:induction false} Extend(cfg: Outbox.Config, s: State, steps: seq<Step>, step: Step)
    requires |s.books| == |s.tables.db.outbox| && Run(cfg, s, steps) && Enabled(cfg, After(cfg, s, steps), step)
    ensures Run(cfg, s, steps + [step])
    ensures After(cfg, s, steps + [step]) == Apply(cfg, After(cfg, s, steps), step)
    decreases |steps|
  {
    if steps == [] {
      StepShapes(cfg, s, step);
      assert [] + [step] == [step] && [step][1..] == [];
      assert Run(cfg, Apply(cfg, s, step), []);
    } else {
      StepShapes(cfg, s, steps[0]);
      Extend(cfg, Apply(cfg, s, steps[0]), steps[1..], step);
      assert (steps + [step])[0] == steps[0] && (steps + [step])[1..] == steps[1..] + [step];
    }
  }

  lemma NothingYet(cfg: Outbox.Config, s: State)
    requires |s.books| == |s.tables.db.outbox|
    ensures Run(cfg, s, []) && After(cfg, s, []) == s
  {
  }

  function Delivery(c: Claim, drawnId: string): seq<Step> {
    [] + [Post(c)] + [Arrive(c, drawnId, None)] + [Settle(c, Dispatch.Http(201, ""), 0.0)]
  }

  /** The ERP as it is after it has heard of row `id`: unchanged if it knew the key, else one registration more. */
  ghost predicate HeardOf(erp: Erp, later: Erp, id: nat, payload: OrderPayload, drawnId: string, at: Time) {
    if KeyOf(id) in erp.byKey then later == erp
    else
      && KeyOf(id) in later.byKey
      && later.byKey[KeyOf(id)] == Record(drawnId, payload.order.uid, at, |payload.items|, payload.order.total, payload.shipping.fields.city)
      && later.byOrder == erp.byOrder[payload.order.uid := drawnId] && later.log == erp.log + [payload.order.uid]
  }

  /**
   An outstanding claim not yet posted can be posted, received and settled: the row
   is SENT, also if the ERP had acknowledged that key before and the answer was lost.
   */
  lemma ClaimCanBeDelivered(cfg: Outbox.Config, s: State, c: Claim, drawnId: string)
    requires |s.books| == |s.tables.db.outbox| && MailOk(s)
    requires c.0 < |s.books| && c.1 in s.books[c.0].held && c !in s.sent
    ensures Run(cfg, s, Delivery(c, drawnId))
    ensures var later := After(cfg, s, Delivery(c, drawnId));
            && SentNow(s, later, c.0) && later.now == s.now
            && HeardOf(s.erp, later.erp, c.0, s.tables.db.outbox[c.0].payload, drawnId, s.now)
            && c in later.answers
            && later.answers[c] == if KeyOf(c.0) in s.erp.byKey then Ack(s.erp.byKey[KeyOf(c.0)].erpOrderId, true) else Ack(drawnId, false)
  {
    var post, arrive, settle := Post(c), Arrive(c, drawnId, None), Settle(c, Dispatch.Http(201, ""), 0.0);
    NothingYet(cfg, s);
    Extend(cfg, s, [], post);
    Extend(cfg, s, [] + [post], arrive);
    Extend(cfg, s, [] + [post] + [arrive], settle);
  }

  lemma ClaimTakes(cfg: Outbox.Config, s: State, id: nat, worker: string)
    requires |s.books| == |s.tables.db.outbox| && MailOk(s) && id < |s.books|
    requires s.tables.db.outbox[id].status == QUEUED && s.tables.db.outbox[id].nextAttemptAt <= s.now
    ensures var claim := Table(Outbox.Claim(worker, {id}, 1));
            && Enabled(cfg, s, claim)
            && var s1 := Apply(cfg, s, claim);
               && |s1.books| == |s1.tables.db.outbox| == |s.books| && MailOk(s1) && s1.now == s.now
               && s1.sent == s.sent && s1.erp == s.erp
               && s.tables.db.outbox[id].attempts + 1 in s1.books[id].held
               && s1.tables.db.outbox[id].aggregateId == s.tables.db.outbox[id].aggregateId
               && s1.tables.db.outbox[id].payload == s.tables.db.outbox[id].payload
  {
    assert |{id}| == 1;
  }

  lemma FirstThen(cfg: Outbox.Config, s: State, step: Step, rest: seq<Step>)
    requires |s.books| == |s.tables.db.outbox| && Enabled(cfg, s, step)
    requires |Apply(cfg, s, step).books| == |Apply(cfg, s, step).tables.db.outbox| && Run(cfg, Apply(cfg, s, step), rest)
    ensures Run(cfg, s, [step] + rest) && After(cfg, s, [step] + rest) == After(cfg, Apply(cfg, s, step), rest)
  {
    assert ([step] + rest)[0] == step && ([step] + rest)[1..] == rest;
  }

  /** In every reachable state a message that is queued and due can be claimed and delivered. */
  lemma QueuedCanBeDelivered(cfg: Outbox.Config, s: State, id: nat, worker: string, drawnId: string) returns (steps: seq<Step>)
    requires Reachable(cfg, s) && |s.books| == |s.tables.db.outbox| && id < |s.books|
    requires s.tables.db.outbox[id].status == QUEUED && s.tables.db.outbox[id].nextAttemptAt <= s.now
    ensures Run(cfg, s, steps)
    ensures var later := After(cfg, s, steps);
            SentNow(s, later, id) && HeardOf(s.erp, later.erp, id, s.tables.db.outbox[id].payload, drawnId, s.now)
  {
    var claim := Table(Outbox.Claim(worker, {id}, 1));
    var c: Claim := (id, s.tables.db.outbox[id].attempts + 1);
    MailHolds(cfg, s);
    NotYetPosted(cfg, s, c);
    ClaimTakes(cfg, s, id, worker);
    ClaimCanBeDelivered(cfg, Apply(cfg, s, claim), c, drawnId);
    FirstThen(cfg, s, claim, Delivery(c, drawnId));
    steps := [claim] + Delivery(c, drawnId);
  }

  lemma NotYetPosted(cfg: Outbox.Config, s: State, c: Claim)
    requires Reachable(cfg, s) && |s.books| == |s.tables.db.outbox|
    requires c.0 < |s.tables.db.outbox| && c.1 > s.tables.db.outbox[c.0].attempts
    ensures c !in s.sent
  {
    var steps :| Run(cfg, START, steps) && After(cfg, START, steps) == s;
    RunKeepsPosts(cfg, START, steps);
  }

  // ---- a lost answer ----

  function LostDelivery(c: Claim, drawnId: string, delay: real): seq<Step> {
    [] + [Post(c)] + [Arrive(c, drawnId, None)] + [Settle(c, Dispatch.Timeout(""), delay)]
  }

  /** The ERP hears of the row, its answer does not arrive, and the row is queued again for after the delay. */
  lemma AnswerCanBeLost(cfg: Outbox.Config, s: State, c: Claim, drawnId: string, delay: real)
    requires |s.books| == |s.tables.db.outbox| && MailOk(s)
    requires c.0 < |s.books| && c.1 in s.books[c.0].held && c !in s.sent
    requires c.1 < cfg.maxAttempts && Outbox.BackoffAllows(cfg, c.1, delay)
    ensures Run(cfg, s, LostDelivery(c, drawnId, delay))
    ensures var later := After(cfg, s, LostDelivery(c, drawnId, delay));
            && c.0 < |later.tables.db.outbox| && later.now == s.now
            && later.tables.db.outbox[c.0].status == QUEUED && later.tables.db.outbox[c.0].nextAttemptAt == s.now + delay
            && later.tables.db.outbox[c.0].payload == s.tables.db.outbox[c.0].payload
            && KeyOf(c.0) in later.erp.byKey
            && HeardOf(s.erp, later.erp, c.0, s.tables.db.outbox[c.0].payload, drawnId, s.now)
  {
    var post, arrive, settle := Post(c), Arrive(c, drawnId, None), Settle(c, Dispatch.Timeout(""), delay);
    NothingYet(cfg, s);
    Extend(cfg, s, [], post);
    Extend(cfg, s, [] + [post], arrive);
    Extend(cfg, s, [] + [post] + [arrive], settle);
  }

  lemma {:induction false} Joined(cfg: Outbox.Config, s: State, a: seq<Step>, b: seq<Step>)
    requires |s.books| == |s.tables.db.outbox| && Run(cfg, s, a) && Run(cfg, After(cfg, s, a), b)
    ensures Run(cfg, s, a + b) && After(cfg, s, a + b) == After(cfg, After(cfg, s, a), b)
    decreases |a|
  {
    if a == [] {
      assert a + b == b;
    } else {
      StepShapes(cfg, s, a[0]);
      assert (a + b)[0] == a[0] && (a + b)[1..] == a[1..] + b;
      Joined(cfg, Apply(cfg, s, a[0]), a[1..], b);
    }
  }

  lemma ReachesFurther(cfg: Outbox.Config, s: State, steps: seq<Step>)
    requires Reachable(cfg, s) && |s.books| == |s.tables.db.outbox| && Run(cfg, s, steps)
    ensures Reachable(cfg, After(cfg, s, steps))
  {
    var before :| Run(cfg, START, before) && After(cfg, START, before) == s;
    Joined(cfg, START, before, steps);
  }

  /**
   A lost answer is healed: after it, and after the delay, the row can be posted
   again; the ERP answers with the registration it has, and the row is SENT.
   */
  lemma LostAnswerIsHealed(cfg: Outbox.Config, s: State, c: Claim, drawnId: string, delay: real, worker: string)
    returns (later: State, steps: seq<Step>)
    requires Reachable(cfg, s) && |s.books| == |s.tables.db.outbox|
    requires c.0 < |s.books| && c.1 in s.books[c.0].held && c !in s.sent
    requires c.1 < cfg.maxAttempts && Outbox.BackoffAllows(cfg, c.1, delay)
    ensures Run(cfg, s, LostDelivery(c, drawnId, delay)) && later == After(cfg, s, LostDelivery(c, drawnId, delay))
    ensures KeyOf(c.0) in later.erp.byKey && c.0 < |later.tables.db.outbox| && later.tables.db.outbox[c.0].status == QUEUED
    ensures Run(cfg, later, steps) && After(cfg, later, steps).erp == later.erp && SentNow(later, After(cfg, later, steps), c.0)
  {
    MailHolds(cfg, s);
    AnswerCanBeLost(cfg, s, c, drawnId, delay);
    later := After(cfg, s, LostDelivery(c, drawnId, delay));
    ReachesFurther(cfg, s, LostDelivery(c, drawnId, delay));
    var tick := Table(Outbox.Tick(MaxReal(later.now, later.tables.db.outbox[c.0].nextAttemptAt)));
    StepShapes(cfg, later, tick);
    var due := Apply(cfg, later, tick);
    assert Run(cfg, due, []);
    FirstThen(cfg, later, tick, []);
    ReachesFurther(cfg, later, [tick] + []);
    var rest := QueuedCanBeDelivered(cfg, due, c.0, worker, drawnId);
    FirstThen(cfg, later, tick, rest);
    steps := [tick] + rest;
  }

  // ---- an abandoned claim ----

  lemma LockedInFlight(cfg: Outbox.Config, s: State, id: nat)
    requires Reachable(cfg, s) && |s.books| == |s.tables.db.outbox| && id < |s.books|
    ensures s.tables.db.outbox[id].status == IN_FLIGHT <==> s.tables.db.outbox[id].lockedAt.Some?
  {
    var steps :| Run(cfg, START, steps) && After(cfg, START, steps) == s;
    RunKeepsPosts(cfg, START, steps);
    assert Outbox.RowInv(cfg, View(s).rows[id], View(s).books[id]);
  }

  lemma ReleaseFrees(cfg: Outbox.Config, s: State, id: nat)
    requires |s.books| == |s.tables.db.outbox| && id < |s.books|
    requires var row := s.tables.db.outbox[id]; row.status == IN_FLIGHT && row.lockedAt.Some? && s.now - row.lockedAt.value > 120.0
    ensures Enabled(cfg, s, Table(Outbox.ReleaseStale))
    ensures var s' := Apply(cfg, s, Table(Outbox.ReleaseStale));
            && |s'.books| == |s'.tables.db.outbox| == |s.books| && s'.now == s.now && s'.erp == s.erp
            && var row, row' := s.tables.db.outbox[id], s'.tables.db.outbox[id];
               && row'.status == QUEUED && row'.nextAttemptAt == row.nextAttemptAt
               && row'.aggregateId == row.aggregateId && row'.payload == row.payload
  {
  }

  /** A row in flight, whatever became of its worker, can be released once its lock is old enough, and then delivered. */
  lemma AbandonedCanBeDelivered(cfg: Outbox.Config, s: State, id: nat, worker: string, drawnId: string)
    returns (at: Time, steps: seq<Step>)
    requires Reachable(cfg, s) && |s.books| == |s.tables.db.outbox| && id < |s.books|
    requires s.tables.db.outbox[id].status == IN_FLIGHT
    ensures Run(cfg, s, steps)
    ensures var later := After(cfg, s, steps);
            SentNow(s, later, id) && HeardOf(s.erp, later.erp, id, s.tables.db.outbox[id].payload, drawnId, at)
  {
    LockedInFlight(cfg, s, id);
    var row := s.tables.db.outbox[id];
    at := MaxReal(MaxReal(s.now, row.nextAttemptAt), row.lockedAt.value + 121.0);
    var tick, release := Table(Outbox.Tick(at)), Table(Outbox.ReleaseStale);
    NothingYet(cfg, s);
    Extend(cfg, s, [], tick);
    var aged := After(cfg, s, [] + [tick]);
    ReleaseFrees(cfg, aged, id);
    Extend(cfg, s, [] + [tick], release);
    var first := [] + [tick] + [release];
    ReachesFurther(cfg, s, first);
    var rest := QueuedCanBeDelivered(cfg, After(cfg, s, first), id, worker, drawnId);
    Joined(cfg, s, first, rest);
    steps := first + rest;
  }

  // ---- what the pipeline admits ----

  /** How the ERP may fail on a request: not at all, or as one of its two server errors. */
  predicate MayFail(failure: Option<int>) {
    failure in {None, Some(500), Some(503)}
  }

  /**
   A request once posted can reach the ERP at any later time, whatever has become of
   its claim, and can fail there; a failure of a key not yet acknowledged leaves the
   ERP as it was.
   */
  lemma LateRequestArrives(cfg: Outbox.Config, s: State, c: Claim, drawnId: string, failure: Option<int>)
    requires Reachable(cfg, s) && |s.books| == |s.tables.db.outbox|
    requires c in s.sent && c !in s.answers && MayFail(failure)
    ensures Enabled(cfg, s, Arrive(c, drawnId, failure))
    ensures c.0 < |s.tables.db.outbox|
    ensures var later := Apply(cfg, s, Arrive(c, drawnId, failure));
            && later.tables == s.tables && later.books == s.books
            && c in later.answers && later.answers == s.answers[c := later.answers[c]]
            && if failure.None? || KeyOf(c.0) in s.erp.byKey
               then later.answers[c].Ack? && HeardOf(s.erp, later.erp, c.0, s.tables.db.outbox[c.0].payload, drawnId, s.now)
               else later.answers[c] == Unavailable(failure.value) && later.erp == s.erp
  {
    MailHolds(cfg, s);
  }

  /** A dispatcher can give up on a request, answered or not, and then treats it as a temporary failure. */
  lemma CanGiveUp(cfg: Outbox.Config, s: State, c: Claim, text: string, delay: real)
    requires |s.books| == |s.tables.db.outbox| && c in s.sent && c.0 < |s.books| && c.1 in s.books[c.0].held
    requires c.1 < cfg.maxAttempts ==> Outbox.BackoffAllows(cfg, c.1, delay)
    ensures Enabled(cfg, s, Settle(c, Dispatch.Timeout(text), delay))
    ensures Enabled(cfg, s, Settle(c, Dispatch.TransportFailure(text), delay))
    ensures Apply(cfg, s, Settle(c, Dispatch.Timeout(text), delay)).tables.db.outbox[c.0].status
            == if c.1 < cfg.maxAttempts then QUEUED else DLQ
  {
  }

  /** Every commit takes place at that time. */
  ghost predicate CommitsAt(ts: seq<T.Step>, now: Time) {
    forall k :: 0 <= k < |ts| && ts[k].Commit? ==> ts[k].at == now
  }

  function Transacting(ts: seq<T.Step>): (steps: seq<Step>)
    ensures |steps| == |ts|
  {
    if ts == [] then [] else [Transact(ts[0])] + Transacting(ts[1..])
  }

  /** However handler transactions overlap, they do so in the pipeline too, with the same tables. */
  lemma {:induction false} TransactionsInterleave(cfg: Outbox.Config, s: State, ts: seq<T.Step>)
    requires |s.books| == |s.tables.db.outbox| && TransactionRuns.Run(s.tables, ts) && CommitsAt(ts, s.now)
    ensures Run(cfg, s, Transacting(ts))
    ensures After(cfg, s, Transacting(ts)).tables == TransactionRuns.After(s.tables, ts)
    ensures var later := After(cfg, s, Transacting(ts)); later.erp == s.erp && later.sent == s.sent && later.answers == s.answers
    decreases |ts|
  {
    if ts != [] {
      var step := Transact(ts[0]);
      StepShapes(cfg, s, step);
      TransactionsInterleave(cfg, Apply(cfg, s, step), ts[1..]);
      FirstThen(cfg, s, step, Transacting(ts[1..]));
    }
  }
}
