/**
 The dispatch worker and the table it works on, in place.  Every cycle of the
 polling loop is shown to be a run of the protocol in `Outbox`.
 */
module Dispatch {
  import opened Prelude
  import opened Schema
  import opened Outbox
  import opened OutboxRuns

  const RELEASE_STALE_EVERY_N_CYCLES: nat := 60

  datatype OutboxItem = OutboxItem(id: nat, aggregateId: string, payload: OrderPayload, attempts: nat)

  function ItemOf(id: nat, r: OutboxRow): OutboxItem {
    OutboxItem(id, r.aggregateId, r.payload, r.attempts)
  }

  // ---- the ERP client ----

  datatype Reply = Http(code: int, text: string) | Timeout(text: string) | TransportFailure(text: string)

  const RETRYABLE_STATUS_CODES: set<int> := {408, 425, 429, 500, 502, 503, 504}
  const CLIENT_ERROR_THRESHOLD := 400

  /** Which of the dispatcher's three branches a reply leads to; `delay` matters for a temporary failure only. */
  function VerdictOf(reply: Reply, delay: real): (v: Verdict)
    ensures v.Delivered? <==> reply.Http? && reply.code < 400
    ensures v.Temporary? <==> reply.Http? ==> reply.code in {408, 425, 429, 500, 502, 503, 504}
    ensures v.Temporary? ==> v.delay == delay
  {
    match reply
    case Timeout(text) => Temporary("timeout ao chamar o ERP: " + text, delay)
    case TransportFailure(text) => Temporary("falha de transporte: " + text, delay)
    case Http(code, text) =>
      if code in RETRYABLE_STATUS_CODES then Temporary("ERP respondeu", delay)
      else if code >= CLIENT_ERROR_THRESHOLD then Permanent("ERP recusou: " + text)
      else Delivered
  }

  /** A share of a span; `unit` is the random number in [0, 1]. */
  function Share(unit: real, span: real): (r: real)
    requires 0.0 <= unit <= 1.0 && span >= 0.0
    ensures 0.0 <= r <= span && r == unit * span
  {
    assert span - unit * span == (1.0 - unit) * span;
    unit * span
  }

  /** `random.uniform(base, max(ceiling, base))`. */
  method BackoffDelay(cfg: Config, attempt: nat, unit: real) returns (delay: real)
    requires 0.0 <= unit <= 1.0
    ensures BackoffAllows(cfg, attempt, delay)
    ensures delay == cfg.backoffBase + unit * (BackoffCap(cfg, attempt) - cfg.backoffBase)
  {
    var share := Share(unit, BackoffCap(cfg, attempt) - cfg.backoffBase);
    delay := cfg.backoffBase + share;
  }

  // ---- the table ----

  /** The chosen rows lie below `i`, were due, and are what the items say, in order. */
  ghost predicate Claimed(before: seq<OutboxRow>, items: seq<OutboxItem>, chosen: set<nat>, i: nat, worker: string, now: Time) {
    && i <= |before| && |chosen| == |items|
    && (forall c :: c in chosen ==> c < i && Claimable(before[c], now))
    && (forall k :: 0 <= k < |items| ==>
          items[k].id in chosen && items[k] == ItemOf(items[k].id, ClaimRow(before[items[k].id], worker, now)))
    && (forall j, k :: 0 <= j < k < |items| ==> items[j].id < items[k].id)
  }

  lemma ClaimedNext(before: seq<OutboxRow>, items: seq<OutboxItem>, chosen: set<nat>, i: nat, worker: string, now: Time)
    requires Claimed(before, items, chosen, i, worker, now) && i < |before| && Claimable(before[i], now)
    ensures Claimed(before, items + [ItemOf(i, ClaimRow(before[i], worker, now))], chosen + {i}, i + 1, worker, now)
    ensures i !in chosen
  {
  }

  /** In flight, and locked for longer than that. */
  predicate LockedLongerThan(r: OutboxRow, now: Time, seconds: Time) {
    r.status == IN_FLIGHT && r.lockedAt.Some? && now - r.lockedAt.value > seconds
  }

  class OutboxTable {
    var rows: seq<OutboxRow>

    constructor ()
      ensures rows == []
    {
      rows := [];
    }

    /**
     The claiming UPDATE: due rows up to `batchSize`, skipping those in `locked`,
     which other statements hold; fewer only if no other due row is free.
     */
    method Claim(worker: string, now: Time, batchSize: nat, locked: set<nat>) returns (items: seq<OutboxItem>, ghost chosen: set<nat>)
      modifies this
      ensures |chosen| == |items| <= batchSize
      ensures forall i :: i in chosen ==> i < |old(rows)| && Claimable(old(rows)[i], now) && i !in locked
      ensures forall i: nat :: i < |old(rows)| && Claimable(old(rows)[i], now) && i !in locked && i !in chosen ==> |items| == batchSize
      ensures rows == ClaimRows(old(rows), chosen, worker, now)
      ensures forall k :: 0 <= k < |items| ==> items[k].id in chosen && items[k] == ItemOf(items[k].id, rows[items[k].id])
      ensures forall j, k :: 0 <= j < k < |items| ==> items[j].id < items[k].id
    {
      ghost var before := rows;
      items, chosen := [], {};
      var i := 0;
      while i < |rows|
        invariant 0 <= i <= |rows| == |before|
        invariant Claimed(before, items, chosen, i, worker, now) && |items| <= batchSize && chosen !! locked
        invariant forall j: nat :: j < i && Claimable(before[j], now) && j !in locked && j !in chosen ==> |items| == batchSize
        invariant forall j :: 0 <= j < |rows| ==> rows[j] == if j in chosen then ClaimRow(before[j], worker, now) else before[j]
      {
        if |items| < batchSize && Claimable(rows[i], now) && i !in locked {
          ClaimedNext(before, items, chosen, i, worker, now);
          rows := rows[i := ClaimRow(rows[i], worker, now)];
          items := items + [ItemOf(i, rows[i])];
          chosen := chosen + {i};
        }
        i := i + 1;
      }
    }

    method ReleaseAbandoned(now: Time, seconds: Time) returns (released: nat)
      modifies this
      ensures rows == ReleaseRows(old(rows), now, seconds)
      ensures |rows| == |old(rows)| && forall i :: 0 <= i < |rows| ==>
                rows[i] == if LockedLongerThan(old(rows)[i], now, seconds)
                           then old(rows)[i].(status := QUEUED, lockedBy := None, lockedAt := None)
                           else old(rows)[i]
      ensures released == |set i | 0 <= i < |old(rows)| && LockedLongerThan(old(rows)[i], now, seconds)|
    {
      released := 0;
      ghost var freed: set<int> := {};
      var i := 0;
      while i < |rows|
        invariant 0 <= i <= |rows| == |old(rows)|
        invariant forall j :: 0 <= j < |rows| ==>
                    rows[j] == if j < i && Stale(old(rows)[j], now, seconds) then ReleaseRow(old(rows)[j]) else old(rows)[j]
        invariant freed == set j | 0 <= j < i && Stale(old(rows)[j], now, seconds)
        invariant released == |freed|
      {
        if Stale(rows[i], now, seconds) {
          rows := rows[i := ReleaseRow(rows[i])];
          released := released + 1;
          freed := freed + {i};
        }
        i := i + 1;
      }
      assert freed == set j | 0 <= j < |old(rows)| && LockedLongerThan(old(rows)[j], now, seconds);
    }

    /** `UPDATE ... WHERE outbox_id = id`, whoever holds the lock; a missing id updates nothing. */
    method Update(id: nat, row: OutboxRow)
      modifies this
      ensures rows == if id < |old(rows)| then old(rows)[id := row] else old(rows)
    {
      if id < |rows| {
        rows := rows[id := row];
      }
    }
  }

  // ---- the worker ----

  class DispatchWorker {
    const name: string
    const cfg: Config
    const batchSize: nat
    const table: OutboxTable
    var cycle: nat

    constructor (name: string, cfg: Config, batchSize: nat, table: OutboxTable)
      ensures this.name == name && this.cfg == cfg && this.batchSize == batchSize && this.table == table && cycle == 0
    {
      this.name, this.cfg, this.batchSize, this.table := name, cfg, batchSize, table;
      cycle := 0;
    }

    method Reschedule(item: OutboxItem, error: string, delay: real, now: Time)
      requires item.id < |table.rows|
      modifies table
      ensures table.rows == old(table.rows)[item.id :=
                SettleRow(cfg, old(table.rows)[item.id], item.attempts, Temporary(error, delay), now)]
    {
      if item.attempts >= cfg.maxAttempts {
        table.Update(item.id, MarkDeadLetter(table.rows[item.id], "tentativas esgotadas: " + error));
        return;
      }
      table.Update(item.id, MarkRetry(table.rows[item.id], now + delay, error));
    }

    /** One post to the ERP and its settlement. */
    method SendAndSettle(item: OutboxItem, reply: Reply, unit: real, now: Time) returns (ghost delay: real)
      requires item.id < |table.rows| && 0.0 <= unit <= 1.0
      modifies table
      ensures BackoffAllows(cfg, item.attempts, delay)
      ensures table.rows == old(table.rows)[item.id :=
                SettleRow(cfg, old(table.rows)[item.id], item.attempts, VerdictOf(reply, delay), now)]
    {
      var drawn := BackoffDelay(cfg, item.attempts, unit);
      delay := drawn;
      match VerdictOf(reply, drawn) {
        case Delivered => table.Update(item.id, MarkSent(table.rows[item.id], now));
        case Temporary(error, d) => Reschedule(item, error, d, now);
        case Permanent(error) => table.Update(item.id, MarkDeadLetter(table.rows[item.id], error));
      }
    }

    /** What the ERP answers per row, the random number drawn for it, and when the k-th answer is settled. */
    ghost predicate Answers(now: Time, clock: nat -> Time, units: nat -> real) {
      && now <= clock(0)
      && (forall j, k :: 0 <= j <= k ==> clock(j) <= clock(k))
      && forall i :: 0.0 <= units(i) <= 1.0
    }

    /** Each item in turn is settled, some time later, as its own answer says. */
    ghost predicate Settles(steps: seq<Step>, items: seq<OutboxItem>, clock: nat -> Time, replies: nat -> Reply) {
      && |steps| == 2 * |items|
      && forall k :: 0 <= k < |items| ==> steps[2 * k] == Tick(clock(k)) && SettlesItem(steps[2 * k + 1], items[k], replies)
    }

    ghost predicate SettlesItem(step: Step, item: OutboxItem, replies: nat -> Reply) {
      && step.Settle? && step.id == item.id && step.attempt == item.attempts
      && exists delay :: step.verdict == VerdictOf(replies(item.id), delay)
    }

    /** Posts and settles every claimed item; the table follows a run of settlements. */
    method DispatchAll(items: seq<OutboxItem>, clock: nat -> Time, replies: nat -> Reply, units: nat -> real, ghost s: State)
      returns (ghost steps: seq<Step>)
      requires WellFormed(s) && s.rows == table.rows && Answers(s.now, clock, units)
      requires forall k :: 0 <= k < |items| ==>
                 items[k].id < |s.rows| && items[k].attempts in s.books[items[k].id].held
      requires forall j, k :: 0 <= j < k < |items| ==> items[j].id < items[k].id
      modifies table
      ensures Run(cfg, s, steps) && After(cfg, s, steps).rows == table.rows
      ensures Settles(steps, items, clock, replies)
    {
      steps := [];
      ghost var cur := s;
      var k := 0;
      while k < |items|
        invariant 0 <= k <= |items|
        invariant Run(cfg, s, steps) && After(cfg, s, steps) == cur
        invariant cur.rows == table.rows && |cur.rows| == |cur.books| && cur.now <= clock(k)
        invariant forall j :: k <= j < |items| ==>
                    items[j].id < |cur.rows| && items[j].attempts in cur.books[items[j].id].held
        invariant Settles(steps, items[..k], clock, replies)
      {
        var item := items[k];
        var now := clock(k);
        ghost var tick := Tick(now);
        RunExtend(cfg, s, steps, tick);
        cur := Apply(cfg, cur, tick);
        ghost var delay := SendAndSettle(item, replies(item.id), units(item.id), now);
        ghost var settle := Settle(item.id, item.attempts, VerdictOf(replies(item.id), delay));
        assert SettlesItem(settle, item, replies);
        RunExtend(cfg, s, steps + [tick], settle);
        SettledNext(steps, items, k, clock, replies, settle);
        steps := steps + [tick] + [settle];
        cur := Apply(cfg, cur, settle);
        k := k + 1;
      }
      assert items[..k] == items;
    }

    lemma SettledNext(steps: seq<Step>, items: seq<OutboxItem>, k: nat, clock: nat -> Time, replies: nat -> Reply, settle: Step)
      requires k < |items| && Settles(steps, items[..k], clock, replies) && SettlesItem(settle, items[k], replies)
      ensures Settles(steps + [Tick(clock(k))] + [settle], items[..k + 1], clock, replies)
    {
      var steps' := steps + [Tick(clock(k))] + [settle];
      forall j | 0 <= j < k + 1
        ensures steps'[2 * j] == Tick(clock(j)) && SettlesItem(steps'[2 * j + 1], items[..k + 1][j], replies)
      {
        if j < k { assert items[..k + 1][j] == items[..k][j]; }
      }
    }

    /** The stale-lock release of every sixtieth cycle. */
    method ReleaseWhenDue(now: Time, ghost s: State) returns (ghost steps: seq<Step>)
      requires WellFormed(s) && s.rows == table.rows && s.now == now
      modifies table
      ensures Run(cfg, s, steps) && After(cfg, s, steps).rows == table.rows && After(cfg, s, steps).now == now
      ensures steps == if cycle % 60 == 0 then [ReleaseStale] else []
    {
      steps := [];
      if cycle % RELEASE_STALE_EVERY_N_CYCLES == 0 {
        var released := table.ReleaseAbandoned(now, STALE_LOCK_SECONDS);
        RunExtend(cfg, s, [], ReleaseStale);
        steps := [] + [ReleaseStale];
      }
    }

    /** The claim as a step of the protocol: every item is a claim now outstanding. */
    method ClaimBatch(now: Time, locked: set<nat>, ghost s: State) returns (items: seq<OutboxItem>, ghost chosen: set<nat>)
      requires WellFormed(s) && s.rows == table.rows && s.now == now
      modifies table
      ensures Enabled(cfg, s, Outbox.Claim(name, chosen, batchSize))
      ensures table.rows == Apply(cfg, s, Outbox.Claim(name, chosen, batchSize)).rows
      ensures |items| == |chosen| && forall k :: 0 <= k < |items| ==> items[k].id in chosen
      ensures var books := Apply(cfg, s, Outbox.Claim(name, chosen, batchSize)).books;
              forall k :: 0 <= k < |items| ==> items[k].id < |books| && items[k].attempts in books[items[k].id].held
      ensures forall j, k :: 0 <= j < k < |items| ==> items[j].id < items[k].id
    {
      items, chosen := table.Claim(name, now, batchSize, locked);
    }

    /**
     One turn of the polling loop.  Whatever the ERP answers, and whenever, the
     turn takes the protocol along the run `release + [claim] + settled`: a release
     when due, one claim, and for exactly the claimed items a settlement each.
     */
    method PollOnce(now: Time, locked: set<nat>, clock: nat -> Time, replies: nat -> Reply, units: nat -> real, ghost s: State)
      returns (idle: bool, ghost items: seq<OutboxItem>, ghost chosen: set<nat>, ghost settled: seq<Step>)
      requires WellFormed(s) && s.rows == table.rows && s.now == now && Answers(now, clock, units)
      modifies this, table
      ensures cycle == old(cycle) + 1
      ensures var release := if cycle % 60 == 0 then [ReleaseStale] else [];
              var steps := release + [Outbox.Claim(name, chosen, batchSize)] + settled;
              Run(cfg, s, steps) && After(cfg, s, steps).rows == table.rows
      ensures |items| == |chosen| && forall k :: 0 <= k < |items| ==> items[k].id in chosen
      ensures forall j, k :: 0 <= j < k < |items| ==> items[j].id < items[k].id
      ensures Settles(settled, items, clock, replies)
      ensures idle <==> items == []
    {
      cycle := cycle + 1;
      settled := [];
      ghost var release := ReleaseWhenDue(now, s);
      ghost var s1 := After(cfg, s, release);
      var batch, taken := ClaimBatch(now, locked, s1);
      items, chosen := batch, taken;
      idle := batch == [];
      ghost var claim := Outbox.Claim(name, chosen, batchSize);
      ghost var s2 := Apply(cfg, s1, claim);
      RunExtend(cfg, s, release, claim);
      if idle {
        assert release + [claim] + [] == release + [claim];
        return;
      }
      settled := DispatchAll(batch, clock, replies, units, s2);
      RunAppend(cfg, s, release + [claim], settled);
    }
  }
}
