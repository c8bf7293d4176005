/**
 The outbox dispatch protocol: concurrent claims, stale-lock release and
 settlement by workers that may have lost their lock.

 The table is what the SQL statements change.  Beside it every row has a `Book`
 the database does not hold: which claims are still being dispatched (each
 known by the attempts value it read, and by its worker), and how often the row
 was released.
 */
module Outbox {
  import opened Prelude
  import opened Schema

  const STALE_LOCK_SECONDS: Time := 120.0
  const MAX_ERROR_LENGTH: nat := 1000

  datatype Config = Config(maxAttempts: int, backoffBase: real, backoffMax: real)

  /** How one post to the ERP ended, as the dispatcher sees it. */
  datatype Verdict =
    | Delivered
    | Temporary(error: string, delay: real)
    | Permanent(error: string)

  // ---- the statements, one row at a time ----

  predicate Claimable(r: OutboxRow, now: Time) {
    r.status == QUEUED && r.nextAttemptAt <= now
  }

  function ClaimRow(r: OutboxRow, worker: string, now: Time): OutboxRow {
    r.(status := IN_FLIGHT, attempts := r.attempts + 1, lockedBy := Some(worker), lockedAt := Some(now))
  }

  predicate Stale(r: OutboxRow, now: Time, seconds: Time) {
    r.status == IN_FLIGHT && r.lockedAt.Some? && r.lockedAt.value < now - seconds
  }

  function ReleaseRow(r: OutboxRow): OutboxRow {
    r.(status := QUEUED, lockedBy := None, lockedAt := None)
  }

  function Truncated(error: string): string {
    if |error| <= MAX_ERROR_LENGTH then error else error[..MAX_ERROR_LENGTH]
  }

  function MarkSent(r: OutboxRow, now: Time): OutboxRow {
    r.(status := SENT, sentAt := Some(now), lockedBy := None, lockedAt := None, lastError := None)
  }

  function MarkRetry(r: OutboxRow, nextAttemptAt: Time, error: string): OutboxRow {
    r.(status := QUEUED, nextAttemptAt := nextAttemptAt, lastError := Some(Truncated(error)),
       lockedBy := None, lockedAt := None)
  }

  function MarkDeadLetter(r: OutboxRow, error: string): OutboxRow {
    r.(status := DLQ, lastError := Some(Truncated(error)), lockedBy := None, lockedAt := None)
  }

  /** Settlement decides on the attempts value the claim read, never on the row. */
  function SettleRow(cfg: Config, r: OutboxRow, attempt: nat, v: Verdict, now: Time): OutboxRow {
    match v
    case Delivered => MarkSent(r, now)
    case Temporary(error, delay) =>
      if attempt >= cfg.maxAttempts
      then MarkDeadLetter(r, "tentativas esgotadas: " + error)
      else MarkRetry(r, now + delay, error)
    case Permanent(error) => MarkDeadLetter(r, error)
  }

  // ---- the statements over the whole table ----

  function ClaimRows(rows: seq<OutboxRow>, chosen: set<nat>, worker: string, now: Time): (r: seq<OutboxRow>)
    ensures |r| == |rows|
  {
    seq(|rows|, i requires 0 <= i < |rows| => if i in chosen then ClaimRow(rows[i], worker, now) else rows[i])
  }

  function ReleaseRows(rows: seq<OutboxRow>, now: Time, seconds: Time): (r: seq<OutboxRow>)
    ensures |r| == |rows|
  {
    seq(|rows|, i requires 0 <= i < |rows| => if Stale(rows[i], now, seconds) then ReleaseRow(rows[i]) else rows[i])
  }

  // ---- backoff ----

  /** `x * 2**n`, by doubling. */
  function Doubled(x: real, n: nat): real {
    if n == 0 then x else 2.0 * Doubled(x, n - 1)
  }

  /** The largest delay `backoff_delay` can draw for an attempt. */
  function BackoffCap(cfg: Config, attempt: nat): real {
    MaxReal(MinReal(cfg.backoffMax, Doubled(cfg.backoffBase, attempt)), cfg.backoffBase)
  }

  predicate BackoffAllows(cfg: Config, attempt: nat, delay: real) {
    cfg.backoffBase <= delay <= BackoffCap(cfg, attempt)
  }

  // ---- the state machine ----

  datatype Book = Book(held: map<nat, string>, releases: nat)

  datatype State = State(rows: seq<OutboxRow>, books: seq<Book>, now: Time)

  datatype Step =
    | Enqueue(aggregateId: string, payload: OrderPayload)
    | Tick(to: Time)
    | Claim(worker: string, chosen: set<nat>, batchSize: nat)
    | ReleaseStale
    | Settle(id: nat, attempt: nat, verdict: Verdict)
    | Crash(worker: string)

  ghost predicate WellFormed(s: State) {
    |s.rows| == |s.books|
  }

  ghost predicate Enabled(cfg: Config, s: State, step: Step)
    requires WellFormed(s)
  {
    match step
    case Enqueue(_, _) => true
    case Tick(to) => s.now <= to
    case Claim(worker, chosen, batchSize) =>
      && |chosen| <= batchSize
      && forall i :: i in chosen ==> i < |s.rows| && Claimable(s.rows[i], s.now)
    case ReleaseStale => true
    case Settle(id, attempt, v) =>
      && id < |s.rows|
      && attempt in s.books[id].held
      && (v.Temporary? && attempt < cfg.maxAttempts ==> BackoffAllows(cfg, attempt, v.delay))
    case Crash(worker) => true
  }

  function ClaimBook(b: Book, attempt: nat, worker: string): Book {
    b.(held := b.held[attempt := worker])
  }

  function CrashBook(b: Book, worker: string): Book {
    b.(held := map k | k in b.held && b.held[k] != worker :: b.held[k])
  }

  function Apply(cfg: Config, s: State, step: Step): (s': State)
    requires |s.rows| == |s.books|
    ensures |s'.rows| == |s'.books|
    ensures |s.rows| <= |s'.rows|
  {
    match step
    case Enqueue(aggregateId, payload) =>
      s.(rows := s.rows + [FreshRow(aggregateId, payload, s.now)], books := s.books + [Book(map[], 0)])
    case Tick(to) => s.(now := to)
    case Claim(worker, chosen, _) =>
      s.(rows := ClaimRows(s.rows, chosen, worker, s.now),
         books := seq(|s.books|, i requires 0 <= i < |s.books| =>
           if i in chosen then ClaimBook(s.books[i], s.rows[i].attempts + 1, worker) else s.books[i]))
    case ReleaseStale =>
      s.(rows := ReleaseRows(s.rows, s.now, STALE_LOCK_SECONDS),
         books := seq(|s.books|, i requires 0 <= i < |s.books| =>
           if Stale(s.rows[i], s.now, STALE_LOCK_SECONDS)
           then s.books[i].(releases := s.books[i].releases + 1) else s.books[i]))
    case Settle(id, attempt, v) =>
      if id < |s.rows| then
        s.(rows := s.rows[id := SettleRow(cfg, s.rows[id], attempt, v, s.now)],
           books := s.books[id := s.books[id].(held := s.books[id].held - {attempt})])
      else s
    case Crash(worker) =>
      s.(books := seq(|s.books|, i requires 0 <= i < |s.books| => CrashBook(s.books[i], worker)))
  }

  function After(cfg: Config, s: State, steps: seq<Step>): (s': State)
    requires |s.rows| == |s.books|
    ensures |s'.rows| == |s'.books|
    ensures |s.rows| <= |s'.rows|
    decreases |steps|
  {
    if steps == [] then s else After(cfg, Apply(cfg, s, steps[0]), steps[1..])
  }

  /** Every step of the run was possible when it was taken. */
  ghost predicate Run(cfg: Config, s: State, steps: seq<Step>)
    requires WellFormed(s)
    decreases |steps|
  {
    steps == [] || (Enabled(cfg, s, steps[0]) && Run(cfg, Apply(cfg, s, steps[0]), steps[1..]))
  }

  // ---- the inductive invariant ----

  /** Claims whose failure can still put the row back in the queue. */
  ghost function Early(cfg: Config, b: Book): set<nat> {
    set k | k in b.held && k < cfg.maxAttempts
  }

  /** Attempts a row may use before any release: at least one post always happens. */
  function Allowance(cfg: Config): nat {
    Max(cfg.maxAttempts, 1)
  }

  ghost predicate RowInv(cfg: Config, r: OutboxRow, b: Book) {
    && (r.status == IN_FLIGHT <==> r.lockedAt.Some?)
    && (r.status == IN_FLIGHT <==> r.lockedBy.Some?)
    && (forall k :: k in b.held ==> 1 <= k <= r.attempts)
    && |b.held| + (if r.status == IN_FLIGHT then 0 else 1) <= 1 + b.releases
    && r.attempts + (if r.status == QUEUED then 1 else 0) + |Early(cfg, b)|
       <= 1 + b.releases + Min(r.attempts, Allowance(cfg) - 1)
  }

  ghost predicate Inv(cfg: Config, s: State) {
    && WellFormed(s)
    && forall i :: 0 <= i < |s.rows| ==> RowInv(cfg, s.rows[i], s.books[i])
  }

  lemma ClaimKeeps(cfg: Config, r: OutboxRow, b: Book, worker: string, now: Time)
    requires RowInv(cfg, r, b) && Claimable(r, now)
    ensures RowInv(cfg, ClaimRow(r, worker, now), ClaimBook(b, r.attempts + 1, worker))
  {
    var k := r.attempts + 1;
    var b' := ClaimBook(b, k, worker);
    assert b'.held.Keys == b.held.Keys + {k};
    assert |b'.held| == |b.held| + 1;
    if k < cfg.maxAttempts {
      assert Early(cfg, b') == Early(cfg, b) + {k};
    } else {
      assert Early(cfg, b') == Early(cfg, b);
    }
  }

  lemma DropKeeps(cfg: Config, b: Book, attempt: nat, b': Book)
    requires attempt in b.held && b' == b.(held := b.held - {attempt})
    ensures |b'.held| == |b.held| - 1
    ensures |Early(cfg, b')| == |Early(cfg, b)| - if attempt < cfg.maxAttempts then 1 else 0
  {
    assert b'.held.Keys == b.held.Keys - {attempt};
    assert |b'.held| == |b'.held.Keys| && |b.held| == |b.held.Keys|;
    if attempt < cfg.maxAttempts {
      assert Early(cfg, b') == Early(cfg, b) - {attempt};
    } else {
      assert Early(cfg, b') == Early(cfg, b);
    }
  }

  lemma SettleKeeps(cfg: Config, r: OutboxRow, b: Book, attempt: nat, v: Verdict, now: Time)
    requires RowInv(cfg, r, b) && attempt in b.held
    ensures RowInv(cfg, SettleRow(cfg, r, attempt, v, now), b.(held := b.held - {attempt}))
  {
    DropKeeps(cfg, b, attempt, b.(held := b.held - {attempt}));
  }

  lemma CrashKeeps(cfg: Config, r: OutboxRow, b: Book, worker: string)
    requires RowInv(cfg, r, b)
    ensures RowInv(cfg, r, CrashBook(b, worker))
  {
    var b' := CrashBook(b, worker);
    SubsetSize(b'.held.Keys, b.held.Keys);
    SubsetSize(Early(cfg, b'), Early(cfg, b));
  }

  lemma SubsetSize(a: set<nat>, b: set<nat>)
    requires a <= b
    ensures |a| <= |b|
  {
    assert b == a + (b - a);
  }

  lemma ReleaseKeeps(cfg: Config, r: OutboxRow, b: Book)
    requires RowInv(cfg, r, b) && r.status == IN_FLIGHT
    ensures RowInv(cfg, ReleaseRow(r), b.(releases := b.releases + 1))
  {
    assert Early(cfg, b.(releases := b.releases + 1)) == Early(cfg, b);
  }

  lemma FreshIsFine(cfg: Config, aggregateId: string, payload: OrderPayload, now: Time)
    ensures RowInv(cfg, FreshRow(aggregateId, payload, now), Book(map[], 0))
  {
    assert Early(cfg, Book(map[], 0)) == {};
  }

  /** What a step makes of one row and its book. */
  function RowStep(cfg: Config, r: OutboxRow, b: Book, i: nat, now: Time, step: Step): (OutboxRow, Book) {
    match step
    case Claim(worker, chosen, _) =>
      if i in chosen then (ClaimRow(r, worker, now), ClaimBook(b, r.attempts + 1, worker)) else (r, b)
    case Settle(id, attempt, v) =>
      if i == id then (SettleRow(cfg, r, attempt, v, now), b.(held := b.held - {attempt})) else (r, b)
    case Crash(worker) => (r, CrashBook(b, worker))
    case ReleaseStale =>
      if Stale(r, now, STALE_LOCK_SECONDS) then (ReleaseRow(r), b.(releases := b.releases + 1)) else (r, b)
    case _ => (r, b)
  }

  lemma RowAfter(cfg: Config, s: State, step: Step, i: nat)
    requires WellFormed(s) && i < |s.rows|
    ensures var s' := Apply(cfg, s, step); (s'.rows[i], s'.books[i]) == RowStep(cfg, s.rows[i], s.books[i], i, s.now, step)
  {
  }

  lemma StepKeepsRow(cfg: Config, r: OutboxRow, b: Book, i: nat, now: Time, step: Step)
    requires RowInv(cfg, r, b)
    requires step.Claim? && i in step.chosen ==> Claimable(r, now)
    requires step.Settle? && i == step.id ==> step.attempt in b.held
    ensures var (r', b') := RowStep(cfg, r, b, i, now, step); RowInv(cfg, r', b')
  {
    match step
    case Claim(worker, chosen, _) => if i in chosen { ClaimKeeps(cfg, r, b, worker, now); }
    case Settle(id, attempt, v) => if i == id { SettleKeeps(cfg, r, b, attempt, v, now); }
    case Crash(worker) => CrashKeeps(cfg, r, b, worker);
    case ReleaseStale => if Stale(r, now, STALE_LOCK_SECONDS) { ReleaseKeeps(cfg, r, b); }
    case _ =>
  }

  lemma StepKeepsInv(cfg: Config, s: State, step: Step)
    requires Inv(cfg, s) && Enabled(cfg, s, step)
    ensures Inv(cfg, Apply(cfg, s, step))
  {
    var s' := Apply(cfg, s, step);
    forall i | 0 <= i < |s'.rows|
      ensures RowInv(cfg, s'.rows[i], s'.books[i])
    {
      if i < |s.rows| {
        RowAfter(cfg, s, step, i);
        StepKeepsRow(cfg, s.rows[i], s.books[i], i, s.now, step);
      } else {
        FreshIsFine(cfg, step.aggregateId, step.payload, s.now);
      }
    }
  }

  /** The invariant holds in every state of every run. */
  lemma {:induction false} RunKeepsInv(cfg: Config, s: State, steps: seq<Step>)
    requires Inv(cfg, s) && Run(cfg, s, steps)
    ensures Inv(cfg, After(cfg, s, steps))
    decreases |steps|
  {
    if steps != [] {
      StepKeepsInv(cfg, s, steps[0]);
      RunKeepsInv(cfg, Apply(cfg, s, steps[0]), steps[1..]);
    }
  }

  // ---- what the invariant gives ----

  const EMPTY := State([], [], 0.0)

  /**
   In every interleaving, a row is posted at most `Allowance` times plus once
   per release, and never has more simultaneous holders than one plus its
   releases.
   */
  lemma AttemptsAndHoldersBounded(cfg: Config, steps: seq<Step>, i: nat)
    requires Run(cfg, EMPTY, steps)
    requires i < |After(cfg, EMPTY, steps).rows|
    ensures var s := After(cfg, EMPTY, steps);
            && s.rows[i].attempts <= Allowance(cfg) + s.books[i].releases
            && |s.books[i].held| <= 1 + s.books[i].releases
            && (s.rows[i].status != IN_FLIGHT ==> |s.books[i].held| <= s.books[i].releases)
  {
    RunKeepsInv(cfg, EMPTY, steps);
    assert RowInv(cfg, After(cfg, EMPTY, steps).rows[i], After(cfg, EMPTY, steps).books[i]);
  }

  lemma {:induction false} RowsPersist(cfg: Config, s: State, steps: seq<Step>, i: nat)
    requires WellFormed(s) && Run(cfg, s, steps) && i < |s.rows|
    ensures var s' := After(cfg, s, steps);
            && s.books[i].releases <= s'.books[i].releases
            && s.rows[i].attempts <= s'.rows[i].attempts
            && s'.rows[i].aggregateId == s.rows[i].aggregateId
            && s'.rows[i].payload == s.rows[i].payload
    decreases |steps|
  {
    if steps != [] {
      RowsPersist(cfg, Apply(cfg, s, steps[0]), steps[1..], i);
    }
  }

  // ---- when a settled row stays settled ----

  /** Row `i` reads the same in every continuation. */
  ghost predicate Final(cfg: Config, s: State, i: nat)
    requires WellFormed(s) && i < |s.rows|
  {
    forall steps | Run(cfg, s, steps) :: After(cfg, s, steps).rows[i] == s.rows[i]
  }

  /** Row `i` is put back to work in some continuation. */
  ghost predicate Reopens(cfg: Config, s: State, i: nat)
    requires WellFormed(s) && i < |s.rows|
  {
    exists steps :: Run(cfg, s, steps) && After(cfg, s, steps).rows[i].status !in {SENT, DLQ}
  }

  lemma {:induction false} UnheldStays(cfg: Config, s: State, steps: seq<Step>, i: nat)
    requires WellFormed(s) && Run(cfg, s, steps) && i < |s.rows|
    requires s.rows[i].status in {SENT, DLQ} && s.books[i].held.Keys == {}
    ensures After(cfg, s, steps).rows[i] == s.rows[i]
    decreases |steps|
  {
    if steps != [] {
      UnheldStays(cfg, Apply(cfg, s, steps[0]), steps[1..], i);
    }
  }

  lemma OneSettlement(cfg: Config, s: State, i: nat, attempt: nat, v: Verdict)
    requires WellFormed(s) && i < |s.rows| && Enabled(cfg, s, Settle(i, attempt, v))
    ensures Run(cfg, s, [Settle(i, attempt, v)])
    ensures After(cfg, s, [Settle(i, attempt, v)]).rows[i] == SettleRow(cfg, s.rows[i], attempt, v, s.now)
  {
    var step := Settle(i, attempt, v);
    assert [step][1..] == [];
    assert After(cfg, s, [step]) == After(cfg, Apply(cfg, s, step), []);
  }

  /**
   A SENT or DLQ row is final, to the last column, if and only if no claim of it
   is still being dispatched: settlement goes by the row's id and never looks at
   the lock.
   */
  lemma SettledIsFinalIffUnheld(cfg: Config, s: State, i: nat)
    requires WellFormed(s) && i < |s.rows| && s.rows[i].status in {SENT, DLQ}
    ensures Final(cfg, s, i) <==> s.books[i].held.Keys == {}
  {
    if s.books[i].held.Keys == {} {
      forall steps | Run(cfg, s, steps) ensures After(cfg, s, steps).rows[i] == s.rows[i] {
        UnheldStays(cfg, s, steps, i);
      }
    } else {
      var attempt :| attempt in s.books[i].held.Keys;
      var v := if s.rows[i].status == SENT then Permanent("") else Delivered;
      OneSettlement(cfg, s, i, attempt, v);
      assert After(cfg, s, [Settle(i, attempt, v)]).rows[i].status != s.rows[i].status;
    }
  }

  lemma {:induction false} LateHoldersOnlySettle(cfg: Config, s: State, steps: seq<Step>, i: nat)
    requires WellFormed(s) && Run(cfg, s, steps) && i < |s.rows|
    requires s.rows[i].status in {SENT, DLQ} && Early(cfg, s.books[i]) == {}
    ensures After(cfg, s, steps).rows[i].status in {SENT, DLQ}
    decreases |steps|
  {
    if steps != [] {
      var s' := Apply(cfg, s, steps[0]);
      assert Early(cfg, s'.books[i]) <= Early(cfg, s.books[i]);
      if steps[0].Settle? && steps[0].id == i { assert steps[0].attempt !in Early(cfg, s.books[i]); }
      LateHoldersOnlySettle(cfg, s', steps[1..], i);
    }
  }

  /** It can go back to work if and only if one of those claims was of an attempt short of the limit. */
  lemma SettledReopensIffEarlyClaim(cfg: Config, s: State, i: nat)
    requires WellFormed(s) && i < |s.rows| && s.rows[i].status in {SENT, DLQ}
    ensures Reopens(cfg, s, i) <==> Early(cfg, s.books[i]) != {}
  {
    if Early(cfg, s.books[i]) == {} {
      forall steps | Run(cfg, s, steps) ensures After(cfg, s, steps).rows[i].status in {SENT, DLQ} {
        LateHoldersOnlySettle(cfg, s, steps, i);
      }
    } else {
      var attempt :| attempt in Early(cfg, s.books[i]);
      OneSettlement(cfg, s, i, attempt, Temporary("", cfg.backoffBase));
    }
  }

  /** In particular a settled row that is never released is final: it has no claim left. */
  lemma SettledIsFinal(cfg: Config, s: State, steps: seq<Step>, i: nat)
    requires Inv(cfg, s) && Run(cfg, s, steps) && i < |s.rows|
    requires s.rows[i].status in {SENT, DLQ}
    requires After(cfg, s, steps).books[i].releases == 0
    ensures After(cfg, s, steps).rows[i] == s.rows[i]
  {
    RowsPersist(cfg, s, steps, i);
    assert RowInv(cfg, s.rows[i], s.books[i]);
    SettledIsFinalIffUnheld(cfg, s, i);
  }
}
