/** When a lock is taken from a worker, told over runs: exactly when its row's last claim is more than two minutes old. */
module OutboxLocks {
  import opened Prelude
  import opened Schema
  import opened Outbox
  import opened OutboxRuns

  /** When row `i` was last claimed in a run, `before` being when it last was at its start. */
  ghost function LastClaim(cfg: Config, s: State, steps: seq<Step>, i: nat, before: Option<Time>): Option<Time>
    requires WellFormed(s)
    decreases |steps|
  {
    if steps == [] then before
    else
      LastClaim(cfg, Apply(cfg, s, steps[0]), steps[1..], i,
                if steps[0].Claim? && i in steps[0].chosen then Some(s.now) else before)
  }

  /** A row in flight is locked since its last claim, and by the worker that made it. */
  ghost predicate LockedSince(s: State, i: nat, claimed: Option<Time>) {
    i < |s.rows| && s.rows[i].status == IN_FLIGHT ==> s.rows[i].lockedAt == claimed && claimed.Some?
  }

  lemma StepKeepsLock(cfg: Config, s: State, step: Step, i: nat, claimed: Option<Time>)
    requires WellFormed(s) && Enabled(cfg, s, step) && LockedSince(s, i, claimed)
    ensures LockedSince(Apply(cfg, s, step), i, if step.Claim? && i in step.chosen then Some(s.now) else claimed)
  {
  }

  lemma {:induction false} RunKeepsLock(cfg: Config, s: State, steps: seq<Step>, i: nat, claimed: Option<Time>)
    requires WellFormed(s) && Run(cfg, s, steps) && LockedSince(s, i, claimed)
    ensures LockedSince(After(cfg, s, steps), i, LastClaim(cfg, s, steps, i, claimed))
    decreases |steps|
  {
    if steps != [] {
      var step := steps[0];
      StepKeepsLock(cfg, s, step, i, claimed);
      RunKeepsLock(cfg, Apply(cfg, s, step), steps[1..], i, if step.Claim? && i in step.chosen then Some(s.now) else claimed);
    }
  }

  /** Row `i` is in flight and its last claim was made more than 120 seconds ago. */
  ghost predicate Overdue(cfg: Config, steps: seq<Step>, i: nat) {
    var s := After(cfg, EMPTY, steps);
    var claimed := LastClaim(cfg, EMPTY, steps, i, None);
    i < |s.rows| && s.rows[i].status == IN_FLIGHT && claimed.Some? && s.now - claimed.value > 120.0
  }

  /** The row is back in the queue, unlocked and otherwise as it was. */
  predicate Requeued(before: OutboxRow, after: OutboxRow) {
    && after.status == QUEUED && after.lockedBy == None && after.lockedAt == None
    && after.aggregateId == before.aggregateId && after.payload == before.payload && after.attempts == before.attempts
    && after.nextAttemptAt == before.nextAttemptAt && after.lastError == before.lastError && after.sentAt == before.sentAt
  }

  /**
   In every run: a step raises a row's releases if and only if it is the release
   of stale locks and the row, in flight, was last claimed more than 120 seconds
   before.  Exactly these rows go back to the queue, and no other row changes.
   */
  lemma ReleasedIffOverdue(cfg: Config, steps: seq<Step>, step: Step, i: nat)
    requires Run(cfg, EMPTY, steps) && Enabled(cfg, After(cfg, EMPTY, steps), step) && i < |After(cfg, EMPTY, steps).rows|
    ensures var s, s' := After(cfg, EMPTY, steps), Apply(cfg, After(cfg, EMPTY, steps), step);
            && (s'.books[i].releases > s.books[i].releases <==> step.ReleaseStale? && Overdue(cfg, steps, i))
            && (step.ReleaseStale? ==>
                  && s'.books[i].held == s.books[i].held && s'.now == s.now
                  && if Overdue(cfg, steps, i) then Requeued(s.rows[i], s'.rows[i]) else s'.rows[i] == s.rows[i])
  {
    RunKeepsLock(cfg, EMPTY, steps, i, None);
  }

  // ---- what a claim and a settlement write ----

  /**
   A claim takes only rows that are queued and due, and of those it takes changes
   status, attempts and lock, and nothing else.
   */
  lemma ClaimWrites(cfg: Config, s: State, worker: string, chosen: set<nat>, batchSize: nat, i: nat)
    requires WellFormed(s) && Enabled(cfg, s, Claim(worker, chosen, batchSize)) && i < |s.rows|
    ensures var row := Apply(cfg, s, Claim(worker, chosen, batchSize)).rows[i];
            if i in chosen
            then && s.rows[i].status == QUEUED && s.rows[i].nextAttemptAt <= s.now
                 && row == s.rows[i].(status := IN_FLIGHT, attempts := s.rows[i].attempts + 1,
                                      lockedBy := Some(worker), lockedAt := Some(s.now))
            else row == s.rows[i]
    ensures |chosen| <= batchSize
    ensures i in chosen ==>
              Apply(cfg, s, Claim(worker, chosen, batchSize)).books[i].held == s.books[i].held[s.rows[i].attempts + 1 := worker]
  {
  }

  /** A worker that dies leaves every row as it is, and of the outstanding claims takes exactly its own with it. */
  lemma DeathDropsItsClaims(cfg: Config, s: State, worker: string, i: nat, attempt: nat, v: Verdict)
    requires WellFormed(s) && i < |s.rows| && Enabled(cfg, s, Settle(i, attempt, v))
    ensures var s' := Apply(cfg, s, Crash(worker));
            && s'.rows == s.rows && s'.now == s.now && s'.books[i].releases == s.books[i].releases
            && (Enabled(cfg, s', Settle(i, attempt, v)) <==> s.books[i].held[attempt] != worker)
  {
  }

  /**
   A settlement unlocks its row whatever has become of it, keeps its message and
   its attempts, and leaves it sent at that time and without error, to be tried
   again after the delay, or dead, as the verdict and the claim's attempts say.
   */
  lemma SettlementWrites(cfg: Config, s: State, i: nat, attempt: nat, v: Verdict)
    requires WellFormed(s) && Enabled(cfg, s, Settle(i, attempt, v))
    ensures var s' := Apply(cfg, s, Settle(i, attempt, v));
            var row := s'.rows[i];
            && row.lockedBy == None && row.lockedAt == None
            && row.aggregateId == s.rows[i].aggregateId && row.payload == s.rows[i].payload && row.attempts == s.rows[i].attempts
            && (v.Delivered? ==> row.status == SENT && row.sentAt == Some(s.now) && row.lastError == None && row.nextAttemptAt == s.rows[i].nextAttemptAt)
            && (v.Temporary? && attempt < cfg.maxAttempts ==>
                  row.status == QUEUED && row.nextAttemptAt == s.now + v.delay && row.sentAt == s.rows[i].sentAt
                  && row.lastError.Some? && row.lastError.value <= v.error && |row.lastError.value| == Min(|v.error|, 1000))
            && (v.Permanent? || (v.Temporary? && attempt >= cfg.maxAttempts) ==>
                  row.status == DLQ && row.nextAttemptAt == s.rows[i].nextAttemptAt && row.sentAt == s.rows[i].sentAt
                  && var error := if v.Permanent? then v.error else "tentativas esgotadas: " + v.error;
                     row.lastError.Some? && row.lastError.value <= error && |row.lastError.value| == Min(|error|, 1000))
            && attempt !in s'.books[i].held
            && forall j :: 0 <= j < |s.rows| && j != i ==> s'.rows[j] == s.rows[j] && s'.books[j] == s.books[j]
  {
  }

  // ---- the backoff doubles ----

  /**
   The longest delay of attempt 0 is the base; each attempt doubles it until the
   maximum, and it never falls below the base.
   */
  lemma CapDoublesUpToMax(cfg: Config, attempt: nat)
    requires 0.0 <= cfg.backoffBase <= cfg.backoffMax
    ensures BackoffCap(cfg, 0) == cfg.backoffBase
    ensures BackoffCap(cfg, attempt + 1) == MinReal(cfg.backoffMax, 2.0 * BackoffCap(cfg, attempt))
  {
    DoubledGrows(cfg.backoffBase, attempt);
  }

  /** A base above the maximum, which the settings do not rule out, is every delay's longest. */
  lemma BaseAboveMaxRules(cfg: Config, attempt: nat)
    requires cfg.backoffBase > cfg.backoffMax
    ensures BackoffCap(cfg, attempt) == cfg.backoffBase
  {
  }
}
