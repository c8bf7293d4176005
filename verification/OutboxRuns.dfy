/** Whole runs of the dispatch protocol: what the bounds cost, and how a failing row ends. */
module OutboxRuns {
  import opened Prelude
  import opened Schema
  import opened Outbox

  lemma {:induction false} RunAppend(cfg: Config, s: State, a: seq<Step>, b: seq<Step>)
    requires WellFormed(s) && Run(cfg, s, a) && Run(cfg, After(cfg, s, a), b)
    ensures Run(cfg, s, a + b) && After(cfg, s, a + b) == After(cfg, After(cfg, s, a), b)
    decreases |a|
  {
    if a == [] {
      assert a + b == b;
    } else {
      assert (a + b)[0] == a[0] && (a + b)[1..] == a[1..] + b;
      RunAppend(cfg, Apply(cfg, s, a[0]), a[1..], b);
    }
  }

  lemma RunExtend(cfg: Config, s: State, a: seq<Step>, step: Step)
    requires WellFormed(s) && Run(cfg, s, a) && Enabled(cfg, After(cfg, s, a), step)
    ensures Run(cfg, s, a + [step]) && After(cfg, s, a + [step]) == Apply(cfg, After(cfg, s, a), step)
  {
    var m := After(cfg, s, a);
    assert [step][1..] == [];
    assert Run(cfg, Apply(cfg, m, step), []);
    RunAppend(cfg, s, a, [step]);
  }

  // ---- the attempts bound is reached ----

  /** One row, released `k` times, its `k` abandoned claims still being dispatched. */
  ghost predicate Abandoned(s: State, k: nat) {
    && |s.rows| == |s.books| == 1
    && s.rows[0].status == QUEUED && s.rows[0].attempts == k && s.rows[0].nextAttemptAt <= s.now
    && s.books[0].releases == k
    && (forall a :: 1 <= a <= k ==> a in s.books[0].held)
  }

  /** `j` of the late claims have since failed and each put the row back to work. */
  ghost predicate Disturbed(s: State, k: nat, j: nat) {
    && |s.rows| == |s.books| == 1
    && s.rows[0].status == IN_FLIGHT && s.rows[0].attempts == k + 1 + j
    && s.books[0].releases == k
    && (forall a :: j + 1 <= a <= k + 1 + j ==> a in s.books[0].held)
  }

  lemma AbandonedOnceMore(cfg: Config, s: State, k: nat, claim: Step, wait: Step)
    requires Abandoned(s, k) && claim == Claim("w", {0}, 1) && wait == Tick(s.now + 121.0)
    ensures Enabled(cfg, s, claim)
    ensures var s1 := Apply(cfg, s, claim); Enabled(cfg, s1, wait) && Abandoned(Apply(cfg, Apply(cfg, s1, wait), ReleaseStale), k + 1)
  {
  }

  lemma {:induction false} ReachAbandoned(cfg: Config, payload: OrderPayload, k: nat) returns (steps: seq<Step>)
    ensures Run(cfg, EMPTY, steps) && Abandoned(After(cfg, EMPTY, steps), k)
  {
    if k == 0 {
      RunExtend(cfg, EMPTY, [], Enqueue("order", payload));
      steps := [] + [Enqueue("order", payload)];
    } else {
      steps := ReachAbandoned(cfg, payload, k - 1);
      var s := After(cfg, EMPTY, steps);
      var claim, wait := Claim("w", {0}, 1), Tick(s.now + 121.0);
      AbandonedOnceMore(cfg, s, k - 1, claim, wait);
      RunExtend(cfg, EMPTY, steps, claim);
      RunExtend(cfg, EMPTY, steps + [claim], wait);
      RunExtend(cfg, EMPTY, steps + [claim] + [wait], ReleaseStale);
      steps := steps + [claim] + [wait] + [ReleaseStale];
    }
  }

  lemma {:induction false} ReachDisturbed(cfg: Config, payload: OrderPayload, k: nat, j: nat) returns (steps: seq<Step>)
    requires j < Allowance(cfg)
    ensures Run(cfg, EMPTY, steps) && Disturbed(After(cfg, EMPTY, steps), k, j)
    decreases j
  {
    var claim := Claim("w", {0}, 1);
    if j == 0 {
      steps := ReachAbandoned(cfg, payload, k);
      RunExtend(cfg, EMPTY, steps, claim);
      steps := steps + [claim];
    } else {
      steps := ReachDisturbed(cfg, payload, k, j - 1);
      var s := After(cfg, EMPTY, steps);
      var late := Settle(0, j, Temporary("", cfg.backoffBase));
      RunExtend(cfg, EMPTY, steps, late);
      var wait := Tick(MaxReal(s.now, s.now + cfg.backoffBase));
      RunExtend(cfg, EMPTY, steps + [late], wait);
      RunExtend(cfg, EMPTY, steps + [late] + [wait], claim);
      steps := steps + [late] + [wait] + [claim];
    }
  }

  /** The bound of `AttemptsAndHoldersBounded` is exact: some run uses every attempt it allows. */
  lemma AttemptsBoundIsReached(cfg: Config, payload: OrderPayload, releases: nat) returns (steps: seq<Step>)
    ensures Run(cfg, EMPTY, steps)
    ensures var s := After(cfg, EMPTY, steps);
            |s.rows| == 1 && s.books[0].releases == releases
            && s.rows[0].attempts == Allowance(cfg) + releases
  {
    steps := ReachDisturbed(cfg, payload, releases, Allowance(cfg) - 1);
  }

  /**
   A run with one release in which a worker that lost its lock overwrites a row
   already SENT: with QUEUED, or with DLQ where the limit allows a single attempt.
   */
  lemma LateWorkerReopensSentRow(cfg: Config, payload: OrderPayload) returns (steps: seq<Step>, more: seq<Step>)
    ensures Run(cfg, EMPTY, steps) && Run(cfg, After(cfg, EMPTY, steps), more)
    ensures |After(cfg, EMPTY, steps).rows| == 1 && After(cfg, EMPTY, steps).books[0].releases == 1
    ensures After(cfg, EMPTY, steps).rows[0].status == SENT
    ensures After(cfg, After(cfg, EMPTY, steps), more).rows[0].status == if cfg.maxAttempts > 1 then QUEUED else DLQ
  {
    steps := ReachDisturbed(cfg, payload, 1, 0);
    RunExtend(cfg, EMPTY, steps, Settle(0, 2, Delivered));
    steps := steps + [Settle(0, 2, Delivered)];
    more := [Settle(0, 1, Temporary("", cfg.backoffBase))];
    OneSettlement(cfg, After(cfg, EMPTY, steps), 0, 1, Temporary("", cfg.backoffBase));
  }

  /** The answer to a post of row `i` is settled. */
  predicate IsPost(step: Step, i: nat) {
    step.Settle? && step.id == i
  }

  /** The delay one step schedules for row `i`, if it does. */
  function WaitOf(cfg: Config, step: Step, i: nat): seq<real> {
    if IsPost(step, i) && step.verdict.Temporary? && step.attempt < cfg.maxAttempts then [step.verdict.delay] else []
  }

  ghost predicate OnlyTemporary(steps: seq<Step>, i: nat) {
    forall k :: 0 <= k < |steps| && IsPost(steps[k], i) ==> steps[k].verdict.Temporary?
  }

  /** Posts of row `i` whose answer was settled. */
  ghost function Posts(steps: seq<Step>, i: nat): nat {
    if steps == [] then 0
    else (if IsPost(steps[0], i) then 1 else 0) + Posts(steps[1..], i)
  }

  /** The delays a run schedules for row `i`, in order. */
  ghost function Waits(cfg: Config, steps: seq<Step>, i: nat): seq<real> {
    if steps == [] then [] else WaitOf(cfg, steps[0], i) + Waits(cfg, steps[1..], i)
  }

  function Sum(xs: seq<real>): real {
    if xs == [] then 0.0 else Sum(xs[..|xs| - 1]) + xs[|xs| - 1]
  }

  /** Seconds of backoff scheduled for row `i`. */
  ghost function Scheduled(cfg: Config, steps: seq<Step>, i: nat): real {
    Sum(Waits(cfg, steps, i))
  }

  /** The sum of the largest delays of attempts 1 to `q`, and of the smallest. */
  function CapSum(cfg: Config, q: nat): real {
    if q == 0 then 0.0 else CapSum(cfg, q - 1) + BackoffCap(cfg, q)
  }

  /** `x` added `q` times. */
  function Repeated(x: real, q: nat): real {
    if q == 0 then 0.0 else Repeated(x, q - 1) + x
  }

  ghost predicate Failing(cfg: Config, r: OutboxRow, b: Book, posts: nat) {
    var m := Allowance(cfg);
    && b.releases == 0
    && (r.status == QUEUED ==> b.held.Keys == {} && r.attempts == posts < m)
    && (r.status == IN_FLIGHT ==> r.attempts == posts + 1 <= m && b.held.Keys <= {r.attempts})
    && (r.status == DLQ ==> b.held.Keys == {} && r.attempts == posts == m)
    && r.status != SENT
  }

  ghost predicate DelayWithin(cfg: Config, retries: nat, delay: real) {
    Repeated(cfg.backoffBase, retries) <= delay <= CapSum(cfg, retries)
  }

  /** A post of a failing row is its next one, and leaves it queued again or dead. */
  lemma FailingSettle(cfg: Config, r: OutboxRow, b: Book, attempt: nat, v: Verdict, now: Time, posts: nat)
    requires RowInv(cfg, r, b) && Failing(cfg, r, b, posts) && attempt in b.held && v.Temporary?
    ensures attempt == posts + 1 <= Allowance(cfg)
    ensures Failing(cfg, SettleRow(cfg, r, attempt, v, now), b.(held := b.held - {attempt}), posts + 1)
  {
    assert attempt in b.held.Keys;
    assert (b.held - {attempt}).Keys == {};
  }

  lemma FailingClaim(cfg: Config, r: OutboxRow, b: Book, worker: string, now: Time, posts: nat)
    requires Failing(cfg, r, b, posts) && Claimable(r, now)
    ensures Failing(cfg, ClaimRow(r, worker, now), ClaimBook(b, r.attempts + 1, worker), posts)
  {
    assert ClaimBook(b, r.attempts + 1, worker).held.Keys == {posts + 1};
  }

  lemma FailingCrash(cfg: Config, r: OutboxRow, b: Book, worker: string, posts: nat)
    requires Failing(cfg, r, b, posts)
    ensures Failing(cfg, r, CrashBook(b, worker), posts)
  {
    assert CrashBook(b, worker).held.Keys <= b.held.Keys;
  }

  lemma FailingStep(cfg: Config, s: State, step: Step, i: nat, posts: nat)
    requires WellFormed(s) && Enabled(cfg, s, step) && i < |s.rows|
    requires RowInv(cfg, s.rows[i], s.books[i]) && Failing(cfg, s.rows[i], s.books[i], posts)
    requires IsPost(step, i) ==> step.verdict.Temporary?
    requires Apply(cfg, s, step).books[i].releases == 0
    ensures Failing(cfg, Apply(cfg, s, step).rows[i], Apply(cfg, s, step).books[i],
                    posts + if IsPost(step, i) then 1 else 0)
    ensures IsPost(step, i) ==> step.attempt == posts + 1 <= Allowance(cfg)
  {
    match step
    case Settle(id, attempt, v) =>
      if id == i { FailingSettle(cfg, s.rows[i], s.books[i], attempt, v, s.now, posts); }
    case Crash(worker) => FailingCrash(cfg, s.rows[i], s.books[i], worker, posts);
    case Claim(worker, chosen, _) =>
      if i in chosen { FailingClaim(cfg, s.rows[i], s.books[i], worker, s.now, posts); }
    case _ =>
  }

  /** A run that starts on a failing row, whose posts all fail for a time and which never releases it. */
  ghost predicate FailingFrom(cfg: Config, s: State, steps: seq<Step>, i: nat, posts: nat) {
    && Inv(cfg, s) && Run(cfg, s, steps) && i < |s.rows|
    && Failing(cfg, s.rows[i], s.books[i], posts)
    && OnlyTemporary(steps, i)
    && i < |After(cfg, s, steps).books| && After(cfg, s, steps).books[i].releases == 0
  }

  lemma NeverReleased(cfg: Config, s: State, steps: seq<Step>, i: nat)
    requires Inv(cfg, s) && Run(cfg, s, steps) && i < |s.rows| && steps != []
    requires i < |After(cfg, s, steps).books| && After(cfg, s, steps).books[i].releases == 0
    ensures Inv(cfg, Apply(cfg, s, steps[0])) && Apply(cfg, s, steps[0]).books[i].releases == 0
  {
    StepKeepsInv(cfg, s, steps[0]);
    RowsPersist(cfg, Apply(cfg, s, steps[0]), steps[1..], i);
  }

  lemma FailingFirst(cfg: Config, s: State, steps: seq<Step>, i: nat, posts: nat)
    requires FailingFrom(cfg, s, steps, i, posts) && steps != []
    ensures FailingFrom(cfg, Apply(cfg, s, steps[0]), steps[1..], i, posts + if IsPost(steps[0], i) then 1 else 0)
    ensures IsPost(steps[0], i) ==> PostsNext(cfg, steps[0], posts)
  {
    NeverReleased(cfg, s, steps, i);
    FailingStep(cfg, s, steps[0], i, posts);
  }

  lemma {:induction false} FailingRun(cfg: Config, s: State, steps: seq<Step>, i: nat, posts: nat)
    requires FailingFrom(cfg, s, steps, i, posts)
    ensures i < |After(cfg, s, steps).rows|
    ensures Failing(cfg, After(cfg, s, steps).rows[i], After(cfg, s, steps).books[i], posts + Posts(steps, i))
    ensures posts + Posts(steps, i) <= Allowance(cfg)
    decreases |steps|
  {
    if steps != [] {
      FailingFirst(cfg, s, steps, i, posts);
      FailingRun(cfg, Apply(cfg, s, steps[0]), steps[1..], i, posts + if IsPost(steps[0], i) then 1 else 0);
    }
  }

  lemma {:induction false} FailingPostsInTurn(cfg: Config, s: State, steps: seq<Step>, i: nat, posts: nat)
    requires FailingFrom(cfg, s, steps, i, posts)
    ensures PostsInTurn(cfg, steps, i, posts)
    decreases |steps|
  {
    if steps != [] {
      FailingFirst(cfg, s, steps, i, posts);
      FailingPostsInTurn(cfg, Apply(cfg, s, steps[0]), steps[1..], i, posts + if IsPost(steps[0], i) then 1 else 0);
    }
  }

  /** The k-th delay is one that the k-th attempt after `posts` may draw. */
  ghost predicate WaitsAllowed(cfg: Config, waits: seq<real>, posts: nat) {
    forall k :: 0 <= k < |waits| ==> BackoffAllows(cfg, posts + k + 1, waits[k])
  }

  /** Posts after which a row is queued again: all but the last one allowed. */
  function Retries(cfg: Config, posts: nat): int {
    Min(posts, Allowance(cfg) - 1)
  }

  /** The posts of row `i` are its attempts after `posts`, in turn, each failing with a delay it may draw. */
  ghost predicate PostsInTurn(cfg: Config, steps: seq<Step>, i: nat, posts: nat)
    decreases |steps|
  {
    if steps == [] then true
    else if IsPost(steps[0], i) then PostsNext(cfg, steps[0], posts) && PostsInTurn(cfg, steps[1..], i, posts + 1)
    else PostsInTurn(cfg, steps[1..], i, posts)
  }

  ghost predicate PostsNext(cfg: Config, step: Step, posts: nat)
    requires step.Settle?
  {
    && step.attempt == posts + 1 <= Allowance(cfg)
    && step.verdict.Temporary?
    && (step.attempt < cfg.maxAttempts ==> BackoffAllows(cfg, step.attempt, step.verdict.delay))
  }

  lemma PostWaits(cfg: Config, step: Step, i: nat, posts: nat)
    requires IsPost(step, i) && PostsNext(cfg, step, posts)
    ensures WaitsAllowed(cfg, WaitOf(cfg, step, i), posts)
    ensures |WaitOf(cfg, step, i)| == Retries(cfg, posts + 1) - Retries(cfg, posts)
  {
  }

  lemma Prepended(cfg: Config, first: seq<real>, rest: seq<real>, posts: nat)
    requires |first| <= 1 && WaitsAllowed(cfg, first, posts) && WaitsAllowed(cfg, rest, posts + 1)
    requires first == [] ==> rest == []
    ensures WaitsAllowed(cfg, first + rest, posts)
  {
    forall k | 0 <= k < |first + rest| ensures BackoffAllows(cfg, posts + k + 1, (first + rest)[k]) {
      if k > 0 { assert (first + rest)[k] == rest[k - 1]; }
    }
  }

  lemma {:induction false} WaitsInTurn(cfg: Config, steps: seq<Step>, i: nat, posts: nat)
    requires PostsInTurn(cfg, steps, i, posts)
    ensures WaitsAllowed(cfg, Waits(cfg, steps, i), posts)
    ensures |Waits(cfg, steps, i)| == Retries(cfg, posts + Posts(steps, i)) - Retries(cfg, posts)
    decreases |steps|
  {
    if steps != [] {
      var step, rest := steps[0], steps[1..];
      if IsPost(step, i) {
        PostWaits(cfg, step, i, posts);
        WaitsInTurn(cfg, rest, i, posts + 1);
        Prepended(cfg, WaitOf(cfg, step, i), Waits(cfg, rest, i), posts);
      } else {
        WaitsInTurn(cfg, rest, i, posts);
        assert Waits(cfg, steps, i) == Waits(cfg, rest, i);
      }
    }
  }

  lemma {:induction false} SumWithin(cfg: Config, waits: seq<real>)
    requires WaitsAllowed(cfg, waits, 0)
    ensures DelayWithin(cfg, |waits|, Sum(waits))
  {
    if waits != [] {
      SumWithin(cfg, waits[..|waits| - 1]);
    }
  }

  lemma {:induction false} CapSumBounds(cfg: Config, q: nat)
    ensures CapSum(cfg, q) <= Repeated(MaxReal(cfg.backoffBase, cfg.backoffMax), q)
    ensures cfg.backoffBase >= 0.0 ==>
              CapSum(cfg, q) <= Doubled(cfg.backoffBase, q + 1) - 2.0 * cfg.backoffBase
  {
    if q > 0 {
      CapSumBounds(cfg, q - 1);
      DoubledGrows(cfg.backoffBase, q);
    }
  }

  lemma {:induction false} DoubledGrows(x: real, n: nat)
    ensures x >= 0.0 ==> Doubled(x, n) >= x
  {
    if n > 0 { DoubledGrows(x, n - 1); }
  }

  /** The time before which row `r` is not posted again, or by which it got where it is. */
  function Due(r: OutboxRow, now: Time): Time {
    if r.status == QUEUED then MaxReal(now, r.nextAttemptAt) else now
  }

  lemma SettleDelays(cfg: Config, r: OutboxRow, attempt: nat, v: Verdict, now: Time)
    requires r.status == IN_FLIGHT && v.Temporary?
    ensures Due(SettleRow(cfg, r, attempt, v, now), now)
            >= Due(r, now) + (if attempt < cfg.maxAttempts then v.delay else 0.0)
  {
  }

  /** One step puts the row off by at least the delay it schedules. */
  lemma StepDelays(cfg: Config, s: State, step: Step, i: nat, posts: nat)
    requires WellFormed(s) && Enabled(cfg, s, step) && i < |s.rows|
    requires RowInv(cfg, s.rows[i], s.books[i]) && Failing(cfg, s.rows[i], s.books[i], posts)
    requires IsPost(step, i) ==> step.verdict.Temporary?
    requires Apply(cfg, s, step).books[i].releases == 0
    ensures var s' := Apply(cfg, s, step);
            Due(s'.rows[i], s'.now) >= Due(s.rows[i], s.now) + Sum(WaitOf(cfg, step, i))
  {
    if IsPost(step, i) {
      assert step.attempt in s.books[i].held.Keys;
      SettleDelays(cfg, s.rows[i], step.attempt, step.verdict, s.now);
      assert [step.verdict.delay][..0] == [];
    }
  }

  lemma {:induction false} SumAppend(a: seq<real>, b: seq<real>)
    ensures Sum(a + b) == Sum(a) + Sum(b)
  {
    if b == [] {
      assert a + b == a;
    } else {
      assert (a + b)[..|a + b| - 1] == a + b[..|b| - 1];
      SumAppend(a, b[..|b| - 1]);
    }
  }

  /** The clock keeps up with the backoff: a failing row is not posted before its delays have passed. */
  lemma {:induction false} RunDelays(cfg: Config, s: State, steps: seq<Step>, i: nat, posts: nat)
    requires Inv(cfg, s) && Run(cfg, s, steps) && i < |s.rows|
    requires Failing(cfg, s.rows[i], s.books[i], posts)
    requires OnlyTemporary(steps, i)
    requires After(cfg, s, steps).books[i].releases == 0
    ensures Due(After(cfg, s, steps).rows[i], After(cfg, s, steps).now) >= Due(s.rows[i], s.now) + Scheduled(cfg, steps, i)
    decreases |steps|
  {
    if steps != [] {
      var step, rest, s' := steps[0], steps[1..], Apply(cfg, s, steps[0]);
      StepKeepsInv(cfg, s, step);
      RowsPersist(cfg, s', rest, i);
      FailingStep(cfg, s, step, i, posts);
      StepDelays(cfg, s, step, i, posts);
      RunDelays(cfg, s', rest, i, posts + if IsPost(step, i) then 1 else 0);
      SumAppend(WaitOf(cfg, step, i), Waits(cfg, rest, i));
    }
  }

  lemma TotalWait(cfg: Config, steps: seq<Step>, i: nat)
    requires PostsInTurn(cfg, steps, i, 0) && Posts(steps, i) == Allowance(cfg)
    ensures WaitWithin(cfg, Allowance(cfg) - 1, Scheduled(cfg, steps, i))
  {
    var waits := Waits(cfg, steps, i);
    WaitsInTurn(cfg, steps, i, 0);
    assert |waits| == Allowance(cfg) - 1;
    SumWithin(cfg, waits);
    WaitBounds(cfg, |waits|, Sum(waits));
  }

  /**
   A row whose every post fails temporarily and that is never released is dead
   after exactly `Allowance` posts, not before; the backoff scheduled for it lies
   between the stated bounds, and at least that much time has passed.
   */
  lemma {:induction false} AlwaysFailingRowIsDeadLettered(cfg: Config, s: State, steps: seq<Step>, i: nat)
    requires Inv(cfg, s) && Run(cfg, s, steps) && i < |s.rows|
    requires s.rows[i].status == QUEUED && s.rows[i].attempts == 0 && s.books[i] == Book(map[], 0)
    requires OnlyTemporary(steps, i)
    requires After(cfg, s, steps).books[i].releases == 0
    ensures Posts(steps, i) <= Allowance(cfg)
    ensures After(cfg, s, steps).rows[i].status == DLQ <==> Posts(steps, i) == Allowance(cfg)
    ensures After(cfg, s, steps).rows[i].status != SENT
    ensures Posts(steps, i) == Allowance(cfg) ==>
              && WaitWithin(cfg, Allowance(cfg) - 1, Scheduled(cfg, steps, i))
              && After(cfg, s, steps).now >= s.now + Scheduled(cfg, steps, i)
  {
    FailingRun(cfg, s, steps, i, 0);
    FailingPostsInTurn(cfg, s, steps, i, 0);
    RunDelays(cfg, s, steps, i, 0);
    if Posts(steps, i) == Allowance(cfg) {
      TotalWait(cfg, steps, i);
    }
  }

  lemma WaitBounds(cfg: Config, retries: nat, total: real)
    requires DelayWithin(cfg, retries, total)
    ensures WaitWithin(cfg, retries, total)
  {
    CapSumBounds(cfg, retries);
  }

  /** The total wait of a row rescheduled `retries` times. */
  ghost predicate WaitWithin(cfg: Config, retries: nat, total: real) {
    && Repeated(cfg.backoffBase, retries) <= total
    && total <= Repeated(MaxReal(cfg.backoffBase, cfg.backoffMax), retries)
    && (cfg.backoffBase >= 0.0 ==> total <= Doubled(cfg.backoffBase, retries + 1) - 2.0 * cfg.backoffBase)
  }
}
