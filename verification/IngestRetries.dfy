/** How often a message is handled before it is dead-lettered, and that dead letters are not lost. */
module IngestRetries {
  import opened Prelude
  import opened IngestProtocol
  import opened IngestNoLoss

  /** The count the worker is told: the first read reports 1, a reclaim the count before its own. */
  function Reported(nth: nat): nat {
    if nth <= 1 then 1 else nth - 1
  }

  /** Deliveries whose failure puts the message back: all before this one. */
  function RetryLimit(maxDelivery: int): nat {
    if maxDelivery <= 1 then 0 else maxDelivery
  }

  ghost predicate Proper(s: State, d: Delivery) {
    d.msg in s.delivered && 1 <= d.nth <= s.delivered[d.msg] && d.reported == Reported(d.nth)
  }

  function ItemAt(s: State, w: Worker, i: nat): Delivery
    requires Slot(s, w, i)
  {
    s.workers[w].queue[i]
  }

  ghost predicate QueuesOk(s: State) {
    && (forall w, i :: Slot(s, w, i) ==> Proper(s, ItemAt(s, w, i)) && ItemAt(s, w, i) !in s.retried)
    && (forall w, i, v, j :: Slot(s, w, i) && Slot(s, v, j) && ItemAt(s, w, i) == ItemAt(s, v, j) ==> w == v && i == j)
  }

  ghost predicate RetriedOk(maxDelivery: int, s: State) {
    && Distinct(s.retried)
    && forall k :: 0 <= k < |s.retried| ==> Proper(s, s.retried[k]) && s.retried[k].reported < maxDelivery
  }

  ghost predicate CountsOk(s: State) {
    forall m: nat :: m in s.delivered ==> s.delivered[m] >= 1
  }

  ghost predicate DeliveryInv(maxDelivery: int, s: State) {
    CountsOk(s) && QueuesOk(s) && RetriedOk(maxDelivery, s)
  }

  /** The delivery a read or reclaim appends to its worker's queue. */
  function NewDelivery(s: State, step: Step): Delivery
    requires step.Fetch? || step.Reclaim?
    requires step.Reclaim? ==> step.msg in s.delivered
  {
    if step.Fetch? then Delivery(step.msg, 1, 1)
    else Delivery(step.msg, s.delivered[step.msg] + 1, s.delivered[step.msg])
  }

  /** A read or reclaim appends a delivery no earlier one equals. */
  lemma NewDeliveryIsNew(maxDelivery: int, s: State, step: Step)
    requires CountsOk(s) && Enabled(s, step) && (step.Fetch? || step.Reclaim?)
    ensures var s' := Apply(maxDelivery, s, step);
            && Proper(s', NewDelivery(s, step))
            && forall x :: Proper(s, x) ==> Proper(s', x) && x != NewDelivery(s, step)
  {
  }

  lemma DeliveryKeeps(maxDelivery: int, s: State, step: Step)
    requires DeliveryInv(maxDelivery, s) && Enabled(s, step) && (step.Fetch? || step.Reclaim?)
    ensures DeliveryInv(maxDelivery, Apply(maxDelivery, s, step))
  {
    var s' := Apply(maxDelivery, s, step);
    var n, d := |LocalOf(s, step.w).queue|, NewDelivery(s, step);
    NewDeliveryIsNew(maxDelivery, s, step);
    assert s'.workers[step.w].queue == LocalOf(s, step.w).queue + [d];
    forall w, i | Slot(s', w, i)
      ensures if w == step.w && i == n then ItemAt(s', w, i) == d
              else Slot(s, w, i) && ItemAt(s', w, i) == ItemAt(s, w, i) && Proper(s, ItemAt(s, w, i))
      ensures Proper(s', ItemAt(s', w, i)) && ItemAt(s', w, i) !in s.retried
    {
    }
  }

  /** A delivery that failed short of the limit leaves its queue for the retry log. */
  lemma RetryKeeps(maxDelivery: int, s: State, step: Step)
    requires DeliveryInv(maxDelivery, s) && Enabled(s, step) && step.Release?
    ensures DeliveryInv(maxDelivery, Apply(maxDelivery, s, step))
  {
    var s' := Apply(maxDelivery, s, step);
    PopShifts(s, s', step.w);
    assert Slot(s, step.w, 0) && ItemAt(s, step.w, 0) == Head(s, step.w);
    assert forall v, i :: Slot(s', v, i) ==> ItemAt(s', v, i) == ItemAt(s, v, Before(step.w, v, i));
    assert forall x :: Proper(s, x) ==> Proper(s', x);
  }

  lemma PopKeeps(maxDelivery: int, s: State, s': State, w: Worker)
    requires DeliveryInv(maxDelivery, s) && w in s.workers && |s.workers[w].queue| > 0
    requires s'.delivered == s.delivered && s'.retried == s.retried
    requires s'.workers.Keys == s.workers.Keys && forall v :: v in s.workers && v != w ==> s'.workers[v] == s.workers[v]
    requires s'.workers[w].queue == s.workers[w].queue[1..]
    ensures DeliveryInv(maxDelivery, s')
  {
    PopShifts(s, s', w);
    assert forall v, i :: Slot(s', v, i) ==> ItemAt(s', v, i) == ItemAt(s, v, Before(w, v, i));
    assert forall x :: Proper(s, x) <==> Proper(s', x);
  }

  lemma QuietKeeps(maxDelivery: int, s: State, s': State)
    requires DeliveryInv(maxDelivery, s)
    requires s'.delivered == s.delivered && s'.retried == s.retried
    requires forall v :: v in s'.workers ==> v in s.workers && s'.workers[v].queue == s.workers[v].queue
    ensures DeliveryInv(maxDelivery, s')
  {
    assert forall v, i :: Slot(s', v, i) ==> Slot(s, v, i) && ItemAt(s', v, i) == ItemAt(s, v, i);
    assert forall x :: Proper(s, x) <==> Proper(s', x);
  }

  lemma StepKeepsDelivery(maxDelivery: int, s: State, step: Step)
    requires DeliveryInv(maxDelivery, s) && Enabled(s, step)
    ensures DeliveryInv(maxDelivery, Apply(maxDelivery, s, step))
  {
    var s' := Apply(maxDelivery, s, step);
    if step.Fetch? || step.Reclaim? {
      DeliveryKeeps(maxDelivery, s, step);
    } else if step.Release? {
      RetryKeeps(maxDelivery, s, step);
    } else if step.DropGarbage? || step.SkipDuplicate? || step.LedgerDuplicate? || step.Refuse? || (step.Commit? && step.reported) {
      PopKeeps(maxDelivery, s, s', step.w);
    } else {
      QuietKeeps(maxDelivery, s, s');
    }
  }

  lemma {:induction false} RunKeepsDelivery(maxDelivery: int, s: State, steps: seq<Step>)
    requires DeliveryInv(maxDelivery, s) && Run(maxDelivery, s, steps)
    ensures DeliveryInv(maxDelivery, After(maxDelivery, s, steps))
    decreases |steps|
  {
    if steps != [] {
      StepKeepsDelivery(maxDelivery, s, steps[0]);
      RunKeepsDelivery(maxDelivery, Apply(maxDelivery, s, steps[0]), steps[1..]);
    }
  }

  // ---- counting ----

  /** How often message `m` was handled, ended in RETRY and was left for redelivery. */
  function RetriesOf(log: seq<Delivery>, m: nat): nat {
    if log == [] then 0
    else RetriesOf(log[..|log| - 1], m) + if log[|log| - 1].msg == m then 1 else 0
  }

  function Numbers(log: seq<Delivery>, m: nat): set<nat> {
    if log == [] then {}
    else Numbers(log[..|log| - 1], m) + if log[|log| - 1].msg == m then {log[|log| - 1].nth} else {}
  }

  lemma {:induction false} NumbersAreLogged(log: seq<Delivery>, m: nat, n: nat)
    requires n in Numbers(log, m)
    ensures exists k :: 0 <= k < |log| && log[k].msg == m && log[k].nth == n
  {
    var before, d := log[..|log| - 1], log[|log| - 1];
    if n in Numbers(before, m) {
      NumbersAreLogged(before, m, n);
      var k :| 0 <= k < |before| && before[k].msg == m && before[k].nth == n;
      assert log[k] == before[k];
    }
  }

  lemma {:induction false} RetriesAreNumbered(log: seq<Delivery>, m: nat)
    requires Distinct(log) && forall k :: 0 <= k < |log| ==> log[k].reported == Reported(log[k].nth)
    ensures RetriesOf(log, m) == |Numbers(log, m)|
  {
    if log != [] {
      var before, d := log[..|log| - 1], log[|log| - 1];
      RetriesAreNumbered(before, m);
      if d.msg == m && d.nth in Numbers(before, m) {
        NumbersAreLogged(before, m, d.nth);
        assert false;
      }
    }
  }

  /**
   In every run, a message is handed back for redelivery at most
   `consumer_max_delivery` times (never, if that is 1 or less).
   */
  lemma RetriesBounded(maxDelivery: int, steps: seq<Step>, m: nat)
    requires Run(maxDelivery, START, steps)
    ensures RetriesOf(After(maxDelivery, START, steps).retried, m) <= RetryLimit(maxDelivery)
  {
    RunKeepsDelivery(maxDelivery, START, steps);
    var log := After(maxDelivery, START, steps).retried;
    RetriesAreNumbered(log, m);
    forall n | n in Numbers(log, m) ensures 1 <= n <= RetryLimit(maxDelivery) {
      NumbersAreLogged(log, m, n);
    }
    BoundedSetSize(Numbers(log, m), RetryLimit(maxDelivery));
  }

  /**
   Which handling dead-letters: a delivery that fails is dead-lettered exactly
   when its number is above the limit, the reported count lagging one behind.
   */
  lemma DeadLetteredExactlyPastTheLimit(maxDelivery: int, steps: seq<Step>, w: Worker, ok: bool)
    requires Run(maxDelivery, START, steps) && Enabled(After(maxDelivery, START, steps), Release(w, ok))
    ensures var s := After(maxDelivery, START, steps);
            var s' := Apply(maxDelivery, s, Release(w, ok));
            var d := Head(s, w);
            if d.nth > RetryLimit(maxDelivery)
            then s'.workers[w].deads == s.workers[w].deads + [d] && s'.retried == s.retried
            else s'.workers[w].deads == s.workers[w].deads && s'.retried == s.retried + [d]
  {
    RunKeepsDelivery(maxDelivery, START, steps);
    var s := After(maxDelivery, START, steps);
    assert Slot(s, w, 0) && Proper(s, ItemAt(s, w, 0));
  }

  // ---- how often a message is handled ----

  /** The step ends a failed handling of `m`. */
  predicate FailsOn(s: State, step: Step, m: nat) {
    step.Release? && step.w in s.workers && |s.workers[step.w].queue| > 0 && Head(s, step.w).msg == m
  }

  /** It does so with the decision to dead-letter the message. */
  predicate DeadLetters(maxDelivery: int, s: State, step: Step, m: nat) {
    FailsOn(s, step, m) && Head(s, step.w).reported >= maxDelivery
  }

  ghost function Failures(maxDelivery: int, s: State, steps: seq<Step>, m: nat): nat
    requires Run(maxDelivery, s, steps)
    decreases |steps|
  {
    if steps == [] then 0
    else (if FailsOn(s, steps[0], m) then 1 else 0) + Failures(maxDelivery, Apply(maxDelivery, s, steps[0]), steps[1..], m)
  }

  ghost function DeadDecisions(maxDelivery: int, s: State, steps: seq<Step>, m: nat): nat
    requires Run(maxDelivery, s, steps)
    decreases |steps|
  {
    if steps == [] then 0
    else
      (if DeadLetters(maxDelivery, s, steps[0], m) then 1 else 0)
      + DeadDecisions(maxDelivery, Apply(maxDelivery, s, steps[0]), steps[1..], m)
  }

  lemma StepHandsBack(maxDelivery: int, s: State, step: Step, m: nat)
    requires Enabled(s, step)
    ensures RetriesOf(Apply(maxDelivery, s, step).retried, m) + (if DeadLetters(maxDelivery, s, step, m) then 1 else 0)
            == RetriesOf(s.retried, m) + if FailsOn(s, step, m) then 1 else 0
  {
    if step.Release? {
      var log := Apply(maxDelivery, s, step).retried;
      if log != s.retried { assert log[..|log| - 1] == s.retried; }
    }
  }

  lemma {:induction false} FailuresSplit(maxDelivery: int, s: State, steps: seq<Step>, m: nat)
    requires Run(maxDelivery, s, steps)
    ensures RetriesOf(After(maxDelivery, s, steps).retried, m) + DeadDecisions(maxDelivery, s, steps, m)
            == RetriesOf(s.retried, m) + Failures(maxDelivery, s, steps, m)
    decreases |steps|
  {
    if steps != [] {
      StepHandsBack(maxDelivery, s, steps[0], m);
      FailuresSplit(maxDelivery, Apply(maxDelivery, s, steps[0]), steps[1..], m);
    }
  }

  /**
   In every run a message is handled and fails at most RetryLimit times more than it
   is dead-lettered: up to and including the first such decision, at most
   RetryLimit + 1 times.
   */
  lemma FailuresBounded(maxDelivery: int, steps: seq<Step>, m: nat)
    requires Run(maxDelivery, START, steps)
    ensures Failures(maxDelivery, START, steps, m) <= RetryLimit(maxDelivery) + DeadDecisions(maxDelivery, START, steps, m)
  {
    FailuresSplit(maxDelivery, START, steps, m);
    RetriesBounded(maxDelivery, steps, m);
  }

  // ---- exactly how often, when it always fails ----

  ghost predicate Carried(s: State, m: nat) {
    exists w, i :: Slot(s, w, i) && MsgAt(s, w, i) == m
  }

  /** Message `m` is reclaimed only when no batch carries it, its workers live, and no handling of it succeeds. */
  ghost predicate InTurn(s: State, step: Step, m: nat) {
    match step
    case Crash(w) => !(w in s.workers && InQueue(s.workers[w], m))
    case Reclaim(_, p) => p == m ==> !Carried(s, m)
    case DropGarbage(w) => NotNext(s, w, m)
    case SkipDuplicate(w) => NotNext(s, w, m)
    case LedgerDuplicate(w) => NotNext(s, w, m)
    case Refuse(w) => NotNext(s, w, m)
    case Commit(w, reported) => reported ==> NotNext(s, w, m)
    case _ => true
  }

  predicate NotNext(s: State, w: Worker, m: nat) {
    w in s.workers && |s.workers[w].queue| > 0 ==> Head(s, w).msg != m
  }

  ghost predicate AlwaysFails(maxDelivery: int, s: State, steps: seq<Step>, m: nat)
    requires Run(maxDelivery, s, steps)
    decreases |steps|
  {
    steps == [] || (InTurn(s, steps[0], m) && AlwaysFails(maxDelivery, Apply(maxDelivery, s, steps[0]), steps[1..], m))
  }

  function Deliveries(s: State, m: nat): nat {
    if m in s.delivered then s.delivered[m] else 0
  }

  /** `failures` handlings of `m` have failed, and at most one more is under way: its latest delivery. */
  ghost predicate TurnInv(s: State, m: nat, failures: nat) {
    && (forall w, i, v, j :: Slot(s, w, i) && Slot(s, v, j) && MsgAt(s, w, i) == m && MsgAt(s, v, j) == m ==> w == v && i == j)
    && (forall w, i :: Slot(s, w, i) && MsgAt(s, w, i) == m ==> ItemAt(s, w, i).nth == Deliveries(s, m))
    && Deliveries(s, m) == failures + if Carried(s, m) then 1 else 0
  }

  /** Slots of `m` are where they were. */
  lemma TurnUnmoved(s: State, s': State, m: nat, failures: nat)
    requires TurnInv(s, m, failures) && Deliveries(s', m) == Deliveries(s, m)
    requires forall w, i :: Slot(s', w, i) && MsgAt(s', w, i) == m ==> Slot(s, w, i) && ItemAt(s', w, i) == ItemAt(s, w, i)
    requires forall w, i :: Slot(s, w, i) && MsgAt(s, w, i) == m ==> Slot(s', w, i) && ItemAt(s', w, i) == ItemAt(s, w, i)
    ensures TurnInv(s', m, failures)
  {
    assert forall w, i :: Slot(s', w, i) && MsgAt(s', w, i) == m ==> MsgAt(s, w, i) == m;
    assert forall w, i :: Slot(s, w, i) && MsgAt(s, w, i) == m ==> MsgAt(s', w, i) == m;
    assert Carried(s', m) <==> Carried(s, m);
  }

  /** The head of `w`'s batch, another message, goes. */
  lemma TurnOnPop(s: State, s': State, w: Worker, m: nat, failures: nat)
    requires TurnInv(s, m, failures) && s'.delivered == s.delivered
    requires w in s.workers && |s.workers[w].queue| > 0 && Head(s, w).msg != m
    requires s'.workers.Keys == s.workers.Keys && forall v :: v in s.workers && v != w ==> s'.workers[v] == s.workers[v]
    requires s'.workers[w].queue == s.workers[w].queue[1..]
    ensures TurnInv(s', m, failures)
  {
    PopShifts(s, s', w);
    forall v, i | Slot(s', v, i) ensures ItemAt(s', v, i) == ItemAt(s, v, Before(w, v, i)) {}
    if Carried(s, m) {
      var v, i :| Slot(s, v, i) && MsgAt(s, v, i) == m;
      var j := if v == w then i - 1 else i;
      assert Slot(s', v, j) && MsgAt(s', v, j) == m;
    }
  }

  /** The handling of `m` under way fails. */
  lemma TurnOnFailure(maxDelivery: int, s: State, step: Step, m: nat, failures: nat)
    requires DeliveryInv(maxDelivery, s) && TurnInv(s, m, failures) && Enabled(s, step) && FailsOn(s, step, m)
    ensures TurnInv(Apply(maxDelivery, s, step), m, failures + 1)
    ensures DeadLetters(maxDelivery, s, step, m) <==> failures + 1 > RetryLimit(maxDelivery)
  {
    var s' := Apply(maxDelivery, s, step);
    assert Slot(s, step.w, 0) && ItemAt(s, step.w, 0) == Head(s, step.w) && Carried(s, m);
    PopShifts(s, s', step.w);
    assert !Carried(s', m);
  }

  /** A message enters a batch. */
  lemma TurnOnDelivery(maxDelivery: int, s: State, step: Step, m: nat, failures: nat)
    requires DeliveryInv(maxDelivery, s) && TurnInv(s, m, failures) && Enabled(s, step) && InTurn(s, step, m)
    requires step.Fetch? || step.Reclaim?
    ensures TurnInv(Apply(maxDelivery, s, step), m, failures)
  {
    var s' := Apply(maxDelivery, s, step);
    var n := |LocalOf(s, step.w).queue|;
    assert s'.workers[step.w].queue == LocalOf(s, step.w).queue + [NewDelivery(s, step)];
    forall w, i | Slot(s', w, i)
      ensures if w == step.w && i == n then ItemAt(s', w, i) == NewDelivery(s, step)
              else Slot(s, w, i) && ItemAt(s', w, i) == ItemAt(s, w, i)
    {
    }
    assert forall w, i :: Slot(s, w, i) ==> Slot(s', w, i) && ItemAt(s', w, i) == ItemAt(s, w, i);
    if step.msg == m {
      forall w, i | Slot(s, w, i) ensures MsgAt(s, w, i) in s.delivered { assert Proper(s, ItemAt(s, w, i)); }
      assert !Carried(s, m);
      assert Slot(s', step.w, n) && MsgAt(s', step.w, n) == m;
    } else {
      TurnUnmoved(s, s', m, failures);
    }
  }

  lemma TurnOnCrash(maxDelivery: int, s: State, step: Step, m: nat, failures: nat)
    requires TurnInv(s, m, failures) && Enabled(s, step) && InTurn(s, step, m) && step.Crash?
    ensures TurnInv(Apply(maxDelivery, s, step), m, failures)
  {
    var s' := Apply(maxDelivery, s, step);
    forall i: nat | Slot(s, step.w, i) ensures MsgAt(s, step.w, i) != m {
      assert s.workers[step.w].queue[i].msg != m;
    }
    TurnUnmoved(s, s', m, failures);
  }

  lemma StepKeepsTurn(maxDelivery: int, s: State, step: Step, m: nat, failures: nat)
    requires DeliveryInv(maxDelivery, s) && TurnInv(s, m, failures) && Enabled(s, step) && InTurn(s, step, m)
    ensures TurnInv(Apply(maxDelivery, s, step), m, failures + if FailsOn(s, step, m) then 1 else 0)
    ensures FailsOn(s, step, m) ==> (DeadLetters(maxDelivery, s, step, m) <==> failures + 1 > RetryLimit(maxDelivery))
  {
    var s' := Apply(maxDelivery, s, step);
    if FailsOn(s, step, m) {
      TurnOnFailure(maxDelivery, s, step, m, failures);
    } else if step.Fetch? || step.Reclaim? {
      TurnOnDelivery(maxDelivery, s, step, m, failures);
    } else if step.Crash? {
      TurnOnCrash(maxDelivery, s, step, m, failures);
    } else if step.DropGarbage? || step.SkipDuplicate? || step.LedgerDuplicate? || step.Refuse? || step.Release?
              || (step.Commit? && step.reported) {
      TurnOnPop(s, s', step.w, m, failures);
    } else {
      TurnUnmoved(s, s', m, failures);
    }
  }

  lemma {:induction false} RunInTurn(maxDelivery: int, s: State, steps: seq<Step>, m: nat, failures: nat)
    requires DeliveryInv(maxDelivery, s) && TurnInv(s, m, failures) && Run(maxDelivery, s, steps) && AlwaysFails(maxDelivery, s, steps, m)
    ensures DeadDecisions(maxDelivery, s, steps, m)
            == Max(0, failures + Failures(maxDelivery, s, steps, m) - RetryLimit(maxDelivery)) - Max(0, failures - RetryLimit(maxDelivery))
    decreases |steps|
  {
    if steps != [] {
      StepKeepsTurn(maxDelivery, s, steps[0], m, failures);
      StepKeepsDelivery(maxDelivery, s, steps[0]);
      RunInTurn(maxDelivery, Apply(maxDelivery, s, steps[0]), steps[1..], m, failures + if FailsOn(s, steps[0], m) then 1 else 0);
    }
  }

  /**
   A message that always fails, reclaimed only when no worker has it and with no
   worker dying on it, is dead-lettered at its failed handling number
   RetryLimit + 1, at every later one, and at none before.
   */
  lemma AlwaysFailingMessageIsDeadLettered(maxDelivery: int, steps: seq<Step>, m: nat)
    requires Run(maxDelivery, START, steps) && AlwaysFails(maxDelivery, START, steps, m)
    ensures DeadDecisions(maxDelivery, START, steps, m)
            == Max(0, Failures(maxDelivery, START, steps, m) - RetryLimit(maxDelivery))
  {
    RunInTurn(maxDelivery, START, steps, m, 0);
  }

  // ---- the bound is reached ----

  ghost predicate Reaches(maxDelivery: int, s: State, t: State) {
    exists steps :: Run(maxDelivery, s, steps) && After(maxDelivery, s, steps) == t
  }

  lemma StepReaches(maxDelivery: int, s: State, step: Step, t: State)
    requires Enabled(s, step) && Reaches(maxDelivery, Apply(maxDelivery, s, step), t)
    ensures Reaches(maxDelivery, s, t)
  {
    var s' := Apply(maxDelivery, s, step);
    var rest :| Run(maxDelivery, s', rest) && After(maxDelivery, s', rest) == t;
    var steps := [step] + rest;
    assert steps[0] == step && steps[1..] == rest;
    assert Run(maxDelivery, s, steps) && After(maxDelivery, s, steps) == t;
  }

  function DeliveryNo(n: nat): Delivery {
    Delivery(0, n, Reported(n))
  }

  function FirstDeliveries(n: nat): (r: seq<Delivery>)
    ensures |r| == n
  {
    if n == 0 then [] else FirstDeliveries(n - 1) + [DeliveryNo(n)]
  }

  /** One message of `e` handled `n` times, each time handed back, by a worker now holding `l`. */
  function Retried(e: EventId, deliveries: nat, n: nat, keys: set<EventId>, l: Local): State {
    State([Carries(e)], {}, map[0 := deliveries], {}, keys, [], {}, [], FirstDeliveries(n), map["A" := l])
  }

  /** A failed delivery short of the limit is handed back. */
  lemma HandedBack(maxDelivery: int, e: EventId, n: nat)
    requires DeliveryNo(n + 1).reported < maxDelivery
    ensures var failed := Retried(e, n + 1, n, {e}, Local([DeliveryNo(n + 1)], Failed, {}, []));
            && Enabled(failed, Release("A", true))
            && Apply(maxDelivery, failed, Release("A", true)) == Retried(e, n + 1, n + 1, {}, NEW_WORKER)
  {
    var failed := Retried(e, n + 1, n, {e}, Local([DeliveryNo(n + 1)], Failed, {}, []));
    var freed := Apply(maxDelivery, failed, Release("A", true));
    assert [DeliveryNo(n + 1)][1..] == [];
    assert freed.workers["A"] == NEW_WORKER;
    assert freed.workers == map["A" := NEW_WORKER];
    assert {e} - {e} == {};
  }

  lemma ReservedFails(maxDelivery: int, e: EventId, n: nat, t: State)
    requires DeliveryNo(n + 1).reported < maxDelivery
    requires Reaches(maxDelivery, Retried(e, n + 1, n + 1, {}, NEW_WORKER), t)
    ensures Reaches(maxDelivery, Retried(e, n + 1, n, {e}, Local([DeliveryNo(n + 1)], Reserved, {}, [])), t)
  {
    var reserved := Retried(e, n + 1, n, {e}, Local([DeliveryNo(n + 1)], Reserved, {}, []));
    var failed := Retried(e, n + 1, n, {e}, Local([DeliveryNo(n + 1)], Failed, {}, []));
    HandedBack(maxDelivery, e, n);
    StepReaches(maxDelivery, failed, Release("A", true), t);
    assert Apply(maxDelivery, reserved, Fail("A")).workers == failed.workers;
    StepReaches(maxDelivery, reserved, Fail("A"), t);
  }

  /** Delivery `n + 1` fails once its worker has it. */
  lemma HandlingFails(maxDelivery: int, e: EventId, n: nat, t: State)
    requires DeliveryNo(n + 1).reported < maxDelivery
    requires Reaches(maxDelivery, Retried(e, n + 1, n + 1, {}, NEW_WORKER), t)
    ensures Reaches(maxDelivery, Retried(e, n + 1, n, {}, Local([DeliveryNo(n + 1)], Idle, {}, [])), t)
  {
    var d := DeliveryNo(n + 1);
    var idle := Retried(e, n + 1, n, {}, Local([d], Idle, {}, []));
    var reserved := Retried(e, n + 1, n, {e}, Local([d], Reserved, {}, []));
    ReservedFails(maxDelivery, e, n, t);
    assert Apply(maxDelivery, idle, Reserve("A")).workers == reserved.workers;
    assert {} + {e} == {e};
    StepReaches(maxDelivery, idle, Reserve("A"), t);
  }

  lemma {:induction false} FailsUntil(maxDelivery: int, e: EventId, n: nat)
    requires 1 <= n <= maxDelivery
    ensures Reaches(maxDelivery, Retried(e, n, n, {}, NEW_WORKER), Retried(e, maxDelivery, maxDelivery, {}, NEW_WORKER))
    decreases maxDelivery - n
  {
    var s, t := Retried(e, n, n, {}, NEW_WORKER), Retried(e, maxDelivery, maxDelivery, {}, NEW_WORKER);
    if n == maxDelivery {
      assert Run(maxDelivery, s, []) && After(maxDelivery, s, []) == t;
    } else {
      FailsUntil(maxDelivery, e, n + 1);
      HandlingFails(maxDelivery, e, n, t);
      var s' := Retried(e, n + 1, n, {}, Local([DeliveryNo(n + 1)], Idle, {}, []));
      assert Apply(maxDelivery, s, Reclaim("A", 0)) == s' by {
        assert NEW_WORKER.queue + [DeliveryNo(n + 1)] == [DeliveryNo(n + 1)];
        assert map[0 := n][0 := n + 1] == map[0 := n + 1];
        assert Apply(maxDelivery, s, Reclaim("A", 0)).workers == s'.workers;
      }
      StepReaches(maxDelivery, s, Reclaim("A", 0), t);
    }
  }

  lemma {:induction false} FirstDeliveriesCounted(n: nat)
    ensures RetriesOf(FirstDeliveries(n), 0) == n
  {
    if n > 0 {
      assert FirstDeliveries(n)[..n - 1] == FirstDeliveries(n - 1);
      FirstDeliveriesCounted(n - 1);
    }
  }

  /** The bound is tight: one lone worker that always fails hands the message back that often. */
  lemma RetryBoundIsReached(maxDelivery: int, e: EventId)
    requires maxDelivery > 1
    ensures exists steps :: Run(maxDelivery, START, steps)
              && RetriesOf(After(maxDelivery, START, steps).retried, 0) == RetryLimit(maxDelivery)
  {
    var t := Retried(e, maxDelivery, maxDelivery, {}, NEW_WORKER);
    FailsUntil(maxDelivery, e, 1);
    HandlingFails(maxDelivery, e, 0, t);
    var read := Retried(e, 1, 0, {}, Local([DeliveryNo(1)], Idle, {}, []));
    var published := Apply(maxDelivery, START, Publish(Carries(e)));
    assert Apply(maxDelivery, published, Fetch("A", 0)) == read by {
      assert NEW_WORKER.queue + [DeliveryNo(1)] == [DeliveryNo(1)];
      assert Apply(maxDelivery, published, Fetch("A", 0)).workers == read.workers;
    }
    StepReaches(maxDelivery, published, Fetch("A", 0), t);
    StepReaches(maxDelivery, START, Publish(Carries(e)), t);
    FirstDeliveriesCounted(maxDelivery);
  }

  // ---- dead letters ----

  ghost predicate AllCarry(s: State, ms: set<nat>) {
    forall m :: m in ms ==> m < |s.stream| && s.stream[m].Carries?
  }

  ghost predicate AcksCarry(s: State) {
    forall w :: w in s.workers ==> AllCarry(s, s.workers[w].acks)
  }

  ghost predicate AckedAccounted(s: State) {
    forall m :: m in s.acked ==> m in s.dlq || (m < |s.stream| && s.stream[m].Carries?)
  }

  ghost predicate Accounted(s: State) {
    AcksCarry(s) && AckedAccounted(s)
  }

  lemma CarryStill(s: State, s': State, ms: set<nat>)
    requires AllCarry(s, ms) && s.stream <= s'.stream
    ensures AllCarry(s', ms)
  {
  }

  lemma StepKeepsAcksCarry(maxDelivery: int, s: State, step: Step)
    requires AcksCarry(s) && Enabled(s, step)
    ensures AcksCarry(Apply(maxDelivery, s, step))
  {
    var s' := Apply(maxDelivery, s, step);
    StepGrows(maxDelivery, s, step);
    forall w | w in s'.workers ensures AllCarry(s', s'.workers[w].acks) {
      if w in s.workers { CarryStill(s, s', s.workers[w].acks); }
    }
  }

  lemma StepKeepsAckedAccounted(maxDelivery: int, s: State, step: Step)
    requires Sound(s) && Accounted(s) && Enabled(s, step)
    ensures AckedAccounted(Apply(maxDelivery, s, step))
  {
    StepGrows(maxDelivery, s, step);
    if step.AckDead? {
      assert LocalSound(s, step.w, s.workers[step.w]);
    }
  }

  lemma StepKeepsAccounted(maxDelivery: int, s: State, step: Step)
    requires Sound(s) && Accounted(s) && Enabled(s, step)
    ensures Accounted(Apply(maxDelivery, s, step))
  {
    StepKeepsAcksCarry(maxDelivery, s, step);
    StepKeepsAckedAccounted(maxDelivery, s, step);
  }

  lemma {:induction false} RunKeepsAccounted(maxDelivery: int, s: State, steps: seq<Step>)
    requires Sound(s) && Accounted(s) && Run(maxDelivery, s, steps)
    ensures Accounted(After(maxDelivery, s, steps)) && s.dlq <= After(maxDelivery, s, steps).dlq
    decreases |steps|
  {
    if steps != [] {
      StepKeepsSound(maxDelivery, s, steps[0]);
      StepKeepsAccounted(maxDelivery, s, steps[0]);
      StepGrows(maxDelivery, s, steps[0]);
      RunKeepsAccounted(maxDelivery, Apply(maxDelivery, s, steps[0]), steps[1..]);
    }
  }

  /**
   A message whose payload does not parse is never lost, crashes included: until
   it is in the dead-letter stream it is not acknowledged.
   */
  lemma GarbageIsNeverLost(maxDelivery: int, steps: seq<Step>, m: nat)
    requires Run(maxDelivery, START, steps)
    requires var s := After(maxDelivery, START, steps); m < |s.stream| && s.stream[m].Garbage?
    ensures var s := After(maxDelivery, START, steps); m in s.acked ==> m in s.dlq
  {
    RunKeepsAccounted(maxDelivery, START, steps);
  }

  /** The messages a run acknowledges after appending them to the dead-letter stream. */
  ghost function DeadAcked(maxDelivery: int, s: State, steps: seq<Step>): set<nat>
    requires Run(maxDelivery, s, steps)
    decreases |steps|
  {
    if steps == [] then {}
    else
      (if steps[0].AckDead? then {s.workers[steps[0].w].deads[0].msg} else {})
      + DeadAcked(maxDelivery, Apply(maxDelivery, s, steps[0]), steps[1..])
  }

  lemma {:induction false} RunKeepsDeadLetters(maxDelivery: int, s: State, steps: seq<Step>)
    requires Sound(s) && Run(maxDelivery, s, steps)
    ensures s.dlq <= After(maxDelivery, s, steps).dlq
    ensures forall m :: m in DeadAcked(maxDelivery, s, steps) ==> m in After(maxDelivery, s, steps).dlq
    decreases |steps|
  {
    if steps != [] {
      StepKeepsSound(maxDelivery, s, steps[0]);
      StepGrows(maxDelivery, s, steps[0]);
      RunKeepsDeadLetters(maxDelivery, Apply(maxDelivery, s, steps[0]), steps[1..]);
      if steps[0].AckDead? { assert LocalSound(s, steps[0].w, s.workers[steps[0].w]); }
    }
  }

  /**
   In every run, crashes included, a message acknowledged through the dead-letter
   path, exhausted or unparsable, is in the dead-letter stream, and every entry
   ever appended is still there.
   */
  lemma DeadLettersAreNeverLost(maxDelivery: int, steps: seq<Step>, more: seq<Step>)
    requires Run(maxDelivery, START, steps) && Run(maxDelivery, After(maxDelivery, START, steps), more)
    ensures var s := After(maxDelivery, START, steps);
            && (forall m :: m in DeadAcked(maxDelivery, START, steps) ==> m in s.dlq)
            && s.dlq <= After(maxDelivery, s, more).dlq
  {
    RunKeepsDeadLetters(maxDelivery, START, steps);
    RunKeepsSound(maxDelivery, START, steps);
    RunKeepsDeadLetters(maxDelivery, After(maxDelivery, START, steps), more);
  }

  /** An unparsable message with `entries` dead letters so far, read `deliveries` times, and these workers. */
  function GarbageState(deliveries: nat, entries: seq<nat>, workers: map<Worker, Local>): State {
    State([Garbage], {}, map[0 := deliveries], {}, {}, [], {}, entries, [], workers)
  }

  /** A worker that takes the message gets as far as appending it. */
  lemma AppendsOnce(maxDelivery: int, deliveries: nat, entries: seq<nat>, d: Delivery, t: State)
    requires d.msg == 0
    requires Reaches(maxDelivery, GarbageState(deliveries, entries + [0], map["A" := Local([], Appended, {}, [d])]), t)
    ensures Reaches(maxDelivery, GarbageState(deliveries, entries, map["A" := Local([d], Idle, {}, [])]), t)
  {
    var s0 := GarbageState(deliveries, entries, map["A" := Local([d], Idle, {}, [])]);
    var s1 := GarbageState(deliveries, entries, map["A" := Local([], Idle, {}, [d])]);
    assert [d][1..] == [] && [] + [d] == [d];
    assert Apply(maxDelivery, s0, DropGarbage("A")).workers["A"] == s1.workers["A"];
    assert Apply(maxDelivery, s0, DropGarbage("A")).workers == s1.workers;
    assert Apply(maxDelivery, s1, AppendDead("A")).workers == map["A" := Local([], Appended, {}, [d])];
    StepReaches(maxDelivery, s1, AppendDead("A"), t);
    StepReaches(maxDelivery, s0, DropGarbage("A"), t);
  }

  /** A worker that dies after appending leaves the message to be appended again. */
  lemma AppendsAgain(maxDelivery: int, t: State)
    requires t == GarbageState(2, [0, 0], map["A" := Local([], Appended, {}, [Delivery(0, 2, 1)])])
    ensures Reaches(maxDelivery, GarbageState(1, [0], map[]), t)
  {
    var second := Delivery(0, 2, 1);
    assert Run(maxDelivery, t, []) && After(maxDelivery, t, []) == t;
    assert [0] + [0] == [0, 0];
    AppendsOnce(maxDelivery, 2, [0], second, t);
    var again, alone := GarbageState(2, [0], map["A" := Local([second], Idle, {}, [])]), GarbageState(1, [0], map[]);
    assert map[0 := 1][0 := 2] == map[0 := 2] && NEW_WORKER.queue + [second] == [second];
    assert Apply(maxDelivery, alone, Reclaim("A", 0)).workers == again.workers;
    StepReaches(maxDelivery, alone, Reclaim("A", 0), t);
  }

  /** It may be there twice: a worker that dies before its acknowledgement leaves the message to be appended again. */
  lemma DeadLetterCanRepeat(maxDelivery: int)
    ensures exists steps :: Run(maxDelivery, START, steps) && After(maxDelivery, START, steps).dlq == [0, 0]
  {
    var first := Delivery(0, 1, 1);
    var t := GarbageState(2, [0, 0], map["A" := Local([], Appended, {}, [Delivery(0, 2, 1)])]);
    AppendsAgain(maxDelivery, t);
    var appended := GarbageState(1, [0], map["A" := Local([], Appended, {}, [first])]);
    assert Apply(maxDelivery, appended, Crash("A")).workers == map[];
    StepReaches(maxDelivery, appended, Crash("A"), t);
    assert [] + [0] == [0];
    AppendsOnce(maxDelivery, 1, [], first, t);
    FirstReadOf(maxDelivery, Garbage, t);
  }

  lemma FirstReadOf(maxDelivery: int, message: Message, t: State)
    requires Reaches(maxDelivery, State([message], {}, map[0 := 1], {}, {}, [], {}, [], [],
                                        map["A" := Local([Delivery(0, 1, 1)], Idle, {}, [])]), t)
    ensures Reaches(maxDelivery, START, t)
  {
    var read := State([message], {}, map[0 := 1], {}, {}, [], {}, [], [], map["A" := Local([Delivery(0, 1, 1)], Idle, {}, [])]);
    var published := Apply(maxDelivery, START, Publish(message));
    assert [] + [message] == [message] && map[][0 := 1] == map[0 := 1];
    assert NEW_WORKER.queue + [Delivery(0, 1, 1)] == [Delivery(0, 1, 1)];
    assert Apply(maxDelivery, published, Fetch("A", 0)).workers == read.workers;
    assert Apply(maxDelivery, published, Fetch("A", 0)) == read;
    StepReaches(maxDelivery, published, Fetch("A", 0), t);
    StepReaches(maxDelivery, START, Publish(message), t);
  }
}
