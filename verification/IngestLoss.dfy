/**
 The other side of no loss: which states lose an event, and runs that show each
 hazard does.
 */
module IngestLoss {
  import opened Prelude
  import opened IngestProtocol
  import opened IngestNoLoss

  lemma Prepend(maxDelivery: int, s: State, step: Step, rest: seq<Step>, e: EventId)
    requires Enabled(s, step) && Run(maxDelivery, Apply(maxDelivery, s, step), rest)
    ensures Run(maxDelivery, s, [step] + rest)
    ensures After(maxDelivery, s, [step] + rest) == After(maxDelivery, Apply(maxDelivery, s, step), rest)
    ensures !Hazard(s, step, e) && HazardFree(maxDelivery, Apply(maxDelivery, s, step), rest, e) ==>
              HazardFree(maxDelivery, s, [step] + rest, e)
  {
    assert ([step] + rest)[1..] == rest;
  }

  /** A key is set and no worker that could settle or release it is left. */
  ghost predicate Orphaned(s: State, e: EventId) {
    e in s.keys && forall w :: !Mid(s, w, e)
  }

  /** A continuation without hazards that ends with the event lost. */
  ghost predicate Loses(maxDelivery: int, s: State, steps: seq<Step>, e: EventId) {
    Run(maxDelivery, s, steps) && HazardFree(maxDelivery, s, steps, e) && Lost(After(maxDelivery, s, steps), e)
  }

  /** Everything `Open` asks but the ownership of the key. */
  ghost predicate Undisturbed(s: State, e: EventId) {
    && Sound(s) && Published(s, e) && !Settled(s, e)
    && HeldOnce(s, e) && QueuedUnacked(s, e)
    && (exists m :: Witness(s, m, e))
    && Untrimmed(s, e)
  }

  // ---- draining an orphan ----

  /** Only the key, the stream and the accounts matter to a new worker. */
  ghost predicate Doomed(s: State, e: EventId) {
    && e in s.keys && !Settled(s, e) && Published(s, e)
    && (forall m :: m in s.delivered ==> m < |s.stream|)
    && Untrimmed(s, e)
  }

  lemma SameAccounts(s: State, t: State, e: EventId)
    requires t.stream == s.stream && t.ledger == s.ledger && t.refused == s.refused && t.dlq == s.dlq
    ensures Settled(t, e) <==> Settled(s, e)
    ensures Published(t, e) <==> Published(s, e)
    ensures forall m :: Has(t, m, e) <==> Has(s, m, e)
  {
    assert forall m :: Has(t, m, e) <==> Has(s, m, e);
    if k :| 0 <= k < |s.dlq| && Has(s, s.dlq[k], e) { assert Has(t, t.dlq[k], e); }
    if k :| 0 <= k < |t.dlq| && Has(t, t.dlq[k], e) { assert Has(s, s.dlq[k], e); }
  }

  lemma {:induction false} CrashAll(maxDelivery: int, s: State, e: EventId) returns (steps: seq<Step>)
    requires Doomed(s, e) && forall w :: !Mid(s, w, e)
    ensures Run(maxDelivery, s, steps) && HazardFree(maxDelivery, s, steps, e)
    ensures After(maxDelivery, s, steps) == s.(workers := map[])
    decreases |s.workers|
  {
    if s.workers == map[] {
      steps := [];
    } else {
      var w :| w in s.workers;
      var s1 := Apply(maxDelivery, s, Crash(w));
      assert s1.workers.Keys == s.workers.Keys - {w};
      SameAccounts(s, s1, e);
      assert |s.workers.Keys| == |s.workers| && |s1.workers.Keys| == |s1.workers|;
      assert forall v :: Mid(s1, v, e) ==> Mid(s, v, e);
      var rest := CrashAll(maxDelivery, s1, e);
      Prepend(maxDelivery, s, Crash(w), rest, e);
      steps := [Crash(w)] + rest;
    }
  }

  /** A new worker takes the message: nobody else has it. */
  lemma TakeOne(maxDelivery: int, s: State, w: Worker, m: nat, e: EventId) returns (take: Step)
    requires Doomed(s, e) && Has(s, m, e) && m !in s.acked
    requires forall v :: v in s.workers ==> s.workers[v] == NEW_WORKER
    ensures Enabled(s, take) && !Hazard(s, take, e)
    ensures var s1 := Apply(maxDelivery, s, take);
            && s1 == s.(delivered := s1.delivered, workers := s1.workers) && m in s1.delivered
            && (forall p :: p in s1.delivered ==> p < |s.stream|)
            && w in s1.workers && |s1.workers[w].queue| == 1 && s1.workers[w].queue[0].msg == m
            && s1.workers[w] == NEW_WORKER.(queue := s1.workers[w].queue)
            && forall v :: v in s1.workers && v != w ==> s1.workers[v] == NEW_WORKER
  {
    take := if m in s.delivered then Reclaim(w, m) else Fetch(w, m);
  }

  /** It finds the key, calls the message a duplicate and acknowledges it. */
  lemma DropOne(maxDelivery: int, s: State, w: Worker, m: nat, e: EventId) returns (steps: seq<Step>, t: State)
    requires Doomed(s, e) && Has(s, m, e) && m !in s.acked
    requires forall v :: v in s.workers ==> s.workers[v] == NEW_WORKER
    ensures |steps| == 3 && Run(maxDelivery, s, steps) && HazardFree(maxDelivery, s, steps, e)
    ensures t == After(maxDelivery, s, steps)
    ensures Doomed(t, e) && t.acked == s.acked + {m} && t.stream == s.stream
    ensures forall v :: v in t.workers ==> t.workers[v] == NEW_WORKER
  {
    var take := TakeOne(maxDelivery, s, w, m, e);
    var s1 := Apply(maxDelivery, s, take);
    var s2 := Apply(maxDelivery, s1, SkipDuplicate(w));
    assert s2.workers[w] == Local([], Idle, {m}, []);
    t := Apply(maxDelivery, s2, Ack(w, m));
    assert t.workers[w] == NEW_WORKER;
    Prepend(maxDelivery, s2, Ack(w, m), [], e);
    Prepend(maxDelivery, s1, SkipDuplicate(w), [Ack(w, m)] + [], e);
    steps := [take] + ([SkipDuplicate(w)] + ([Ack(w, m)] + []));
    Prepend(maxDelivery, s, take, [SkipDuplicate(w)] + ([Ack(w, m)] + []), e);
    SameAccounts(s, t, e);
  }

  lemma {:induction false} DropFrom(maxDelivery: int, s: State, w: Worker, k: nat, e: EventId) returns (steps: seq<Step>)
    requires Doomed(s, e) && k <= |s.stream|
    requires forall v :: v in s.workers ==> s.workers[v] == NEW_WORKER
    requires forall m: nat :: Has(s, m, e) && m < k ==> m in s.acked
    ensures Loses(maxDelivery, s, steps, e)
    decreases |s.stream| - k
  {
    if k == |s.stream| {
      steps := [];
    } else if Has(s, k, e) && k !in s.acked {
      var first, t := DropOne(maxDelivery, s, w, k, e);
      assert forall m: nat :: Has(t, m, e) && m < k + 1 ==> m in t.acked by {
        forall m: nat | Has(t, m, e) && m < k + 1 ensures m in t.acked { assert Has(s, m, e); }
      }
      var rest := DropFrom(maxDelivery, t, w, k + 1, e);
      Concat(maxDelivery, s, first, rest, e);
      steps := first + rest;
    } else {
      steps := DropFrom(maxDelivery, s, w, k + 1, e);
    }
  }

  lemma {:induction false} Concat(maxDelivery: int, s: State, a: seq<Step>, b: seq<Step>, e: EventId)
    requires Run(maxDelivery, s, a) && Run(maxDelivery, After(maxDelivery, s, a), b)
    requires HazardFree(maxDelivery, s, a, e) && HazardFree(maxDelivery, After(maxDelivery, s, a), b, e)
    ensures Run(maxDelivery, s, a + b) && HazardFree(maxDelivery, s, a + b, e)
    ensures After(maxDelivery, s, a + b) == After(maxDelivery, After(maxDelivery, s, a), b)
    decreases |a|
  {
    if a == [] {
      assert a + b == b;
    } else {
      Concat(maxDelivery, Apply(maxDelivery, s, a[0]), a[1..], b, e);
      Prepend(maxDelivery, s, a[0], a[1..] + b, e);
      assert [a[0]] + (a[1..] + b) == a + b;
    }
  }

  lemma OrphanIsLost(maxDelivery: int, s: State, e: EventId) returns (steps: seq<Step>)
    requires Undisturbed(s, e) && Orphaned(s, e)
    ensures Loses(maxDelivery, s, steps, e)
  {
    var crash := CrashAll(maxDelivery, s, e);
    var t := s.(workers := map[]);
    SameAccounts(s, t, e);
    var rest := DropFrom(maxDelivery, t, "w", 0, e);
    Concat(maxDelivery, s, crash, rest, e);
    steps := crash + rest;
  }

  /**
   The exact boundary.  From a state where the event is published, unsettled and
   held once, it can be lost without any further hazard if and only if its key is
   orphaned: set in Redis, with no live worker between reservation and settlement.
   */
  lemma LostExactlyWhenOrphaned(maxDelivery: int, s: State, e: EventId)
    requires Undisturbed(s, e)
    ensures (exists steps :: Loses(maxDelivery, s, steps, e)) <==> Orphaned(s, e)
  {
    if Orphaned(s, e) {
      var steps := OrphanIsLost(maxDelivery, s, e);
    } else {
      assert Open(s, e);
      forall steps | Run(maxDelivery, s, steps) && HazardFree(maxDelivery, s, steps, e)
        ensures !Lost(After(maxDelivery, s, steps), e)
      {
        NothingLost(maxDelivery, s, steps, e);
      }
    }
  }

  lemma NothingLost(maxDelivery: int, s: State, steps: seq<Step>, e: EventId)
    requires Sound(s) && EventInv(s, e) && Run(maxDelivery, s, steps) && HazardFree(maxDelivery, s, steps, e)
    ensures !Lost(After(maxDelivery, s, steps), e)
  {
    RunKeepsEvent(maxDelivery, s, steps, e);
    var t := After(maxDelivery, s, steps);
    if Published(t, e) && !Settled(t, e) {
      var m :| Witness(t, m, e);
      assert Pending(t, e);
    }
  }

  // ---- which hazards are fatal ----

  ghost predicate ReachedSafely(maxDelivery: int, s: State, e: EventId) {
    exists steps :: Run(maxDelivery, START, steps) && HazardFree(maxDelivery, START, steps, e) && After(maxDelivery, START, steps) == s
  }

  lemma SafelyReached(maxDelivery: int, s: State, e: EventId)
    requires ReachedSafely(maxDelivery, s, e)
    ensures Sound(s) && EventInv(s, e)
  {
    var steps :| Run(maxDelivery, START, steps) && HazardFree(maxDelivery, START, steps, e) && After(maxDelivery, START, steps) == s;
    RunKeepsSound(maxDelivery, START, steps);
    RunKeepsEvent(maxDelivery, START, steps, e);
  }

  /** Two states that differ in the Redis keys only. */
  ghost predicate SameButKeys(s: State, t: State) {
    t == s.(keys := t.keys)
  }

  lemma KeysDoNotMatter(s: State, t: State, e: EventId)
    requires SameButKeys(s, t)
    ensures Sound(s) ==> Sound(t)
    ensures HeldOnce(s, e) && QueuedUnacked(s, e) ==> HeldOnce(t, e) && QueuedUnacked(t, e)
    ensures (exists m :: Witness(s, m, e)) ==> exists m :: Witness(t, m, e)
    ensures Settled(t, e) <==> Settled(s, e)
    ensures Published(t, e) <==> Published(s, e)
    ensures forall m :: Has(t, m, e) <==> Has(s, m, e)
  {
    SameAccounts(s, t, e);
    if Sound(s) {
      forall w | w in t.workers ensures LocalSound(t, w, t.workers[w]) { assert LocalSound(s, w, s.workers[w]); }
    }
    assert forall w, i :: Slot(t, w, i) ==> Slot(s, w, i) && MsgAt(t, w, i) == MsgAt(s, w, i);
    if m :| Witness(s, m, e) { assert Witness(t, m, e); }
  }

  lemma SameStepWithoutKey(maxDelivery: int, s: State, t: State, step: Step)
    requires SameButKeys(s, t) && Enabled(s, step) && (step.Crash? || (step.Release? && !step.ok))
    ensures Enabled(t, step) && SameButKeys(Apply(maxDelivery, t, step), Apply(maxDelivery, s, step))
  {
  }

  lemma KeysKeepUndisturbed(s: State, t: State, e: EventId)
    requires SameButKeys(s, t) && Undisturbed(s, e)
    ensures Undisturbed(t, e)
  {
    KeysDoNotMatter(s, t, e);
  }

  lemma KeylessStep(maxDelivery: int, t: State, step: Step, e: EventId)
    requires Undisturbed(t, e) && e !in t.keys
    requires Enabled(t, step) && (step.Crash? || (step.Release? && !step.ok))
    ensures Undisturbed(Apply(maxDelivery, t, step), e)
  {
    StepKeepsEvent(maxDelivery, t, step, e);
    StepKeepsSound(maxDelivery, t, step);
    SameAccounts(t, Apply(maxDelivery, t, step), e);
  }

  /** The death of a worker, or a failed release, seen without the key: no harm is done to the holdings. */
  lemma OnlyTheKeyIsAtStake(maxDelivery: int, s: State, step: Step, e: EventId)
    requires Undisturbed(s, e)
    requires Enabled(s, step) && (step.Crash? || (step.Release? && !step.ok)) && Mid(s, step.w, e)
    ensures Undisturbed(Apply(maxDelivery, s, step), e)
  {
    var t := s.(keys := s.keys - {e});
    KeysKeepUndisturbed(s, t, e);
    SameStepWithoutKey(maxDelivery, s, t, step);
    KeylessStep(maxDelivery, t, step, e);
    KeysKeepUndisturbed(Apply(maxDelivery, t, step), Apply(maxDelivery, s, step), e);
  }

  /** The dying or failing worker leaves the event; the others stay where they were. */
  lemma OthersStayMid(maxDelivery: int, s: State, step: Step, e: EventId, v: Worker)
    requires Enabled(s, step) && (step.Crash? || (step.Release? && !step.ok))
    ensures Mid(Apply(maxDelivery, s, step), v, e) <==> v != step.w && Mid(s, v, e)
    ensures e in Apply(maxDelivery, s, step).keys <==> e in s.keys
  {
  }

  /**
   After a safe run, a worker that dies between reservation and settlement, or
   fails to release, makes the event losable exactly when the key is set and no
   other worker is at the same event.
   */
  lemma FatalExactlyForSoleOwner(maxDelivery: int, s: State, step: Step, e: EventId)
    requires ReachedSafely(maxDelivery, s, e) && Published(s, e) && !Settled(s, e)
    requires Enabled(s, step) && (step.Crash? || (step.Release? && !step.ok)) && Mid(s, step.w, e)
    ensures (exists steps :: Loses(maxDelivery, Apply(maxDelivery, s, step), steps, e))
            <==> e in s.keys && forall v :: Mid(s, v, e) ==> v == step.w
  {
    SafelyReached(maxDelivery, s, e);
    OnlyTheKeyIsAtStake(maxDelivery, s, step, e);
    var s1 := Apply(maxDelivery, s, step);
    LostExactlyWhenOrphaned(maxDelivery, s1, e);
    forall v ensures Mid(s1, v, e) <==> v != step.w && Mid(s, v, e) {
      OthersStayMid(maxDelivery, s, step, e, v);
    }
  }

  // ---- witness runs ----

  lemma Append(maxDelivery: int, s: State, steps: seq<Step>, step: Step, e: EventId)
    requires Run(maxDelivery, s, steps) && Enabled(After(maxDelivery, s, steps), step)
    ensures Run(maxDelivery, s, steps + [step])
    ensures After(maxDelivery, s, steps + [step]) == Apply(maxDelivery, After(maxDelivery, s, steps), step)
    ensures HazardFree(maxDelivery, s, steps, e) && !Hazard(After(maxDelivery, s, steps), step, e) ==>
              HazardFree(maxDelivery, s, steps + [step], e)
    decreases |steps|
  {
    if steps == [] {
      assert [step][1..] == [];
      assert Run(maxDelivery, Apply(maxDelivery, s, step), []);
    } else {
      var rest := steps[1..];
      Append(maxDelivery, Apply(maxDelivery, s, steps[0]), rest, step, e);
      assert (steps + [step])[0] == steps[0] && (steps + [step])[1..] == rest + [step];
    }
  }

  lemma Then(maxDelivery: int, s: State, step: Step, e: EventId, t: State)
    requires ReachedSafely(maxDelivery, s, e) && Enabled(s, step) && Apply(maxDelivery, s, step) == t
    requires !Hazard(s, step, e)
    ensures ReachedSafely(maxDelivery, t, e)
  {
    var steps :| Run(maxDelivery, START, steps) && HazardFree(maxDelivery, START, steps, e) && After(maxDelivery, START, steps) == s;
    Append(maxDelivery, START, steps, step, e);
  }

  /** One message of `e`, with the given deliveries, keys and workers. */
  function OneMessage(e: EventId, deliveries: nat, keys: set<EventId>, workers: map<Worker, Local>): State {
    State([Carries(e)], {}, map[0 := deliveries], {}, keys, [], {}, [], [], workers)
  }

  const FIRST := Delivery(0, 1, 1)

  lemma FetchReached(maxDelivery: int, e: EventId)
    ensures ReachedSafely(maxDelivery, OneMessage(e, 1, {}, map["A" := Local([FIRST], Idle, {}, [])]), e)
  {
    assert After(maxDelivery, START, []) == START;
    assert ReachedSafely(maxDelivery, START, e);
    var s1 := Apply(maxDelivery, START, Publish(Carries(e)));
    Then(maxDelivery, START, Publish(Carries(e)), e, s1);
    assert NEW_WORKER.queue + [FIRST] == [FIRST];
    assert Apply(maxDelivery, s1, Fetch("A", 0)).workers == map["A" := Local([FIRST], Idle, {}, [])];
    Then(maxDelivery, s1, Fetch("A", 0), e, OneMessage(e, 1, {}, map["A" := Local([FIRST], Idle, {}, [])]));
  }

  lemma ReserveReached(maxDelivery: int, e: EventId)
    ensures ReachedSafely(maxDelivery, OneMessage(e, 1, {e}, map["A" := Local([FIRST], Reserved, {}, [])]), e)
  {
    FetchReached(maxDelivery, e);
    Then(maxDelivery, OneMessage(e, 1, {}, map["A" := Local([FIRST], Idle, {}, [])]), Reserve("A"), e,
         OneMessage(e, 1, {e}, map["A" := Local([FIRST], Reserved, {}, [])]));
  }

  lemma FailReached(maxDelivery: int, e: EventId)
    ensures ReachedSafely(maxDelivery, OneMessage(e, 1, {e}, map["A" := Local([FIRST], Failed, {}, [])]), e)
  {
    ReserveReached(maxDelivery, e);
    Then(maxDelivery, OneMessage(e, 1, {e}, map["A" := Local([FIRST], Reserved, {}, [])]), Fail("A"), e,
         OneMessage(e, 1, {e}, map["A" := Local([FIRST], Failed, {}, [])]));
  }

  /** The death of a worker loses an event in a run with no other hazard. */
  lemma DeathLoses(maxDelivery: int, e: EventId) returns (s: State)
    ensures ReachedSafely(maxDelivery, s, e) && Enabled(s, Crash("A"))
    ensures exists steps :: Loses(maxDelivery, Apply(maxDelivery, s, Crash("A")), steps, e)
  {
    ReserveReached(maxDelivery, e);
    s := OneMessage(e, 1, {e}, map["A" := Local([FIRST], Reserved, {}, [])]);
    assert Has(s, 0, e) && Mid(s, "A", e);
    FatalExactlyForSoleOwner(maxDelivery, s, Crash("A"), e);
  }

  /** So does a release that fails. */
  lemma FailedReleaseLoses(maxDelivery: int, e: EventId) returns (s: State)
    ensures ReachedSafely(maxDelivery, s, e) && Enabled(s, Release("A", false))
    ensures exists steps :: Loses(maxDelivery, Apply(maxDelivery, s, Release("A", false)), steps, e)
  {
    FailReached(maxDelivery, e);
    s := OneMessage(e, 1, {e}, map["A" := Local([FIRST], Failed, {}, [])]);
    assert Has(s, 0, e) && Mid(s, "A", e);
    FatalExactlyForSoleOwner(maxDelivery, s, Release("A", false), e);
  }

  /** Every message of the event but `m` is acknowledged. */
  ghost predicate OnlyOwed(s: State, m: nat, e: EventId) {
    Has(s, m, e) && forall p :: Has(s, p, e) && p != m ==> p in s.acked
  }

  /**
   After a safe run, trimming a message loses its event on the spot if and only if
   the message is the last one owed.
   */
  lemma TrimIsFatalIffLastOwed(maxDelivery: int, s: State, m: nat, e: EventId)
    requires ReachedSafely(maxDelivery, s, e) && !Settled(s, e) && Has(s, m, e)
    ensures Lost(Apply(maxDelivery, s, Trim(m)), e) <==> OnlyOwed(s, m, e)
  {
    SafelyReached(maxDelivery, s, e);
    var t := Apply(maxDelivery, s, Trim(m));
    SameAccounts(s, t, e);
    assert Published(s, e);
    if p :| Has(s, p, e) && p != m && p !in s.acked {
      assert Has(t, p, e) && p !in t.trimmed;
      assert Pending(t, e);
    }
  }

  /** A message nobody has dealt with can be trimmed, and its event is lost. */
  lemma TrimmingLoses(maxDelivery: int, e: EventId) returns (s: State)
    ensures ReachedSafely(maxDelivery, s, e) && Enabled(s, Trim(0)) && Lost(Apply(maxDelivery, s, Trim(0)), e)
  {
    assert Run(maxDelivery, START, []) && HazardFree(maxDelivery, START, [], e) && After(maxDelivery, START, []) == START;
    s := Apply(maxDelivery, START, Publish(Carries(e)));
    Then(maxDelivery, START, Publish(Carries(e)), e, s);
    TrimIsFatalIffLastOwed(maxDelivery, s, 0, e);
  }
}
