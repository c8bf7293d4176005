/**
 When the ingest protocol can lose an event, and that otherwise it does not.
 */
module IngestNoLoss {
  import opened Prelude
  import opened IngestProtocol

  /** In the ledger, refused by a business constraint, or in the dead-letter stream. */
  ghost predicate Settled(s: State, e: EventId) {
    e in s.ledger || e in s.refused || exists k :: 0 <= k < |s.dlq| && Has(s, s.dlq[k], e)
  }

  ghost predicate Published(s: State, e: EventId) {
    exists m :: Has(s, m, e)
  }

  /** Some message of the event is still owed to a consumer. */
  ghost predicate Pending(s: State, e: EventId) {
    exists m :: Has(s, m, e) && m !in s.acked && m !in s.trimmed
  }

  ghost predicate Lost(s: State, e: EventId) {
    Published(s, e) && !Settled(s, e) && !Pending(s, e)
  }

  /** The worker is between the reservation of the event and the release or settlement that ends it. */
  ghost predicate Mid(s: State, w: Worker, e: EventId) {
    (At(s, w, Reserved) || At(s, w, InTransaction) || At(s, w, Failed)) && EventOf(s, w) == e
  }

  ghost predicate InQueue(l: Local, m: nat) {
    exists i :: 0 <= i < |l.queue| && l.queue[i].msg == m
  }

  /** The message is in the worker's batch and may yet be acknowledged by it. */
  ghost predicate Holds(l: Local, m: nat) {
    m in l.acks || InQueue(l, m)
  }

  /**
   The steps that can cost an event: its worker dying or failing to release while
   the key is set, a reclaim of a message some live batch still carries, and
   trimming one of its messages before it is acknowledged.
   */
  ghost predicate Hazard(s: State, step: Step, e: EventId) {
    match step
    case Crash(w) => Mid(s, w, e) && e in s.keys
    case Release(w, ok) => !ok && Mid(s, w, e) && e in s.keys
    case Reclaim(_, m) => Has(s, m, e) && exists v :: v in s.workers && Holds(s.workers[v], m)
    case Trim(m) => Has(s, m, e) && m !in s.acked
    case _ => false
  }

  ghost predicate HazardFree(maxDelivery: int, s: State, steps: seq<Step>, e: EventId)
    requires Run(maxDelivery, s, steps)
    decreases |steps|
  {
    steps == [] || (!Hazard(s, steps[0], e) && HazardFree(maxDelivery, Apply(maxDelivery, s, steps[0]), steps[1..], e))
  }

  // ---- what holds of every state ----

  /** Position `i` of the worker's queue. */
  predicate Slot(s: State, w: Worker, i: nat) {
    w in s.workers && i < |s.workers[w].queue|
  }

  function MsgAt(s: State, w: Worker, i: nat): nat
    requires Slot(s, w, i)
  {
    s.workers[w].queue[i].msg
  }

  ghost predicate LocalSound(s: State, w: Worker, l: Local) {
    && (forall i :: 0 <= i < |l.queue| ==> l.queue[i].msg in s.delivered)
    && (forall m :: m in l.acks ==> m in s.delivered)
    && (forall i :: 0 <= i < |l.deads| ==> l.deads[i].msg in s.delivered)
    && (l.stage in {Reserved, InTransaction, Failed} ==> At(s, w, l.stage))
    && (l.stage == Appended ==> l.queue == [] && l.deads != [] && l.deads[0].msg in s.dlq)
  }

  ghost predicate Sound(s: State) {
    && (forall m :: m in s.delivered ==> m < |s.stream|)
    && (forall m :: m in s.acked ==> m in s.delivered)
    && (forall m :: m in s.trimmed ==> m < |s.stream|)
    && (forall w :: w in s.workers ==> LocalSound(s, w, s.workers[w]))
  }

  /** Streams and tables only grow. */
  lemma StepGrows(maxDelivery: int, s: State, step: Step)
    requires Enabled(s, step)
    ensures var s' := Apply(maxDelivery, s, step);
            && s.stream <= s'.stream && s.delivered.Keys <= s'.delivered.Keys && s.acked <= s'.acked
            && s.ledger <= s'.ledger && s.refused <= s'.refused && s.dlq <= s'.dlq
  {
  }

  lemma OthersStaySound(s: State, s': State, v: Worker)
    requires v in s.workers && v in s'.workers && s'.workers[v] == s.workers[v] && LocalSound(s, v, s.workers[v])
    requires s.stream <= s'.stream && s.delivered.Keys <= s'.delivered.Keys && s.dlq <= s'.dlq
    ensures LocalSound(s', v, s'.workers[v])
  {
  }

  /** A worker whose batch grows stays sound. */
  lemma ReceiverStaysSound(maxDelivery: int, s: State, step: Step)
    requires Sound(s) && Enabled(s, step) && (step.Fetch? || step.Reclaim?)
    ensures LocalSound(Apply(maxDelivery, s, step), step.w, Apply(maxDelivery, s, step).workers[step.w])
  {
    if step.w in s.workers { assert LocalSound(s, step.w, s.workers[step.w]); }
  }

  /** So does one that has decided on the first message of its batch. */
  lemma DeciderStaysSound(maxDelivery: int, s: State, step: Step, w: Worker)
    requires w in s.workers && LocalSound(s, w, s.workers[w]) && Enabled(s, step)
    requires step.DropGarbage? || step.SkipDuplicate? || step.LedgerDuplicate? || step.Refuse? || step.Release?
             || (step.Commit? && step.reported)
    requires step.w == w
    ensures LocalSound(Apply(maxDelivery, s, step), w, Apply(maxDelivery, s, step).workers[w])
  {
  }

  /** And one that moves on with it, or settles its batch. */
  lemma MoverStaysSound(maxDelivery: int, s: State, step: Step, w: Worker)
    requires w in s.workers && LocalSound(s, w, s.workers[w]) && Enabled(s, step)
    requires step.Reserve? || step.ReserveBlind? || step.Register? || step.Fail? || (step.Commit? && !step.reported)
             || step.AppendDead? || step.AckDead? || step.Ack?
    requires step.w == w
    ensures LocalSound(Apply(maxDelivery, s, step), w, Apply(maxDelivery, s, step).workers[w])
  {
  }

  /** Only the worker that takes the step changes. */
  lemma ActorIsStepper(maxDelivery: int, s: State, step: Step, w: Worker)
    requires Enabled(s, step)
    requires var s' := Apply(maxDelivery, s, step); w in s'.workers && !(w in s.workers && s'.workers[w] == s.workers[w])
    ensures !(step.Publish? || step.Expire? || step.Trim? || step.Crash?) && step.w == w
    ensures w in s.workers || step.Fetch? || step.Reclaim?
  {
  }

  lemma ActorStaysSound(maxDelivery: int, s: State, step: Step, w: Worker)
    requires Sound(s) && Enabled(s, step) && !(step.Publish? || step.Expire? || step.Trim? || step.Crash?) && step.w == w
    requires w in s.workers || step.Fetch? || step.Reclaim?
    ensures LocalSound(Apply(maxDelivery, s, step), w, Apply(maxDelivery, s, step).workers[w])
  {
    if step.Fetch? || step.Reclaim? {
      ReceiverStaysSound(maxDelivery, s, step);
    } else {
      assert LocalSound(s, w, s.workers[w]);
      if step.DropGarbage? || step.SkipDuplicate? || step.LedgerDuplicate? || step.Refuse? || step.Release?
         || (step.Commit? && step.reported) {
        DeciderStaysSound(maxDelivery, s, step, w);
      } else {
        MoverStaysSound(maxDelivery, s, step, w);
      }
    }
  }

  lemma StepKeepsSound(maxDelivery: int, s: State, step: Step)
    requires Sound(s) && Enabled(s, step)
    ensures Sound(Apply(maxDelivery, s, step))
  {
    var s' := Apply(maxDelivery, s, step);
    StepGrows(maxDelivery, s, step);
    forall v | v in s'.workers ensures LocalSound(s', v, s'.workers[v]) {
      if v in s.workers && s'.workers[v] == s.workers[v] {
        OthersStaySound(s, s', v);
      } else {
        ActorIsStepper(maxDelivery, s, step, v);
        ActorStaysSound(maxDelivery, s, step, v);
      }
    }
    BatchesDelivered(maxDelivery, s, step);
  }

  /** Acknowledged and delivered ids are ids of the stream. */
  lemma BatchesDelivered(maxDelivery: int, s: State, step: Step)
    requires Sound(s) && Enabled(s, step)
    ensures var s' := Apply(maxDelivery, s, step);
            && (forall m :: m in s'.delivered ==> m < |s'.stream|)
            && (forall m :: m in s'.acked ==> m in s'.delivered)
            && (forall m :: m in s'.trimmed ==> m < |s'.stream|)
  {
    if step.Ack? || step.AckDead? { assert LocalSound(s, step.w, s.workers[step.w]); }
  }

  lemma {:induction false} RunKeepsSound(maxDelivery: int, s: State, steps: seq<Step>)
    requires Sound(s) && Run(maxDelivery, s, steps)
    ensures Sound(After(maxDelivery, s, steps))
    decreases |steps|
  {
    if steps != [] {
      StepKeepsSound(maxDelivery, s, steps[0]);
      RunKeepsSound(maxDelivery, Apply(maxDelivery, s, steps[0]), steps[1..]);
    }
  }

  // ---- what holds of an event not yet settled ----

  ghost predicate HeldOnce(s: State, e: EventId) {
    && (forall w, i, v, j :: Slot(s, w, i) && Slot(s, v, j) && Has(s, MsgAt(s, w, i), e) && MsgAt(s, w, i) == MsgAt(s, v, j)
          ==> w == v && i == j)
    && (forall w, i, v :: Slot(s, w, i) && Has(s, MsgAt(s, w, i), e) && v in s.workers ==> MsgAt(s, w, i) !in s.workers[v].acks)
  }

  ghost predicate QueuedUnacked(s: State, e: EventId) {
    forall w, i :: Slot(s, w, i) && Has(s, MsgAt(s, w, i), e) ==> MsgAt(s, w, i) !in s.acked
  }

  ghost predicate KeyOwned(s: State, e: EventId) {
    e in s.keys ==> exists w :: Mid(s, w, e)
  }

  /** A message nobody is about to acknowledge. */
  ghost predicate Witness(s: State, m: nat, e: EventId) {
    Has(s, m, e) && m !in s.acked && forall w :: w in s.workers ==> m !in s.workers[w].acks
  }

  /** The messages still owed are all in the stream. */
  ghost predicate Untrimmed(s: State, e: EventId) {
    forall m :: Has(s, m, e) && m !in s.acked ==> m !in s.trimmed
  }

  ghost predicate Open(s: State, e: EventId) {
    && HeldOnce(s, e)
    && QueuedUnacked(s, e)
    && KeyOwned(s, e)
    && (Published(s, e) ==> exists m :: Witness(s, m, e))
    && Untrimmed(s, e)
  }

  ghost predicate EventInv(s: State, e: EventId) {
    Settled(s, e) || Open(s, e)
  }

  lemma SettledStays(maxDelivery: int, s: State, step: Step, e: EventId)
    requires Settled(s, e) && Enabled(s, step)
    ensures Settled(Apply(maxDelivery, s, step), e)
  {
    var s' := Apply(maxDelivery, s, step);
    if e !in s.ledger && e !in s.refused {
      var k :| 0 <= k < |s.dlq| && Has(s, s.dlq[k], e);
      assert Has(s', s'.dlq[k], e);
    }
  }

  /** Steps that change no queue and add to no ack list keep the holdings. */
  lemma HoldingsKept(s: State, s': State, e: EventId)
    requires HeldOnce(s, e) && QueuedUnacked(s, e)
    requires forall v :: v in s'.workers ==>
               v in s.workers && s'.workers[v].queue == s.workers[v].queue && s'.workers[v].acks <= s.workers[v].acks
    requires forall w, i :: Slot(s, w, i) && Has(s', MsgAt(s, w, i), e) ==>
               Has(s, MsgAt(s, w, i), e) && MsgAt(s, w, i) !in s'.acked
    ensures HeldOnce(s', e) && QueuedUnacked(s', e)
  {
    assert forall v, i :: Slot(s', v, i) ==> Slot(s, v, i) && MsgAt(s', v, i) == MsgAt(s, v, i);
  }

  /** Publishing, expiry and trimming leave the workers alone. */
  lemma OpenWithoutWorkers(maxDelivery: int, s: State, step: Step, e: EventId)
    requires Sound(s) && Open(s, e) && Enabled(s, step) && !Hazard(s, step, e)
    requires step.Publish? || step.Expire? || step.Trim?
    ensures Open(Apply(maxDelivery, s, step), e)
  {
    var s' := Apply(maxDelivery, s, step);
    assert forall m: nat :: m < |s.stream| ==> (Has(s', m, e) <==> Has(s, m, e));
    assert forall w :: Mid(s, w, e) ==> Mid(s', w, e);
    forall w, i | Slot(s, w, i) ensures MsgAt(s, w, i) < |s.stream| { assert LocalSound(s, w, s.workers[w]); }
    HoldingsKept(s, s', e);
    if Published(s, e) {
      var m :| Witness(s, m, e);
      assert Witness(s', m, e);
    } else if Published(s', e) {
      var m :| Has(s', m, e);
      assert m == |s.stream|;
      forall w | w in s.workers ensures m !in s.workers[w].acks { assert LocalSound(s, w, s.workers[w]); }
      assert Witness(s', m, e);
    }
  }

  /** A message enters a queue that no other batch carries it in. */
  lemma OpenOnDelivery(maxDelivery: int, s: State, step: Step, e: EventId)
    requires Sound(s) && Open(s, e) && Enabled(s, step) && !Hazard(s, step, e)
    requires step.Fetch? || step.Reclaim?
    ensures Open(Apply(maxDelivery, s, step), e)
  {
    var s' := Apply(maxDelivery, s, step);
    FreshToAll(s, step, e);
    HeldOnceAfterDelivery(maxDelivery, s, step, e);
    UnackedAfterDelivery(maxDelivery, s, step, e);
    WitnessAfterDelivery(maxDelivery, s, step, e);
    if e in s'.keys {
      var v :| Mid(s, v, e);
      assert Mid(s', v, e);
    }
  }

  lemma UnackedAfterDelivery(maxDelivery: int, s: State, step: Step, e: EventId)
    requires Sound(s) && QueuedUnacked(s, e) && Enabled(s, step) && (step.Fetch? || step.Reclaim?)
    ensures QueuedUnacked(Apply(maxDelivery, s, step), e)
  {
    var s' := Apply(maxDelivery, s, step);
    forall w, i | Slot(s', w, i) && Has(s', MsgAt(s', w, i), e) ensures MsgAt(s', w, i) !in s'.acked {
      if Slot(s, w, i) { assert MsgAt(s', w, i) == MsgAt(s, w, i); }
    }
  }

  lemma WitnessAfterDelivery(maxDelivery: int, s: State, step: Step, e: EventId)
    requires Enabled(s, step) && (step.Fetch? || step.Reclaim?)
    requires Published(s, e) ==> exists m :: Witness(s, m, e)
    ensures Published(Apply(maxDelivery, s, step), e) ==> exists m :: Witness(Apply(maxDelivery, s, step), m, e)
  {
    var s' := Apply(maxDelivery, s, step);
    if Published(s', e) {
      var p :| Has(s', p, e);
      assert Has(s, p, e);
      var m :| Witness(s, m, e);
      assert forall v :: v in s'.workers ==> s'.workers[v].acks == LocalOf(s, v).acks;
      assert Witness(s', m, e);
    }
  }

  lemma FreshToAll(s: State, step: Step, e: EventId)
    requires Sound(s) && Enabled(s, step) && !Hazard(s, step, e) && (step.Fetch? || step.Reclaim?)
    ensures Has(s, step.msg, e) ==> forall v :: v in s.workers ==> !Holds(s.workers[v], step.msg)
  {
    if Has(s, step.msg, e) && step.Fetch? {
      forall v | v in s.workers ensures !Holds(s.workers[v], step.msg) {
        assert LocalSound(s, v, s.workers[v]);
      }
    }
  }

  /** The delivered message takes one new position; the other positions and all ack lists are as before. */
  lemma SlotsAfterDelivery(maxDelivery: int, s: State, step: Step)
    requires Enabled(s, step) && (step.Fetch? || step.Reclaim?)
    ensures var s', n := Apply(maxDelivery, s, step), |LocalOf(s, step.w).queue|;
            && s'.stream == s.stream
            && (forall w, i :: Slot(s', w, i) ==>
                  if w == step.w && i == n then MsgAt(s', w, i) == step.msg else Slot(s, w, i) && MsgAt(s', w, i) == MsgAt(s, w, i))
            && (forall v :: v in s'.workers ==> s'.workers[v].acks == LocalOf(s, v).acks)
  {
  }

  lemma NotHeldMeansElsewhere(s: State, m: nat)
    requires forall v :: v in s.workers ==> !Holds(s.workers[v], m)
    ensures forall w, i :: Slot(s, w, i) ==> MsgAt(s, w, i) != m
    ensures forall v :: m !in LocalOf(s, v).acks
  {
    forall w, i | Slot(s, w, i) ensures MsgAt(s, w, i) != m { assert !InQueue(s.workers[w], m); }
  }

  lemma HeldOnceAfterDelivery(maxDelivery: int, s: State, step: Step, e: EventId)
    requires HeldOnce(s, e) && Enabled(s, step) && (step.Fetch? || step.Reclaim?)
    requires Has(s, step.msg, e) ==> forall v :: v in s.workers ==> !Holds(s.workers[v], step.msg)
    ensures HeldOnce(Apply(maxDelivery, s, step), e)
  {
    SlotsAfterDelivery(maxDelivery, s, step);
    if Has(s, step.msg, e) { NotHeldMeansElsewhere(s, step.msg); }
  }

  /** The head of a queue is decided on, and goes to the ack list, the dead letters or nowhere. */
  lemma OpenOnPop(s: State, s': State, w: Worker, e: EventId)
    requires Sound(s) && Open(s, e) && w in s.workers && |s.workers[w].queue| > 0
    requires s'.stream == s.stream && s'.acked == s.acked && s'.trimmed == s.trimmed
    requires s'.workers.Keys == s.workers.Keys && forall v :: v in s.workers && v != w ==> s'.workers[v] == s.workers[v]
    requires s'.workers[w].queue == s.workers[w].queue[1..]
    requires s'.workers[w].acks == s.workers[w].acks
             || (s'.workers[w].acks == s.workers[w].acks + {Head(s, w).msg}
                 && (Has(s, Head(s, w).msg, e) ==> exists v :: v != w && Mid(s, v, e)))
    requires KeyOwned(s', e)
    ensures Open(s', e)
  {
    PopShifts(s, s', w);
    HeldOnceAfterPop(s, s', w, e);
    if Published(s', e) {
      var p :| Has(s', p, e);
      assert Has(s, p, e);
      var m :| Witness(s, m, e);
      if Has(s, Head(s, w).msg, e) && s'.workers[w].acks != s.workers[w].acks {
        var v :| v != w && Mid(s, v, e);
        assert Slot(s, w, 0) && Slot(s, v, 0) && MsgAt(s, v, 0) == Head(s, v).msg && MsgAt(s, w, 0) == Head(s, w).msg;
        assert forall u :: u in s.workers ==> MsgAt(s, v, 0) !in s.workers[u].acks;
        assert Witness(s', Head(s, v).msg, e);
      } else {
        assert Witness(s', m, e);
      }
    }
  }

  lemma HeldOnceAfterPop(s: State, s': State, w: Worker, e: EventId)
    requires HeldOnce(s, e) && w in s.workers && |s.workers[w].queue| > 0
    requires s'.stream == s.stream
    requires s'.workers.Keys == s.workers.Keys && forall v :: v in s.workers && v != w ==> s'.workers[v] == s.workers[v]
    requires s'.workers[w].queue == s.workers[w].queue[1..]
    requires s'.workers[w].acks <= s.workers[w].acks + {Head(s, w).msg}
    ensures HeldOnce(s', e)
  {
    PopShifts(s, s', w);
    assert Slot(s, w, 0) && MsgAt(s, w, 0) == Head(s, w).msg;
  }

  /** Where the queue positions of `s'` were in `s`. */
  ghost function Before(w: Worker, v: Worker, i: nat): nat {
    if v == w then i + 1 else i
  }

  lemma PopShifts(s: State, s': State, w: Worker)
    requires w in s.workers && |s.workers[w].queue| > 0
    requires s'.workers.Keys == s.workers.Keys && forall v :: v in s.workers && v != w ==> s'.workers[v] == s.workers[v]
    requires s'.workers[w].queue == s.workers[w].queue[1..]
    ensures forall v, i :: Slot(s', v, i) ==> Slot(s, v, Before(w, v, i)) && MsgAt(s', v, i) == MsgAt(s, v, Before(w, v, i))
  {
  }

  /** A head decided on without a commit takes the key with it, or was not the key's owner. */
  lemma KeyOwnedAfterDecision(maxDelivery: int, s: State, step: Step, e: EventId)
    requires KeyOwned(s, e) && Enabled(s, step) && !Hazard(s, step, e)
    requires step.DropGarbage? || step.SkipDuplicate? || step.Release?
             || ((step.LedgerDuplicate? || step.Refuse? || (step.Commit? && step.reported)) && EventOf(s, step.w) != e)
    ensures KeyOwned(Apply(maxDelivery, s, step), e)
  {
    var s' := Apply(maxDelivery, s, step);
    if e in s'.keys {
      var v :| Mid(s, v, e);
      assert v != step.w;
      assert Mid(s', v, e);
    }
  }

  lemma OpenOnDecision(maxDelivery: int, s: State, step: Step, e: EventId)
    requires Sound(s) && Open(s, e) && !Settled(s, e) && Enabled(s, step) && !Hazard(s, step, e)
    requires step.DropGarbage? || step.SkipDuplicate? || step.LedgerDuplicate? || step.Refuse? || step.Release?
             || (step.Commit? && step.reported)
    ensures EventInv(Apply(maxDelivery, s, step), e)
  {
    var s' := Apply(maxDelivery, s, step);
    var own := !step.DropGarbage? && EventOf(s, step.w) == e;
    if !(own && (step.LedgerDuplicate? || step.Refuse? || step.Commit?)) {
      KeyOwnedAfterDecision(maxDelivery, s, step, e);
      OpenOnPop(s, s', step.w, e);
    }
  }

  /** Batches stay as they are; a message is newly acknowledged only from an ack list. */
  lemma OpenOnSameBatches(s: State, s': State, e: EventId)
    requires Open(s, e) && KeyOwned(s', e)
    requires s'.stream == s.stream && s'.trimmed == s.trimmed && s.acked <= s'.acked && s'.workers.Keys == s.workers.Keys
    requires forall v :: v in s.workers ==> s'.workers[v].queue == s.workers[v].queue && s'.workers[v].acks <= s.workers[v].acks
    requires forall m :: Has(s, m, e) && m in s'.acked ==> m in s.acked || exists w :: w in s.workers && m in s.workers[w].acks
    ensures Open(s', e)
  {
    HoldingsKept(s, s', e);
    if Published(s', e) {
      var p :| Has(s', p, e);
      assert Has(s, p, e);
      var m :| Witness(s, m, e);
      assert Witness(s', m, e);
    }
  }

  lemma KeyOwnedKept(s: State, s': State, w: Worker, e: EventId)
    requires KeyOwned(s, e) && w in s.workers && s'.stream == s.stream
    requires s'.workers.Keys == s.workers.Keys && forall v :: v in s.workers && v != w ==> s'.workers[v] == s.workers[v]
    requires Mid(s, w, e) || (e in s'.keys && e !in s.keys) ==> Mid(s', w, e)
    requires e in s.keys || e !in s'.keys || Mid(s', w, e)
    ensures KeyOwned(s', e)
  {
    if e in s'.keys && e in s.keys {
      var v :| Mid(s, v, e);
      assert Mid(s', v, e);
    }
  }

  /** The worker moves on without letting go of the message. */
  lemma OpenOnStage(maxDelivery: int, s: State, step: Step, e: EventId)
    requires Sound(s) && Open(s, e) && Enabled(s, step)
    requires step.Reserve? || step.ReserveBlind? || step.Register? || step.Fail? || (step.Commit? && !step.reported)
    ensures EventInv(Apply(maxDelivery, s, step), e)
  {
    var s' := Apply(maxDelivery, s, step);
    if !Settled(s', e) {
      KeyOwnedKept(s, s', step.w, e);
      OpenOnSameBatches(s, s', e);
    }
  }

  /** Dead letters and acknowledgements. */
  lemma OpenOnSettling(maxDelivery: int, s: State, step: Step, e: EventId)
    requires Sound(s) && Open(s, e) && !Settled(s, e) && Enabled(s, step)
    requires step.AppendDead? || step.AckDead? || step.Ack?
    ensures EventInv(Apply(maxDelivery, s, step), e)
  {
    var s' := Apply(maxDelivery, s, step);
    if !Settled(s', e) {
      if step.AckDead? {
        assert LocalSound(s, step.w, s.workers[step.w]);
        var m := s.workers[step.w].deads[0].msg;
        var k :| 0 <= k < |s.dlq| && s.dlq[k] == m;
        assert !Has(s, m, e);
      }
      assert !Mid(s, step.w, e);
      KeyOwnedKept(s, s', step.w, e);
      OpenOnSameBatches(s, s', e);
    }
  }

  lemma OpenOnCrash(maxDelivery: int, s: State, step: Step, e: EventId)
    requires Sound(s) && Open(s, e) && Enabled(s, step) && !Hazard(s, step, e) && step.Crash?
    ensures Open(Apply(maxDelivery, s, step), e)
  {
    var s' := Apply(maxDelivery, s, step);
    HoldingsKept(s, s', e);
    if e in s'.keys {
      var v :| Mid(s, v, e);
      assert Mid(s', v, e);
    }
    if Published(s', e) {
      var p :| Has(s', p, e);
      assert Has(s, p, e);
      var m :| Witness(s, m, e);
      assert Witness(s', m, e);
    }
  }

  lemma StepKeepsEvent(maxDelivery: int, s: State, step: Step, e: EventId)
    requires Sound(s) && EventInv(s, e) && Enabled(s, step) && !Hazard(s, step, e)
    ensures EventInv(Apply(maxDelivery, s, step), e)
  {
    if Settled(s, e) {
      SettledStays(maxDelivery, s, step, e);
    } else {
      match step
      case Publish(_) => OpenWithoutWorkers(maxDelivery, s, step, e);
      case Expire(_) => OpenWithoutWorkers(maxDelivery, s, step, e);
      case Trim(_) => OpenWithoutWorkers(maxDelivery, s, step, e);
      case Fetch(_, _) => OpenOnDelivery(maxDelivery, s, step, e);
      case Reclaim(_, _) => OpenOnDelivery(maxDelivery, s, step, e);
      case Crash(_) => OpenOnCrash(maxDelivery, s, step, e);
      case Commit(_, reported) =>
        if reported { OpenOnDecision(maxDelivery, s, step, e); } else { OpenOnStage(maxDelivery, s, step, e); }
      case Reserve(_) => OpenOnStage(maxDelivery, s, step, e);
      case ReserveBlind(_, _) => OpenOnStage(maxDelivery, s, step, e);
      case Register(_) => OpenOnStage(maxDelivery, s, step, e);
      case Fail(_) => OpenOnStage(maxDelivery, s, step, e);
      case AppendDead(_) => OpenOnSettling(maxDelivery, s, step, e);
      case AckDead(_) => OpenOnSettling(maxDelivery, s, step, e);
      case Ack(_, _) => OpenOnSettling(maxDelivery, s, step, e);
      case _ => OpenOnDecision(maxDelivery, s, step, e);
    }
  }

  lemma {:induction false} RunKeepsEvent(maxDelivery: int, s: State, steps: seq<Step>, e: EventId)
    requires Sound(s) && EventInv(s, e) && Run(maxDelivery, s, steps) && HazardFree(maxDelivery, s, steps, e)
    ensures EventInv(After(maxDelivery, s, steps), e)
    decreases |steps|
  {
    if steps != [] {
      StepKeepsSound(maxDelivery, s, steps[0]);
      StepKeepsEvent(maxDelivery, s, steps[0], e);
      RunKeepsEvent(maxDelivery, Apply(maxDelivery, s, steps[0]), steps[1..], e);
    }
  }

  /**
   No loss: in every run without a hazard for it, a published event has an
   un-acknowledged message, a ledger row, a dead-letter entry, or was refused.
   */
  lemma NoEventIsLost(maxDelivery: int, steps: seq<Step>, e: EventId)
    requires Run(maxDelivery, START, steps) && HazardFree(maxDelivery, START, steps, e)
    ensures !Lost(After(maxDelivery, START, steps), e)
  {
    RunKeepsEvent(maxDelivery, START, steps, e);
    var s := After(maxDelivery, START, steps);
    if Published(s, e) && !Settled(s, e) {
      var m :| Witness(s, m, e);
      assert Pending(s, e);
    }
  }
}
