/**
 Reclaims of messages that a live batch still carries: which of them can cost an
 event, and no loss for all the others.
 */
module IngestReclaims {
  import opened Prelude
  import opened IngestProtocol
  import opened IngestNoLoss
  import opened IngestLoss

  /** A message in a batch whose handling has not begun. */
  ghost predicate Fresh(s: State, w: Worker, i: nat) {
    Slot(s, w, i) && (i > 0 || s.workers[w].stage !in {Reserved, InTransaction, Failed})
  }

  /** The worker is mid-event on a message that nobody is about to acknowledge or can still throw away. */
  ghost predicate CleanOwner(s: State, w: Worker, e: EventId) {
    && Mid(s, w, e) && Witness(s, Head(s, w).msg, e)
    && forall v, i :: Fresh(s, v, i) ==> MsgAt(s, v, i) != Head(s, w).msg
  }

  ghost predicate FreshOnce(s: State, e: EventId) {
    forall w, i, v, j :: Fresh(s, w, i) && Fresh(s, v, j) && Has(s, MsgAt(s, w, i), e) && MsgAt(s, w, i) == MsgAt(s, v, j) ==> w == v && i == j
  }

  ghost predicate FreshOwed(s: State, e: EventId) {
    forall w, i :: Fresh(s, w, i) && Has(s, MsgAt(s, w, i), e) ==> Witness(s, MsgAt(s, w, i), e)
  }

  /** As `Open`, but a message may be in several batches once its handling has begun in all but one. */
  ghost predicate Safe(s: State, e: EventId) {
    && FreshOnce(s, e)
    && FreshOwed(s, e)
    && (e in s.keys ==> exists w :: CleanOwner(s, w, e))
    && (Published(s, e) ==> exists m :: Witness(s, m, e))
    && Untrimmed(s, e)
  }

  ghost predicate SettledOrSafe(s: State, e: EventId) {
    Settled(s, e) || Safe(s, e)
  }

  /** No clean owner of the event but `w`. */
  ghost predicate OnlyOwner(s: State, w: Worker, e: EventId) {
    e in s.keys && Mid(s, w, e) && forall v :: v != w ==> !CleanOwner(s, v, e)
  }

  /** The message waits in a batch or an ack list, or the key stands on it alone. */
  ghost predicate Fought(s: State, m: nat, e: EventId) {
    || (exists v, i :: Fresh(s, v, i) && MsgAt(s, v, i) == m)
    || (exists v :: v in s.workers && m in s.workers[v].acks)
    || (e in s.keys && forall v :: CleanOwner(s, v, e) ==> Head(s, v).msg == m)
  }

  /** The steps of `Hazard` that do harm. */
  ghost predicate Danger(s: State, step: Step, e: EventId) {
    match step
    case Crash(w) => OnlyOwner(s, w, e)
    case Release(w, ok) => !ok && OnlyOwner(s, w, e)
    case Reclaim(_, m) => Has(s, m, e) && Fought(s, m, e)
    case Trim(m) => Has(s, m, e) && m !in s.acked
    case _ => false
  }

  ghost predicate DangerFree(maxDelivery: int, s: State, steps: seq<Step>, e: EventId)
    requires Run(maxDelivery, s, steps)
    decreases |steps|
  {
    steps == [] || (!Danger(s, steps[0], e) && DangerFree(maxDelivery, Apply(maxDelivery, s, steps[0]), steps[1..], e))
  }

  // ---- each step ----

  /** An owner whose batch does not change stays clean while its message stays owed and unqueued. */
  lemma OwnerStays(s: State, s': State, u: Worker, e: EventId)
    requires CleanOwner(s, u, e) && u in s'.workers && s'.workers[u] == s.workers[u] && s.stream <= s'.stream
    requires Witness(s', Head(s, u).msg, e)
    requires forall v, i :: Fresh(s', v, i) ==> MsgAt(s', v, i) != Head(s, u).msg
    ensures CleanOwner(s', u, e)
  {
  }

  /** No message becomes fresh and none of the event's owed ones is given up. */
  ghost predicate Quieter(s: State, s': State, e: EventId) {
    && s.stream <= s'.stream && s'.trimmed == s.trimmed && s.acked <= s'.acked
    && (forall v, i :: Fresh(s', v, i) ==> Fresh(s, v, i) && MsgAt(s', v, i) == MsgAt(s, v, i))
    && (forall m :: Witness(s, m, e) ==> Witness(s', m, e))
    && (forall m: nat :: m < |s.stream| ==> (Has(s', m, e) <==> Has(s, m, e)))
  }

  lemma QuieterKeeps(s: State, s': State, e: EventId)
    requires Sound(s) && Safe(s, e) && Quieter(s, s', e) && s'.stream == s.stream
    requires e in s'.keys ==> exists w :: CleanOwner(s', w, e)
    ensures Safe(s', e)
  {
    if Published(s', e) {
      var p :| Has(s', p, e);
      assert Has(s, p, e);
      var m :| Witness(s, m, e);
      assert Witness(s', m, e);
    }
  }

  lemma SafeOnPublish(maxDelivery: int, s: State, step: Step, e: EventId)
    requires Sound(s) && Safe(s, e) && step.Publish?
    ensures Safe(Apply(maxDelivery, s, step), e)
  {
    var s' := Apply(maxDelivery, s, step);
    var n := |s.stream|;
    forall w, i | Slot(s, w, i) ensures MsgAt(s, w, i) < n { assert LocalSound(s, w, s.workers[w]); }
    assert n !in s.acked && forall w :: w in s.workers ==> n !in s.workers[w].acks by {
      forall w | w in s.workers ensures n !in s.workers[w].acks { assert LocalSound(s, w, s.workers[w]); }
    }
    assert forall m: nat :: m < n ==> (Has(s', m, e) <==> Has(s, m, e));
    assert forall w, i :: Fresh(s', w, i) <==> Fresh(s, w, i);
    assert forall m :: Witness(s, m, e) ==> Witness(s', m, e);
    if e in s'.keys {
      var u :| CleanOwner(s, u, e);
      assert CleanOwner(s', u, e);
    }
    if Published(s', e) {
      if Published(s, e) {
        var m :| Witness(s, m, e);
        assert Witness(s', m, e);
      } else {
        var m :| Has(s', m, e);
        assert m == n;
        assert Witness(s', m, e);
      }
    }
  }

  lemma SafeOnExpire(maxDelivery: int, s: State, step: Step, e: EventId)
    requires Sound(s) && Safe(s, e) && Enabled(s, step) && !Danger(s, step, e) && (step.Expire? || step.Trim?)
    ensures Safe(Apply(maxDelivery, s, step), e)
  {
    var s' := Apply(maxDelivery, s, step);
    assert forall w, i :: Fresh(s', w, i) <==> Fresh(s, w, i);
    assert forall m :: Has(s', m, e) <==> Has(s, m, e);
    assert forall m :: Witness(s, m, e) <==> Witness(s', m, e);
    if e in s'.keys {
      var u :| CleanOwner(s, u, e);
      OwnerStays(s, s', u, e);
    }
    if Published(s', e) {
      var m :| Witness(s, m, e);
      assert Witness(s', m, e);
    }
  }

  lemma SafeOnCrash(maxDelivery: int, s: State, step: Step, e: EventId)
    requires Sound(s) && Safe(s, e) && Enabled(s, step) && !Danger(s, step, e) && step.Crash?
    ensures Safe(Apply(maxDelivery, s, step), e)
  {
    var s' := Apply(maxDelivery, s, step);
    assert Quieter(s, s', e);
    if e in s'.keys {
      var u :| CleanOwner(s, u, e) && u != step.w;
      OwnerStays(s, s', u, e);
    }
    QuieterKeeps(s, s', e);
  }

  /** Reserving makes a clean owner: the message was fresh, in one batch, and owed. */
  lemma ReserverOwns(s: State, s': State, w: Worker, e: EventId)
    requires Safe(s, e) && At(s, w, Idle) && EventOf(s, w) == e
    requires s'.stream == s.stream && s'.acked == s.acked && s'.workers == s.workers[w := s.workers[w].(stage := Reserved)]
    ensures CleanOwner(s', w, e)
  {
    assert Fresh(s, w, 0) && MsgAt(s, w, 0) == Head(s, w).msg;
    assert forall v, i :: Fresh(s', v, i) ==> Fresh(s, v, i) && MsgAt(s', v, i) == MsgAt(s, v, i) && !(v == w && i == 0);
  }

  lemma StageIsQuiet(maxDelivery: int, s: State, step: Step, e: EventId)
    requires Enabled(s, step)
    requires step.Reserve? || step.ReserveBlind? || step.Register? || step.Fail? || (step.Commit? && !step.reported)
    ensures Quieter(s, Apply(maxDelivery, s, step), e)
  {
  }

  lemma SafeOnReserve(maxDelivery: int, s: State, step: Step, e: EventId)
    requires Sound(s) && Safe(s, e) && Enabled(s, step) && (step.Reserve? || step.ReserveBlind?)
    ensures Safe(Apply(maxDelivery, s, step), e)
  {
    var s' := Apply(maxDelivery, s, step);
    StageIsQuiet(maxDelivery, s, step, e);
    if EventOf(s, step.w) == e {
      ReserverOwns(s, s', step.w, e);
    } else if e in s'.keys {
      var u :| CleanOwner(s, u, e);
      OwnerStays(s, s', u, e);
    }
    QuieterKeeps(s, s', e);
  }

  /** A worker that moves on mid-event stays a clean owner. */
  lemma MoverOwns(s: State, s': State, w: Worker, e: EventId)
    requires CleanOwner(s, w, e) && Mid(s', w, e) && Head(s', w) == Head(s, w)
    requires Quieter(s, s', e)
    ensures CleanOwner(s', w, e)
  {
  }

  lemma OwnerOnStage(maxDelivery: int, s: State, step: Step, e: EventId)
    requires Safe(s, e) && Enabled(s, step) && (step.Register? || step.Fail? || (step.Commit? && !step.reported))
    requires Quieter(s, Apply(maxDelivery, s, step), e) && e in s.keys
    ensures exists u :: CleanOwner(Apply(maxDelivery, s, step), u, e)
  {
    var s' := Apply(maxDelivery, s, step);
    var u :| CleanOwner(s, u, e);
    if u == step.w { MoverOwns(s, s', u, e); } else { OwnerStays(s, s', u, e); }
  }

  lemma SafeOnStage(maxDelivery: int, s: State, step: Step, e: EventId)
    requires Sound(s) && Safe(s, e) && Enabled(s, step)
    requires step.Register? || step.Fail? || (step.Commit? && !step.reported)
    ensures Safe(Apply(maxDelivery, s, step), e)
  {
    var s' := Apply(maxDelivery, s, step);
    StageIsQuiet(maxDelivery, s, step, e);
    if e in s'.keys { OwnerOnStage(maxDelivery, s, step, e); }
    QuieterKeeps(s, s', e);
  }

  /** A dead letter acknowledged is in the dead-letter stream, so it is none of an unsettled event. */
  lemma DeadIsOther(s: State, w: Worker, e: EventId)
    requires Sound(s) && !Settled(s, e) && w in s.workers && s.workers[w].stage == Appended
    ensures s.workers[w].deads != [] && !Has(s, s.workers[w].deads[0].msg, e)
  {
    assert LocalSound(s, w, s.workers[w]);
    var m := s.workers[w].deads[0].msg;
    var k :| 0 <= k < |s.dlq| && s.dlq[k] == m;
  }

  lemma SettlingIsQuiet(maxDelivery: int, s: State, step: Step, e: EventId)
    requires Enabled(s, step) && (step.AppendDead? || step.AckDead? || step.Ack?)
    requires step.AckDead? ==> !Has(s, s.workers[step.w].deads[0].msg, e)
    ensures Quieter(s, Apply(maxDelivery, s, step), e)
  {
  }

  lemma OwnerOnSettling(maxDelivery: int, s: State, step: Step, u: Worker, e: EventId)
    requires CleanOwner(s, u, e) && Enabled(s, step) && (step.AppendDead? || step.AckDead? || step.Ack?)
    requires Quieter(s, Apply(maxDelivery, s, step), e)
    ensures CleanOwner(Apply(maxDelivery, s, step), u, e)
  {
    OwnerStays(s, Apply(maxDelivery, s, step), u, e);
  }

  lemma SafeOnSettling(maxDelivery: int, s: State, step: Step, e: EventId)
    requires Sound(s) && Safe(s, e) && !Settled(s, e) && Enabled(s, step)
    requires step.AppendDead? || step.AckDead? || step.Ack?
    ensures SettledOrSafe(Apply(maxDelivery, s, step), e)
  {
    var s' := Apply(maxDelivery, s, step);
    if step.AckDead? { DeadIsOther(s, step.w, e); }
    SettlingIsQuiet(maxDelivery, s, step, e);
    if e in s'.keys {
      var u :| CleanOwner(s, u, e);
      OwnerOnSettling(maxDelivery, s, step, u, e);
    }
    QuieterKeeps(s, s', e);
  }

  // ---- decisions ----

  /** The head of `w`'s batch goes, and goes to the ack list if `acked`. */
  ghost predicate Pops(s: State, s': State, w: Worker, acked: bool) {
    && w in s.workers && |s.workers[w].queue| > 0
    && s'.stream == s.stream && s'.trimmed == s.trimmed && s'.acked == s.acked
    && s'.workers.Keys == s.workers.Keys && (forall v :: v in s.workers && v != w ==> s'.workers[v] == s.workers[v])
    && s'.workers[w].queue == s.workers[w].queue[1..] && s'.workers[w].stage == Idle
    && s'.workers[w].acks == s.workers[w].acks + if acked then {Head(s, w).msg} else {}
  }

  lemma FreshAfterPop(s: State, s': State, w: Worker, acked: bool)
    requires Pops(s, s', w, acked)
    ensures forall v, i :: Fresh(s', v, i) ==> Fresh(s, v, Before(w, v, i)) && MsgAt(s', v, i) == MsgAt(s, v, Before(w, v, i))
  {
    PopShifts(s, s', w);
  }

  /** A popped message that stays owed, or is of another event. */
  lemma SafeOnPop(s: State, s': State, w: Worker, acked: bool, e: EventId)
    requires Safe(s, e) && Pops(s, s', w, acked) && (acked ==> !Has(s, Head(s, w).msg, e))
    requires e in s'.keys ==> exists u :: u != w && CleanOwner(s, u, e)
    ensures Safe(s', e)
  {
    FreshAfterPop(s, s', w, acked);
    assert forall m :: Has(s', m, e) <==> Has(s, m, e);
    assert forall m :: Witness(s, m, e) ==> Witness(s', m, e);
    if e in s'.keys {
      var u :| u != w && CleanOwner(s, u, e);
      OwnerStays(s, s', u, e);
    }
    if Published(s', e) {
      var m :| Witness(s, m, e);
      assert Witness(s', m, e);
    }
  }

  /** A duplicate is thrown away: the clean owner's message remains owed, and it is another. */
  lemma SafeOnSkip(s: State, s': State, w: Worker, e: EventId)
    requires Safe(s, e) && Pops(s, s', w, true) && s'.keys == s.keys
    requires At(s, w, Idle) && EventOf(s, w) == e && e in s.keys
    ensures Safe(s', e)
  {
    var p := Head(s, w).msg;
    FreshAfterPop(s, s', w, true);
    assert Fresh(s, w, 0) && MsgAt(s, w, 0) == p;
    assert forall m :: Has(s', m, e) <==> Has(s, m, e);
    assert forall m :: Witness(s, m, e) && m != p ==> Witness(s', m, e);
    forall v, i | Fresh(s', v, i) && Has(s', MsgAt(s', v, i), e) ensures Witness(s', MsgAt(s', v, i), e) {
      assert !(v == w && Before(w, v, i) == 0);
    }
    var u :| CleanOwner(s, u, e);
    assert u != w && Head(s, u).msg != p;
    OwnerStays(s, s', u, e);
  }

  lemma SafeOnDecision(maxDelivery: int, s: State, step: Step, e: EventId)
    requires Sound(s) && Safe(s, e) && !Settled(s, e) && Enabled(s, step) && !Danger(s, step, e)
    requires step.DropGarbage? || step.SkipDuplicate? || step.LedgerDuplicate? || step.Refuse? || step.Release?
             || (step.Commit? && step.reported)
    ensures SettledOrSafe(Apply(maxDelivery, s, step), e)
  {
    var s' := Apply(maxDelivery, s, step);
    var own := !step.DropGarbage? && EventOf(s, step.w) == e;
    if own && step.SkipDuplicate? {
      assert Pops(s, s', step.w, true);
      SafeOnSkip(s, s', step.w, e);
    } else if !(own && (step.LedgerDuplicate? || step.Refuse? || step.Commit?)) {
      OwnerElsewhere(maxDelivery, s, step, e);
      assert Pops(s, s', step.w, !step.Release? && !step.DropGarbage?);
      SafeOnPop(s, s', step.w, !step.Release? && !step.DropGarbage?, e);
    }
  }

  lemma OwnerElsewhere(maxDelivery: int, s: State, step: Step, e: EventId)
    requires Safe(s, e) && Enabled(s, step) && !Danger(s, step, e)
    requires step.DropGarbage? || step.Release?
             || ((step.SkipDuplicate? || step.LedgerDuplicate? || step.Refuse? || (step.Commit? && step.reported)) && EventOf(s, step.w) != e)
    ensures e in Apply(maxDelivery, s, step).keys ==> exists u :: u != step.w && CleanOwner(s, u, e)
  {
    if e in Apply(maxDelivery, s, step).keys {
      var u :| CleanOwner(s, u, e);
      if u == step.w {
        assert step.Release? && !step.ok && Mid(s, step.w, e);
        var v :| v != step.w && CleanOwner(s, v, e);
      }
    }
  }

  // ---- deliveries ----

  /** The message is not waiting anywhere, and the key does not stand on it alone. */
  lemma DeliveredIsFree(s: State, step: Step, e: EventId)
    requires Sound(s) && Safe(s, e) && Enabled(s, step) && !Danger(s, step, e) && (step.Fetch? || step.Reclaim?) && Has(s, step.msg, e)
    ensures forall v, i :: Fresh(s, v, i) ==> MsgAt(s, v, i) != step.msg
    ensures Witness(s, step.msg, e)
    ensures e in s.keys ==> exists u :: CleanOwner(s, u, e) && Head(s, u).msg != step.msg
  {
    if step.Fetch? {
      forall v | v in s.workers
        ensures step.msg !in s.workers[v].acks && forall i :: 0 <= i < |s.workers[v].queue| ==> s.workers[v].queue[i].msg != step.msg
      {
        assert LocalSound(s, v, s.workers[v]);
      }
      if e in s.keys {
        var u :| CleanOwner(s, u, e);
        assert s.workers[u].queue[0].msg != step.msg;
      }
    }
  }

  /** The delivered message is fresh at the end of one queue; everything else is as it was. */
  lemma DeliveryShape(maxDelivery: int, s: State, step: Step, e: EventId)
    requires Enabled(s, step) && (step.Fetch? || step.Reclaim?)
    ensures var s' := Apply(maxDelivery, s, step);
            && s'.stream == s.stream && s'.trimmed == s.trimmed && s'.keys == s.keys
            && (forall m :: Has(s', m, e) <==> Has(s, m, e))
            && (forall m :: Witness(s, m, e) ==> Witness(s', m, e))
            && (forall v :: v != step.w && v in s.workers ==> v in s'.workers && s'.workers[v] == s.workers[v])
            && (forall v, i :: Fresh(s', v, i) ==>
                  if v == step.w && i == |LocalOf(s, step.w).queue| then MsgAt(s', v, i) == step.msg
                  else Fresh(s, v, i) && MsgAt(s', v, i) == MsgAt(s, v, i))
  {
    var s' := Apply(maxDelivery, s, step);
    assert forall v :: v in s'.workers ==> s'.workers[v].acks == LocalOf(s, v).acks;
  }

  lemma FreshAfterDelivery(maxDelivery: int, s: State, step: Step, e: EventId)
    requires FreshOnce(s, e) && FreshOwed(s, e) && Enabled(s, step) && (step.Fetch? || step.Reclaim?)
    requires Has(s, step.msg, e) ==> Witness(s, step.msg, e) && forall v, i :: Fresh(s, v, i) ==> MsgAt(s, v, i) != step.msg
    ensures FreshOnce(Apply(maxDelivery, s, step), e) && FreshOwed(Apply(maxDelivery, s, step), e)
  {
    DeliveryShape(maxDelivery, s, step, e);
  }

  lemma SafeOnDelivery(maxDelivery: int, s: State, step: Step, e: EventId)
    requires Sound(s) && Safe(s, e) && Enabled(s, step) && !Danger(s, step, e) && (step.Fetch? || step.Reclaim?)
    ensures Safe(Apply(maxDelivery, s, step), e)
  {
    var s' := Apply(maxDelivery, s, step);
    if Has(s, step.msg, e) { DeliveredIsFree(s, step, e); }
    FreshAfterDelivery(maxDelivery, s, step, e);
    OwnerAfterDelivery(maxDelivery, s, step, e);
    WitnessAfterDelivery(maxDelivery, s, step, e);
  }

  lemma OwnerAfterDelivery(maxDelivery: int, s: State, step: Step, e: EventId)
    requires Enabled(s, step) && (step.Fetch? || step.Reclaim?)
    requires e in s.keys ==> exists u :: CleanOwner(s, u, e) && (Has(s, step.msg, e) ==> Head(s, u).msg != step.msg)
    ensures e in Apply(maxDelivery, s, step).keys ==> exists u :: CleanOwner(Apply(maxDelivery, s, step), u, e)
  {
    var s' := Apply(maxDelivery, s, step);
    DeliveryShape(maxDelivery, s, step, e);
    if e in s'.keys {
      var u :| CleanOwner(s, u, e) && (Has(s, step.msg, e) ==> Head(s, u).msg != step.msg);
      OwnerStays(s, s', u, e);
    }
  }

  // ---- runs ----

  lemma StepStaysSafe(maxDelivery: int, s: State, step: Step, e: EventId)
    requires Sound(s) && SettledOrSafe(s, e) && Enabled(s, step) && !Danger(s, step, e)
    ensures SettledOrSafe(Apply(maxDelivery, s, step), e)
  {
    if Settled(s, e) {
      SettledStays(maxDelivery, s, step, e);
    } else {
      match step
      case Publish(_) => SafeOnPublish(maxDelivery, s, step, e);
      case Expire(_) => SafeOnExpire(maxDelivery, s, step, e);
      case Trim(_) => SafeOnExpire(maxDelivery, s, step, e);
      case Crash(_) => SafeOnCrash(maxDelivery, s, step, e);
      case Fetch(_, _) => SafeOnDelivery(maxDelivery, s, step, e);
      case Reclaim(_, _) => SafeOnDelivery(maxDelivery, s, step, e);
      case Reserve(_) => SafeOnReserve(maxDelivery, s, step, e);
      case ReserveBlind(_, _) => SafeOnReserve(maxDelivery, s, step, e);
      case Register(_) => SafeOnStage(maxDelivery, s, step, e);
      case Fail(_) => SafeOnStage(maxDelivery, s, step, e);
      case Commit(_, reported) =>
        if reported { SafeOnDecision(maxDelivery, s, step, e); } else { SafeOnStage(maxDelivery, s, step, e); }
      case AppendDead(_) => SafeOnSettling(maxDelivery, s, step, e);
      case AckDead(_) => SafeOnSettling(maxDelivery, s, step, e);
      case Ack(_, _) => SafeOnSettling(maxDelivery, s, step, e);
      case _ => SafeOnDecision(maxDelivery, s, step, e);
    }
  }

  lemma {:induction false} RunStaysSafe(maxDelivery: int, s: State, steps: seq<Step>, e: EventId)
    requires Sound(s) && SettledOrSafe(s, e) && Run(maxDelivery, s, steps) && DangerFree(maxDelivery, s, steps, e)
    ensures Sound(After(maxDelivery, s, steps)) && SettledOrSafe(After(maxDelivery, s, steps), e)
    decreases |steps|
  {
    if steps != [] {
      StepKeepsSound(maxDelivery, s, steps[0]);
      StepStaysSafe(maxDelivery, s, steps[0], e);
      RunStaysSafe(maxDelivery, Apply(maxDelivery, s, steps[0]), steps[1..], e);
    }
  }

  lemma SafeIsNotLost(s: State, e: EventId)
    requires SettledOrSafe(s, e)
    ensures !Lost(s, e)
  {
    if Published(s, e) && !Settled(s, e) {
      var m :| Witness(s, m, e);
      assert Pending(s, e);
    }
  }

  /**
   No loss, with reclaims of messages still in a batch allowed wherever they do no
   harm: in every run without danger for it, a published event has an
   un-acknowledged message, a ledger row, a dead letter, or was refused.
   */
  lemma NoEventIsLostWithoutDanger(maxDelivery: int, steps: seq<Step>, e: EventId)
    requires Run(maxDelivery, START, steps) && DangerFree(maxDelivery, START, steps, e)
    ensures !Lost(After(maxDelivery, START, steps), e)
  {
    RunStaysSafe(maxDelivery, START, steps, e);
    SafeIsNotLost(After(maxDelivery, START, steps), e);
  }
}
