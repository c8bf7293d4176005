/** Exactly which reclaims of an event's last owed message can cost the event. */
module IngestReclaimLoss {
  import opened Prelude
  import opened IngestProtocol
  import opened IngestNoLoss
  import opened IngestLoss
  import opened IngestReclaims

  ghost predicate Losable(maxDelivery: int, s: State, e: EventId) {
    exists steps :: Loses(maxDelivery, s, steps, e)
  }

  // ---- safe states lose nothing ----

  /** In a safe state every dangerous step is a hazard. */
  lemma DangerIsHazard(s: State, step: Step, e: EventId)
    requires Safe(s, e) && Danger(s, step, e)
    ensures Hazard(s, step, e)
  {
    if step.Reclaim? && e in s.keys {
      var u :| CleanOwner(s, u, e);
      if Head(s, u).msg == step.msg { assert InQueue(s.workers[u], step.msg); }
    }
  }

  lemma {:induction false} SafeIsUnlosable(maxDelivery: int, s: State, steps: seq<Step>, e: EventId)
    requires Sound(s) && SettledOrSafe(s, e) && Run(maxDelivery, s, steps) && HazardFree(maxDelivery, s, steps, e)
    ensures !Lost(After(maxDelivery, s, steps), e)
    decreases |steps|
  {
    if steps == [] {
      SafeIsNotLost(s, e);
    } else {
      StepKeepsSound(maxDelivery, s, steps[0]);
      if Settled(s, e) {
        SettledStays(maxDelivery, s, steps[0], e);
      } else {
        if Danger(s, steps[0], e) { DangerIsHazard(s, steps[0], e); }
        StepStaysSafe(maxDelivery, s, steps[0], e);
      }
      SafeIsUnlosable(maxDelivery, Apply(maxDelivery, s, steps[0]), steps[1..], e);
    }
  }

  /** What `Open` says of every batch is more than `Safe` asks. */
  lemma OpenIsSafe(s: State, e: EventId)
    requires Open(s, e)
    ensures Safe(s, e)
  {
    assert forall w, i :: Fresh(s, w, i) ==> Slot(s, w, i);
    if e in s.keys {
      var u :| Mid(s, u, e);
      assert Slot(s, u, 0) && MsgAt(s, u, 0) == Head(s, u).msg;
      assert CleanOwner(s, u, e);
    }
  }

  /** A reclaim without danger leaves the event safe from everything but further hazards. */
  lemma HarmlessReclaim(maxDelivery: int, s: State, w: Worker, m: nat, e: EventId)
    requires Sound(s) && Safe(s, e) && Enabled(s, Reclaim(w, m)) && !(Has(s, m, e) && Fought(s, m, e))
    ensures !Losable(maxDelivery, Apply(maxDelivery, s, Reclaim(w, m)), e)
  {
    var s1 := Apply(maxDelivery, s, Reclaim(w, m));
    SafeOnDelivery(maxDelivery, s, Reclaim(w, m), e);
    StepKeepsSound(maxDelivery, s, Reclaim(w, m));
    forall steps | Run(maxDelivery, s1, steps) && HazardFree(maxDelivery, s1, steps, e)
      ensures !Lost(After(maxDelivery, s1, steps), e)
    {
      SafeIsUnlosable(maxDelivery, s1, steps, e);
    }
  }

  // ---- paths ----

  /** A run without hazards leads from `s` to `t`. */
  ghost predicate Path(maxDelivery: int, s: State, t: State, e: EventId) {
    exists steps :: Run(maxDelivery, s, steps) && HazardFree(maxDelivery, s, steps, e) && After(maxDelivery, s, steps) == t
  }

  lemma NoPath(maxDelivery: int, s: State, e: EventId)
    ensures Path(maxDelivery, s, s, e)
  {
    assert Run(maxDelivery, s, []) && HazardFree(maxDelivery, s, [], e) && After(maxDelivery, s, []) == s;
  }

  lemma PathStep(maxDelivery: int, s: State, step: Step, t: State, e: EventId)
    requires Enabled(s, step) && !Hazard(s, step, e) && Path(maxDelivery, Apply(maxDelivery, s, step), t, e)
    ensures Path(maxDelivery, s, t, e)
  {
    var s' := Apply(maxDelivery, s, step);
    var rest :| Run(maxDelivery, s', rest) && HazardFree(maxDelivery, s', rest, e) && After(maxDelivery, s', rest) == t;
    Prepend(maxDelivery, s, step, rest, e);
  }

  lemma PathOn(maxDelivery: int, s: State, t: State, u: State, e: EventId)
    requires Path(maxDelivery, s, t, e) && Path(maxDelivery, t, u, e)
    ensures Path(maxDelivery, s, u, e)
  {
    var a :| Run(maxDelivery, s, a) && HazardFree(maxDelivery, s, a, e) && After(maxDelivery, s, a) == t;
    var b :| Run(maxDelivery, t, b) && HazardFree(maxDelivery, t, b, e) && After(maxDelivery, t, b) == u;
    Concat(maxDelivery, s, a, b, e);
  }

  // ---- a worker gets on with its batch ----

  /** Only `w` and other events have moved on. */
  ghost predicate Alike(s: State, t: State, w: Worker, e: EventId) {
    && t.stream == s.stream && t.ledger == s.ledger && t.refused == s.refused && t.trimmed == s.trimmed
    && (e in t.keys <==> e in s.keys)
    && (forall v :: v != w ==> (v in t.workers <==> v in s.workers) && (v in s.workers ==> t.workers[v] == s.workers[v]))
    && (forall p :: Has(s, p, e) ==> (p in t.acked <==> p in s.acked))
    && (Settled(t, e) ==> Settled(s, e))
    && w in t.workers && Sound(t)
  }

  /** The worker's ack list and dead letters hold nothing of the event. */
  ghost predicate Unconcerned(s: State, w: Worker, e: EventId) {
    && w in s.workers
    && (forall p :: p in s.workers[w].acks ==> !Has(s, p, e))
    && (forall k :: 0 <= k < |s.workers[w].deads| ==> !Has(s, s.workers[w].deads[k].msg, e))
  }

  /** From `s` to `t` the head of `w`'s batch was dealt with, and it was of another event. */
  ghost predicate PoppedOther(maxDelivery: int, s: State, t: State, w: Worker, e: EventId) {
    && w in s.workers && |s.workers[w].queue| > 0
    && Path(maxDelivery, s, t, e) && Alike(s, t, w, e)
    && t.workers[w].queue == s.workers[w].queue[1..] && t.workers[w].stage == Idle
    && (Unconcerned(s, w, e) ==> Unconcerned(t, w, e))
  }

  ghost predicate OtherHead(s: State, w: Worker, e: EventId) {
    Sound(s) && w in s.workers && |s.workers[w].queue| > 0 && !Has(s, s.workers[w].queue[0].msg, e)
  }

  /** A worker busy with another event leaves this one as it is. */
  lemma StepAlike(maxDelivery: int, s: State, step: Step, w: Worker, e: EventId)
    requires OtherHead(s, w, e) && Enabled(s, step)
    requires (step.DropGarbage? || step.SkipDuplicate? || (step.Release? && step.ok) || step.Reserve? || step.Fail?) && step.w == w
    ensures Alike(s, Apply(maxDelivery, s, step), w, e) && !Hazard(s, step, e)
    ensures Unconcerned(s, w, e) ==> Unconcerned(Apply(maxDelivery, s, step), w, e)
  {
    StepKeepsSound(maxDelivery, s, step);
    SameAccounts(s, Apply(maxDelivery, s, step), e);
  }

  lemma OneStepPops(maxDelivery: int, s: State, step: Step, w: Worker, e: EventId)
    requires OtherHead(s, w, e) && Enabled(s, step)
    requires (step.DropGarbage? || step.SkipDuplicate? || (step.Release? && step.ok)) && step.w == w
    ensures PoppedOther(maxDelivery, s, Apply(maxDelivery, s, step), w, e)
  {
    var t := Apply(maxDelivery, s, step);
    StepAlike(maxDelivery, s, step, w, e);
    NoPath(maxDelivery, t, e);
    PathStep(maxDelivery, s, step, t, e);
  }

  /** A step that only moves `w` on with another event. */
  lemma StageThenPops(maxDelivery: int, s: State, step: Step, t: State, w: Worker, e: EventId)
    requires OtherHead(s, w, e) && Enabled(s, step) && (step.Reserve? || step.Fail?) && step.w == w
    requires PoppedOther(maxDelivery, Apply(maxDelivery, s, step), t, w, e)
    ensures PoppedOther(maxDelivery, s, t, w, e)
  {
    StepAlike(maxDelivery, s, step, w, e);
    PathStep(maxDelivery, s, step, t, e);
    AlikeOn(s, Apply(maxDelivery, s, step), t, w, e);
  }

  lemma FailedPops(maxDelivery: int, s: State, w: Worker, e: EventId) returns (t: State)
    requires OtherHead(s, w, e) && At(s, w, Failed)
    ensures PoppedOther(maxDelivery, s, t, w, e)
  {
    OneStepPops(maxDelivery, s, Release(w, true), w, e);
    t := Apply(maxDelivery, s, Release(w, true));
  }

  lemma BegunPops(maxDelivery: int, s: State, w: Worker, e: EventId) returns (t: State)
    requires OtherHead(s, w, e) && (At(s, w, Reserved) || At(s, w, InTransaction))
    ensures PoppedOther(maxDelivery, s, t, w, e)
  {
    var s' := Apply(maxDelivery, s, Fail(w));
    StepKeepsSound(maxDelivery, s, Fail(w));
    t := FailedPops(maxDelivery, s', w, e);
    StageThenPops(maxDelivery, s, Fail(w), t, w, e);
  }

  lemma PopOther(maxDelivery: int, s: State, w: Worker, e: EventId) returns (t: State)
    requires OtherHead(s, w, e)
    ensures PoppedOther(maxDelivery, s, t, w, e)
  {
    assert LocalSound(s, w, s.workers[w]);
    if At(s, w, Failed) {
      t := FailedPops(maxDelivery, s, w, e);
    } else if At(s, w, Reserved) || At(s, w, InTransaction) {
      t := BegunPops(maxDelivery, s, w, e);
    } else if s.stream[Head(s, w).msg].Garbage? {
      OneStepPops(maxDelivery, s, DropGarbage(w), w, e);
      t := Apply(maxDelivery, s, DropGarbage(w));
    } else if EventOf(s, w) in s.keys {
      OneStepPops(maxDelivery, s, SkipDuplicate(w), w, e);
      t := Apply(maxDelivery, s, SkipDuplicate(w));
    } else {
      var s' := Apply(maxDelivery, s, Reserve(w));
      StepKeepsSound(maxDelivery, s, Reserve(w));
      t := BegunPops(maxDelivery, s', w, e);
      StageThenPops(maxDelivery, s, Reserve(w), t, w, e);
    }
  }

  lemma AlikeOn(s: State, t: State, u: State, w: Worker, e: EventId)
    requires Alike(s, t, w, e) && Alike(t, u, w, e)
    ensures Alike(s, u, w, e)
  {
    assert forall p :: Has(s, p, e) <==> Has(t, p, e);
  }

  lemma AlikeSelf(s: State, w: Worker, e: EventId)
    requires Sound(s) && w in s.workers
    ensures Alike(s, s, w, e)
  {
  }

  /** From `s` to `t` the first `i` messages of `w`'s batch were dealt with. */
  ghost predicate ClearedTo(maxDelivery: int, s: State, t: State, w: Worker, i: nat, e: EventId) {
    && w in s.workers && i <= |s.workers[w].queue|
    && Path(maxDelivery, s, t, e) && Alike(s, t, w, e)
    && t.workers[w].queue == s.workers[w].queue[i..]
    && (if i == 0 then t.workers[w] == s.workers[w] else t.workers[w].stage == Idle)
    && (Unconcerned(s, w, e) ==> Unconcerned(t, w, e))
  }

  lemma ClearedOn(maxDelivery: int, s: State, s': State, t: State, w: Worker, i: nat, e: EventId)
    requires i > 0 && PoppedOther(maxDelivery, s, s', w, e) && ClearedTo(maxDelivery, s', t, w, i - 1, e)
    ensures ClearedTo(maxDelivery, s, t, w, i, e)
  {
    PathOn(maxDelivery, s, s', t, e);
    AlikeOn(s, s', t, w, e);
  }

  /** The first `i` messages of the worker's batch are of other events. */
  ghost predicate OthersFirst(s: State, w: Worker, i: nat, e: EventId) {
    Sound(s) && w in s.workers && i <= |s.workers[w].queue| && forall k :: 0 <= k < i ==> !Has(s, s.workers[w].queue[k].msg, e)
  }

  lemma ClearedNone(maxDelivery: int, s: State, w: Worker, e: EventId)
    requires Sound(s) && w in s.workers
    ensures ClearedTo(maxDelivery, s, s, w, 0, e)
  {
    NoPath(maxDelivery, s, e);
    AlikeSelf(s, w, e);
  }

  lemma OneLessFirst(maxDelivery: int, s: State, s': State, w: Worker, i: nat, e: EventId)
    requires OthersFirst(s, w, i, e) && i > 0 && PoppedOther(maxDelivery, s, s', w, e)
    ensures OthersFirst(s', w, i - 1, e)
  {
    forall k | 0 <= k < i - 1 ensures !Has(s', s'.workers[w].queue[k].msg, e) {
      assert s'.workers[w].queue[k] == s.workers[w].queue[k + 1];
    }
  }

  /** A worker gets to position `i` of its batch when all before are of other events. */
  lemma {:induction false} ClearTo(maxDelivery: int, s: State, w: Worker, i: nat, e: EventId) returns (t: State)
    requires OthersFirst(s, w, i, e)
    ensures ClearedTo(maxDelivery, s, t, w, i, e)
    decreases i
  {
    if i == 0 {
      t := s;
      ClearedNone(maxDelivery, s, w, e);
    } else {
      var s' := PopOther(maxDelivery, s, w, e);
      OneLessFirst(maxDelivery, s, s', w, i, e);
      t := ClearTo(maxDelivery, s', w, i - 1, e);
      ClearedOn(maxDelivery, s, s', t, w, i, e);
    }
  }

  // ---- a worker settles its batch ----

  ghost predicate DeadsOther(s: State, w: Worker, e: EventId) {
    w in s.workers && forall k :: 0 <= k < |s.workers[w].deads| ==> !Has(s, s.workers[w].deads[k].msg, e)
  }

  ghost predicate Drained(maxDelivery: int, s: State, t: State, w: Worker, e: EventId) {
    && w in s.workers
    && Path(maxDelivery, s, t, e) && Alike(s, t, w, e) && Settling(t, w, Idle)
    && t.workers[w].deads == [] && t.workers[w].acks == s.workers[w].acks
  }

  lemma AppendOther(maxDelivery: int, s: State, w: Worker, e: EventId)
    requires Sound(s) && Settling(s, w, Idle) && s.workers[w].deads != [] && DeadsOther(s, w, e)
    ensures var t := Apply(maxDelivery, s, AppendDead(w));
            && Alike(s, t, w, e) && DeadsOther(t, w, e) && t.workers[w] == s.workers[w].(stage := Appended)
  {
    var t := Apply(maxDelivery, s, AppendDead(w));
    StepKeepsSound(maxDelivery, s, AppendDead(w));
    if Settled(t, e) && e !in t.ledger && e !in t.refused {
      var k :| 0 <= k < |t.dlq| && Has(t, t.dlq[k], e);
      assert Has(s, s.dlq[k], e);
    }
  }

  lemma AckOther(maxDelivery: int, s: State, w: Worker, e: EventId)
    requires Sound(s) && Settling(s, w, Appended) && s.workers[w].deads != [] && DeadsOther(s, w, e)
    ensures var t := Apply(maxDelivery, s, AckDead(w));
            && Alike(s, t, w, e) && DeadsOther(t, w, e) && Settling(t, w, Idle)
            && t.workers[w].acks == s.workers[w].acks && t.workers[w].deads == s.workers[w].deads[1..]
  {
    var t := Apply(maxDelivery, s, AckDead(w));
    StepKeepsSound(maxDelivery, s, AckDead(w));
    SameAccounts(s, t, e);
    assert forall k :: 0 <= k < |t.workers[w].deads| ==> t.workers[w].deads[k] == s.workers[w].deads[k + 1];
  }

  /** One dead letter of another event is appended and acknowledged. */
  lemma DrainOne(maxDelivery: int, s: State, w: Worker, e: EventId) returns (t: State)
    requires Sound(s) && Settling(s, w, Idle) && s.workers[w].deads != [] && DeadsOther(s, w, e)
    ensures Path(maxDelivery, s, t, e) && Alike(s, t, w, e) && Settling(t, w, Idle) && DeadsOther(t, w, e)
    ensures t.workers[w].acks == s.workers[w].acks && t.workers[w].deads == s.workers[w].deads[1..]
  {
    var s' := Apply(maxDelivery, s, AppendDead(w));
    AppendOther(maxDelivery, s, w, e);
    AckOther(maxDelivery, s', w, e);
    t := Apply(maxDelivery, s', AckDead(w));
    AlikeOn(s, s', t, w, e);
    NoPath(maxDelivery, t, e);
    PathStep(maxDelivery, s', AckDead(w), t, e);
    PathStep(maxDelivery, s, AppendDead(w), t, e);
  }

  lemma {:induction false} Drain(maxDelivery: int, s: State, w: Worker, e: EventId) returns (t: State)
    requires Sound(s) && Settling(s, w, Idle) && DeadsOther(s, w, e)
    ensures Drained(maxDelivery, s, t, w, e)
    decreases |s.workers[w].deads|
  {
    if s.workers[w].deads == [] {
      t := s;
      NoPath(maxDelivery, s, e);
      AlikeSelf(s, w, e);
    } else {
      var s' := DrainOne(maxDelivery, s, w, e);
      t := Drain(maxDelivery, s', w, e);
      PathOn(maxDelivery, s, s', t, e);
      AlikeOn(s, s', t, w, e);
    }
  }

  // ---- the message is overtaken ----

  /** `v` is mid-event on `m`, the last owed message, with the key set, while `m` waits last in `w`'s batch. */
  ghost predicate Overtaking(s: State, v: Worker, w: Worker, m: nat, e: EventId) {
    && Sound(s) && v != w && !Settled(s, e) && e in s.keys
    && Mid(s, v, e) && Head(s, v).msg == m && Has(s, m, e)
    && (forall p :: Has(s, p, e) && p != m ==> p in s.acked)
    && Unconcerned(s, w, e) && s.workers[w].stage == Idle
    && var q := s.workers[w].queue;
       |q| > 0 && q[|q| - 1].msg == m && forall k :: 0 <= k < |q| - 1 ==> !Has(s, q[k].msg, e)
  }

  /** Nothing of the event is owed, and `v` alone is still busy with it. */
  ghost predicate Overtaken(s: State, v: Worker, e: EventId) {
    && Sound(s) && !Settled(s, e) && Mid(s, v, e)
    && forall p :: Has(s, p, e) ==> p in s.acked
  }

  /** As `Overtaking`, the copy already in `w`'s ack list. */
  ghost predicate Skipped(s: State, v: Worker, w: Worker, m: nat, e: EventId) {
    && Sound(s) && v != w && !Settled(s, e) && Mid(s, v, e)
    && (forall p :: Has(s, p, e) && p != m ==> p in s.acked)
    && Settling(s, w, Idle) && m in s.workers[w].acks && DeadsOther(s, w, e)
  }

  ghost predicate SameBut(s: State, t: State, w: Worker) {
    && t.stream == s.stream
    && forall x :: x != w ==> (x in t.workers <==> x in s.workers) && (x in s.workers ==> t.workers[x] == s.workers[x])
  }

  lemma SkipCopy(maxDelivery: int, s: State, v: Worker, w: Worker, m: nat, e: EventId)
    requires Overtaking(s, v, w, m, e) && |s.workers[w].queue| == 1
    ensures Enabled(s, SkipDuplicate(w)) && SameBut(s, Apply(maxDelivery, s, SkipDuplicate(w)), w)
    ensures Skipped(Apply(maxDelivery, s, SkipDuplicate(w)), v, w, m, e)
  {
    StepKeepsSound(maxDelivery, s, SkipDuplicate(w));
    SameAccounts(s, Apply(maxDelivery, s, SkipDuplicate(w)), e);
  }

  lemma AckCopy(maxDelivery: int, s: State, v: Worker, w: Worker, m: nat, e: EventId)
    requires Skipped(s, v, w, m, e) && s.workers[w].deads == []
    ensures Enabled(s, Ack(w, m)) && SameBut(s, Apply(maxDelivery, s, Ack(w, m)), w)
    ensures Overtaken(Apply(maxDelivery, s, Ack(w, m)), v, e)
    ensures var t := Apply(maxDelivery, s, Ack(w, m)); w in t.workers && t.workers[w].queue == []
  {
    StepKeepsSound(maxDelivery, s, Ack(w, m));
    SameAccounts(s, Apply(maxDelivery, s, Ack(w, m)), e);
  }

  lemma AlikeSkipped(s: State, t: State, v: Worker, w: Worker, m: nat, e: EventId)
    requires Skipped(s, v, w, m, e) && Alike(s, t, w, e) && Settling(t, w, Idle)
    requires t.workers[w].acks == s.workers[w].acks && t.workers[w].deads == []
    ensures Skipped(t, v, w, m, e) && SameBut(s, t, w)
  {
    assert forall p :: Has(t, p, e) <==> Has(s, p, e);
  }

  /** The waiting copy is thrown away as a duplicate and acknowledged. */
  lemma CopyIsDropped(maxDelivery: int, s: State, v: Worker, w: Worker, m: nat, e: EventId) returns (t: State)
    requires Overtaking(s, v, w, m, e) && |s.workers[w].queue| == 1
    ensures Path(maxDelivery, s, t, e) && Overtaken(t, v, e) && SameBut(s, t, w)
    ensures w in t.workers && t.workers[w].queue == []
  {
    SkipCopy(maxDelivery, s, v, w, m, e);
    var s1 := Apply(maxDelivery, s, SkipDuplicate(w));
    var s2 := Drain(maxDelivery, s1, w, e);
    AlikeSkipped(s1, s2, v, w, m, e);
    AckCopy(maxDelivery, s2, v, w, m, e);
    t := Apply(maxDelivery, s2, Ack(w, m));
    NoPath(maxDelivery, t, e);
    PathStep(maxDelivery, s2, Ack(w, m), t, e);
    PathOn(maxDelivery, s1, s2, t, e);
    PathStep(maxDelivery, s, SkipDuplicate(w), t, e);
  }

  /** `w` first gets through the rest of its batch. */
  lemma WaitingCopyIsDropped(maxDelivery: int, s: State, v: Worker, w: Worker, m: nat, e: EventId) returns (t: State)
    requires Overtaking(s, v, w, m, e)
    ensures Path(maxDelivery, s, t, e) && Overtaken(t, v, e) && SameBut(s, t, w)
    ensures w in t.workers && t.workers[w].queue == []
  {
    var i := |s.workers[w].queue| - 1;
    var s' := ClearTo(maxDelivery, s, w, i, e);
    OvertakingOn(maxDelivery, s, s', v, w, m, e);
    t := CopyIsDropped(maxDelivery, s', v, w, m, e);
    PathOn(maxDelivery, s, s', t, e);
  }

  lemma OvertakingOn(maxDelivery: int, s: State, s': State, v: Worker, w: Worker, m: nat, e: EventId)
    requires Overtaking(s, v, w, m, e) && ClearedTo(maxDelivery, s, s', w, |s.workers[w].queue| - 1, e)
    ensures Overtaking(s', v, w, m, e) && |s'.workers[w].queue| == 1 && SameBut(s, s', w)
  {
    assert forall p :: Has(s', p, e) <==> Has(s, p, e);
  }

  lemma LastRelease(maxDelivery: int, s: State, v: Worker, e: EventId)
    requires Overtaken(s, v, e) && At(s, v, Failed)
    ensures Enabled(s, Release(v, true))
    ensures var s1 := Apply(maxDelivery, s, Release(v, true));
            && Enabled(s1, Crash(v)) && !Hazard(s1, Crash(v), e)
            && var t := Apply(maxDelivery, s1, Crash(v));
               Lost(t, e) && t.workers == s.workers - {v} && t.stream == s.stream
  {
    var t := Apply(maxDelivery, Apply(maxDelivery, s, Release(v, true)), Crash(v));
    SameAccounts(s, t, e);
    assert Has(t, Head(s, v).msg, e);
    assert t.workers == s.workers - {v};
  }

  /** Then the worker in front fails, releases the key and is gone: nobody owes the event anything. */
  lemma FailedGivesUp(maxDelivery: int, s: State, v: Worker, e: EventId) returns (t: State)
    requires Overtaken(s, v, e) && At(s, v, Failed)
    ensures Path(maxDelivery, s, t, e) && Lost(t, e)
    ensures t.workers == s.workers - {v} && t.stream == s.stream
  {
    LastRelease(maxDelivery, s, v, e);
    var s1 := Apply(maxDelivery, s, Release(v, true));
    t := Apply(maxDelivery, s1, Crash(v));
    NoPath(maxDelivery, t, e);
    PathStep(maxDelivery, s1, Crash(v), t, e);
    PathStep(maxDelivery, s, Release(v, true), t, e);
  }

  lemma OwnerGivesUp(maxDelivery: int, s: State, v: Worker, e: EventId) returns (t: State)
    requires Overtaken(s, v, e)
    ensures Path(maxDelivery, s, t, e) && Lost(t, e)
    ensures t.workers == s.workers - {v} && t.stream == s.stream
  {
    if At(s, v, Failed) {
      t := FailedGivesUp(maxDelivery, s, v, e);
    } else {
      var s' := Apply(maxDelivery, s, Fail(v));
      StepKeepsSound(maxDelivery, s, Fail(v));
      SameAccounts(s, s', e);
      t := FailedGivesUp(maxDelivery, s', v, e);
      PathStep(maxDelivery, s, Fail(v), t, e);
    }
  }

  // ---- the exact condition ----

  /** The worker has begun to handle `m`. */
  ghost predicate Begun(s: State, v: Worker, m: nat, e: EventId) {
    Mid(s, v, e) && Head(s, v).msg == m
  }

  /** A live batch carries `m`, and its worker has not begun with it or the key is set. */
  ghost predicate Contended(s: State, m: nat, e: EventId) {
    exists v :: v in s.workers && InQueue(s.workers[v], m) && (e in s.keys || !Begun(s, v, m, e))
  }

  /** Where the last owed message of a safely reached state is. */
  lemma LastOwed(s: State, m: nat, e: EventId)
    requires Sound(s) && Open(s, e) && OnlyOwed(s, m, e)
    ensures forall v, i :: Slot(s, v, i) && Has(s, MsgAt(s, v, i), e) ==> MsgAt(s, v, i) == m
    ensures forall v, i, x, j :: Slot(s, v, i) && Slot(s, x, j) && MsgAt(s, v, i) == m && MsgAt(s, x, j) == m ==> v == x && i == j
    ensures forall v :: v in s.workers ==> m !in s.workers[v].acks
    ensures e in s.keys ==> exists u :: Begun(s, u, m, e)
  {
    assert Published(s, e);
    var p :| Witness(s, p, e);
    assert p == m;
    if e in s.keys {
      var u :| Mid(s, u, e);
      assert Slot(s, u, 0) && MsgAt(s, u, 0) == Head(s, u).msg && Has(s, MsgAt(s, u, 0), e);
      assert Begun(s, u, m, e);
    }
  }

  lemma UncontendedIsNotFought(s: State, m: nat, e: EventId)
    requires Sound(s) && Open(s, e) && OnlyOwed(s, m, e) && !Contended(s, m, e)
    ensures !Fought(s, m, e)
  {
    LastOwed(s, m, e);
    forall v, i | Slot(s, v, i) && MsgAt(s, v, i) == m ensures !Fresh(s, v, i) {
      assert InQueue(s.workers[v], m);
      assert Slot(s, v, 0) && MsgAt(s, v, 0) == m;
    }
    forall u | Begun(s, u, m, e) ensures e !in s.keys {
      assert InQueue(s.workers[u], m);
    }
  }

  /** The reclaimed copy waits last in the batch of `w`, which is concerned with nothing else of the event. */
  ghost predicate CopyWaits(s: State, w: Worker, m: nat, e: EventId) {
    && Unconcerned(s, w, e) && s.workers[w].stage == Idle
    && var q := s.workers[w].queue;
       |q| > 0 && q[|q| - 1].msg == m && forall k :: 0 <= k < |q| - 1 ==> !Has(s, q[k].msg, e)
  }

  lemma ReclaimedCopyWaits(maxDelivery: int, s: State, w: Worker, m: nat, e: EventId)
    requires Sound(s) && Open(s, e) && OnlyOwed(s, m, e) && Enabled(s, Reclaim(w, m))
    requires !(w in s.workers && InQueue(s.workers[w], m))
    ensures CopyWaits(Apply(maxDelivery, s, Reclaim(w, m)), w, m, e)
  {
    LastOwed(s, m, e);
    var s1 := Apply(maxDelivery, s, Reclaim(w, m));
    var before := LocalOf(s, w).queue;
    forall k | 0 <= k < |before| ensures !Has(s1, s1.workers[w].queue[k].msg, e) {
      assert s1.workers[w].queue[k] == before[k];
      assert Slot(s, w, k) && MsgAt(s, w, k) == before[k].msg;
      assert before[k].msg != m;
    }
  }

  /** The state of the event while copies of `m` are with `v` and `w`. */
  ghost predicate TwoCopies(s: State, v: Worker, w: Worker, m: nat, e: EventId) {
    && Sound(s) && v != w && v in s.workers && !Settled(s, e) && OnlyOwed(s, m, e) && CopyWaits(s, w, m, e)
  }

  lemma HolderReserves(maxDelivery: int, s: State, v: Worker, w: Worker, m: nat, e: EventId)
    requires TwoCopies(s, v, w, m, e) && e !in s.keys && At(s, v, Idle) && Head(s, v).msg == m
    ensures Enabled(s, Reserve(v))
    ensures Overtaking(Apply(maxDelivery, s, Reserve(v)), v, w, m, e) && SameBut(s, Apply(maxDelivery, s, Reserve(v)), v)
  {
    StepKeepsSound(maxDelivery, s, Reserve(v));
    SameAccounts(s, Apply(maxDelivery, s, Reserve(v)), e);
  }

  /** The holder gets to the message and reserves it. */
  lemma HolderBegins(maxDelivery: int, s: State, v: Worker, i: nat, w: Worker, m: nat, e: EventId) returns (t: State)
    requires TwoCopies(s, v, w, m, e) && e !in s.keys
    requires Slot(s, v, i) && MsgAt(s, v, i) == m && !Begun(s, v, m, e)
    requires OthersFirst(s, v, i, e)
    ensures Path(maxDelivery, s, t, e) && Overtaking(t, v, w, m, e) && SameBut(s, t, v)
  {
    var s' := ClearTo(maxDelivery, s, v, i, e);
    HolderReaches(maxDelivery, s, s', v, i, w, m, e);
    HolderReserves(maxDelivery, s', v, w, m, e);
    t := Apply(maxDelivery, s', Reserve(v));
    NoPath(maxDelivery, t, e);
    PathStep(maxDelivery, s', Reserve(v), t, e);
    PathOn(maxDelivery, s, s', t, e);
  }

  lemma HolderReaches(maxDelivery: int, s: State, s': State, v: Worker, i: nat, w: Worker, m: nat, e: EventId)
    requires TwoCopies(s, v, w, m, e) && e !in s.keys && ClearedTo(maxDelivery, s, s', v, i, e)
    requires Slot(s, v, i) && MsgAt(s, v, i) == m && !Begun(s, v, m, e)
    ensures TwoCopies(s', v, w, m, e) && e !in s'.keys && SameBut(s, s', v)
    ensures At(s', v, Idle) && Head(s', v).msg == m
  {
    assert forall p :: Has(s', p, e) <==> Has(s, p, e);
    assert LocalSound(s', v, s'.workers[v]);
    assert s'.workers[v].queue[0] == s.workers[v].queue[i];
  }

  lemma TwoCopiesAfterReclaim(maxDelivery: int, s: State, v: Worker, w: Worker, m: nat, e: EventId)
    requires Sound(s) && Open(s, e) && !Settled(s, e) && OnlyOwed(s, m, e) && Enabled(s, Reclaim(w, m))
    requires !(w in s.workers && InQueue(s.workers[w], m)) && v != w && v in s.workers
    ensures TwoCopies(Apply(maxDelivery, s, Reclaim(w, m)), v, w, m, e)
  {
    StepKeepsSound(maxDelivery, s, Reclaim(w, m));
    SameAccounts(s, Apply(maxDelivery, s, Reclaim(w, m)), e);
    ReclaimedCopyWaits(maxDelivery, s, w, m, e);
  }

  /** Before the message nothing of the event is in the holder's batch. */
  lemma HolderClear(maxDelivery: int, s: State, v: Worker, i: nat, w: Worker, m: nat, e: EventId)
    requires Sound(s) && Open(s, e) && OnlyOwed(s, m, e) && Enabled(s, Reclaim(w, m)) && v != w
    requires Slot(s, v, i) && MsgAt(s, v, i) == m
    ensures var s1 := Apply(maxDelivery, s, Reclaim(w, m)); Sound(s1) ==> OthersFirst(s1, v, i, e)
  {
    var s1 := Apply(maxDelivery, s, Reclaim(w, m));
    LastOwed(s, m, e);
    forall k | 0 <= k < i ensures !Has(s1, s1.workers[v].queue[k].msg, e) {
      assert Slot(s, v, k) && MsgAt(s, v, k) == s1.workers[v].queue[k].msg;
    }
  }

  /** With the key set, the holder has begun with the message. */
  lemma HolderHasBegun(s: State, v: Worker, i: nat, m: nat, e: EventId)
    requires Sound(s) && Open(s, e) && OnlyOwed(s, m, e) && e in s.keys
    requires Slot(s, v, i) && MsgAt(s, v, i) == m
    ensures Begun(s, v, m, e)
  {
    LastOwed(s, m, e);
    var u :| Begun(s, u, m, e);
    assert Slot(s, u, 0) && MsgAt(s, u, 0) == m;
  }

  /** After the reclaim the holder is, or gets, mid-event with the key set while the copy waits. */
  lemma OvertakingStarts(maxDelivery: int, s: State, v: Worker, i: nat, w: Worker, m: nat, e: EventId) returns (t: State)
    requires Sound(s) && Open(s, e) && !Settled(s, e) && OnlyOwed(s, m, e) && Enabled(s, Reclaim(w, m))
    requires Slot(s, v, i) && MsgAt(s, v, i) == m && (e in s.keys || !Begun(s, v, m, e))
    requires !(w in s.workers && InQueue(s.workers[w], m)) && v != w
    ensures var s1 := Apply(maxDelivery, s, Reclaim(w, m));
            Path(maxDelivery, s1, t, e) && Overtaking(t, v, w, m, e) && SameBut(s1, t, v)
  {
    var s1 := Apply(maxDelivery, s, Reclaim(w, m));
    TwoCopiesAfterReclaim(maxDelivery, s, v, w, m, e);
    if e !in s.keys {
      HolderClear(maxDelivery, s, v, i, w, m, e);
      t := HolderBegins(maxDelivery, s1, v, i, w, m, e);
    } else {
      HolderHasBegun(s, v, i, m, e);
      t := s1;
      NoPath(maxDelivery, s1, e);
    }
  }

  ghost predicate BothDone(s: State, t: State, v: Worker, w: Worker) {
    && t.stream == s.stream && v !in t.workers && (w in t.workers ==> t.workers[w].queue == [])
    && forall x :: x != v && x != w && x in t.workers ==> x in s.workers && t.workers[x] == s.workers[x]
  }

  lemma OvertakingLoses(maxDelivery: int, s: State, v: Worker, w: Worker, m: nat, e: EventId) returns (t: State)
    requires Overtaking(s, v, w, m, e)
    ensures Path(maxDelivery, s, t, e) && Lost(t, e) && BothDone(s, t, v, w)
  {
    var s' := WaitingCopyIsDropped(maxDelivery, s, v, w, m, e);
    t := OwnerGivesUp(maxDelivery, s', v, e);
    PathOn(maxDelivery, s, s', t, e);
  }

  /** The workers other than these two are as they were, and hold nothing of the event. */
  lemma NobodyElse(s: State, t: State, v: Worker, i: nat, w: Worker, m: nat, x: Worker, e: EventId)
    requires Sound(s) && Open(s, e) && OnlyOwed(s, m, e)
    requires Slot(s, v, i) && MsgAt(s, v, i) == m
    requires BothDone(s, t, v, w)
    ensures !Mid(t, x, e)
  {
    LastOwed(s, m, e);
    if x != v && x != w && x in t.workers && |t.workers[x].queue| > 0 {
      assert Slot(s, x, 0) && MsgAt(s, x, 0) == t.workers[x].queue[0].msg;
      assert !Has(s, MsgAt(s, x, 0), e);
    }
  }

  /** The reclaimed copy is thrown away and the holder gives up. */
  lemma ContendedRun(maxDelivery: int, s: State, v: Worker, i: nat, w: Worker, m: nat, e: EventId) returns (t: State)
    requires Sound(s) && Open(s, e) && !Settled(s, e) && OnlyOwed(s, m, e) && Enabled(s, Reclaim(w, m))
    requires Slot(s, v, i) && MsgAt(s, v, i) == m && (e in s.keys || !Begun(s, v, m, e))
    requires !(w in s.workers && InQueue(s.workers[w], m)) && v != w
    ensures var s1 := Apply(maxDelivery, s, Reclaim(w, m));
            Path(maxDelivery, s1, t, e) && Lost(t, e) && BothDone(s1, t, v, w)
  {
    var s1 := Apply(maxDelivery, s, Reclaim(w, m));
    var s2 := OvertakingStarts(maxDelivery, s, v, i, w, m, e);
    t := OvertakingLoses(maxDelivery, s2, v, w, m, e);
    PathOn(maxDelivery, s1, s2, t, e);
  }

  /** A contended last message, reclaimed by another worker, can be lost for good: nobody is left with it. */
  lemma ContendedIsLosable(maxDelivery: int, s: State, v: Worker, i: nat, w: Worker, m: nat, e: EventId) returns (t: State)
    requires Sound(s) && Open(s, e) && !Settled(s, e) && OnlyOwed(s, m, e) && Enabled(s, Reclaim(w, m))
    requires Slot(s, v, i) && MsgAt(s, v, i) == m && (e in s.keys || !Begun(s, v, m, e))
    requires !(w in s.workers && InQueue(s.workers[w], m))
    ensures Path(maxDelivery, Apply(maxDelivery, s, Reclaim(w, m)), t, e) && Lost(t, e)
    ensures forall x :: !Mid(t, x, e)
  {
    assert InQueue(s.workers[v], m);
    t := ContendedRun(maxDelivery, s, v, i, w, m, e);
    forall x ensures !Mid(t, x, e) {
      NobodyElse(s, t, v, i, w, m, x, e);
    }
  }

  lemma PathLoses(maxDelivery: int, s: State, t: State, e: EventId)
    requires Path(maxDelivery, s, t, e) && Lost(t, e)
    ensures Losable(maxDelivery, s, e)
  {
    var steps :| Run(maxDelivery, s, steps) && HazardFree(maxDelivery, s, steps, e) && After(maxDelivery, s, steps) == t;
    assert Loses(maxDelivery, s, steps, e);
  }

  /**
   The exact condition for reclaims.  After a safe run, another worker's reclaim of
   the event's last owed message makes the event losable, without any further
   hazard, if and only if a live batch carries the message and its worker has not
   begun with it or the key is set.
   */
  lemma ReclaimIsFatalIffContended(maxDelivery: int, s: State, w: Worker, m: nat, e: EventId)
    requires ReachedSafely(maxDelivery, s, e) && !Settled(s, e) && OnlyOwed(s, m, e)
    requires Enabled(s, Reclaim(w, m)) && !(w in s.workers && InQueue(s.workers[w], m))
    ensures Losable(maxDelivery, Apply(maxDelivery, s, Reclaim(w, m)), e) <==> Contended(s, m, e)
  {
    SafelyReached(maxDelivery, s, e);
    if Contended(s, m, e) {
      var v :| v in s.workers && InQueue(s.workers[v], m) && (e in s.keys || !Begun(s, v, m, e));
      var i :| 0 <= i < |s.workers[v].queue| && s.workers[v].queue[i].msg == m;
      assert Slot(s, v, i) && MsgAt(s, v, i) == m;
      var t := ContendedIsLosable(maxDelivery, s, v, i, w, m, e);
      PathLoses(maxDelivery, Apply(maxDelivery, s, Reclaim(w, m)), t, e);
    } else {
      OpenIsSafe(s, e);
      UncontendedIsNotFought(s, m, e);
      HarmlessReclaim(maxDelivery, s, w, m, e);
    }
  }

  /**
   However many messages of the event are owed: a reclaim of one that its worker has
   begun, the key being unset, costs nothing.
   */
  lemma ReclaimOfBegunIsHarmless(maxDelivery: int, s: State, v: Worker, w: Worker, m: nat, e: EventId)
    requires ReachedSafely(maxDelivery, s, e) && !Settled(s, e) && Begun(s, v, m, e) && e !in s.keys
    requires Enabled(s, Reclaim(w, m))
    ensures !Losable(maxDelivery, Apply(maxDelivery, s, Reclaim(w, m)), e)
  {
    SafelyReached(maxDelivery, s, e);
    assert Slot(s, v, 0) && MsgAt(s, v, 0) == m && Has(s, m, e);
    assert forall x, i :: Fresh(s, x, i) ==> MsgAt(s, x, i) != m;
    OpenIsSafe(s, e);
    HarmlessReclaim(maxDelivery, s, w, m, e);
  }

  /**
   So ruling out reclaims between reservation and settlement is not enough, whatever
   the delivery limit: a message reclaimed while nobody is mid-event on it, but one
   worker still has it waiting, can be lost.
   */
  lemma EarlyReclaimLoses(maxDelivery: int, e: EventId) returns (s: State)
    ensures ReachedSafely(maxDelivery, s, e) && Enabled(s, Reclaim("B", 0)) && forall v :: !Mid(s, v, e)
    ensures Losable(maxDelivery, Apply(maxDelivery, s, Reclaim("B", 0)), e)
  {
    s := OneMessage(e, 1, {}, map["A" := Local([FIRST], Idle, {}, [])]);
    FetchReached(maxDelivery, e);
    assert s.workers["A"].queue[0].msg == 0 && InQueue(s.workers["A"], 0);
    ReclaimIsFatalIffContended(maxDelivery, s, "B", 0, e);
  }
}
