/**
 Concurrent address upserts whose read of the current version may be stale by
 the time they write.  The filtered unique index (one current row per address)
 is the only thing between them.
 */
module AddressRaces {
  import opened Prelude
  import opened Schema
  import opened AddressHistory

  /** An open transaction: what it wants to write and the version it saw as current. */
  datatype Txn = Txn(uid: string, clientId: nat, fields: AddressFields, seen: Option<nat>, readAt: Time)

  datatype State = State(rows: seq<AddressRow>, txns: map<string, Txn>, now: Time)

  datatype Step =
    | Tick(to: Time)
    | Read(worker: string, uid: string, clientId: nat, fields: AddressFields)
    | Finish(worker: string, changedAt: Time)
    | Abandon(worker: string)

  /** `ux_address_uid_current`. */
  ghost predicate UniqueCurrent(rows: seq<AddressRow>) {
    forall i, j :: 0 <= i < j < |rows| && rows[i].isCurrent && rows[j].isCurrent ==> rows[i].uid != rows[j].uid
  }

  predicate SawVersion(rows: seq<AddressRow>, t: Txn) {
    t.seen.Some? && t.seen.value < |rows|
  }

  predicate Writes(rows: seq<AddressRow>, t: Txn) {
    !SawVersion(rows, t) || rows[t.seen.value].fields != t.fields
  }

  /** The table the transaction asks for: the version it saw closed, a new one opened. */
  function Written(rows: seq<AddressRow>, t: Txn, changedAt: Time): seq<AddressRow> {
    (if SawVersion(rows, t) then rows[t.seen.value := Closed(rows[t.seen.value], changedAt)] else rows)
    + [Opened(t.uid, t.clientId, t.fields, changedAt)]
  }

  ghost predicate TxnInv(s: State, t: Txn) {
    && t.readAt <= s.now
    && (t.seen.Some? ==>
         && t.seen.value < |s.rows|
         && s.rows[t.seen.value].uid == t.uid
         && s.rows[t.seen.value].validFrom <= t.readAt)
  }

  ghost predicate Enabled(s: State, step: Step) {
    match step
    case Tick(to) => s.now <= to
    case Read(worker, _, _, _) => worker !in s.txns
    case Finish(worker, changedAt) =>
      worker in s.txns && s.txns[worker].readAt <= changedAt <= s.now
    case Abandon(worker) => worker in s.txns
  }

  /** The write is kept if the index accepts it, and undone as a whole if not. */
  ghost function Apply(s: State, step: Step): State
    requires Enabled(s, step)
  {
    match step
    case Tick(to) => s.(now := to)
    case Read(worker, uid, clientId, fields) =>
      s.(txns := s.txns[worker := Txn(uid, clientId, fields, FindCurrent(s.rows, uid), s.now)])
    case Finish(worker, changedAt) =>
      var t := s.txns[worker];
      var rows := if Writes(s.rows, t) && UniqueCurrent(Written(s.rows, t, changedAt))
                  then Written(s.rows, t, changedAt) else s.rows;
      State(rows, s.txns - {worker}, s.now)
    case Abandon(worker) => s.(txns := s.txns - {worker})
  }

  // ---- the version chain ----

  ghost predicate Consecutive(rows: seq<AddressRow>, i: nat, j: nat)
    requires i < |rows| && j < |rows|
  {
    && i < j && rows[i].uid == rows[j].uid
    && forall k :: i < k < j ==> rows[k].uid != rows[i].uid
  }

  ghost predicate Newest(rows: seq<AddressRow>, i: nat)
    requires i < |rows|
  {
    forall k :: i < k < |rows| ==> rows[k].uid != rows[i].uid
  }

  /** Each version ends where the next begins and differs from it; only the newest is open. */
  ghost predicate Chain(rows: seq<AddressRow>) {
    && (forall i, j :: 0 <= i < |rows| && 0 <= j < |rows| && Consecutive(rows, i, j) ==>
          rows[i].validTo == Some(rows[j].validFrom) && rows[i].fields != rows[j].fields && !rows[i].isCurrent)
    && (forall i :: 0 <= i < |rows| && Newest(rows, i) ==> rows[i].isCurrent && rows[i].validTo.None?)
  }

  ghost predicate Inv(s: State) {
    && TableInv(s.rows, s.now)
    && Chain(s.rows)
    && forall w :: w in s.txns ==> TxnInv(s, s.txns[w])
  }

  lemma NewestExists(rows: seq<AddressRow>, i: nat) returns (n: nat)
    requires i < |rows|
    ensures i <= n < |rows| && rows[n].uid == rows[i].uid && Newest(rows, n)
    decreases |rows| - i
  {
    n := i;
    if !Newest(rows, i) {
      var k :| i < k < |rows| && rows[k].uid == rows[i].uid;
      n := NewestExists(rows, k);
    }
  }

  /** The index rejects exactly the writers whose snapshot is no longer the current version. */
  lemma IndexRejectsStaleWriters(s: State, worker: string, changedAt: Time)
    requires Inv(s) && worker in s.txns && s.txns[worker].readAt <= changedAt <= s.now
    ensures UniqueCurrent(Written(s.rows, s.txns[worker], changedAt))
            <==> FindCurrent(s.rows, s.txns[worker].uid) == s.txns[worker].seen
  {
    var t := s.txns[worker];
    var rows' := Written(s.rows, t, changedAt);
    var c := FindCurrent(s.rows, t.uid);
    if c == t.seen {
      assert UniqueCurrent(rows');
    } else if t.seen.Some? {
      var n := NewestExists(s.rows, t.seen.value);
      FoundCurrent(s.rows, s.now, t.uid, n);
      assert rows'[n].isCurrent && rows'[|rows'| - 1].isCurrent && rows'[n].uid == rows'[|rows'| - 1].uid;
    } else {
      assert rows'[c.value].isCurrent && rows'[|rows'| - 1].isCurrent;
    }
  }

  /** A writer that saw the current version closes exactly the newest version, if there is one. */
  lemma SeenIsNewest(s: State, t: Txn, k: nat)
    requires TableInv(s.rows, s.now) && Chain(s.rows) && FindCurrent(s.rows, t.uid) == t.seen
    requires k < |s.rows| && s.rows[k].uid == t.uid && Newest(s.rows, k)
    ensures t.seen == Some(k)
  {
    FoundCurrent(s.rows, s.now, t.uid, k);
  }

  lemma WrittenAlike(rows: seq<AddressRow>, t: Txn, changedAt: Time)
    ensures |Written(rows, t, changedAt)| == |rows| + 1
    ensures forall k :: 0 <= k < |rows| ==> Written(rows, t, changedAt)[k].uid == rows[k].uid && Written(rows, t, changedAt)[k].fields == rows[k].fields
  {
  }

  /** The version closed by a write ends where the new one begins, and differs from it. */
  lemma WriteLinksNew(s: State, t: Txn, changedAt: Time, i: nat)
    requires TableInv(s.rows, s.now) && Chain(s.rows)
    requires Writes(s.rows, t) && FindCurrent(s.rows, t.uid) == t.seen
    requires i < |s.rows| && Consecutive(Written(s.rows, t, changedAt), i, |s.rows|)
    ensures var rows' := Written(s.rows, t, changedAt);
            rows'[i].validTo == Some(rows'[|s.rows|].validFrom) && rows'[i].fields != rows'[|s.rows|].fields && !rows'[i].isCurrent
  {
    WrittenAlike(s.rows, t, changedAt);
    assert Newest(s.rows, i);
    SeenIsNewest(s, t, i);
  }

  /** Older links are as they were. */
  lemma WriteLeavesLinks(s: State, t: Txn, changedAt: Time, i: nat, j: nat)
    requires TableInv(s.rows, s.now) && Chain(s.rows)
    requires FindCurrent(s.rows, t.uid) == t.seen
    requires j < |s.rows| && i < |s.rows| && Consecutive(Written(s.rows, t, changedAt), i, j)
    ensures var rows' := Written(s.rows, t, changedAt);
            rows'[i].validTo == Some(rows'[j].validFrom) && rows'[i].fields != rows'[j].fields && !rows'[i].isCurrent
  {
    WrittenAlike(s.rows, t, changedAt);
    assert Consecutive(s.rows, i, j);
    assert t.seen != Some(i);
  }

  lemma WriteLinksVersions(s: State, t: Txn, changedAt: Time, i: nat, j: nat)
    requires TableInv(s.rows, s.now) && Chain(s.rows)
    requires Writes(s.rows, t) && FindCurrent(s.rows, t.uid) == t.seen
    requires var rows' := Written(s.rows, t, changedAt); i < |rows'| && j < |rows'| && Consecutive(rows', i, j)
    ensures var rows' := Written(s.rows, t, changedAt);
            rows'[i].validTo == Some(rows'[j].validFrom) && rows'[i].fields != rows'[j].fields && !rows'[i].isCurrent
  {
    if j == |s.rows| {
      WriteLinksNew(s, t, changedAt, i);
    } else {
      WriteLeavesLinks(s, t, changedAt, i, j);
    }
  }

  lemma WriteOpensNewest(s: State, t: Txn, changedAt: Time, i: nat)
    requires TableInv(s.rows, s.now) && Chain(s.rows)
    requires FindCurrent(s.rows, t.uid) == t.seen
    requires var rows' := Written(s.rows, t, changedAt); i < |rows'| && Newest(rows', i)
    ensures var rows' := Written(s.rows, t, changedAt); rows'[i].isCurrent && rows'[i].validTo.None?
  {
    var rows, rows' := s.rows, Written(s.rows, t, changedAt);
    assert forall k :: 0 <= k < |rows| ==> rows'[k].uid == rows[k].uid;
    if i < |rows| {
      assert rows'[|rows|].uid != rows'[i].uid;
      assert Newest(rows, i);
    }
  }

  lemma WriteKeepsChain(s: State, t: Txn, changedAt: Time)
    requires TableInv(s.rows, s.now) && Chain(s.rows)
    requires Writes(s.rows, t) && FindCurrent(s.rows, t.uid) == t.seen
    ensures Chain(Written(s.rows, t, changedAt))
  {
    var rows' := Written(s.rows, t, changedAt);
    forall i, j | 0 <= i < |rows'| && 0 <= j < |rows'| && Consecutive(rows', i, j)
      ensures rows'[i].validTo == Some(rows'[j].validFrom) && rows'[i].fields != rows'[j].fields && !rows'[i].isCurrent
    {
      WriteLinksVersions(s, t, changedAt, i, j);
    }
    forall i | 0 <= i < |rows'| && Newest(rows', i)
      ensures rows'[i].isCurrent && rows'[i].validTo.None?
    {
      WriteOpensNewest(s, t, changedAt, i);
    }
  }

  lemma WriteKeepsTable(s: State, t: Txn, changedAt: Time)
    requires TableInv(s.rows, s.now) && TxnInv(s, t) && t.readAt <= changedAt <= s.now
    requires UniqueCurrent(Written(s.rows, t, changedAt))
    ensures TableInv(Written(s.rows, t, changedAt), s.now)
  {
  }

  /** What an open transaction saw stays true of the table another one wrote. */
  lemma WriteKeepsTxn(s: State, s': State, t: Txn, changedAt: Time, other: Txn)
    requires TxnInv(s, other) && s'.now == s.now && s'.rows == Written(s.rows, t, changedAt)
    ensures TxnInv(s', other)
  {
    assert forall k :: 0 <= k < |s.rows| ==> s'.rows[k].uid == s.rows[k].uid && s'.rows[k].validFrom == s.rows[k].validFrom;
  }

  lemma FinishKeepsInv(s: State, step: Step)
    requires Inv(s) && Enabled(s, step) && step.Finish? && Writes(s.rows, s.txns[step.worker])
    requires UniqueCurrent(Written(s.rows, s.txns[step.worker], step.changedAt))
    ensures Inv(Apply(s, step))
  {
    var t, s' := s.txns[step.worker], Apply(s, step);
    IndexRejectsStaleWriters(s, step.worker, step.changedAt);
    WriteKeepsTable(s, t, step.changedAt);
    WriteKeepsChain(s, t, step.changedAt);
    forall w | w in s'.txns ensures TxnInv(s', s'.txns[w]) {
      WriteKeepsTxn(s, s', t, step.changedAt, s.txns[w]);
    }
  }

  /**
   A transaction can finish at any time since its read.  If the version it saw is
   still the current one and reads otherwise, that version ends and one with the
   new fields begins at that time; in every other case the table stays as it is.
   Its worker is then free, and all other transactions remain open.
   */
  lemma FinishOutcome(s: State, worker: string, changedAt: Time)
    requires Inv(s) && worker in s.txns && s.txns[worker].readAt <= changedAt <= s.now
    ensures Enabled(s, Finish(worker, changedAt))
    ensures var t, s' := s.txns[worker], Apply(s, Finish(worker, changedAt));
            && s'.txns == s.txns - {worker} && s'.now == s.now
            && if FindCurrent(s.rows, t.uid) == t.seen && (t.seen.Some? ==> s.rows[t.seen.value].fields != t.fields)
               then && |s'.rows| == |s.rows| + 1
                    && s'.rows[|s.rows|] == AddressRow(t.uid, t.clientId, t.fields, changedAt, None, true)
                    && forall i: nat :: i < |s.rows| ==>
                         s'.rows[i] == if t.seen == Some(i) then s.rows[i].(validTo := Some(changedAt), isCurrent := false) else s.rows[i]
               else s'.rows == s.rows
  {
    IndexRejectsStaleWriters(s, worker, changedAt);
  }

  lemma StepKeepsInv(s: State, step: Step)
    requires Inv(s) && Enabled(s, step)
    ensures Inv(Apply(s, step))
  {
    if step.Finish? && Writes(s.rows, s.txns[step.worker]) && UniqueCurrent(Written(s.rows, s.txns[step.worker], step.changedAt)) {
      FinishKeepsInv(s, step);
    } else {
      assert Apply(s, step).rows == s.rows;
    }
  }

  /** A transaction nobody comes between is the upsert. */
  lemma AloneIsUpsert(s: State, worker: string, uid: string, clientId: nat, fields: AddressFields)
    requires Inv(s) && worker !in s.txns
    ensures var read, finish := Read(worker, uid, clientId, fields), Finish(worker, s.now);
            && Enabled(s, read) && Enabled(Apply(s, read), finish)
            && Apply(Apply(s, read), finish) == s.(rows := UpsertVersion(s.rows, uid, clientId, fields, s.now))
  {
    var reading := Apply(s, Read(worker, uid, clientId, fields));
    StepKeepsInv(s, Read(worker, uid, clientId, fields));
    IndexRejectsStaleWriters(reading, worker, s.now);
    assert reading.txns - {worker} == s.txns;
  }

  ghost predicate Run(s: State, steps: seq<Step>)
    decreases |steps|
  {
    steps == [] || (Enabled(s, steps[0]) && Run(Apply(s, steps[0]), steps[1..]))
  }

  ghost function After(s: State, steps: seq<Step>): State
    requires Run(s, steps)
    decreases |steps|
  {
    if steps == [] then s else After(Apply(s, steps[0]), steps[1..])
  }

  /** Whatever the interleaving of reads, writes and rollbacks, the committed versions form one chain per address. */
  lemma {:induction false} ChainSurvivesStaleReads(s: State, steps: seq<Step>)
    requires Inv(s) && Run(s, steps)
    ensures Inv(After(s, steps))
    decreases |steps|
  {
    if steps != [] {
      StepKeepsInv(s, steps[0]);
      ChainSurvivesStaleReads(Apply(s, steps[0]), steps[1..]);
    }
  }

  /** In particular every address that has a version has exactly one current version, its newest. */
  lemma OneCurrentVersion(steps: seq<Step>, i: nat) returns (n: nat)
    requires Run(State([], map[], 0.0), steps)
    requires i < |After(State([], map[], 0.0), steps).rows|
    ensures var rows := After(State([], map[], 0.0), steps).rows;
            && n < |rows| && rows[n].uid == rows[i].uid && rows[n].isCurrent && Newest(rows, n)
            && forall k :: 0 <= k < |rows| && rows[k].uid == rows[i].uid && rows[k].isCurrent ==> k == n
  {
    ChainSurvivesStaleReads(State([], map[], 0.0), steps);
    n := NewestExists(After(State([], map[], 0.0), steps).rows, i);
  }
}
