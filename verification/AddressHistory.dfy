/**
 The address version table (a type 2 slowly changing dimension) and the plain
 log of upserts it must agree with.
 */
module AddressHistory {
  import opened Prelude
  import opened Schema

  // ---- the table ----

  /** `get_current_version`: the row of `uid` flagged current, searched from position `from`. */
  function FindCurrentFrom(rows: seq<AddressRow>, uid: string, from: nat): (r: Option<nat>)
    requires from <= |rows|
    ensures r.Some? ==> from <= r.value < |rows| && rows[r.value].uid == uid && rows[r.value].isCurrent
    ensures r.None? ==> forall i :: from <= i < |rows| ==> !(rows[i].uid == uid && rows[i].isCurrent)
    decreases |rows| - from
  {
    if from == |rows| then None
    else if rows[from].uid == uid && rows[from].isCurrent then Some(from)
    else FindCurrentFrom(rows, uid, from + 1)
  }

  function FindCurrent(rows: seq<AddressRow>, uid: string): Option<nat> {
    FindCurrentFrom(rows, uid, 0)
  }

  function Opened(uid: string, clientId: nat, fields: AddressFields, at: Time): AddressRow {
    AddressRow(uid, clientId, fields, at, None, true)
  }

  function Closed(r: AddressRow, at: Time): AddressRow {
    r.(validTo := Some(at), isCurrent := false)
  }

  function UpsertVersion(rows: seq<AddressRow>, uid: string, clientId: nat, fields: AddressFields, now: Time): seq<AddressRow> {
    match FindCurrent(rows, uid)
    case None => rows + [Opened(uid, clientId, fields, now)]
    case Some(c) =>
      if rows[c].fields == fields then rows
      else rows[c := Closed(rows[c], now)] + [Opened(uid, clientId, fields, now)]
  }

  /** Half-open validity, with no end for the current version. */
  predicate Covers(r: AddressRow, t: Time) {
    r.validFrom <= t && (r.validTo.None? || t < r.validTo.value)
  }

  // ---- the log ----

  datatype Upsert = Upsert(uid: string, clientId: nat, fields: AddressFields, at: Time)

  ghost predicate Ordered(log: seq<Upsert>) {
    forall i, j :: 0 <= i < j < |log| ==> log[i].at <= log[j].at
  }

  function Replay(log: seq<Upsert>): seq<AddressRow> {
    if log == [] then []
    else
      var u := log[|log| - 1];
      UpsertVersion(Replay(log[..|log| - 1]), u.uid, u.clientId, u.fields, u.at)
  }

  /** The fields of the last upsert of `uid` at or before `t`. */
  function LastAt(log: seq<Upsert>, uid: string, t: Time): Option<AddressFields> {
    if log == [] then None
    else
      var u := log[|log| - 1];
      if u.uid == uid && u.at <= t then Some(u.fields) else LastAt(log[..|log| - 1], uid, t)
  }

  // ---- agreement ----

  /** At time `t` exactly one version of `uid` is valid and reads as the log does; before the first upsert, none. */
  ghost predicate Agrees(rows: seq<AddressRow>, log: seq<Upsert>, uid: string, t: Time) {
    match LastAt(log, uid, t)
    case None => forall i :: 0 <= i < |rows| && rows[i].uid == uid ==> !Covers(rows[i], t)
    case Some(fields) =>
      exists i :: 0 <= i < |rows| && rows[i].uid == uid && Covers(rows[i], t) && rows[i].fields == fields
               && forall j :: 0 <= j < |rows| && rows[j].uid == uid && Covers(rows[j], t) ==> j == i
  }

  /** What every table the repository writes satisfies, `latest` being no earlier than any write. */
  ghost predicate TableInv(rows: seq<AddressRow>, latest: Time) {
    && (forall i :: 0 <= i < |rows| ==>
         && rows[i].validFrom <= latest
         && (rows[i].isCurrent <==> rows[i].validTo.None?)
         && (rows[i].validTo.Some? ==> rows[i].validFrom <= rows[i].validTo.value <= latest))
    && (forall i, j :: 0 <= i < j < |rows| && rows[i].isCurrent && rows[j].isCurrent ==> rows[i].uid != rows[j].uid)
  }

  ghost predicate CurrentReadsLast(rows: seq<AddressRow>, log: seq<Upsert>, latest: Time) {
    forall uid :: match FindCurrent(rows, uid)
                  case None => (forall i :: 0 <= i < |rows| ==> rows[i].uid != uid) && LastAt(log, uid, latest).None?
                  case Some(c) => LastAt(log, uid, latest) == Some(rows[c].fields)
  }

  lemma UpsertKeepsTable(rows: seq<AddressRow>, uid: string, clientId: nat, fields: AddressFields, latest: Time, now: Time)
    requires TableInv(rows, latest) && latest <= now
    ensures TableInv(UpsertVersion(rows, uid, clientId, fields, now), now)
  {
  }

  /** The current version is the same for every other address, and the new one for this address. */
  lemma UpsertMovesCurrent(rows: seq<AddressRow>, uid: string, clientId: nat, fields: AddressFields, latest: Time, now: Time, other: string)
    requires TableInv(rows, latest) && latest <= now
    ensures var rows' := UpsertVersion(rows, uid, clientId, fields, now);
            if other == uid
            then FindCurrent(rows', uid).Some? && rows'[FindCurrent(rows', uid).value].fields == fields
            else FindCurrent(rows', other) == FindCurrent(rows, other)
                 && (FindCurrent(rows, other).Some? ==>
                     rows'[FindCurrent(rows, other).value] == rows[FindCurrent(rows, other).value])
  {
    UpsertKeepsTable(rows, uid, clientId, fields, latest, now);
    var rows' := UpsertVersion(rows, uid, clientId, fields, now);
    var c := FindCurrent(rows, uid);
    if other == uid {
      FoundCurrent(rows', now, uid, if c.Some? && rows[c.value].fields == fields then c.value else |rows'| - 1);
    } else {
      match FindCurrent(rows, other)
      case Some(o) => FoundCurrent(rows', now, other, o);
      case None => assert forall i :: 0 <= i < |rows'| ==> !(rows'[i].uid == other && rows'[i].isCurrent);
    }
  }

  lemma FoundCurrent(rows: seq<AddressRow>, now: Time, uid: string, c: nat)
    requires TableInv(rows, now) && c < |rows| && rows[c].uid == uid && rows[c].isCurrent
    ensures FindCurrent(rows, uid) == Some(c)
  {
    var r := FindCurrent(rows, uid);
    assert r.Some?;
  }

  /** Beyond the last write, asking later changes nothing. */
  lemma {:induction false} LastAtSettles(log: seq<Upsert>, uid: string, a: Time, b: Time)
    requires forall i :: 0 <= i < |log| ==> log[i].at <= a && log[i].at <= b
    ensures LastAt(log, uid, a) == LastAt(log, uid, b)
  {
    if log != [] { LastAtSettles(log[..|log| - 1], uid, a, b); }
  }

  lemma UpsertAgrees(rows: seq<AddressRow>, log: seq<Upsert>, u: Upsert, latest: Time, uid: string, t: Time)
    requires TableInv(rows, latest) && latest <= u.at
    requires CurrentReadsLast(rows, log, latest)
    requires Agrees(rows, log, uid, t)
    ensures Agrees(UpsertVersion(rows, u.uid, u.clientId, u.fields, u.at), log + [u], uid, t)
  {
    assert (log + [u])[..|log + [u]| - 1] == log;
    if u.uid == uid && u.at <= t {
      NewVersionAgrees(rows, log, u, latest, t);
    } else {
      OldVersionsAgree(rows, log, u, latest, uid, t);
    }
  }

  /** From the upsert on, its fields are what the table shows. */
  lemma NewVersionAgrees(rows: seq<AddressRow>, log: seq<Upsert>, u: Upsert, latest: Time, t: Time)
    requires TableInv(rows, latest) && latest <= u.at <= t
    ensures Agrees(UpsertVersion(rows, u.uid, u.clientId, u.fields, u.at), log + [u], u.uid, t)
  {
    var rows' := UpsertVersion(rows, u.uid, u.clientId, u.fields, u.at);
    assert LastAt(log + [u], u.uid, t) == Some(u.fields);
    UpsertMovesCurrent(rows, u.uid, u.clientId, u.fields, latest, u.at, u.uid);
    UpsertKeepsTable(rows, u.uid, u.clientId, u.fields, latest, u.at);
    var c := FindCurrent(rows', u.uid).value;
    assert Covers(rows'[c], t);
    forall j | 0 <= j < |rows'| && rows'[j].uid == u.uid && Covers(rows'[j], t)
      ensures j == c
    {
      assert rows'[j].isCurrent;
    }
  }

  /** Before the upsert, and for every other address, the table shows what it showed. */
  lemma OldVersionsAgree(rows: seq<AddressRow>, log: seq<Upsert>, u: Upsert, latest: Time, uid: string, t: Time)
    requires TableInv(rows, latest) && latest <= u.at
    requires u.uid != uid || t < u.at
    requires Agrees(rows, log, uid, t)
    ensures Agrees(UpsertVersion(rows, u.uid, u.clientId, u.fields, u.at), log + [u], uid, t)
  {
    var rows' := UpsertVersion(rows, u.uid, u.clientId, u.fields, u.at);
    assert (log + [u])[..|log + [u]| - 1] == log;
    assert LastAt(log + [u], uid, t) == LastAt(log, uid, t);
    assert forall j :: 0 <= j < |rows| && rows[j].uid == uid ==>
             (Covers(rows'[j], t) <==> Covers(rows[j], t)) && rows'[j].fields == rows[j].fields && rows'[j].uid == uid;
    assert forall j :: 0 <= j < |rows| ==> rows'[j].uid == rows[j].uid;
    assert forall j :: |rows| <= j < |rows'| && rows'[j].uid == uid ==> !Covers(rows'[j], t);
  }

  /** The whole refinement, for a table built by serial upserts. */
  ghost predicate Refines(rows: seq<AddressRow>, log: seq<Upsert>, latest: Time) {
    && TableInv(rows, latest)
    && CurrentReadsLast(rows, log, latest)
    && forall uid, t :: Agrees(rows, log, uid, t)
  }

  lemma UpsertRefines(rows: seq<AddressRow>, log: seq<Upsert>, u: Upsert, latest: Time)
    requires Refines(rows, log, latest) && latest <= u.at
    requires forall i :: 0 <= i < |log| ==> log[i].at <= latest
    ensures Refines(UpsertVersion(rows, u.uid, u.clientId, u.fields, u.at), log + [u], u.at)
  {
    var rows' := UpsertVersion(rows, u.uid, u.clientId, u.fields, u.at);
    UpsertKeepsTable(rows, u.uid, u.clientId, u.fields, latest, u.at);
    assert (log + [u])[..|log + [u]| - 1] == log;
    forall uid
      ensures match FindCurrent(rows', uid)
              case None => (forall i :: 0 <= i < |rows'| ==> rows'[i].uid != uid) && LastAt(log + [u], uid, u.at).None?
              case Some(c) => LastAt(log + [u], uid, u.at) == Some(rows'[c].fields)
    {
      UpsertMovesCurrent(rows, u.uid, u.clientId, u.fields, latest, u.at, uid);
      LastAtSettles(log, uid, latest, u.at);
    }
    forall uid, t ensures Agrees(rows', log + [u], uid, t) {
      UpsertAgrees(rows, log, u, latest, uid, t);
    }
  }

  /**
   The table refines the log: at every instant from an address's first upsert
   on, exactly one of its versions is valid, and it reads as the last upsert at
   or before that instant; equal timestamps and unchanged upserts included.
   */
  lemma {:induction false} VersionsRefineLog(log: seq<Upsert>, latest: Time)
    requires Ordered(log)
    requires forall i :: 0 <= i < |log| ==> log[i].at <= latest
    ensures Refines(Replay(log), log, latest)
  {
    if log == [] {
    } else {
      var u, before := log[|log| - 1], log[..|log| - 1];
      VersionsRefineLog(before, u.at);
      UpsertRefines(Replay(before), before, u, u.at);
      assert before + [u] == log;
      RefinesLater(Replay(log), log, u.at, latest);
    }
  }

  lemma RefinesLater(rows: seq<AddressRow>, log: seq<Upsert>, latest: Time, later: Time)
    requires Refines(rows, log, latest) && latest <= later
    requires forall i :: 0 <= i < |log| ==> log[i].at <= latest
    ensures Refines(rows, log, later)
  {
    forall uid {
      LastAtSettles(log, uid, latest, later);
    }
  }
}
