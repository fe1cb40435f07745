/** Acceptance into the append-only log. */
module UpdateLog {
  import opened Prelude
  import opened Types
  import opened UpdateRecord
  import opened CapabilityTree
  import opened Tables
  import opened Control

  datatype AcceptOutcome =
    | AcceptInserted | AcceptAlreadyPresent | AcceptIdentifierConflict
    | AcceptCounterExhausted | AcceptLimitExceeded | AcceptDenied

  /** A record that arrived with the authority presented for it. */
  datatype AcceptRequest = AcceptRequest(capability: CapabilityId, authenticator: Authenticator, record: seq<byte>)

  /** The row stored under an update identifier. */
  function RowWithId(log: seq<LogRow>, id: UpdateId): (r: Option<LogRow>)
    ensures r.Some? ==> r.value in log && r.value.updateId == id
    ensures r.None? ==> forall i :: 0 <= i < |log| ==> log[i].updateId != id
  {
    if log == [] then None
    else if log[|log| - 1].updateId == id then Some(log[|log| - 1])
    else RowWithId(log[..|log| - 1], id)
  }

  function NextSequence(d: Document): nat {
    match d.nextSequence case None => 1 case Some(n) => n
  }

  ghost function AcceptDecision(s: Scheme, db: Db, u: ImmutableUpdate, a: AcceptRequest): AcceptOutcome {
    if AccessTo(s, db, u.documentId, a.capability, a.authenticator, Update) != Authorized then AcceptDenied
    else
      var d := db.documents[u.documentId];
      match RowWithId(d.log, u.updateId)
      case Some(row) => if row.record == a.record then AcceptAlreadyPresent else AcceptIdentifierConflict
      case None =>
        if NextSequence(d) >= U64_MAX then AcceptCounterExhausted
        else if |d.peers + PeersOf(u.ranges)| > MAX_LORO_PEERS then AcceptLimitExceeded
        else AcceptInserted
  }

  function AcceptCommit(d: Document, u: ImmutableUpdate, record: seq<byte>): Document {
    d.(log := d.log + [LogRow(u.updateId, NextSequence(d), record)],
       nextSequence := Some(NextSequence(d) + 1),
       rangeIndex := d.rangeIndex[u.updateId := u.ranges],
       peers := d.peers + PeersOf(u.ranges))
  }

  /** The daemon decodes before it accepts, so a record that does not decode changes nothing. */
  ghost function AfterAccept(s: Scheme, db: Db, a: AcceptRequest): Db {
    match DecodeUpdateRecord(a.record)
    case Failure(_) => db
    case Success(u) =>
      if AcceptDecision(s, db, u, a) != AcceptInserted then db
      else WithDocument(db, u.documentId, AcceptCommit(db.documents[u.documentId], u, a.record))
  }

  lemma AcceptFacts(s: Scheme, db: Db, u: ImmutableUpdate, a: AcceptRequest)
    requires Inv(db) && AcceptDecision(s, db, u, a) == AcceptInserted
    ensures u.documentId in db.documents
    ensures
      var d := db.documents[u.documentId];
      && !d.retired
      && (forall i :: 0 <= i < |d.log| ==> d.log[i].updateId != u.updateId)
      && NextSequence(d) == |d.log| + 1 < U64_MAX
      && |d.peers + PeersOf(u.ranges)| <= MAX_LORO_PEERS
  {
    hide ValidTree, ValidCreation, GoodReceipt, DocumentBytes, Sum, PeersOf, LogPeers, RowRanges, GoodRow;
  }

  lemma AppendKeepsIndex(log: seq<LogRow>, index: map<UpdateId, seq<LoroRange>>, row: LogRow)
    requires ExactIndex(log, index)
    requires forall i :: 0 <= i < |log| ==> log[i].updateId != row.updateId
    ensures ExactIndex(log + [row], index[row.updateId := RowRanges(row)])
  {
    hide RowRanges;
    var after := log + [row];
    var ids := set i | 0 <= i < |log| :: log[i].updateId;
    var idsAfter := set i | 0 <= i < |after| :: after[i].updateId;
    assert after[|log|] == row;
    forall x | x in idsAfter ensures x in ids + {row.updateId} {
      var i :| 0 <= i < |after| && after[i].updateId == x;
      if i < |log| { assert log[i] == after[i]; }
    }
    forall x | x in ids ensures x in idsAfter {
      var i :| 0 <= i < |log| && log[i].updateId == x;
      assert after[i].updateId == x;
    }
    assert idsAfter == ids + {row.updateId};
  }

  lemma AppendKeepsLog(d: Document, u: ImmutableUpdate, record: seq<byte>)
    requires ValidLog(u.documentId, d) && DecodeUpdateRecord(record) == Success(u)
    requires forall i :: 0 <= i < |d.log| ==> d.log[i].updateId != u.updateId
    requires NextSequence(d) == |d.log| + 1 < U64_MAX && |d.peers + PeersOf(u.ranges)| <= MAX_LORO_PEERS
    ensures ValidLog(u.documentId, AcceptCommit(d, u, record))
  {
    hide PeersOf, DecodeUpdateRecord, ExactIndex;
    var row := LogRow(u.updateId, NextSequence(d), record);
    var e := AcceptCommit(d, u, record);
    assert RowRanges(row) == u.ranges;
    AppendKeepsIndex(d.log, d.rangeIndex, row);
    assert e.log[..|e.log| - 1] == d.log;
    forall i | 0 <= i < |e.log| ensures GoodRow(u.documentId, e.log[i]) && e.log[i].sequence == i + 1 {
      if i < |d.log| { assert GoodRow(u.documentId, d.log[i]); }
    }
  }

  lemma AcceptKeepsInv(s: Scheme, db: Db, a: AcceptRequest)
    requires Inv(db)
    ensures Inv(AfterAccept(s, db, a))
  {
    hide ValidTree, ValidCreation, GoodReceipt, DocumentBytes, Sum, PeersOf, ValidLog, DecodeUpdateRecord, AcceptDecision;
    match DecodeUpdateRecord(a.record) {
      case Failure(_) =>
      case Success(u) =>
        if AcceptDecision(s, db, u, a) == AcceptInserted {
          AcceptFacts(s, db, u, a);
          var d := db.documents[u.documentId];
          AppendKeepsLog(d, u, a.record);
          ReplaceKeepsInv(db, u.documentId, AcceptCommit(d, u, a.record));
        }
    }
  }

  // ---- The incremental peer count --------------------------------------------

  lemma PeersOfPrefix(ranges: seq<LoroRange>, i: nat)
    requires i < |ranges|
    ensures PeersOf(ranges[..i + 1]) == PeersOf(ranges[..i]) + {ranges[i].peer}
    ensures PeersOf(ranges[..i + 1]) <= PeersOf(ranges)
  {
    assert ranges[..i + 1] == ranges[..i] + [ranges[i]];
  }

  /** Insert-or-ignore with a running count rejects exactly when the union would exceed the limit. */
  method InsertLoroPeers(peers: set<u64>, ranges: seq<LoroRange>) returns (ok: bool, union: set<u64>)
    ensures ok <==> |peers + PeersOf(ranges)| <= MAX_LORO_PEERS
    ensures ok ==> union == peers + PeersOf(ranges)
  {
    union := peers;
    var count := |peers|;
    if count > MAX_LORO_PEERS {
      SubsetCard(peers, peers + PeersOf(ranges));
      return false, union;
    }
    assert PeersOf(ranges[..0]) == {};
    hide PeersOf;
    for i := 0 to |ranges|
      invariant union == peers + PeersOf(ranges[..i])
      invariant count == |union| <= MAX_LORO_PEERS
    {
      PeersOfPrefix(ranges, i);
      var inserted := if ranges[i].peer in union then 0 else 1;
      assert union + {ranges[i].peer} == peers + PeersOf(ranges[..i + 1]);
      if inserted == 0 { assert union + {ranges[i].peer} == union; }
      union := union + {ranges[i].peer};
      count := count + inserted;
      if count > MAX_LORO_PEERS {
        SubsetCard(union, peers + PeersOf(ranges));
        return false, union;
      }
    }
    assert ranges[..|ranges|] == ranges;
    return true, union;
  }
}
