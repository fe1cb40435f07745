/** The version a complete replica reports, and the request that carries it. */
module Frontier {
  import opened Prelude
  import opened Types
  import opened Bytes
  import opened UpdateRecord
  import opened Pages
  import opened Frames
  import opened Tables
  import opened UpdateLog
  import opened Reads

  // ---- Per-peer maxima -----------------------------------------------------------

  predicate Sorted(v: seq<LoroOplogVersionEntry>) {
    forall i, j :: 0 <= i < j < |v| ==> v[i].peer < v[j].peer
  }

  function EntryPeers(v: seq<LoroOplogVersionEntry>): set<u64> {
    set e | e in v :: e.peer
  }

  /** The entries of a sorted list after one more range has been observed. */
  function Absorb(v: seq<LoroOplogVersionEntry>, r: LoroRange): (after: seq<LoroOplogVersionEntry>) {
    if v == [] || r.peer < v[0].peer then [VersionEntry(r.peer, r.end)] + v
    else if r.peer == v[0].peer then [VersionEntry(r.peer, if r.end > v[0].end then r.end else v[0].end)] + v[1..]
    else [v[0]] + Absorb(v[1..], r)
  }

  function AbsorbAll(v: seq<LoroOplogVersionEntry>, ranges: seq<LoroRange>): seq<LoroOplogVersionEntry> {
    if ranges == [] then v else Absorb(AbsorbAll(v, ranges[..|ranges| - 1]), ranges[|ranges| - 1])
  }

  /** The exact per-peer maximum of every range in the log. */
  function Maxima(log: seq<LogRow>): seq<LoroOplogVersionEntry> {
    if log == [] then [] else AbsorbAll(Maxima(log[..|log| - 1]), RowRanges(log[|log| - 1]))
  }

  /** The prefix a list of entries covers for a peer. */
  function EndIn(v: seq<LoroOplogVersionEntry>, peer: u64): nat {
    if v == [] then 0 else if v[0].peer == peer then v[0].end else EndIn(v[1..], peer)
  }

  lemma {:induction false} EndInIsCoveredEnd(version: LoroOplogVersion, peer: u64)
    ensures EndIn(version, peer) == CoveredEnd(version, peer)
  {
    if version != [] && version[0].peer != peer {
      EndInIsCoveredEnd(version[1..], peer);
    }
  }

  lemma {:induction false} EndInPositive(v: seq<LoroOplogVersionEntry>, peer: u64)
    ensures EndIn(v, peer) > 0 <==> peer in EntryPeers(v)
  {
    if v != [] {
      EndInPositive(v[1..], peer);
      assert v == [v[0]] + v[1..];
    }
  }

  lemma {:induction false} AbsorbSorted(v: seq<LoroOplogVersionEntry>, r: LoroRange)
    requires Sorted(v)
    ensures Sorted(Absorb(v, r))
    ensures EntryPeers(Absorb(v, r)) == EntryPeers(v) + {r.peer}
  {
    hide EntryPeers;
    if v == [] || r.peer < v[0].peer {
      PeersCons(VersionEntry(r.peer, r.end), v);
    } else {
      assert v == [v[0]] + v[1..];
      PeersCons(v[0], v[1..]);
      if r.peer > v[0].peer {
        AbsorbSorted(v[1..], r);
        var rest := Absorb(v[1..], r);
        PeersCons(v[0], rest);
        AbsorbAbove(v[1..], r, v[0].peer);
      } else {
        PeersCons(Absorb(v, r)[0], v[1..]);
      }
    }
  }

  lemma PeersCons(e: LoroOplogVersionEntry, v: seq<LoroOplogVersionEntry>)
    ensures EntryPeers([e] + v) == {e.peer} + EntryPeers(v)
  {
  }

  /** A range from above a peer leaves the list above it. */
  lemma {:induction false} AbsorbAbove(v: seq<LoroOplogVersionEntry>, r: LoroRange, floor: u64)
    requires r.peer > floor && forall i :: 0 <= i < |v| ==> v[i].peer > floor
    ensures forall i :: 0 <= i < |Absorb(v, r)| ==> Absorb(v, r)[i].peer > floor
  {
    if v != [] && r.peer > v[0].peer {
      AbsorbAbove(v[1..], r, floor);
    }
  }

  lemma {:induction false} AbsorbEnds(v: seq<LoroOplogVersionEntry>, r: LoroRange, peer: u64)
    requires Sorted(v)
    ensures EndIn(Absorb(v, r), peer)
         == if peer != r.peer then EndIn(v, peer) else if r.end > EndIn(v, peer) then r.end else EndIn(v, peer)
  {
    if v != [] && r.peer > v[0].peer {
      AbsorbEnds(v[1..], r, peer);
    } else if v != [] && r.peer < v[0].peer {
      EndInPositive(v, r.peer);
    }
  }

  lemma {:induction false} AbsorbAllSorted(v: seq<LoroOplogVersionEntry>, ranges: seq<LoroRange>)
    requires Sorted(v)
    ensures Sorted(AbsorbAll(v, ranges))
    ensures EntryPeers(AbsorbAll(v, ranges)) == EntryPeers(v) + PeersOf(ranges)
  {
    if ranges != [] {
      var front, last := ranges[..|ranges| - 1], ranges[|ranges| - 1];
      AbsorbAllSorted(v, front);
      AbsorbSorted(AbsorbAll(v, front), last);
      PeersOfPrefix(ranges, |ranges| - 1);
      assert ranges[..|ranges|] == ranges;
    }
  }

  lemma {:induction false} MaximaSorted(log: seq<LogRow>)
    ensures Sorted(Maxima(log)) && EntryPeers(Maxima(log)) == LogPeers(log)
  {
    if log != [] {
      MaximaSorted(log[..|log| - 1]);
      AbsorbAllSorted(Maxima(log[..|log| - 1]), RowRanges(log[|log| - 1]));
    }
  }

  lemma {:induction false} SortedCount(v: seq<LoroOplogVersionEntry>)
    requires Sorted(v)
    ensures |EntryPeers(v)| == |v|
  {
    if v != [] {
      SortedCount(v[1..]);
      assert v == [v[0]] + v[1..];
      assert v[0].peer !in EntryPeers(v[1..]);
      assert EntryPeers(v) == {v[0].peer} + EntryPeers(v[1..]);
    }
  }

  /** In every log that recovery accepts, the maxima form a representable version. */
  lemma MaximaRepresentable(id: DocumentId, d: Document)
    requires ValidLog(id, d)
    ensures ValidVersion(Maxima(d.log))
  {
    hide ExactIndex, GoodRow, DecodeUpdateRecord;
    MaximaSorted(d.log);
    SortedCount(Maxima(d.log));
  }

  // ---- Exactness -------------------------------------------------------------------

  /** The greatest end that a list of ranges records for a peer, on top of what is known. */
  function MaxEnd(known: nat, ranges: seq<LoroRange>, peer: u64): nat {
    if ranges == [] then known
    else
      var before := MaxEnd(known, ranges[..|ranges| - 1], peer);
      var last := ranges[|ranges| - 1];
      if last.peer == peer && last.end > before then last.end else before
  }

  /** The greatest end that a log records for a peer. */
  function LogEnd(log: seq<LogRow>, peer: u64): nat {
    if log == [] then 0 else MaxEnd(LogEnd(log[..|log| - 1], peer), RowRanges(log[|log| - 1]), peer)
  }

  lemma {:induction false} AbsorbAllEnds(v: seq<LoroOplogVersionEntry>, ranges: seq<LoroRange>, peer: u64)
    requires Sorted(v)
    ensures EndIn(AbsorbAll(v, ranges), peer) == MaxEnd(EndIn(v, peer), ranges, peer)
  {
    if ranges != [] {
      AbsorbAllEnds(v, ranges[..|ranges| - 1], peer);
      AbsorbAllSorted(v, ranges[..|ranges| - 1]);
      AbsorbEnds(AbsorbAll(v, ranges[..|ranges| - 1]), ranges[|ranges| - 1], peer);
    }
  }

  lemma {:induction false} MaximaExact(log: seq<LogRow>, peer: u64)
    ensures EndIn(Maxima(log), peer) == LogEnd(log, peer)
  {
    if log != [] {
      MaximaExact(log[..|log| - 1], peer);
      MaximaSorted(log[..|log| - 1]);
      AbsorbAllEnds(Maxima(log[..|log| - 1]), RowRanges(log[|log| - 1]), peer);
    }
  }

  lemma {:induction false} MaxEndBounds(known: nat, ranges: seq<LoroRange>, peer: u64)
    ensures known <= MaxEnd(known, ranges, peer)
    ensures forall r :: r in ranges && r.peer == peer ==> r.end <= MaxEnd(known, ranges, peer)
  {
    if ranges != [] {
      MaxEndBounds(known, ranges[..|ranges| - 1], peer);
      assert ranges == ranges[..|ranges| - 1] + [ranges[|ranges| - 1]];
    }
  }

  lemma {:induction false} LogEndBounds(log: seq<LogRow>, i: nat, r: LoroRange)
    requires i < |log| && r in RowRanges(log[i])
    ensures r.end <= LogEnd(log, r.peer)
  {
    var front := log[..|log| - 1];
    MaxEndBounds(LogEnd(front, r.peer), RowRanges(log[|log| - 1]), r.peer);
    if i < |log| - 1 { LogEndBounds(front, i, r); }
  }

  /** A replica that has everything is sent nothing. */
  lemma {:induction false} FrontierSelectsNothing(log: seq<LogRow>, version: LoroOplogVersion, n: nat)
    requires Decodable(log) && version == Maxima(log) && n <= |log|
    ensures Relevant(version, Metas(log)[..n]) == []
  {
    hide Selected, DecodeUpdateRecord;
    if n > 0 {
      FrontierSelectsNothing(log, version, n - 1);
      assert Metas(log)[..n][..n - 1] == Metas(log)[..n - 1];
      RowCovered(log, version, n - 1);
    }
  }

  lemma RowCovered(log: seq<LogRow>, version: LoroOplogVersion, i: nat)
    requires Decodable(log) && version == Maxima(log) && i < |log|
    ensures !Selected(version, Metas(log)[i].ranges)
  {
    hide DecodeUpdateRecord, Maxima;
    var ranges := Metas(log)[i].ranges;
    assert ranges == RowRanges(log[i]);
    forall r | r in ranges ensures r.end <= CoveredEnd(version, r.peer) {
      LogEndBounds(log, i, r);
      MaximaExact(log, r.peer);
      EndInIsCoveredEnd(version, r.peer);
    }
  }

  // ---- The backfill request -----------------------------------------------------------

  const VECTOR_BACKFILL_PAYLOAD_VERSION: u16 := 1

  datatype BackfillRequest = BackfillRequest(
    authority: seq<byte>, documentId: DocumentId, version: LoroOplogVersion, cursor: Option<seq<byte>>)

  function StartBytes(cursor: Option<seq<byte>>): (b: seq<byte>)
    requires |CursorBytes(cursor)| <= U16_MAX
    ensures |b| == 3 + |CursorBytes(cursor)|
  {
    [if cursor.Some? then 1 else 0] + (U16Bytes(|CursorBytes(cursor)|) + CursorBytes(cursor))
  }

  /** Any length is read back: the store, not the decoder, rejects a cursor it did not issue. */
  function TakeStart(b: seq<byte>): Parsed<Option<seq<byte>>> {
    var (mode, afterMode) :- Take(b, 1);
    var (length, afterLength) :- TakeU16(afterMode);
    if !(mode[0] == 0 && length == 0) && mode[0] != 1 then Bad(InvalidCursor)
    else
      var (cursor, rest) :- Take(afterLength, length);
      Parsed(if mode[0] == 1 then Some(cursor) else None, rest)
  }

  function TakeVersion(b: seq<byte>): Parsed<LoroOplogVersion> {
    var (length, afterLength) :- TakeU16(b);
    if length > OPLOG_VERSION_HEADER_LENGTH + MAX_LORO_PEERS * OPLOG_VERSION_ENTRY_LENGTH then Bad(InvalidLoroMetadata)
    else
      var (vector, rest) :- Take(afterLength, length);
      match DecodeVersion(vector)
      case None => Bad(InvalidLoroMetadata)
      case Some(version) => Parsed(version, rest)
  }

  lemma TakeStartFront(cursor: Option<seq<byte>>, rest: seq<byte>)
    requires |CursorBytes(cursor)| <= U16_MAX
    ensures TakeStart(StartBytes(cursor) + rest) == Parsed(cursor, rest)
  {
    var flag: seq<byte> := [if cursor.Some? then 1 else 0];
    var atLength := U16Bytes(|CursorBytes(cursor)|) + (CursorBytes(cursor) + rest);
    assert StartBytes(cursor) + rest == flag + atLength;
    TakeFront(flag, atLength);
    TakeU16Front(|CursorBytes(cursor)|, CursorBytes(cursor) + rest);
    TakeFront(CursorBytes(cursor), rest);
  }

  lemma TakeStartExact(b: seq<byte>)
    requires TakeStart(b).Parsed?
    ensures |CursorBytes(TakeStart(b).value)| <= U16_MAX && b == StartBytes(TakeStart(b).value) + TakeStart(b).rest
  {
    hide U16Bytes, TakeU16;
    TakeExact(b, 1);
    var afterMode := Take(b, 1).rest;
    TakeU16Exact(afterMode);
    var afterLength := TakeU16(afterMode).rest;
    var cursor := Take(afterLength, TakeU16(afterMode).value).value;
    TakeExact(afterLength, |cursor|);
    assert CursorBytes(TakeStart(b).value) == cursor;
    assert Take(b, 1).value == [if TakeStart(b).value.Some? then 1 else 0];
    assert b == StartBytes(TakeStart(b).value) + TakeStart(b).rest;
  }

  lemma TakeVersionFront(version: LoroOplogVersion, rest: seq<byte>)
    ensures TakeVersion(U16Bytes(|EncodeVersion(version)|) + (EncodeVersion(version) + rest)) == Parsed(version, rest)
  {
    hide EncodeVersion, DecodeVersion;
    var vector := EncodeVersion(version);
    VersionIsCanonical(version, vector);
    TakeU16Front(|vector|, vector + rest);
    TakeFront(vector, rest);
  }

  lemma TakeVersionExact(b: seq<byte>)
    requires TakeVersion(b).Parsed?
    ensures
      var vector := EncodeVersion(TakeVersion(b).value);
      |vector| <= U16_MAX && b == U16Bytes(|vector|) + (vector + TakeVersion(b).rest)
  {
    hide EncodeVersion, DecodeVersion;
    TakeU16Exact(b);
    var afterLength := TakeU16(b).rest;
    TakeExact(afterLength, TakeU16(b).value);
    VersionIsCanonical(TakeVersion(b).value, Take(afterLength, TakeU16(b).value).value);
  }

  /** The layout, whatever the length of the continuation: what the decoder reads back. */
  function RequestBytes(r: BackfillRequest): (b: seq<byte>)
    requires |r.authority| == CAPABILITY_AUTHORITY_LENGTH && |CursorBytes(r.cursor)| <= U16_MAX
    ensures |b| == 71 + |CursorBytes(r.cursor)| + OPLOG_VERSION_HEADER_LENGTH
                 + OPLOG_VERSION_ENTRY_LENGTH * |r.version|
  {
    U16Bytes(VECTOR_BACKFILL_PAYLOAD_VERSION) + (r.authority + (r.documentId + (StartBytes(r.cursor)
      + (U16Bytes(|EncodeVersion(r.version)|) + (EncodeVersion(r.version) + [])))))
  }

  function EncodeRequest(r: BackfillRequest): Option<seq<byte>>
    requires |r.authority| == CAPABILITY_AUTHORITY_LENGTH
  {
    if r.cursor.Some? && |r.cursor.value| != CONTINUATION_LENGTH then None
    else if |RequestBytes(r)| > MAX_APPLICATION_PAYLOAD_LENGTH then None
    else Some(RequestBytes(r))
  }

  function TakeRequest(b: seq<byte>): Parsed<BackfillRequest> {
    var (format, afterFormat) :- TakeU16(b);
    if format != VECTOR_BACKFILL_PAYLOAD_VERSION then Bad(UnsupportedLoroProfile)
    else
      var (authority, afterAuthority) :- Take(afterFormat, CAPABILITY_AUTHORITY_LENGTH);
      var (documentId, afterDocument) :- TakeIdentifier(afterAuthority);
      var (cursor, afterStart) :- TakeStart(afterDocument);
      var (version, rest) :- TakeVersion(afterStart);
      Parsed(BackfillRequest(authority, documentId, version, cursor), rest)
  }

  function DecodeRequest(b: seq<byte>): Result<BackfillRequest, CodecError> {
    if |b| > MAX_APPLICATION_PAYLOAD_LENGTH then Failure(RecordTooLong)
    else
      match TakeRequest(b)
      case Bad(error) => Failure(error)
      case Parsed(r, rest) => if rest == [] then Success(r) else Failure(TrailingBytes)
  }

  /** Every representable version travels: its request encodes within one payload and decodes to itself. */
  lemma RequestSurvives(r: BackfillRequest)
    requires |r.authority| == CAPABILITY_AUTHORITY_LENGTH
    requires r.cursor.Some? ==> |r.cursor.value| == CONTINUATION_LENGTH
    ensures EncodeRequest(r).Some? && |EncodeRequest(r).value| <= 3187
    ensures DecodeRequest(EncodeRequest(r).value) == Success(r)
  {
    hide EncodeVersion, DecodeVersion, U16Bytes, TakeU16, TakeStart, StartBytes, TakeVersion;
    var vector := EncodeVersion(r.version);
    var atVersion := U16Bytes(|vector|) + (vector + []);
    TakeU16Front(VECTOR_BACKFILL_PAYLOAD_VERSION, r.authority + (r.documentId + (StartBytes(r.cursor) + atVersion)));
    TakeFront(r.authority, r.documentId + (StartBytes(r.cursor) + atVersion));
    TakeFront(r.documentId, StartBytes(r.cursor) + atVersion);
    TakeStartFront(r.cursor, atVersion);
    TakeVersionFront(r.version, []);
  }

  /** Conversely, whatever decodes is the layout of what it decodes to. */
  lemma RequestExact(b: seq<byte>)
    requires DecodeRequest(b).Success?
    ensures
      var r := DecodeRequest(b).value;
      |r.authority| == CAPABILITY_AUTHORITY_LENGTH && |CursorBytes(r.cursor)| <= U16_MAX && b == RequestBytes(r)
  {
    hide EncodeVersion, DecodeVersion, U16Bytes, TakeStart, StartBytes, TakeVersion;
    TakeU16Exact(b);
    var afterFormat := TakeU16(b).rest;
    TakeExact(afterFormat, CAPABILITY_AUTHORITY_LENGTH);
    var afterAuthority := Take(afterFormat, CAPABILITY_AUTHORITY_LENGTH).rest;
    TakeExact(afterAuthority, 16);
    var afterDocument := TakeIdentifier(afterAuthority).rest;
    TakeStartExact(afterDocument);
    TakeVersionExact(TakeStart(afterDocument).rest);
  }

  /**
   * Every log is vector-representable: its exact per-peer maximum is a version, the version's
   * request fits one payload, and backfilling with it selects nothing from the whole log.
   */
  lemma LogIsRepresentable(id: DocumentId, d: Document, authority: seq<byte>)
    requires ValidLog(id, d) && |authority| == CAPABILITY_AUTHORITY_LENGTH
    ensures ValidVersion(Maxima(d.log)) && Decodable(d.log)
    ensures
      var version: LoroOplogVersion := Maxima(d.log);
      && (forall peer: u64 :: CoveredEnd(version, peer) == LogEnd(d.log, peer))
      && EncodeRequest(BackfillRequest(authority, id, version, None)).Some?
      && Relevant(version, Metas(d.log)) == []
  {
    hide ValidLog, Maxima, Metas, Decodable, Relevant, EncodeRequest;
    MaximaRepresentable(id, d);
    ValidLogDecodable(id, d);
    var version: LoroOplogVersion := Maxima(d.log);
    forall peer: u64 ensures CoveredEnd(version, peer) == LogEnd(d.log, peer) {
      MaximaExact(d.log, peer);
      EndInIsCoveredEnd(version, peer);
    }
    RequestSurvives(BackfillRequest(authority, id, version, None));
    FrontierSelectsNothing(d.log, version, |d.log|);
    assert Metas(d.log)[..|d.log|] == Metas(d.log);
  }
}
