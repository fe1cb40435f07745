/** The two bounded scans over a frozen prefix of the log. */
module Reads {
  import opened Prelude
  import opened Types
  import opened UpdateRecord
  import opened Pages
  import opened Tables
  import opened UpdateLog

  const MAX_SCAN_RECORDS: nat := 64

  /** The daemon's budget: one application payload less the prefix of a cursor-bearing page. */
  const METADATA_BYTE_LIMIT: nat := MAX_APPLICATION_PAYLOAD_LENGTH - RESPONSE_WITH_CURSOR_LENGTH

  datatype Scan<+T> = Scanned(page: T) | InvalidPosition | Corrupt

  datatype StoredPage = StoredPage(hasMore: bool, nextOrdinal: nat, updates: seq<UpdateMetadata>)

  datatype StoredVectorPage = StoredVectorPage(
    hasMore: bool, lastExamined: Option<nat>, updates: seq<UpdateMetadata>)

  // ---- Metadata of a log ------------------------------------------------------

  predicate Decodable(log: seq<LogRow>) {
    forall i :: 0 <= i < |log| ==> DecodeUpdateRecord(log[i].record).Success?
  }

  function Metadata(row: LogRow): UpdateMetadata
    requires DecodeUpdateRecord(row.record).Success?
  {
    var u := DecodeUpdateRecord(row.record).value;
    RecordMetadataFits(row.record);
    UpdateMetadata(|u.payload|, u.ranges, u.updateId)
  }

  /** The public metadata of a log, in acceptance order. */
  function Metas(log: seq<LogRow>): (m: seq<UpdateMetadata>)
    requires Decodable(log)
    ensures |m| == |log|
    ensures forall i :: 0 <= i < |log| ==> m[i] == Metadata(log[i])
  {
    seq(|log|, i requires 0 <= i < |log| => Metadata(log[i]))
  }

  lemma ValidLogDecodable(id: DocumentId, d: Document)
    requires ValidLog(id, d)
    ensures Decodable(d.log)
  {
    forall i | 0 <= i < |d.log| ensures DecodeUpdateRecord(d.log[i].record).Success? {
      assert GoodRow(id, d.log[i]);
    }
  }

  /** The row at an acceptance position: an indexed point query. */
  function RowAt(log: seq<LogRow>, sequence: nat): (r: Option<LogRow>)
    ensures r.Some? ==> r.value in log && r.value.sequence == sequence
    ensures r.None? ==> forall i :: 0 <= i < |log| ==> log[i].sequence != sequence
  {
    if log == [] then None
    else if log[|log| - 1].sequence == sequence then Some(log[|log| - 1])
    else RowAt(log[..|log| - 1], sequence)
  }

  lemma RowAtPosition(id: DocumentId, d: Document, sequence: nat)
    requires ValidLog(id, d)
    ensures RowAt(d.log, sequence) == if 1 <= sequence <= |d.log| then Some(d.log[sequence - 1]) else None
  {
    hide ExactIndex, LogPeers, GoodRow;
    var r := RowAt(d.log, sequence);
    if r.Some? {
      var i :| 0 <= i < |d.log| && d.log[i] == r.value;
    }
    if 1 <= sequence <= |d.log| {
      assert d.log[sequence - 1].sequence == sequence;
    }
  }

  /** What a scan finds at the position it examines. */
  lemma Examined(id: DocumentId, d: Document, next: nat)
    requires ValidLog(id, d) && Decodable(d.log) && next < |d.log|
    ensures RowAt(d.log, next + 1) == Some(d.log[next])
    ensures DecodeUpdateRecord(d.log[next].record).Success?
    ensures DecodeUpdateRecord(d.log[next].record).value.documentId == id
    ensures DecodeUpdateRecord(d.log[next].record).value.updateId == d.log[next].updateId
    ensures Metas(d.log)[next] == Metadata(d.log[next])
    ensures Metadata(d.log[next]).ranges == DecodeUpdateRecord(d.log[next].record).value.ranges
    ensures d.log[next].sequence == next + 1
  {
    RowAtPosition(id, d, next + 1);
    hide DecodeUpdateRecord, ExactIndex, LogPeers;
    assert GoodRow(id, d.log[next]);
  }

  /** The greatest stored acceptance position. */
  function HighWater(log: seq<LogRow>): Option<nat> {
    if log == [] then None else Some(log[|log| - 1].sequence)
  }

  lemma HighWaterIsLength(id: DocumentId, d: Document)
    requires ValidLog(id, d)
    ensures HighWater(d.log) == if d.log == [] then None else Some(|d.log|)
  {
    hide ExactIndex, LogPeers, GoodRow, DistinctIds;
  }

  // ---- Enumeration --------------------------------------------------------------

  /** How far a page reaches: as far as the stop and the byte budget allow. */
  function PageEnd(metas: seq<UpdateMetadata>, from: nat, stop: nat, budget: nat): (end: nat)
    requires from <= stop <= |metas|
    ensures from <= end <= stop
    decreases stop - from
  {
    if from == stop || MetadataLength(metas[from].ranges) > budget then from
    else PageEnd(metas, from + 1, stop, budget - MetadataLength(metas[from].ranges))
  }

  function EnumeratePage(metas: seq<UpdateMetadata>, lower: nat, terminal: nat, ordinal: nat, budget: nat): StoredPage
    requires lower + ordinal < terminal <= |metas|
  {
    var stop := lower + Least(ordinal + MAX_SCAN_RECORDS, terminal - lower);
    var end := PageEnd(metas, lower + ordinal, stop, budget);
    StoredPage(end < terminal, end - lower, metas[lower + ordinal..end])
  }

  /** The page budget admits every single entry of the log. */
  predicate Fits(metas: seq<UpdateMetadata>, budget: nat) {
    forall i :: 0 <= i < |metas| ==> MetadataLength(metas[i].ranges) <= budget
  }

  /** Under the daemon's budget every stored entry fits: records are bounded when they are decoded. */
  lemma StoredEntriesFit(log: seq<LogRow>)
    requires Decodable(log)
    ensures Fits(Metas(log), METADATA_BYTE_LIMIT)
  {
    hide MetadataLength, DecodeUpdateRecord;
    forall i | 0 <= i < |log| ensures MetadataLength(Metas(log)[i].ranges) <= METADATA_BYTE_LIMIT {
      RecordMetadataFits(log[i].record);
    }
  }

  function Least(a: nat, b: nat): nat {
    if a < b then a else b
  }

  lemma EntriesLengthCons(m: UpdateMetadata, ms: seq<UpdateMetadata>)
    ensures EntriesLength([m] + ms) == MetadataLength(m.ranges) + EntriesLength(ms)
  {
    assert ([m] + ms)[1..] == ms;
  }

  lemma {:induction false} EntriesLengthSnoc(ms: seq<UpdateMetadata>, m: UpdateMetadata)
    ensures EntriesLength(ms + [m]) == EntriesLength(ms) + MetadataLength(m.ranges)
  {
    if ms == [] {
      assert ms + [m] == [m] + [];
      EntriesLengthCons(m, []);
    } else {
      EntriesLengthSnoc(ms[1..], m);
      assert ms + [m] == [ms[0]] + (ms[1..] + [m]);
      EntriesLengthCons(ms[0], ms[1..] + [m]);
    }
  }

  lemma SliceSnoc<T>(s: seq<T>, from: nat, to: nat)
    requires from <= to < |s|
    ensures s[from..to + 1] == s[from..to] + [s[to]]
  {
  }

  /** What a page holds fits its budget, and it stops only at the stop or at an entry that does not fit. */
  lemma {:induction false} PageEndFits(metas: seq<UpdateMetadata>, from: nat, stop: nat, budget: nat)
    requires from <= stop <= |metas|
    ensures
      var end := PageEnd(metas, from, stop, budget);
      && EntriesLength(metas[from..end]) <= budget
      && (end < stop ==> EntriesLength(metas[from..end]) + MetadataLength(metas[end].ranges) > budget)
    decreases stop - from
  {
    if from < stop && MetadataLength(metas[from].ranges) <= budget {
      PageEndFits(metas, from + 1, stop, budget - MetadataLength(metas[from].ranges));
      var end := PageEnd(metas, from, stop, budget);
      assert metas[from..end] == [metas[from]] + metas[from + 1..end];
      EntriesLengthCons(metas[from], metas[from + 1..end]);
    }
  }

  /**
   * Progress and fit of enumeration: under the daemon's budget every page drawn from stored
   * records advances and encodes, with its cursor, within one payload.
   */
  lemma EnumerationProgressAndFit(log: seq<LogRow>, lower: nat, terminal: nat, ordinal: nat, cursor: seq<byte>)
    requires Decodable(log) && lower + ordinal < terminal <= |log| && |cursor| == CONTINUATION_LENGTH
    ensures
      var page := EnumeratePage(Metas(log), lower, terminal, ordinal, METADATA_BYTE_LIMIT);
      && page.updates != []
      && ordinal < page.nextOrdinal <= terminal - lower
      && |page.updates| <= MAX_SCAN_RECORDS
      && EncodePage(Enumeration, Page(page.hasMore, Some(cursor), page.updates)).Success?
  {
    hide EntriesLength, EntriesBytes, DecodeUpdateRecord, MetadataLength;
    var metas := Metas(log);
    var stop := lower + Least(ordinal + MAX_SCAN_RECORDS, terminal - lower);
    RecordMetadataFits(log[lower + ordinal].record);
    assert MetadataLength(metas[lower + ordinal].ranges) <= METADATA_BYTE_LIMIT;
    PageEndFits(metas, lower + ordinal, stop, METADATA_BYTE_LIMIT);
  }

  lemma PageEndStep(metas: seq<UpdateMetadata>, from: nat, stop: nat, budget: nat)
    requires from <= stop <= |metas|
    ensures PageEnd(metas, from, stop, budget) ==
      if from == stop || MetadataLength(metas[from].ranges) > budget then from
      else PageEnd(metas, from + 1, stop, budget - MetadataLength(metas[from].ranges))
  {
  }

  /** Fetches and decodes one row; a stored row that disagrees with its own index is corruption. */
  method MetadataAt(id: DocumentId, d: Document, sequence: nat) returns (r: Option<UpdateMetadata>)
    requires ValidLog(id, d) && 0 < sequence <= |d.log|
    ensures Decodable(d.log) && r == Some(Metas(d.log)[sequence - 1])
  {
    hide ValidLog, DecodeUpdateRecord, Metas, Metadata, RowAt, Decodable;
    ValidLogDecodable(id, d);
    Examined(id, d, sequence - 1);
    var row := RowAt(d.log, sequence);
    if row.None? { return None; }
    var decoded := DecodeUpdateRecord(row.value.record);
    if decoded.Failure? { return None; }
    if decoded.value.documentId != id || decoded.value.updateId != row.value.updateId { return None; }
    return Some(Metadata(row.value));
  }

  lemma PageReaching(metas: seq<UpdateMetadata>, lower: nat, terminal: nat, ordinal: nat, budget: nat, end: nat)
    requires lower + ordinal < terminal <= |metas|
    requires end == PageEnd(metas, lower + ordinal, lower + Least(ordinal + MAX_SCAN_RECORDS, terminal - lower), budget)
    ensures EnumeratePage(metas, lower, terminal, ordinal, budget)
         == StoredPage(end < terminal, end - lower, metas[lower + ordinal..end])
  {
  }

  method EnumerateIn(id: DocumentId, d: Document, lower: nat, terminal: nat, ordinal: nat, budget: nat)
    returns (r: Scan<StoredPage>)
    requires ValidLog(id, d) && terminal <= |d.log|
    ensures Decodable(d.log)
    ensures r == if lower + ordinal < terminal
      then Scanned(EnumeratePage(Metas(d.log), lower, terminal, ordinal, budget)) else InvalidPosition
  {
    hide ValidLog, DecodeUpdateRecord, MetadataLength, Metas, Metadata, RowAt, Decodable, PageEnd, EnumeratePage;
    ValidLogDecodable(id, d);
    if lower >= terminal || ordinal >= terminal - lower { return InvalidPosition; }
    ghost var metas := Metas(d.log);
    var scanEnd := Least(ordinal + MAX_SCAN_RECORDS, terminal - lower);
    var used := 0;
    var updates: seq<UpdateMetadata> := [];
    var next := ordinal;
    ghost var stop := lower + scanEnd;
    ghost var end := PageEnd(metas, lower + ordinal, stop, budget);
    while next < scanEnd
      invariant ordinal <= next <= scanEnd
      invariant used <= budget
      invariant updates == metas[lower + ordinal..lower + next]
      invariant end == PageEnd(metas, lower + next, stop, budget - used)
    {
      PageEndStep(metas, lower + next, stop, budget - used);
      SliceSnoc(metas, lower + ordinal, lower + next);
      var found := MetadataAt(id, d, lower + next + 1);
      if found.None? { return Corrupt; }
      var metadata := found.value;
      var nextUsed := used + MetadataLength(metadata.ranges);
      if nextUsed > budget { break; }
      used := nextUsed;
      updates := updates + [metadata];
      next := next + 1;
    }
    PageEndStep(metas, lower + next, stop, budget - used);
    PageReaching(metas, lower, terminal, ordinal, budget, end);
    return Scanned(StoredPage(next < terminal - lower, next, updates));
  }

  // ---- Vector backfill ------------------------------------------------------------

  /** The metadata a version does not yet cover, in acceptance order. */
  function Relevant(version: LoroOplogVersion, metas: seq<UpdateMetadata>): seq<UpdateMetadata> {
    if metas == [] then []
    else
      var last := metas[|metas| - 1];
      Relevant(version, metas[..|metas| - 1]) + if Selected(version, last.ranges) then [last] else []
  }

  /** How far one scan reaches: 64 examined records, or the first selected one that does not fit. */
  function ScanEnd(metas: seq<UpdateMetadata>, version: LoroOplogVersion, from: nat, terminal: nat,
                   scanned: nat, budget: nat): (end: nat)
    requires from <= terminal <= |metas|
    ensures from <= end <= terminal
    decreases terminal - from
  {
    if from == terminal || scanned >= MAX_SCAN_RECORDS then from
    else if !Selected(version, metas[from].ranges) then ScanEnd(metas, version, from + 1, terminal, scanned + 1, budget)
    else if MetadataLength(metas[from].ranges) > budget then from
    else ScanEnd(metas, version, from + 1, terminal, scanned + 1, budget - MetadataLength(metas[from].ranges))
  }

  function VectorPage(metas: seq<UpdateMetadata>, version: LoroOplogVersion, position: nat, terminal: nat,
                      budget: nat): StoredVectorPage
    requires position <= terminal <= |metas|
  {
    var end := ScanEnd(metas, version, position, terminal, 0, budget);
    StoredVectorPage(end < terminal, if end == position then None else Some(end),
                     Relevant(version, metas[position..end]))
  }

  lemma RelevantSnoc(version: LoroOplogVersion, metas: seq<UpdateMetadata>, from: nat, to: nat)
    requires from <= to < |metas|
    ensures Relevant(version, metas[from..to + 1])
         == Relevant(version, metas[from..to]) + if Selected(version, metas[to].ranges) then [metas[to]] else []
  {
    var window := metas[from..to + 1];
    assert window[..|window| - 1] == metas[from..to];
  }

  lemma RelevantEmpty(version: LoroOplogVersion)
    ensures Relevant(version, []) == []
  {
  }

  /** Consecutive scans concatenate. */
  lemma {:induction false} RelevantSplit(version: LoroOplogVersion, metas: seq<UpdateMetadata>, a: nat, b: nat, c: nat)
    requires a <= b <= c <= |metas|
    ensures Relevant(version, metas[a..c]) == Relevant(version, metas[a..b]) + Relevant(version, metas[b..c])
    decreases c
  {
    hide Selected, Relevant;
    if b == c {
      assert metas[b..c] == [];
      RelevantEmpty(version);
    } else {
      RelevantSplit(version, metas, a, b, c - 1);
      RelevantSnoc(version, metas, a, c - 1);
      RelevantSnoc(version, metas, b, c - 1);
    }
  }

  lemma RelevantCons(version: LoroOplogVersion, metas: seq<UpdateMetadata>, from: nat, to: nat)
    requires from < to <= |metas|
    ensures Relevant(version, metas[from..to])
         == (if Selected(version, metas[from].ranges) then [metas[from]] else []) + Relevant(version, metas[from + 1..to])
  {
    hide Selected, Relevant;
    RelevantSplit(version, metas, from, from + 1, to);
    RelevantSnoc(version, metas, from, from);
    assert metas[from..from] == [];
    RelevantEmpty(version);
  }

  lemma NoEntries()
    ensures EntriesLength([]) == 0
  {
  }

  lemma {:induction false} ScanEndFits(metas: seq<UpdateMetadata>, version: LoroOplogVersion, from: nat, terminal: nat,
                                       scanned: nat, budget: nat)
    requires from <= terminal <= |metas| && scanned <= MAX_SCAN_RECORDS
    ensures
      var end := ScanEnd(metas, version, from, terminal, scanned, budget);
      && EntriesLength(Relevant(version, metas[from..end])) <= budget
      && |Relevant(version, metas[from..end])| <= end - from <= MAX_SCAN_RECORDS - scanned
    decreases terminal - from
  {
    hide Selected, Relevant, EntriesLength, MetadataLength;
    assert metas[from..from] == [];
    RelevantEmpty(version);
    assert EntriesLength([]) == 0 by { NoEntries(); }
    if from < terminal && scanned < MAX_SCAN_RECORDS {
      var m := metas[from];
      var chosen := Selected(version, m.ranges);
      if !chosen || MetadataLength(m.ranges) <= budget {
        var left := if chosen then budget - MetadataLength(m.ranges) else budget;
        ScanEndFits(metas, version, from + 1, terminal, scanned + 1, left);
        var end := ScanEnd(metas, version, from, terminal, scanned, budget);
        RelevantCons(version, metas, from, end);
        var rest := Relevant(version, metas[from + 1..end]);
        EntriesLengthCons(m, rest);
        assert [] + rest == rest && |[m] + rest| == 1 + |rest|;
      }
    }
  }

  /**
   * Progress and fit of backfill: under the daemon's budget every scan with records left to
   * examine moves its position, and every page encodes within one payload.
   */
  lemma VectorProgressAndFit(log: seq<LogRow>, version: LoroOplogVersion, position: nat, terminal: nat,
                             cursor: seq<byte>)
    requires Decodable(log) && position <= terminal <= |log| && |cursor| == CONTINUATION_LENGTH
    ensures
      var page := VectorPage(Metas(log), version, position, terminal, METADATA_BYTE_LIMIT);
      && (position < terminal ==> page.lastExamined.Some? && position < page.lastExamined.value <= terminal)
      && (page.hasMore ==> page.lastExamined.Some? && page.lastExamined.value < terminal)
      && EncodePage(VectorBackfill, Page(page.hasMore, if page.hasMore then Some(cursor) else None, page.updates)).Success?
  {
    hide EntriesLength, EntriesBytes, DecodeUpdateRecord, MetadataLength, Relevant, Selected;
    var metas := Metas(log);
    ScanEndFits(metas, version, position, terminal, 0, METADATA_BYTE_LIMIT);
    if position < terminal {
      RecordMetadataFits(log[position].record);
      assert MetadataLength(metas[position].ranges) <= METADATA_BYTE_LIMIT;
      var end := ScanEnd(metas, version, position, terminal, 0, METADATA_BYTE_LIMIT);
      assert end > position;
    }
  }

  method SelectedByVersion(version: LoroOplogVersion, ranges: seq<LoroRange>) returns (r: bool)
    ensures r == Selected(version, ranges)
  {
    for i := 0 to |ranges|
      invariant forall k :: 0 <= k < i ==> ranges[k].end <= CoveredEnd(version, ranges[k].peer)
    {
      var covered := EndCounterFor(version, ranges[i].peer);
      if ranges[i].end > covered { return true; }
    }
    return false;
  }

  method VectorBackfillIn(id: DocumentId, d: Document, position: nat, terminal: nat, version: LoroOplogVersion,
                          budget: nat) returns (r: Scan<StoredVectorPage>)
    requires ValidLog(id, d)
    ensures Decodable(d.log)
    ensures r == if 0 < terminal && position <= terminal <= |d.log|
      then Scanned(VectorPage(Metas(d.log), version, position, terminal, budget)) else InvalidPosition
  {
    hide ValidLog, DecodeUpdateRecord, MetadataLength, Selected, Metas, Metadata, RowAt, Decodable, Relevant;
    ValidLogDecodable(id, d);
    if terminal == 0 || position > terminal { return InvalidPosition; }
    RowAtPosition(id, d, position);
    RowAtPosition(id, d, terminal);
    if position != 0 && RowAt(d.log, position).None? { return InvalidPosition; }
    if RowAt(d.log, terminal).None? { return InvalidPosition; }
    var metas := Metas(d.log);
    var used := 0;
    var updates: seq<UpdateMetadata> := [];
    var last: Option<nat> := None;
    var scanned := 0;
    var hasMore := false;
    var next := position;
    assert metas[position..position] == [];
    RelevantEmpty(version);
    while next < terminal
      invariant position <= next <= terminal && scanned == next - position <= MAX_SCAN_RECORDS
      invariant used <= budget && !hasMore
      invariant last == if next == position then None else Some(next)
      invariant updates == Relevant(version, metas[position..next])
      invariant ScanEnd(metas, version, position, terminal, 0, budget)
             == ScanEnd(metas, version, next, terminal, scanned, budget - used)
    {
      if scanned == MAX_SCAN_RECORDS {
        hasMore := true;
        break;
      }
      Examined(id, d, next);
      var row := RowAt(d.log, next + 1);
      if row.None? { return Corrupt; }
      var decoded := DecodeUpdateRecord(row.value.record);
      if decoded.Failure? { return Corrupt; }
      if decoded.value.documentId != id { return Corrupt; }
      RelevantSnoc(version, metas, position, next);
      var selected := SelectedByVersion(version, decoded.value.ranges);
      if selected {
        var metadata := Metadata(row.value);
        var nextUsed := used + MetadataLength(metadata.ranges);
        if nextUsed > budget {
          hasMore := true;
          break;
        }
        used := nextUsed;
        updates := updates + [metadata];
      }
      last := Some(row.value.sequence);
      scanned := scanned + 1;
      next := next + 1;
    }
    return Scanned(StoredVectorPage(hasMore, last, updates));
  }

  // ---- What selection means ---------------------------------------------------------

  /** A version covers one peer's operations below its recorded end. */
  predicate Covers(version: LoroOplogVersion, peer: u64, counter: nat) {
    counter < CoveredEnd(version, peer)
  }

  /** Selected updates hold an operation the client misses; every operation of the others is covered. */
  lemma SelectionExact(version: LoroOplogVersion, ranges: seq<LoroRange>)
    ensures Selected(version, ranges) <==>
      exists r, counter: nat :: r in ranges && r.start <= counter < r.end && !Covers(version, r.peer, counter)
  {
    if Selected(version, ranges) {
      var r :| r in ranges && r.end > CoveredEnd(version, r.peer);
      var counter: nat := r.end - 1;
      assert r.start <= counter < r.end && !Covers(version, r.peer, counter);
    }
  }
}
