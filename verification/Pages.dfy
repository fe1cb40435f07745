/** The two bounded metadata pages and the canonical oplog version. */
module Pages {
  import opened Prelude
  import opened Types
  import opened Bytes
  import opened Decoding
  import opened UpdateRecord

  /** Both read operations answer with one page; they differ in which pages may carry a cursor. */
  datatype PageKind = Enumeration | VectorBackfill

  datatype Page = Page(hasMore: bool, cursor: Option<seq<byte>>, updates: seq<UpdateMetadata>)

  // ---- Entries ------------------------------------------------------------

  function EntryBytes(m: UpdateMetadata): (b: seq<byte>)
    ensures |b| == MetadataLength(m.ranges)
  {
    m.updateId + (CountedRangesBytes(m.ranges) + U32Bytes(m.payloadLength))
  }

  function EntriesLength(updates: seq<UpdateMetadata>): nat {
    if updates == [] then 0 else MetadataLength(updates[0].ranges) + EntriesLength(updates[1..])
  }

  function EntriesBytes(updates: seq<UpdateMetadata>): (b: seq<byte>)
    ensures |b| == EntriesLength(updates)
  {
    if updates == [] then [] else EntryBytes(updates[0]) + EntriesBytes(updates[1..])
  }

  function TakeEntry(b: seq<byte>): Parsed<UpdateMetadata> {
    var (updateId, afterId) :- TakeIdentifier(b);
    var (ranges, afterRanges) :- TakePublicRanges(afterId);
    var (length, rest) :- TakeU32(afterRanges);
    Parsed(UpdateMetadata(length, ranges, updateId), rest)
  }

  function TakeEntries(b: seq<byte>, count: nat): (p: Parsed<seq<UpdateMetadata>>)
    ensures p.Parsed? ==> |p.value| == count
    decreases count
  {
    if count == 0 then Parsed([], b)
    else
      var (m, afterEntry) :- TakeEntry(b);
      Prepend([m], TakeEntries(afterEntry, count - 1))
  }

  lemma TakeEntryFront(m: UpdateMetadata, rest: seq<byte>)
    ensures TakeEntry(EntryBytes(m) + rest) == Parsed(m, rest)
  {
    hide CountedRangesBytes, U32Bytes, TakePublicRanges, TakeU32, MetadataLength;
    var afterRanges := U32Bytes(m.payloadLength) + rest;
    assert EntryBytes(m) + rest == m.updateId + (CountedRangesBytes(m.ranges) + afterRanges);
    TakeFront(m.updateId, CountedRangesBytes(m.ranges) + afterRanges);
    TakePublicRangesFront(m.ranges, afterRanges);
    TakeU32Front(m.payloadLength, rest);
  }

  lemma TakeEntryExact(b: seq<byte>)
    ensures TakeEntry(b).Parsed? ==> b == EntryBytes(TakeEntry(b).value) + TakeEntry(b).rest
  {
    if TakeEntry(b).Parsed? {
      TakeExact(b, 16);
      var afterId := TakeIdentifier(b).rest;
      TakePublicRangesExact(afterId);
      TakeU32Exact(TakePublicRanges(afterId).rest);
    }
  }

  lemma EntriesBytesCons(m: UpdateMetadata, ms: seq<UpdateMetadata>, rest: seq<byte>)
    ensures EntriesBytes([m] + ms) + rest == EntryBytes(m) + (EntriesBytes(ms) + rest)
  {
    assert ([m] + ms)[1..] == ms;
  }

  lemma {:induction false} TakeEntriesFront(updates: seq<UpdateMetadata>, rest: seq<byte>)
    ensures TakeEntries(EntriesBytes(updates) + rest, |updates|) == Parsed(updates, rest)
  {
    if updates == [] {
      assert EntriesBytes(updates) + rest == rest;
    } else {
      assert [updates[0]] + updates[1..] == updates;
      EntriesBytesCons(updates[0], updates[1..], rest);
      TakeEntryFront(updates[0], EntriesBytes(updates[1..]) + rest);
      TakeEntriesFront(updates[1..], rest);
    }
  }

  lemma {:induction false} TakeEntriesExact(b: seq<byte>, count: nat)
    ensures TakeEntries(b, count).Parsed? ==>
      b == EntriesBytes(TakeEntries(b, count).value) + TakeEntries(b, count).rest
    decreases count
  {
    hide EntryBytes, TakeEntry;
    if count > 0 && TakeEntries(b, count).Parsed? {
      TakeEntryExact(b);
      var head := TakeEntry(b);
      TakeEntriesExact(head.rest, count - 1);
      EntriesBytesCons(head.value, TakeEntries(head.rest, count - 1).value, TakeEntries(head.rest, count - 1).rest);
    }
  }

  // ---- Pages --------------------------------------------------------------

  /** Which pagination states each operation may express. */
  predicate Consistent(kind: PageKind, hasMore: bool, hasCursor: bool, hasUpdates: bool) {
    match kind
    case Enumeration => (hasMore ==> hasUpdates) && hasCursor == hasUpdates
    case VectorBackfill => hasMore == hasCursor
  }

  function CursorBytes(cursor: Option<seq<byte>>): seq<byte> {
    match cursor case None => [] case Some(c) => c
  }

  function PageBytes(p: Page): (b: seq<byte>)
    requires |CursorBytes(p.cursor)| <= U16_MAX && |p.updates| <= U16_MAX
    ensures |b| == 5 + |CursorBytes(p.cursor)| + EntriesLength(p.updates)
  {
    [if p.hasMore then 1 else 0] + (U16Bytes(|CursorBytes(p.cursor)|) + (CursorBytes(p.cursor)
      + (U16Bytes(|p.updates|) + EntriesBytes(p.updates))))
  }

  function EncodePage(kind: PageKind, p: Page): Result<seq<byte>, CodecError> {
    if !Consistent(kind, p.hasMore, p.cursor.Some?, p.updates != []) then Failure(InvalidCursor)
    else if |p.updates| > U16_MAX then Failure(IntegerOutOfRange)
    else if p.cursor.Some? && |p.cursor.value| != CONTINUATION_LENGTH then Failure(InvalidCursor)
    else if |PageBytes(p)| > MAX_APPLICATION_PAYLOAD_LENGTH then Failure(RecordTooLong)
    else Success(PageBytes(p))
  }

  function TakeFlag(b: seq<byte>): Parsed<bool> {
    var (flag, rest) :- Take(b, 1);
    if flag[0] == 0 then Parsed(false, rest)
    else if flag[0] == 1 then Parsed(true, rest)
    else Bad(InvalidDiscriminant)
  }

  function TakeCursor(b: seq<byte>): Parsed<Option<seq<byte>>> {
    var (length, afterLength) :- TakeU16(b);
    if length == 0 then Parsed(None, afterLength)
    else if length == CONTINUATION_LENGTH then
      var (cursor, rest) :- Take(afterLength, length);
      Parsed(Some(cursor), rest)
    else Bad(InvalidCursor)
  }

  /** Backfill checks its cursor before reading the count; enumeration needs the count to check it. */
  function TakePage(kind: PageKind, b: seq<byte>): Parsed<Page> {
    var (hasMore, afterFlag) :- TakeFlag(b);
    var (cursor, afterCursor) :- TakeCursor(afterFlag);
    if kind.VectorBackfill? && !Consistent(kind, hasMore, cursor.Some?, false) then Bad(InvalidCursor)
    else
      var (count, afterCount) :- TakeU16(afterCursor);
      if !Consistent(kind, hasMore, cursor.Some?, count != 0) then Bad(InvalidCursor)
      else
        var (updates, rest) :- TakeEntries(afterCount, count);
        Parsed(Page(hasMore, cursor, updates), rest)
  }

  function DecodePage(kind: PageKind, b: seq<byte>): Result<Page, CodecError> {
    if |b| > MAX_APPLICATION_PAYLOAD_LENGTH then Failure(RecordTooLong)
    else
      match TakePage(kind, b)
      case Bad(error) => Failure(error)
      case Parsed(p, rest) => if rest == [] then Success(p) else Failure(TrailingBytes)
  }

  lemma TakeCursorFront(cursor: Option<seq<byte>>, rest: seq<byte>)
    requires cursor.Some? ==> |cursor.value| == CONTINUATION_LENGTH
    ensures TakeCursor(U16Bytes(|CursorBytes(cursor)|) + (CursorBytes(cursor) + rest)) == Parsed(cursor, rest)
  {
    TakeU16Front(|CursorBytes(cursor)|, CursorBytes(cursor) + rest);
    TakeFront(CursorBytes(cursor), rest);
    assert [] + rest == rest;
  }

  lemma TakeCursorExact(b: seq<byte>)
    ensures TakeCursor(b).Parsed? ==>
      var c := TakeCursor(b).value;
      && (c.Some? ==> |c.value| == CONTINUATION_LENGTH)
      && b == U16Bytes(|CursorBytes(c)|) + (CursorBytes(c) + TakeCursor(b).rest)
  {
    TakeU16Exact(b);
    if TakeCursor(b).Parsed? {
      var afterLength := TakeU16(b).rest;
      TakeExact(afterLength, TakeU16(b).value);
      assert [] + afterLength == afterLength;
    }
  }

  lemma DecodeEncodedPage(kind: PageKind, p: Page)
    requires EncodePage(kind, p).Success?
    ensures DecodePage(kind, EncodePage(kind, p).value) == Success(p)
  {
    hide TakeCursor, TakeU16, TakeEntries, EntriesBytes, U16Bytes;
    var entries := EntriesBytes(p.updates);
    var afterCursor := U16Bytes(|p.updates|) + entries;
    var afterFlag := U16Bytes(|CursorBytes(p.cursor)|) + (CursorBytes(p.cursor) + afterCursor);
    TakeFront([if p.hasMore then 1 else 0], afterFlag);
    TakeCursorFront(p.cursor, afterCursor);
    TakeU16Front(|p.updates|, entries);
    TakeEntriesFront(p.updates, []);
    assert entries + [] == entries;
  }

  lemma TakePageExact(kind: PageKind, b: seq<byte>)
    requires TakePage(kind, b).Parsed?
    ensures
      var p := TakePage(kind, b).value;
      && |p.updates| <= U16_MAX
      && (p.cursor.Some? ==> |p.cursor.value| == CONTINUATION_LENGTH)
      && Consistent(kind, p.hasMore, p.cursor.Some?, p.updates != [])
      && b == [if p.hasMore then 1 else 0] + (U16Bytes(|CursorBytes(p.cursor)|) + (CursorBytes(p.cursor)
                + (U16Bytes(|p.updates|) + (EntriesBytes(p.updates) + TakePage(kind, b).rest))))
  {
    hide TakeU16, EntriesBytes, TakeEntries, TakeCursor, U16Bytes;
    TakeExact(b, 1);
    var afterFlag := TakeFlag(b).rest;
    assert b == [if TakeFlag(b).value then 1 else 0] + afterFlag;
    TakeCursorExact(afterFlag);
    var afterCursor := TakeCursor(afterFlag).rest;
    TakeU16Exact(afterCursor);
    TakeEntriesExact(TakeU16(afterCursor).rest, TakeU16(afterCursor).value);
  }

  lemma EncodeDecodedPage(kind: PageKind, b: seq<byte>)
    requires DecodePage(kind, b).Success?
    ensures EncodePage(kind, DecodePage(kind, b).value) == Success(b)
  {
    hide TakePage, EntriesBytes, U16Bytes;
    TakePageExact(kind, b);
    var p := DecodePage(kind, b).value;
    assert EntriesBytes(p.updates) + [] == EntriesBytes(p.updates);
    assert b == PageBytes(p);
  }

  /** For either operation, decoding accepts exactly the pages encoding produces. */
  lemma PageIsCanonical(kind: PageKind, p: Page, b: seq<byte>)
    ensures DecodePage(kind, b) == Success(p) <==> EncodePage(kind, p) == Success(b)
  {
    if DecodePage(kind, b).Success? { EncodeDecodedPage(kind, b); }
    if EncodePage(kind, p).Success? { DecodeEncodedPage(kind, p); }
  }

  lemma RegroupEntry(a: seq<byte>, b: seq<byte>, c: seq<byte>, d: seq<byte>, e: seq<byte>)
    ensures a + b + c + d + e == a + (b + ((c + d) + e))
  {
    assert a + b + c + d + e == a + (b + (c + (d + e)));
    assert c + (d + e) == (c + d) + e;
  }

  lemma RegroupPage(a: seq<byte>, b: seq<byte>, c: seq<byte>, d: seq<byte>, e: seq<byte>)
    ensures a + b + c + d + e == a + (b + (c + (d + e)))
  {
  }

  method AppendEntry(buffer: seq<byte>, m: UpdateMetadata) returns (encoded: seq<byte>)
    ensures encoded == buffer + EntryBytes(m)
  {
    hide RangesBytes, U16Bytes, U32Bytes, MetadataLength;
    encoded := buffer + m.updateId;
    encoded := encoded + U16Bytes(|m.ranges|);
    encoded := AppendRanges(encoded, m.ranges);
    encoded := encoded + U32Bytes(m.payloadLength);
    RegroupEntry(buffer, m.updateId, U16Bytes(|m.ranges|), RangesBytes(m.ranges), U32Bytes(m.payloadLength));
  }

  method AppendEntries(buffer: seq<byte>, updates: seq<UpdateMetadata>) returns (encoded: seq<byte>)
    ensures encoded == buffer + EntriesBytes(updates)
  {
    hide EntryBytes, EntriesBytes, MetadataLength;
    encoded := buffer;
    assert updates[0..] == updates;
    for i := 0 to |updates|
      invariant encoded + EntriesBytes(updates[i..]) == buffer + EntriesBytes(updates)
    {
      assert updates[i..] == [updates[i]] + updates[i + 1..];
      EntriesBytesCons(updates[i], updates[i + 1..], []);
      var tail := EntriesBytes(updates[i + 1..]);
      assert tail + [] == tail && EntriesBytes(updates[i..]) + [] == EntriesBytes(updates[i..]);
      assert encoded + (EntryBytes(updates[i]) + tail) == (encoded + EntryBytes(updates[i])) + tail;
      encoded := AppendEntry(encoded, updates[i]);
    }
    assert |EntriesBytes(updates[|updates|..])| == 0 by { NothingToAppend(); }
    assert encoded + EntriesBytes(updates[|updates|..]) == encoded;
  }

  lemma NothingToAppend()
    ensures |EntriesBytes([])| == 0
  {
  }

  /** Writes a page and refuses it only when its states disagree or it outgrows one payload. */
  method WritePage(kind: PageKind, p: Page) returns (r: Result<seq<byte>, CodecError>)
    ensures r == EncodePage(kind, p)
  {
    hide U16Bytes, EntriesBytes, EntriesLength;
    if !Consistent(kind, p.hasMore, p.cursor.Some?, p.updates != []) { return Failure(InvalidCursor); }
    if |p.updates| > U16_MAX { return Failure(IntegerOutOfRange); }
    if p.cursor.Some? && |p.cursor.value| != CONTINUATION_LENGTH { return Failure(InvalidCursor); }
    var flag: seq<byte> := [if p.hasMore then 1 else 0];
    var payload := flag;
    payload := payload + U16Bytes(|CursorBytes(p.cursor)|);
    if p.cursor.Some? { payload := payload + p.cursor.value; } else { assert payload + [] == payload; }
    payload := payload + U16Bytes(|p.updates|);
    payload := AppendEntries(payload, p.updates);
    RegroupPage(flag, U16Bytes(|CursorBytes(p.cursor)|), CursorBytes(p.cursor), U16Bytes(|p.updates|), EntriesBytes(p.updates));
    if |payload| > MAX_APPLICATION_PAYLOAD_LENGTH { return Failure(RecordTooLong); }
    return Success(payload);
  }

  method ReadPage(kind: PageKind, payload: seq<byte>) returns (r: Result<Page, CodecError>)
    ensures r == DecodePage(kind, payload)
  {
    if |payload| > MAX_APPLICATION_PAYLOAD_LENGTH { return Failure(RecordTooLong); }
    var decoder := new Decoder(payload);
    var flag := decoder.Take(1);
    if flag.Bad? { return Failure(flag.error); }
    if flag.value[0] > 1 { return Failure(InvalidDiscriminant); }
    var hasMore := flag.value[0] == 1;
    var cursor := ReadCursor(decoder);
    if cursor.Bad? { return Failure(cursor.error); }
    if kind.VectorBackfill? && hasMore != cursor.value.Some? { return Failure(InvalidCursor); }
    var count := decoder.TakeU16();
    if count.Bad? { return Failure(count.error); }
    if !Consistent(kind, hasMore, cursor.value.Some?, count.value != 0) { return Failure(InvalidCursor); }
    var updates := ReadEntries(decoder, count.value);
    if updates.Bad? { return Failure(updates.error); }
    if decoder.remaining != [] { return Failure(TrailingBytes); }
    return Success(Page(hasMore, cursor.value, updates.value));
  }

  method ReadCursor(decoder: Decoder) returns (r: Parsed<Option<seq<byte>>>)
    modifies decoder
    ensures r == TakeCursor(old(decoder.remaining))
    ensures r.Parsed? ==> decoder.remaining == r.rest
  {
    var length := decoder.TakeU16();
    if length.Bad? { return Bad(length.error); }
    if length.value == 0 { return Parsed(None, decoder.remaining); }
    if length.value != CONTINUATION_LENGTH { return Bad(InvalidCursor); }
    var cursor := decoder.Take(length.value);
    if cursor.Bad? { return Bad(cursor.error); }
    return Parsed(Some(cursor.value), decoder.remaining);
  }

  method ReadEntries(decoder: Decoder, count: nat) returns (r: Parsed<seq<UpdateMetadata>>)
    modifies decoder
    ensures r == TakeEntries(old(decoder.remaining), count)
    ensures r.Parsed? ==> decoder.remaining == r.rest
  {
    hide TakePublicRanges, TakeU32, TakeIdentifier;
    var updates: seq<UpdateMetadata> := [];
    assert Prepend([], TakeEntries(decoder.remaining, count)) == TakeEntries(decoder.remaining, count) by {
      if TakeEntries(decoder.remaining, count).Parsed? {
        assert [] + TakeEntries(decoder.remaining, count).value == TakeEntries(decoder.remaining, count).value;
      }
    }
    for i := 0 to count
      invariant TakeEntries(old(decoder.remaining), count)
             == Prepend(updates, TakeEntries(decoder.remaining, count - i))
    {
      var updateId := decoder.TakeIdentifier();
      if updateId.Bad? { return Bad(updateId.error); }
      var ranges := ReadPublicRanges(decoder);
      if ranges.Bad? { return Bad(ranges.error); }
      var length := decoder.TakeU32();
      if length.Bad? { return Bad(length.error); }
      var entry := UpdateMetadata(length.value, ranges.value, updateId.value);
      PrependTwice(updates, entry, TakeEntries(decoder.remaining, count - i - 1));
      updates := updates + [entry];
    }
    assert updates + [] == updates;
    return Parsed(updates, decoder.remaining);
  }

  // ---- Oplog versions -----------------------------------------------------

  const OPLOG_VERSION_MAGIC: seq<byte> := [0x43, 0x41, 0x52, 0x42, 0x56, 0x56, 0x00, 0x00]
  const OPLOG_VERSION_FORMAT_VERSION: u16 := 1
  const OPLOG_VERSION_HEADER_LENGTH: nat := 12
  const OPLOG_VERSION_ENTRY_LENGTH: nat := 12

  function VersionEntryBytes(e: LoroOplogVersionEntry): (b: seq<byte>)
    ensures |b| == OPLOG_VERSION_ENTRY_LENGTH
  {
    U64Bytes(e.peer) + U32Bytes(e.end)
  }

  function VersionEntriesBytes(entries: seq<LoroOplogVersionEntry>): (b: seq<byte>)
    ensures |b| == OPLOG_VERSION_ENTRY_LENGTH * |entries|
  {
    if entries == [] then [] else VersionEntryBytes(entries[0]) + VersionEntriesBytes(entries[1..])
  }

  /** The encoding never fails: a valid version names at most 256 peers. */
  function EncodeVersion(version: LoroOplogVersion): (b: seq<byte>)
    ensures |b| == OPLOG_VERSION_HEADER_LENGTH + OPLOG_VERSION_ENTRY_LENGTH * |version|
  {
    OPLOG_VERSION_MAGIC + (U16Bytes(OPLOG_VERSION_FORMAT_VERSION)
      + (U16Bytes(|version|) + VersionEntriesBytes(version)))
  }

  function ChunkEntry(chunk: seq<byte>): Option<LoroOplogVersionEntry>
    requires |chunk| == OPLOG_VERSION_ENTRY_LENGTH
  {
    match NewEntry(U64From(chunk[..8]), U32From(chunk[8..]))
    case Success(e) => Some(e)
    case Failure(_) => None
  }

  function ChunkEntries(b: seq<byte>): Option<seq<LoroOplogVersionEntry>>
    requires |b| % OPLOG_VERSION_ENTRY_LENGTH == 0
  {
    if b == [] then Some([])
    else
      var head := ChunkEntry(b[..OPLOG_VERSION_ENTRY_LENGTH]);
      var tail := ChunkEntries(b[OPLOG_VERSION_ENTRY_LENGTH..]);
      if head.None? || tail.None? then None else Some([head.value] + tail.value)
  }

  /** Every structural failure is the one error InvalidLoroMetadata, here None. */
  function DecodeVersion(b: seq<byte>): Option<LoroOplogVersion> {
    if |b| < OPLOG_VERSION_HEADER_LENGTH || b[..8] != OPLOG_VERSION_MAGIC then None
    else
      var count := U16From(b[10..12]);
      if U16From(b[8..10]) != OPLOG_VERSION_FORMAT_VERSION || count > MAX_LORO_PEERS
        || |b| != OPLOG_VERSION_HEADER_LENGTH + count * OPLOG_VERSION_ENTRY_LENGTH then None
      else
        match ChunkEntries(b[OPLOG_VERSION_HEADER_LENGTH..])
        case None => None
        case Some(entries) => if ValidVersion(entries) then Some(entries) else None
  }

  lemma ChunkEntryRoundTrip(e: LoroOplogVersionEntry, chunk: seq<byte>)
    ensures ChunkEntry(VersionEntryBytes(e)) == Some(e)
    ensures |chunk| == OPLOG_VERSION_ENTRY_LENGTH && ChunkEntry(chunk).Some? ==>
      VersionEntryBytes(ChunkEntry(chunk).value) == chunk
  {
    var b := VersionEntryBytes(e);
    assert b[..8] == U64Bytes(e.peer) && b[8..] == U32Bytes(e.end);
    U64RoundTrip(e.peer, []);
    U32RoundTrip(e.end, []);
    if |chunk| == OPLOG_VERSION_ENTRY_LENGTH {
      U64RoundTrip(0, chunk[..8]);
      U32RoundTrip(0, chunk[8..]);
      assert chunk == chunk[..8] + chunk[8..];
    }
  }

  lemma {:induction false} ChunkEntriesEncoded(entries: seq<LoroOplogVersionEntry>)
    ensures ChunkEntries(VersionEntriesBytes(entries)) == Some(entries)
  {
    if entries != [] {
      var b := VersionEntriesBytes(entries);
      assert b[..OPLOG_VERSION_ENTRY_LENGTH] == VersionEntryBytes(entries[0]);
      assert b[OPLOG_VERSION_ENTRY_LENGTH..] == VersionEntriesBytes(entries[1..]);
      ChunkEntryRoundTrip(entries[0], []);
      ChunkEntriesEncoded(entries[1..]);
      assert [entries[0]] + entries[1..] == entries;
    }
  }

  lemma {:induction false} ChunkEntriesExact(b: seq<byte>)
    requires |b| % OPLOG_VERSION_ENTRY_LENGTH == 0 && ChunkEntries(b).Some?
    ensures VersionEntriesBytes(ChunkEntries(b).value) == b
    ensures |ChunkEntries(b).value| * OPLOG_VERSION_ENTRY_LENGTH == |b|
    decreases |b|
  {
    if b != [] {
      var head, tail := b[..OPLOG_VERSION_ENTRY_LENGTH], b[OPLOG_VERSION_ENTRY_LENGTH..];
      ChunkEntryRoundTrip(VersionEntry(0, 1), head);
      ChunkEntriesExact(tail);
      assert ([ChunkEntry(head).value] + ChunkEntries(tail).value)[1..] == ChunkEntries(tail).value;
      assert b == head + tail;
    }
  }

  lemma VersionEncodes(version: LoroOplogVersion)
    ensures DecodeVersion(EncodeVersion(version)) == Some(version)
  {
    hide VersionEntriesBytes, ChunkEntries, U16Bytes;
    var e := EncodeVersion(version);
    assert e[..8] == OPLOG_VERSION_MAGIC;
    assert e[8..10] == U16Bytes(OPLOG_VERSION_FORMAT_VERSION);
    assert e[10..12] == U16Bytes(|version|);
    assert e[OPLOG_VERSION_HEADER_LENGTH..] == VersionEntriesBytes(version);
    U16RoundTrip(OPLOG_VERSION_FORMAT_VERSION, []);
    U16RoundTrip(|version|, []);
    ChunkEntriesEncoded(version);
  }

  lemma VersionDecodes(b: seq<byte>)
    requires DecodeVersion(b).Some?
    ensures EncodeVersion(DecodeVersion(b).value) == b
  {
    hide VersionEntriesBytes, ChunkEntries, U16Bytes;
    ChunkEntriesExact(b[OPLOG_VERSION_HEADER_LENGTH..]);
    U16RoundTrip(0, b[8..10]);
    U16RoundTrip(0, b[10..12]);
    assert b == b[..8] + (b[8..10] + (b[10..12] + b[12..]));
  }

  /** A version and its durable representation determine each other. */
  lemma VersionIsCanonical(version: LoroOplogVersion, b: seq<byte>)
    ensures DecodeVersion(b) == Some(version) <==> EncodeVersion(version) == b
  {
    hide EncodeVersion, DecodeVersion;
    VersionEncodes(version);
    if DecodeVersion(b).Some? { VersionDecodes(b); }
  }
}
