/** The canonical durable update record and the public metadata it carries. */
module UpdateRecord {
  import opened Prelude
  import opened Types
  import opened Bytes
  import opened Decoding

  const MAX_BODY_LENGTH: nat := 4096
  const ENVELOPE_HEADER_LENGTH: nat := 24
  const MAX_APPLICATION_PAYLOAD_LENGTH: nat := MAX_BODY_LENGTH - ENVELOPE_HEADER_LENGTH
  const CAPABILITY_AUTHORITY_LENGTH: nat := 48
  const MAX_UPDATE_RECORD_LENGTH: nat := MAX_APPLICATION_PAYLOAD_LENGTH - CAPABILITY_AUTHORITY_LENGTH
  const RANGE_LENGTH: nat := 16
  const RECORD_FIXED_LENGTH: nat := 50
  const CONTINUATION_LENGTH: nat := 32
  const RESPONSE_WITH_CURSOR_LENGTH: nat := 1 + 2 + CONTINUATION_LENGTH + 2
  const MAX_ENUMERABLE_METADATA_LENGTH: nat := MAX_APPLICATION_PAYLOAD_LENGTH - RESPONSE_WITH_CURSOR_LENGTH

  const RECORD_MAGIC: seq<byte> := [0x43, 0x41, 0x52, 0x42, 0x52, 0x45, 0x43, 0x00]
  const RECORD_VERSION: u16 := 1
  const LORO_PROFILE_CODE: u16 := 1

  // ---- Range lists --------------------------------------------------------

  function RangeBytes(r: LoroRange): (b: seq<byte>)
    ensures |b| == RANGE_LENGTH
  {
    U64Bytes(r.peer) + (U32Bytes(r.start) + U32Bytes(r.end))
  }

  function RangesBytes(ranges: seq<LoroRange>): (b: seq<byte>)
    ensures |b| == RANGE_LENGTH * |ranges|
  {
    if ranges == [] then [] else RangeBytes(ranges[0]) + RangesBytes(ranges[1..])
  }

  function TakeRange(b: seq<byte>): Parsed<LoroRange> {
    var (peer, afterPeer) :- TakeU64(b);
    var (start, afterStart) :- TakeU32(afterPeer);
    var (end, rest) :- TakeU32(afterStart);
    match NewRange(peer, start, end)
    case Success(r) => Parsed(r, rest)
    case Failure(_) => Bad(InvalidLoroMetadata)
  }

  function Prepend<T>(front: seq<T>, p: Parsed<seq<T>>): Parsed<seq<T>> {
    match p
    case Bad(error) => Bad(error)
    case Parsed(back, rest) => Parsed(front + back, rest)
  }

  lemma PrependTwice<T>(front: seq<T>, next: T, p: Parsed<seq<T>>)
    ensures Prepend(front, Prepend([next], p)) == Prepend(front + [next], p)
    ensures Prepend([], p) == p
  {
    if p.Parsed? {
      assert front + ([next] + p.value) == front + [next] + p.value;
      assert [] + p.value == p.value;
    }
  }

  function TakeRanges(b: seq<byte>, count: nat): (p: Parsed<seq<LoroRange>>)
    ensures p.Parsed? ==> |p.value| == count
  {
    if count == 0 then Parsed([], b)
    else
      var (r, afterRange) :- TakeRange(b);
      Prepend([r], TakeRanges(afterRange, count - 1))
  }

  /** A counted, canonical list of public ranges. */
  function CountedRangesBytes(ranges: PublicLoroRanges): (b: seq<byte>)
    ensures |b| == 2 + RANGE_LENGTH * |ranges|
  {
    U16Bytes(|ranges|) + RangesBytes(ranges)
  }

  function TakePublicRanges(b: seq<byte>): Parsed<PublicLoroRanges> {
    var (count, afterCount) :- TakeU16(b);
    if count == 0 || count > MAX_LORO_PEERS then Bad(InvalidLoroMetadata)
    else
      var (ranges, rest) :- TakeRanges(afterCount, count);
      if ValidRanges(ranges) then Parsed(ranges, rest) else Bad(InvalidLoroMetadata)
  }

  lemma TakeRangeFront(r: LoroRange, rest: seq<byte>)
    ensures TakeRange(RangeBytes(r) + rest) == Parsed(r, rest)
  {
    var tail := U32Bytes(r.end) + rest;
    assert RangeBytes(r) + rest == U64Bytes(r.peer) + (U32Bytes(r.start) + tail);
    TakeU64Front(r.peer, U32Bytes(r.start) + tail);
    TakeU32Front(r.start, tail);
    TakeU32Front(r.end, rest);
  }

  lemma TakeRangeExact(b: seq<byte>)
    ensures TakeRange(b).Parsed? ==> b == RangeBytes(TakeRange(b).value) + TakeRange(b).rest
  {
    if TakeRange(b).Parsed? {
      TakeU64Exact(b);
      TakeU32Exact(TakeU64(b).rest);
      TakeU32Exact(TakeU32(TakeU64(b).rest).rest);
    }
  }

  lemma {:induction false} TakeRangesFront(ranges: seq<LoroRange>, rest: seq<byte>)
    ensures TakeRanges(RangesBytes(ranges) + rest, |ranges|) == Parsed(ranges, rest)
  {
    if ranges == [] {
      assert RangesBytes(ranges) + rest == rest;
    } else {
      var tail := RangesBytes(ranges[1..]) + rest;
      assert RangesBytes(ranges) + rest == RangeBytes(ranges[0]) + tail;
      TakeRangeFront(ranges[0], tail);
      TakeRangesFront(ranges[1..], rest);
      assert [ranges[0]] + ranges[1..] == ranges;
    }
  }

  lemma {:induction false} TakeRangesExact(b: seq<byte>, count: nat)
    ensures TakeRanges(b, count).Parsed? ==> b == RangesBytes(TakeRanges(b, count).value) + TakeRanges(b, count).rest
    decreases count
  {
    hide RangeBytes, TakeRange;
    if count > 0 && TakeRanges(b, count).Parsed? {
      TakeRangeExact(b);
      var head := TakeRange(b);
      TakeRangesExact(head.rest, count - 1);
      RangesBytesCons(head.value, TakeRanges(head.rest, count - 1).value, TakeRanges(head.rest, count - 1).rest);
    }
  }

  lemma RangesBytesCons(r: LoroRange, rs: seq<LoroRange>, rest: seq<byte>)
    ensures RangesBytes([r] + rs) + rest == RangeBytes(r) + (RangesBytes(rs) + rest)
  {
    assert ([r] + rs)[1..] == rs;
  }

  lemma TakePublicRangesFront(ranges: PublicLoroRanges, rest: seq<byte>)
    ensures TakePublicRanges(CountedRangesBytes(ranges) + rest) == Parsed(ranges, rest)
  {
    assert CountedRangesBytes(ranges) + rest == U16Bytes(|ranges|) + (RangesBytes(ranges) + rest);
    TakeU16Front(|ranges|, RangesBytes(ranges) + rest);
    TakeRangesFront(ranges, rest);
  }

  lemma TakePublicRangesExact(b: seq<byte>)
    ensures TakePublicRanges(b).Parsed? ==>
      b == CountedRangesBytes(TakePublicRanges(b).value) + TakePublicRanges(b).rest
  {
    if TakePublicRanges(b).Parsed? {
      TakeU16Exact(b);
      TakeRangesExact(TakeU16(b).rest, TakeU16(b).value);
    }
  }

  // ---- Records ------------------------------------------------------------

  /** The bytes one metadata entry needs: identifier, counted ranges, payload length. */
  function MetadataLength(ranges: seq<LoroRange>): nat {
    IDENTIFIER_LENGTH + 2 + RANGE_LENGTH * |ranges| + 4
  }

  function RecordBytes(u: ImmutableUpdate): (b: seq<byte>)
    requires |u.payload| <= U32_MAX
    ensures |b| == RECORD_FIXED_LENGTH + RANGE_LENGTH * |u.ranges| + |u.payload|
  {
    RECORD_MAGIC + (U16Bytes(RECORD_VERSION) + (U16Bytes(LORO_PROFILE_CODE) + (u.documentId
      + (u.updateId + (CountedRangesBytes(u.ranges) + (U32Bytes(|u.payload|) + u.payload))))))
  }

  function EncodeUpdateRecord(u: ImmutableUpdate): Result<seq<byte>, CodecError> {
    if |u.payload| > U32_MAX then Failure(IntegerOutOfRange)
    else if MetadataLength(u.ranges) > MAX_ENUMERABLE_METADATA_LENGTH then Failure(MetadataTooLong)
    else if |u.payload| == 0 then Failure(EmptyEncryptedPayload)
    else if RECORD_FIXED_LENGTH + RANGE_LENGTH * |u.ranges| + |u.payload| > MAX_UPDATE_RECORD_LENGTH
      then Failure(RecordTooLong)
    else Success(RecordBytes(u))
  }

  /** Everything after the fixed header, once both versions have been accepted. */
  function TakeUpdate(b: seq<byte>): Parsed<ImmutableUpdate> {
    var (documentId, afterDocument) :- TakeIdentifier(b);
    var (updateId, afterUpdate) :- TakeIdentifier(afterDocument);
    var (ranges, afterRanges) :- TakePublicRanges(afterUpdate);
    var (length, afterLength) :- TakeU32(afterRanges);
    if length == 0 then Bad(EmptyEncryptedPayload)
    else
      var (payload, rest) :- Take(afterLength, length);
      Parsed(ImmutableUpdate(documentId, updateId, ranges, payload), rest)
  }

  function TakeRecord(b: seq<byte>): Parsed<ImmutableUpdate> {
    var (magic, afterMagic) :- Take(b, 8);
    if magic != RECORD_MAGIC then Bad(InvalidRecordMagic)
    else
      var (version, afterVersion) :- TakeU16(afterMagic);
      if version != RECORD_VERSION then Bad(UnsupportedRecordVersion)
      else
        var (profile, afterProfile) :- TakeU16(afterVersion);
        if profile != LORO_PROFILE_CODE then Bad(UnsupportedLoroProfile)
        else TakeUpdate(afterProfile)
  }

  function DecodeUpdateRecord(b: seq<byte>): Result<ImmutableUpdate, CodecError> {
    if |b| > MAX_UPDATE_RECORD_LENGTH then Failure(RecordTooLong)
    else
      match TakeRecord(b)
      case Bad(error) => Failure(error)
      case Parsed(u, rest) =>
        if rest != [] then Failure(TrailingBytes)
        else if MetadataLength(u.ranges) > MAX_ENUMERABLE_METADATA_LENGTH then Failure(MetadataTooLong)
        else Success(u)
  }

  lemma TakeUpdateFront(u: ImmutableUpdate, rest: seq<byte>)
    requires 0 < |u.payload| <= U32_MAX
    ensures TakeUpdate(u.documentId + (u.updateId + (CountedRangesBytes(u.ranges)
              + (U32Bytes(|u.payload|) + (u.payload + rest))))) == Parsed(u, rest)
  {
    var afterLength := u.payload + rest;
    var afterRanges := U32Bytes(|u.payload|) + afterLength;
    var afterUpdate := CountedRangesBytes(u.ranges) + afterRanges;
    TakeFront(u.documentId, u.updateId + afterUpdate);
    TakeFront(u.updateId, afterUpdate);
    TakePublicRangesFront(u.ranges, afterRanges);
    TakeU32Front(|u.payload|, afterLength);
    TakeFront(u.payload, rest);
  }

  lemma TakeUpdateExact(b: seq<byte>)
    ensures TakeUpdate(b).Parsed? ==>
      var u := TakeUpdate(b).value;
      && 0 < |u.payload| <= U32_MAX
      && b == u.documentId + (u.updateId + (CountedRangesBytes(u.ranges)
                + (U32Bytes(|u.payload|) + (u.payload + TakeUpdate(b).rest))))
  {
    if TakeUpdate(b).Parsed? {
      TakeExact(b, 16);
      var afterDocument := TakeIdentifier(b).rest;
      TakeExact(afterDocument, 16);
      var afterUpdate := TakeIdentifier(afterDocument).rest;
      TakePublicRangesExact(afterUpdate);
      var afterRanges := TakePublicRanges(afterUpdate).rest;
      TakeU32Exact(afterRanges);
      TakeExact(TakeU32(afterRanges).rest, TakeU32(afterRanges).value);
    }
  }

  /** Every encodable update survives its canonical record. */
  lemma DecodeEncoded(u: ImmutableUpdate)
    requires EncodeUpdateRecord(u).Success?
    ensures DecodeUpdateRecord(EncodeUpdateRecord(u).value) == Success(u)
  {
    var body := u.documentId + (u.updateId + (CountedRangesBytes(u.ranges) + (U32Bytes(|u.payload|) + u.payload)));
    assert u.payload + [] == u.payload;
    TakeUpdateFront(u, []);
    TakeFront(RECORD_MAGIC, U16Bytes(RECORD_VERSION) + (U16Bytes(LORO_PROFILE_CODE) + body));
    TakeU16Front(RECORD_VERSION, U16Bytes(LORO_PROFILE_CODE) + body);
    TakeU16Front(LORO_PROFILE_CODE, body);
  }

  /** Decoding accepts no bytes but the canonical record of what it returns. */
  lemma EncodeDecoded(b: seq<byte>)
    requires DecodeUpdateRecord(b).Success?
    ensures EncodeUpdateRecord(DecodeUpdateRecord(b).value) == Success(b)
  {
    TakeExact(b, 8);
    var afterMagic := Take(b, 8).rest;
    TakeU16Exact(afterMagic);
    var afterVersion := TakeU16(afterMagic).rest;
    TakeU16Exact(afterVersion);
    TakeUpdateExact(TakeU16(afterVersion).rest);
    var u := DecodeUpdateRecord(b).value;
    assert u.payload + [] == u.payload;
    assert b == RecordBytes(u);
  }

  /** Decoding accepts exactly the image of encoding, so equal bytes mean equal updates. */
  lemma RecordIsCanonical(u: ImmutableUpdate, b: seq<byte>)
    ensures DecodeUpdateRecord(b) == Success(u) <==> EncodeUpdateRecord(u) == Success(b)
  {
    if DecodeUpdateRecord(b).Success? { EncodeDecoded(b); }
    if EncodeUpdateRecord(u).Success? { DecodeEncoded(u); }
  }

  /** A stored record always fits one cursor-bearing page, whatever ranges it names. */
  lemma RecordMetadataFits(b: seq<byte>)
    requires DecodeUpdateRecord(b).Success?
    ensures MetadataLength(DecodeUpdateRecord(b).value.ranges) <= 3990 < MAX_ENUMERABLE_METADATA_LENGTH
    ensures 0 < |DecodeUpdateRecord(b).value.payload| <= MAX_UPDATE_RECORD_LENGTH
  {
    EncodeDecoded(b);
    var u := DecodeUpdateRecord(b).value;
    assert RANGE_LENGTH * |u.ranges| <= 3973;
    assert |u.ranges| <= 248;
  }

  // ---- The decoder as the daemon runs it ----------------------------------

  method ReadRange(decoder: Decoder) returns (r: Parsed<LoroRange>)
    modifies decoder
    ensures r == TakeRange(old(decoder.remaining))
    ensures r.Parsed? ==> decoder.remaining == r.rest
  {
    var peer := decoder.TakeU64();
    if peer.Bad? { return Bad(peer.error); }
    var start := decoder.TakeU32();
    if start.Bad? { return Bad(start.error); }
    var end := decoder.TakeU32();
    if end.Bad? { return Bad(end.error); }
    match NewRange(peer.value, start.value, end.value) {
      case Success(range) => return Parsed(range, decoder.remaining);
      case Failure(_) => return Bad(InvalidLoroMetadata);
    }
  }

  method ReadPublicRanges(decoder: Decoder) returns (r: Parsed<PublicLoroRanges>)
    modifies decoder
    ensures r == TakePublicRanges(old(decoder.remaining))
    ensures r.Parsed? ==> decoder.remaining == r.rest
  {
    var count := decoder.TakeU16();
    if count.Bad? { return Bad(count.error); }
    if count.value == 0 || count.value > MAX_LORO_PEERS { return Bad(InvalidLoroMetadata); }
    var ranges := ReadRanges(decoder, count.value);
    if ranges.Bad? { return Bad(ranges.error); }
    var checked := NewRanges(ranges.value);
    if checked.Failure? { return Bad(InvalidLoroMetadata); }
    return Parsed(checked.value, decoder.remaining);
  }

  method ReadRanges(decoder: Decoder, count: nat) returns (r: Parsed<seq<LoroRange>>)
    modifies decoder
    ensures r == TakeRanges(old(decoder.remaining), count)
    ensures r.Parsed? ==> decoder.remaining == r.rest
  {
    hide TakeRange, TakePublicRanges;
    var ranges: seq<LoroRange> := [];
    PrependTwice([], Range(0, 0, 1), TakeRanges(decoder.remaining, count));
    for i := 0 to count
      invariant TakeRanges(old(decoder.remaining), count)
             == Prepend(ranges, TakeRanges(decoder.remaining, count - i))
    {
      ghost var before := decoder.remaining;
      var range := ReadRange(decoder);
      if range.Bad? { return Bad(range.error); }
      PrependTwice(ranges, range.value, TakeRanges(decoder.remaining, count - i - 1));
      ranges := ranges + [range.value];
    }
    assert ranges + [] == ranges;
    return Parsed(ranges, decoder.remaining);
  }

  method ReadUpdateRecord(encoded: seq<byte>) returns (r: Result<ImmutableUpdate, CodecError>)
    ensures r == DecodeUpdateRecord(encoded)
  {
    if |encoded| > MAX_UPDATE_RECORD_LENGTH { return Failure(RecordTooLong); }
    var decoder := new Decoder(encoded);
    var magic := decoder.Take(8);
    if magic.Bad? { return Failure(magic.error); }
    if magic.value != RECORD_MAGIC { return Failure(InvalidRecordMagic); }
    var version := decoder.TakeU16();
    if version.Bad? { return Failure(version.error); }
    if version.value != RECORD_VERSION { return Failure(UnsupportedRecordVersion); }
    var profile := decoder.TakeU16();
    if profile.Bad? { return Failure(profile.error); }
    if profile.value != LORO_PROFILE_CODE { return Failure(UnsupportedLoroProfile); }
    var documentId := decoder.TakeIdentifier();
    if documentId.Bad? { return Failure(documentId.error); }
    var updateId := decoder.TakeIdentifier();
    if updateId.Bad? { return Failure(updateId.error); }
    var ranges := ReadPublicRanges(decoder);
    if ranges.Bad? { return Failure(ranges.error); }
    var length := decoder.TakeU32();
    if length.Bad? { return Failure(length.error); }
    if length.value == 0 { return Failure(EmptyEncryptedPayload); }
    var payload := decoder.Take(length.value);
    if payload.Bad? { return Failure(payload.error); }
    if decoder.remaining != [] { return Failure(TrailingBytes); }
    if MetadataLength(ranges.value) > MAX_ENUMERABLE_METADATA_LENGTH { return Failure(MetadataTooLong); }
    return Success(ImmutableUpdate(documentId.value, updateId.value, ranges.value, payload.value));
  }

  /** The encoder appends field after field to one buffer. */
  method WriteUpdateRecord(u: ImmutableUpdate) returns (r: Result<seq<byte>, CodecError>)
    ensures r == EncodeUpdateRecord(u)
  {
    if |u.payload| > U32_MAX { return Failure(IntegerOutOfRange); }
    if MetadataLength(u.ranges) > MAX_ENUMERABLE_METADATA_LENGTH { return Failure(MetadataTooLong); }
    if |u.payload| == 0 { return Failure(EmptyEncryptedPayload); }
    if RECORD_FIXED_LENGTH + RANGE_LENGTH * |u.ranges| + |u.payload| > MAX_UPDATE_RECORD_LENGTH {
      return Failure(RecordTooLong);
    }
    var encoded := AppendHeader(u);
    ghost var header := encoded;
    encoded := encoded + U16Bytes(|u.ranges|);
    encoded := AppendRanges(encoded, u.ranges);
    encoded := encoded + U32Bytes(|u.payload|);
    encoded := encoded + u.payload;
    Regroup(header, U16Bytes(|u.ranges|), RangesBytes(u.ranges), U32Bytes(|u.payload|), u.payload);
    HeaderBytes(u, CountedRangesBytes(u.ranges) + (U32Bytes(|u.payload|) + u.payload));
    return Success(encoded);
  }

  lemma Regroup(a: seq<byte>, b: seq<byte>, c: seq<byte>, d: seq<byte>, e: seq<byte>)
    ensures a + b + c + d + e == a + ((b + c) + (d + e))
  {
  }

  method AppendHeader(u: ImmutableUpdate) returns (encoded: seq<byte>)
    ensures encoded == RECORD_MAGIC + U16Bytes(RECORD_VERSION) + U16Bytes(LORO_PROFILE_CODE) + u.documentId + u.updateId
  {
    encoded := RECORD_MAGIC;
    encoded := encoded + U16Bytes(RECORD_VERSION);
    encoded := encoded + U16Bytes(LORO_PROFILE_CODE);
    encoded := encoded + u.documentId;
    encoded := encoded + u.updateId;
  }

  lemma HeaderBytes(u: ImmutableUpdate, tail: seq<byte>)
    ensures RECORD_MAGIC + U16Bytes(RECORD_VERSION) + U16Bytes(LORO_PROFILE_CODE) + u.documentId + u.updateId + tail
         == RECORD_MAGIC + (U16Bytes(RECORD_VERSION) + (U16Bytes(LORO_PROFILE_CODE) + (u.documentId
              + (u.updateId + tail))))
  {
  }

  lemma AppendOne(buffer: seq<byte>, r: LoroRange, rs: seq<LoroRange>)
    ensures buffer + U64Bytes(r.peer) + U32Bytes(r.start) + U32Bytes(r.end) + RangesBytes(rs)
         == buffer + RangesBytes([r] + rs)
  {
    assert ([r] + rs)[1..] == rs;
    var p, x, y, tail := U64Bytes(r.peer), U32Bytes(r.start), U32Bytes(r.end), RangesBytes(rs);
    assert buffer + p + x + y + tail == buffer + ((p + (x + y)) + tail);
  }

  /** Appends a list of ranges to a buffer, one fixed-width entry at a time. */
  method AppendRanges(buffer: seq<byte>, ranges: seq<LoroRange>) returns (encoded: seq<byte>)
    ensures encoded == buffer + RangesBytes(ranges)
  {
    hide RangesBytes, U64Bytes, U32Bytes;
    encoded := buffer;
    assert ranges[0..] == ranges;
    for i := 0 to |ranges|
      invariant encoded + RangesBytes(ranges[i..]) == buffer + RangesBytes(ranges)
    {
      assert ranges[i..] == [ranges[i]] + ranges[i + 1..];
      AppendOne(encoded, ranges[i], ranges[i + 1..]);
      encoded := encoded + U64Bytes(ranges[i].peer);
      encoded := encoded + U32Bytes(ranges[i].start);
      encoded := encoded + U32Bytes(ranges[i].end);
    }
    assert |RangesBytes(ranges[|ranges|..])| == 0;
    assert encoded + RangesBytes(ranges[|ranges|..]) == encoded;
  }
}
