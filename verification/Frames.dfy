/** Envelopes, the length-prefixed stream, and the authority layer around an update record. */
module Frames {
  import opened Prelude
  import opened Types
  import opened Bytes
  import opened UpdateRecord

  const MAGIC: seq<byte> := [0x52, 0x4E, 0x45, 0x30]
  const VERSION: u16 := 0
  const ACCEPT_UPDATE: u16 := 10

  datatype Envelope = Envelope(correlationId: Identifier, messageType: u16, payload: seq<byte>, version: u16)

  datatype FrameError = TooLong | Short | InvalidMagic

  function BodyBytes(e: Envelope): (b: seq<byte>)
    ensures |b| == ENVELOPE_HEADER_LENGTH + |e.payload|
  {
    MAGIC + U16Bytes(e.version) + U16Bytes(e.messageType) + e.correlationId + e.payload
  }

  function EncodeBody(e: Envelope): Result<seq<byte>, FrameError> {
    if ENVELOPE_HEADER_LENGTH + |e.payload| > MAX_BODY_LENGTH then Failure(TooLong) else Success(BodyBytes(e))
  }

  function DecodeBody(b: seq<byte>): Result<Envelope, FrameError> {
    if |b| > MAX_BODY_LENGTH then Failure(TooLong)
    else if |b| < ENVELOPE_HEADER_LENGTH then Failure(Short)
    else if b[..4] != MAGIC then Failure(InvalidMagic)
    else Success(Envelope(b[8..24], U16From(b[6..8]), b[24..], U16From(b[4..6])))
  }

  /** A body and its envelope determine each other. */
  lemma BodyIsCanonical(e: Envelope, b: seq<byte>)
    ensures DecodeBody(b) == Success(e) <==> EncodeBody(e) == Success(b)
  {
    var f := BodyBytes(e);
    assert f[..4] == MAGIC && f[4..6] == U16Bytes(e.version) && f[6..8] == U16Bytes(e.messageType);
    assert f[8..24] == e.correlationId && f[24..] == e.payload;
    U16RoundTrip(e.version, []);
    U16RoundTrip(e.messageType, []);
    if DecodeBody(b) == Success(e) {
      U16RoundTrip(0, b[4..6]);
      U16RoundTrip(0, b[6..8]);
      assert b == b[..4] + b[4..6] + b[6..8] + b[8..24] + b[24..];
    }
  }

  // ---- The length-prefixed stream ------------------------------------------

  datatype ReadOutcome =
    | CleanEof
    | Body(body: seq<byte>, rest: seq<byte>)
    | UnexpectedEof
    | OverLimit

  function Frame(body: seq<byte>): seq<byte>
    requires |body| <= MAX_BODY_LENGTH
  {
    U32Bytes(|body|) + body
  }

  /** End of stream is clean only before the first prefix byte. */
  function NextBody(stream: seq<byte>): (r: ReadOutcome)
    ensures r.Body? ==> |r.rest| < |stream|
  {
    if stream == [] then CleanEof
    else if |stream| < 4 then UnexpectedEof
    else
      var length := U32From(stream[..4]);
      if length > MAX_BODY_LENGTH then OverLimit
      else if |stream| < 4 + length then UnexpectedEof
      else Body(stream[4..4 + length], stream[4 + length..])
  }

  function AllBodies(stream: seq<byte>): Option<seq<seq<byte>>>
    decreases |stream|
  {
    match NextBody(stream)
    case CleanEof => Some([])
    case Body(body, rest) =>
      (match AllBodies(rest) case None => None case Some(bodies) => Some([body] + bodies))
    case _ => None
  }

  function FrameAll(bodies: seq<seq<byte>>): seq<byte>
    requires forall b :: b in bodies ==> |b| <= MAX_BODY_LENGTH
  {
    if bodies == [] then [] else Frame(bodies[0]) + FrameAll(bodies[1..])
  }

  lemma NextBodyFront(body: seq<byte>, rest: seq<byte>)
    requires |body| <= MAX_BODY_LENGTH
    ensures NextBody(Frame(body) + rest) == Body(body, rest)
  {
    var stream := Frame(body) + rest;
    assert stream[..4] == U32Bytes(|body|);
    U32RoundTrip(|body|, []);
    assert stream[4..4 + |body|] == body && stream[4 + |body|..] == rest;
  }

  lemma NextBodyExact(stream: seq<byte>)
    requires NextBody(stream).Body?
    ensures |NextBody(stream).body| <= MAX_BODY_LENGTH
    ensures stream == Frame(NextBody(stream).body) + NextBody(stream).rest
  {
    U32RoundTrip(0, stream[..4]);
    var length := U32From(stream[..4]);
    assert stream == stream[..4] + stream[4..4 + length] + stream[4 + length..];
  }

  /** Any concatenation of frames splits back into the same bodies. */
  lemma {:induction false} FramesSplit(bodies: seq<seq<byte>>)
    requires forall b :: b in bodies ==> |b| <= MAX_BODY_LENGTH
    ensures AllBodies(FrameAll(bodies)) == Some(bodies)
  {
    if bodies != [] {
      NextBodyFront(bodies[0], FrameAll(bodies[1..]));
      FramesSplit(bodies[1..]);
      assert [bodies[0]] + bodies[1..] == bodies;
    }
  }

  /** A stream that splits into bodies is exactly the concatenation of their frames. */
  lemma {:induction false} SplitIsFrames(stream: seq<byte>)
    requires AllBodies(stream).Some?
    ensures forall b :: b in AllBodies(stream).value ==> |b| <= MAX_BODY_LENGTH
    ensures FrameAll(AllBodies(stream).value) == stream
    decreases |stream|
  {
    if stream != [] {
      var next := NextBody(stream);
      NextBodyExact(stream);
      SplitIsFrames(next.rest);
      assert ([next.body] + AllBodies(next.rest).value)[1..] == AllBodies(next.rest).value;
    }
  }

  /** One direction of a connection: bytes are appended by the writer and consumed by the reader. */
  class ByteStream {
    var bytes: seq<byte>

    constructor ()
      ensures bytes == []
    {
      bytes := [];
    }

    /** Writes one length prefix and body; an oversized body writes nothing. */
    method WriteBody(body: seq<byte>) returns (ok: bool)
      modifies this
      ensures ok == (|body| <= MAX_BODY_LENGTH)
      ensures bytes == if ok then old(bytes) + Frame(body) else old(bytes)
    {
      if |body| > MAX_BODY_LENGTH { return false; }
      bytes := bytes + U32Bytes(|body|);
      bytes := bytes + body;
      return true;
    }

    /** Reads one body; only a complete frame is consumed. */
    method ReadBody() returns (r: ReadOutcome)
      modifies this
      ensures r == NextBody(old(bytes))
      ensures r.Body? ==> bytes == r.rest
    {
      if bytes == [] { return CleanEof; }
      if |bytes| < 4 { return UnexpectedEof; }
      var length := U32From(bytes[..4]);
      bytes := bytes[4..];
      if length > MAX_BODY_LENGTH { return OverLimit; }
      if |bytes| < length { return UnexpectedEof; }
      r := Body(bytes[..length], bytes[length..]);
      bytes := bytes[length..];
    }
  }

  // ---- Authority around a record ------------------------------------------

  datatype Authority = Authority(capabilityId: CapabilityId, authenticator: Authenticator)

  datatype AuthorizedUpdate = AuthorizedUpdate(authority: Authority, record: seq<byte>)

  function EncodeAuthorized(r: AuthorizedUpdate): Result<seq<byte>, FrameError> {
    if |r.record| > MAX_UPDATE_RECORD_LENGTH then Failure(TooLong)
    else if CAPABILITY_AUTHORITY_LENGTH + |r.record| > MAX_APPLICATION_PAYLOAD_LENGTH then Failure(TooLong)
    else Success(r.authority.capabilityId + r.authority.authenticator + r.record)
  }

  function DecodeAuthorized(b: seq<byte>): Result<AuthorizedUpdate, FrameError> {
    if |b| < CAPABILITY_AUTHORITY_LENGTH then Failure(Short)
    else if |b| == CAPABILITY_AUTHORITY_LENGTH then Failure(Short)
    else if |b| - CAPABILITY_AUTHORITY_LENGTH > MAX_UPDATE_RECORD_LENGTH then Failure(TooLong)
    else Success(AuthorizedUpdate(Authority(b[..16], b[16..48]), b[48..]))
  }

  /** Both directions, except that an empty record encodes but is refused on arrival. */
  lemma AuthorizedIsCanonical(r: AuthorizedUpdate, b: seq<byte>)
    ensures DecodeAuthorized(b) == Success(r) <==> EncodeAuthorized(r) == Success(b) && r.record != []
  {
    if EncodeAuthorized(r) == Success(b) {
      assert b[..16] == r.authority.capabilityId && b[16..48] == r.authority.authenticator && b[48..] == r.record;
    }
    if DecodeAuthorized(b) == Success(r) {
      assert b == b[..16] + b[16..48] + b[48..];
    }
  }

  /** An accept request for any encodable update crosses every layer of the wire unchanged. */
  lemma AcceptRequestSurvives(u: ImmutableUpdate, a: Authority, correlationId: Identifier, rest: seq<byte>)
    requires EncodeUpdateRecord(u).Success?
    ensures
      var record := EncodeUpdateRecord(u).value;
      var payload := EncodeAuthorized(AuthorizedUpdate(a, record));
      && payload.Success?
      && var envelope := Envelope(correlationId, ACCEPT_UPDATE, payload.value, VERSION);
      && EncodeBody(envelope).Success?
      && var body := EncodeBody(envelope).value;
      && NextBody(Frame(body) + rest) == Body(body, rest)
      && DecodeBody(body) == Success(envelope)
      && DecodeAuthorized(envelope.payload) == Success(AuthorizedUpdate(a, record))
      && DecodeUpdateRecord(record) == Success(u)
  {
    var record := EncodeUpdateRecord(u).value;
    var payload := EncodeAuthorized(AuthorizedUpdate(a, record)).value;
    var envelope := Envelope(correlationId, ACCEPT_UPDATE, payload, VERSION);
    RecordIsCanonical(u, record);
    AuthorizedIsCanonical(AuthorizedUpdate(a, record), payload);
    BodyIsCanonical(envelope, BodyBytes(envelope));
    NextBodyFront(BodyBytes(envelope), rest);
  }
}
