/** Network byte order, and parsing as a prefix consumed from a byte string. */
module Bytes {
  import opened Types

  datatype CodecError =
    | Truncated | TrailingBytes | InvalidRecordMagic | UnsupportedRecordVersion
    | UnsupportedLoroProfile | InvalidLoroMetadata | RecordTooLong | MetadataTooLong
    | EmptyEncryptedPayload | InvalidDiscriminant | InvalidCursor | IntegerOutOfRange

  /** A value read from the front of a byte string and what follows it, or the first failure. */
  datatype Parsed<+T> = Parsed(value: T, rest: seq<byte>) | Bad(error: CodecError) {
    predicate IsFailure() { Bad? }
    function PropagateFailure<U>(): Parsed<U> requires Bad? { Bad(error) }
    function Extract(): (T, seq<byte>) requires Parsed? { (value, rest) }
  }

  function U16Bytes(n: u16): (b: seq<byte>)
    ensures |b| == 2
  {
    [n / 0x100, n % 0x100]
  }

  function U32Bytes(n: u32): (b: seq<byte>)
    ensures |b| == 4
  {
    U16Bytes(n / 0x1_0000) + U16Bytes(n % 0x1_0000)
  }

  function U64Bytes(n: u64): (b: seq<byte>)
    ensures |b| == 8
  {
    U32Bytes(n / 0x1_0000_0000) + U32Bytes(n % 0x1_0000_0000)
  }

  function U16From(b: seq<byte>): u16
    requires |b| == 2
  {
    (b[0] as int) * 0x100 + b[1] as int
  }

  function U32From(b: seq<byte>): u32
    requires |b| == 4
  {
    U16From(b[..2]) * 0x1_0000 + U16From(b[2..])
  }

  function U64From(b: seq<byte>): u64
    requires |b| == 8
  {
    U32From(b[..4]) * 0x1_0000_0000 + U32From(b[4..])
  }

  lemma U16RoundTrip(n: u16, b: seq<byte>)
    ensures U16From(U16Bytes(n)) == n
    ensures |b| == 2 ==> U16Bytes(U16From(b)) == b
  {
  }

  lemma U32RoundTrip(n: u32, b: seq<byte>)
    ensures U32From(U32Bytes(n)) == n
    ensures |b| == 4 ==> U32Bytes(U32From(b)) == b
  {
    var e := U32Bytes(n);
    assert e[..2] == U16Bytes(n / 0x1_0000) && e[2..] == U16Bytes(n % 0x1_0000);
    U16RoundTrip(n / 0x1_0000, e[..2]);
    U16RoundTrip(n % 0x1_0000, e[2..]);
    if |b| == 4 {
      U16RoundTrip(0, b[..2]);
      U16RoundTrip(0, b[2..]);
      assert U32From(b) / 0x1_0000 == U16From(b[..2]) && U32From(b) % 0x1_0000 == U16From(b[2..]);
      assert b == b[..2] + b[2..];
    }
  }

  lemma U64RoundTrip(n: u64, b: seq<byte>)
    ensures U64From(U64Bytes(n)) == n
    ensures |b| == 8 ==> U64Bytes(U64From(b)) == b
  {
    var e := U64Bytes(n);
    assert e[..4] == U32Bytes(n / 0x1_0000_0000) && e[4..] == U32Bytes(n % 0x1_0000_0000);
    U32RoundTrip(n / 0x1_0000_0000, e[..4]);
    U32RoundTrip(n % 0x1_0000_0000, e[4..]);
    if |b| == 8 {
      U32RoundTrip(0, b[..4]);
      U32RoundTrip(0, b[4..]);
      assert U64From(b) / 0x1_0000_0000 == U32From(b[..4]);
      assert U64From(b) % 0x1_0000_0000 == U32From(b[4..]);
      assert b == b[..4] + b[4..];
    }
  }

  function Take(b: seq<byte>, length: nat): Parsed<seq<byte>> {
    if length <= |b| then Parsed(b[..length], b[length..]) else Bad(Truncated)
  }

  function TakeU16(b: seq<byte>): Parsed<u16> {
    var (v, rest) :- Take(b, 2);
    Parsed(U16From(v), rest)
  }

  function TakeU32(b: seq<byte>): Parsed<u32> {
    var (v, rest) :- Take(b, 4);
    Parsed(U32From(v), rest)
  }

  function TakeU64(b: seq<byte>): Parsed<u64> {
    var (v, rest) :- Take(b, 8);
    Parsed(U64From(v), rest)
  }

  function TakeIdentifier(b: seq<byte>): Parsed<Identifier> {
    var (v, rest) :- Take(b, 16);
    Parsed(v, rest)
  }

  lemma TakeFront(v: seq<byte>, rest: seq<byte>)
    ensures Take(v + rest, |v|) == Parsed(v, rest)
  {
    assert (v + rest)[..|v|] == v && (v + rest)[|v|..] == rest;
  }

  lemma TakeU16Front(n: u16, rest: seq<byte>)
    ensures TakeU16(U16Bytes(n) + rest) == Parsed(n, rest)
  {
    TakeFront(U16Bytes(n), rest);
    U16RoundTrip(n, []);
  }

  lemma TakeU32Front(n: u32, rest: seq<byte>)
    ensures TakeU32(U32Bytes(n) + rest) == Parsed(n, rest)
  {
    TakeFront(U32Bytes(n), rest);
    U32RoundTrip(n, []);
  }

  lemma TakeU64Front(n: u64, rest: seq<byte>)
    ensures TakeU64(U64Bytes(n) + rest) == Parsed(n, rest)
  {
    TakeFront(U64Bytes(n), rest);
    U64RoundTrip(n, []);
  }

  lemma TakeExact(b: seq<byte>, length: nat)
    ensures Take(b, length).Parsed? ==> |Take(b, length).value| == length && b == Take(b, length).value + Take(b, length).rest
  {
  }

  lemma TakeU16Exact(b: seq<byte>)
    ensures TakeU16(b).Parsed? ==> b == U16Bytes(TakeU16(b).value) + TakeU16(b).rest
  {
    if |b| >= 2 {
      U16RoundTrip(0, b[..2]);
      assert b == b[..2] + b[2..];
    }
  }

  lemma TakeU32Exact(b: seq<byte>)
    ensures TakeU32(b).Parsed? ==> b == U32Bytes(TakeU32(b).value) + TakeU32(b).rest
  {
    if |b| >= 4 {
      U32RoundTrip(0, b[..4]);
      assert b == b[..4] + b[4..];
    }
  }

  lemma TakeU64Exact(b: seq<byte>)
    ensures TakeU64(b).Parsed? ==> b == U64Bytes(TakeU64(b).value) + TakeU64(b).rest
  {
    if |b| >= 8 {
      U64RoundTrip(0, b[..8]);
      assert b == b[..8] + b[8..];
    }
  }
}
