/** The stateful decoder that every payload decoder drives. */
module Decoding {
  import opened Types
  import opened Bytes

  /** The cursor over one payload: every read consumes `remaining` in place. */
  class Decoder {
    var remaining: seq<byte>

    constructor (encoded: seq<byte>)
      ensures remaining == encoded
    {
      remaining := encoded;
    }

    method Take(length: nat) returns (r: Parsed<seq<byte>>)
      modifies this
      ensures r == Bytes.Take(old(remaining), length)
      ensures remaining == if r.Parsed? then r.rest else old(remaining)
    {
      if length > |remaining| { return Bad(Truncated); }
      r := Parsed(remaining[..length], remaining[length..]);
      remaining := remaining[length..];
    }

    method TakeU16() returns (r: Parsed<u16>)
      modifies this
      ensures r == Bytes.TakeU16(old(remaining))
      ensures r.Parsed? ==> remaining == r.rest
    {
      var v := Take(2);
      if v.Bad? { return Bad(v.error); }
      return Parsed(U16From(v.value), v.rest);
    }

    method TakeU32() returns (r: Parsed<u32>)
      modifies this
      ensures r == Bytes.TakeU32(old(remaining))
      ensures r.Parsed? ==> remaining == r.rest
    {
      var v := Take(4);
      if v.Bad? { return Bad(v.error); }
      return Parsed(U32From(v.value), v.rest);
    }

    method TakeU64() returns (r: Parsed<u64>)
      modifies this
      ensures r == Bytes.TakeU64(old(remaining))
      ensures r.Parsed? ==> remaining == r.rest
    {
      var v := Take(8);
      if v.Bad? { return Bad(v.error); }
      return Parsed(U64From(v.value), v.rest);
    }

    method TakeIdentifier() returns (r: Parsed<Identifier>)
      modifies this
      ensures r == Bytes.TakeIdentifier(old(remaining))
      ensures r.Parsed? ==> remaining == r.rest
    {
      var v := Take(16);
      if v.Bad? { return Bad(v.error); }
      return Parsed(v.value, v.rest);
    }
  }
}
