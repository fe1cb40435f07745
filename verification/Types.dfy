/** The transport-independent vocabulary: identifiers, Loro ranges and versions, operation sets. */
module Types {
  import opened Prelude

  type byte = x: int | 0 <= x < 0x100
  type u16 = x: int | 0 <= x < 0x1_0000
  type u32 = x: int | 0 <= x < 0x1_0000_0000
  type u64 = x: int | 0 <= x < 0x1_0000_0000_0000_0000

  const IDENTIFIER_LENGTH: nat := 16
  const SECRET_LENGTH: nat := 32
  const MAX_LORO_PEERS: nat := 256
  const MAX_LORO_COUNTER: nat := 0x7FFF_FFFF
  const MAX_UPDATE_OPERATIONS: nat := 0x0010_0000

  type Identifier = s: seq<byte> | |s| == 16 witness seq(16, _ => 0)
  type Secret = s: seq<byte> | |s| == 32 witness seq(32, _ => 0)

  type DocumentId = Identifier
  type CapabilityId = Identifier
  type CreateAuthorityId = Identifier
  type RequestId = Identifier
  type UpdateId = Identifier
  type Authenticator = Secret

  datatype LoroMetadataError =
    | Empty | TooManyPeers | CounterOutOfRange | EmptyOrReversedRange
    | TooManyOperations | NonCanonicalPeerOrder | ZeroVersionCounter

  // ---- Public ranges ------------------------------------------------------

  datatype Range = Range(peer: u64, start: u32, end: u32)

  predicate ValidRange(r: Range) {
    r.start < r.end <= MAX_LORO_COUNTER && r.end - r.start <= MAX_UPDATE_OPERATIONS
  }

  /** A range that passed the frozen profile: only `NewRange` makes one. */
  type LoroRange = r: Range | ValidRange(r) witness Range(0, 0, 1)

  /** Total operations named by a list of ranges. */
  function OperationTotal(ranges: seq<LoroRange>): nat {
    if ranges == [] then 0
    else OperationTotal(ranges[..|ranges| - 1]) + (ranges[|ranges| - 1].end - ranges[|ranges| - 1].start)
  }

  predicate StrictPeers(ranges: seq<LoroRange>) {
    forall i, j :: 0 <= i < j < |ranges| ==> ranges[i].peer < ranges[j].peer
  }

  predicate ValidRanges(ranges: seq<LoroRange>) {
    0 < |ranges| <= MAX_LORO_PEERS && StrictPeers(ranges) && OperationTotal(ranges) <= MAX_UPDATE_OPERATIONS
  }

  type PublicLoroRanges = s: seq<LoroRange> | ValidRanges(s) witness [Range(0, 0, 1)]

  /** The peers a list of ranges names. */
  function PeersOf(ranges: seq<LoroRange>): set<u64> {
    set r | r in ranges :: r.peer
  }

  function NewRange(peer: u64, start: u32, end: u32): (r: Result<LoroRange, LoroMetadataError>)
    ensures r.Success? <==> ValidRange(Range(peer, start, end))
    ensures r.Success? ==> r.value == Range(peer, start, end)
  {
    if start > MAX_LORO_COUNTER || end > MAX_LORO_COUNTER then Failure(CounterOutOfRange)
    else if start >= end then Failure(EmptyOrReversedRange)
    else if end - start > MAX_UPDATE_OPERATIONS then Failure(TooManyOperations)
    else Success(Range(peer, start, end))
  }

  lemma {:induction false} OperationTotalPrefix(ranges: seq<LoroRange>, n: nat)
    requires n <= |ranges|
    ensures OperationTotal(ranges[..n]) <= OperationTotal(ranges)
    decreases |ranges|
  {
    if n == |ranges| {
      assert ranges[..n] == ranges;
    } else {
      OperationTotalPrefix(ranges[..|ranges| - 1], n);
      assert ranges[..|ranges| - 1][..n] == ranges[..n];
    }
  }

  /** Validates peer order, uniqueness and aggregate work, and says which rule a rejected list breaks. */
  method NewRanges(ranges: seq<LoroRange>) returns (r: Result<seq<LoroRange>, LoroMetadataError>)
    ensures r.Success? <==> ValidRanges(ranges)
    ensures r.Success? ==> r.value == ranges
    ensures r.Failure? ==>
      match r.error
      case Empty => ranges == []
      case TooManyPeers => |ranges| > MAX_LORO_PEERS
      case NonCanonicalPeerOrder => !StrictPeers(ranges)
      case TooManyOperations => OperationTotal(ranges) > MAX_UPDATE_OPERATIONS
      case _ => false
  {
    if ranges == [] { return Failure(Empty); }
    if |ranges| > MAX_LORO_PEERS { return Failure(TooManyPeers); }
    var previous: Option<u64> := None;
    var operationCount := 0;
    for i := 0 to |ranges|
      invariant StrictPeers(ranges[..i])
      invariant operationCount == OperationTotal(ranges[..i]) <= MAX_UPDATE_OPERATIONS
      invariant previous == if i == 0 then None else Some(ranges[i - 1].peer)
    {
      if previous.Some? && previous.value >= ranges[i].peer {
        return Failure(NonCanonicalPeerOrder);
      }
      assert ranges[..i + 1][..i] == ranges[..i];
      operationCount := operationCount + (ranges[i].end - ranges[i].start);
      if operationCount > MAX_UPDATE_OPERATIONS {
        OperationTotalPrefix(ranges, i + 1);
        return Failure(TooManyOperations);
      }
      previous := Some(ranges[i].peer);
      assert forall a, b :: 0 <= a < b < i + 1 ==> ranges[a].peer < ranges[b].peer by {
        forall a, b | 0 <= a < b < i + 1 ensures ranges[a].peer < ranges[b].peer {
          if b < i {
            assert ranges[..i][a].peer < ranges[..i][b].peer;
          } else if a < i - 1 {
            assert ranges[..i][a].peer < ranges[..i][i - 1].peer;
          }
        }
      }
    }
    assert ranges[..|ranges|] == ranges;
    return Success(ranges);
  }

  // ---- Oplog versions -----------------------------------------------------

  datatype VersionEntry = VersionEntry(peer: u64, end: u32)

  predicate ValidEntry(e: VersionEntry) {
    0 < e.end <= MAX_LORO_COUNTER
  }

  type LoroOplogVersionEntry = e: VersionEntry | ValidEntry(e) witness VersionEntry(0, 1)

  predicate ValidVersion(entries: seq<LoroOplogVersionEntry>) {
    && |entries| <= MAX_LORO_PEERS
    && forall i, j :: 0 <= i < j < |entries| ==> entries[i].peer < entries[j].peer
  }

  type LoroOplogVersion = v: seq<LoroOplogVersionEntry> | ValidVersion(v) witness []

  function NewEntry(peer: u64, end: u32): (r: Result<LoroOplogVersionEntry, LoroMetadataError>)
    ensures r.Success? <==> ValidEntry(VersionEntry(peer, end))
    ensures r.Success? ==> r.value == VersionEntry(peer, end)
  {
    if end == 0 then Failure(ZeroVersionCounter)
    else if end > MAX_LORO_COUNTER then Failure(CounterOutOfRange)
    else Success(VersionEntry(peer, end))
  }

  method NewVersion(entries: seq<LoroOplogVersionEntry>)
    returns (r: Result<seq<LoroOplogVersionEntry>, LoroMetadataError>)
    ensures r.Success? <==> ValidVersion(entries)
    ensures r.Success? ==> r.value == entries
    ensures r.Failure? ==> r.error == if |entries| > MAX_LORO_PEERS then TooManyPeers else NonCanonicalPeerOrder
  {
    if |entries| > MAX_LORO_PEERS { return Failure(TooManyPeers); }
    for i := 0 to |entries|
      invariant forall a, b :: 0 <= a < b < i ==> entries[a].peer < entries[b].peer
    {
      if i > 0 && entries[i - 1].peer >= entries[i].peer {
        return Failure(NonCanonicalPeerOrder);
      }
    }
    return Success(entries);
  }

  /** What a version covers: the prefix end recorded for a peer, or nothing. */
  function CoveredEnd(version: LoroOplogVersion, peer: u64): nat {
    if version == [] then 0
    else if version[0].peer == peer then version[0].end
    else
      var rest: seq<LoroOplogVersionEntry> := version[1..];
      CoveredEnd(rest, peer)
  }

  lemma {:induction false} CoveredEndAt(version: LoroOplogVersion, peer: u64)
    ensures forall i :: 0 <= i < |version| && version[i].peer == peer ==> CoveredEnd(version, peer) == version[i].end
    ensures (forall i :: 0 <= i < |version| ==> version[i].peer != peer) ==> CoveredEnd(version, peer) == 0
  {
    if version != [] && version[0].peer != peer {
      CoveredEndAt(version[1..], peer);
      assert forall i :: 0 < i < |version| ==> version[i] == version[1..][i - 1];
    }
  }

  /** Binary search over the strictly sorted peers computes exactly the covered prefix. */
  method EndCounterFor(version: LoroOplogVersion, peer: u64) returns (end: nat)
    ensures end == CoveredEnd(version, peer)
  {
    CoveredEndAt(version, peer);
    var low, high := 0, |version|;
    while low < high
      invariant 0 <= low <= high <= |version|
      invariant forall i :: 0 <= i < low ==> version[i].peer < peer
      invariant forall i :: high <= i < |version| ==> peer < version[i].peer
    {
      var mid := (low + high) / 2;
      if version[mid].peer < peer {
        low := mid + 1;
      } else if peer < version[mid].peer {
        high := mid;
      } else {
        return version[mid].end;
      }
    }
    return 0;
  }

  // ---- Updates ------------------------------------------------------------

  datatype ImmutableUpdate = ImmutableUpdate(
    documentId: DocumentId, updateId: UpdateId, ranges: PublicLoroRanges, payload: seq<byte>)

  datatype UpdateMetadata = UpdateMetadata(payloadLength: u32, ranges: PublicLoroRanges, updateId: UpdateId)

  /** An update matters to a client whose version misses one of its operations. */
  predicate Selected(version: LoroOplogVersion, ranges: seq<LoroRange>) {
    exists r :: r in ranges && r.end > CoveredEnd(version, r.peer)
  }

  // ---- Operations ---------------------------------------------------------

  datatype Operation =
    | Read | Update | Checkpoint | BlobRead | BlobPut
    | SignalSend | SignalReceive | Grant | Revoke | Retire

  type OperationSet = set<Operation>

  const FULL: OperationSet :=
    {Read, Update, Checkpoint, BlobRead, BlobPut, SignalSend, SignalReceive, Grant, Revoke, Retire}

  /** The stable operation codes; operation `k` occupies bit `k`. */
  function OperationAt(code: nat): Operation {
    match code
    case 0 => Read
    case 1 => Update
    case 2 => Checkpoint
    case 3 => BlobRead
    case 4 => BlobPut
    case 5 => SignalSend
    case 6 => SignalReceive
    case 7 => Grant
    case 8 => Revoke
    case _ => Retire
  }

  function Span(code: nat): nat
    decreases 10 - code
  {
    if code >= 10 then 1 else 2 * Span(code + 1)
  }

  /** The bits of the operations from `code` on, shifted down by `code`. */
  function BitsFrom(operations: OperationSet, code: nat): (bits: nat)
    ensures bits < Span(code)
    decreases 10 - code
  {
    if code >= 10 then 0
    else (if OperationAt(code) in operations then 1 else 0) + 2 * BitsFrom(operations, code + 1)
  }

  function SetFrom(bits: nat, code: nat): OperationSet
    decreases 10 - code
  {
    if code >= 10 then {}
    else (if bits % 2 == 1 then {OperationAt(code)} else {}) + SetFrom(bits / 2, code + 1)
  }

  /** The stable bit representation used on the wire and in receipts. */
  function Bits(operations: OperationSet): (bits: nat)
    ensures bits < 0x400
  {
    assert Span(8) == 4;
    assert Span(6) == 16;
    assert Span(4) == 64;
    assert Span(2) == 256;
    BitsFrom(operations, 0)
  }

  function FromBits(bits: nat): Option<OperationSet> {
    if bits >= 0x400 then None else Some(SetFrom(bits, 0))
  }

  lemma EveryOperation(operations: OperationSet)
    ensures operations <= FULL && |operations| <= 10
  {
    forall o | o in operations ensures o in FULL {
      match o case Read => case Update => case Checkpoint => case BlobRead => case BlobPut =>
      case SignalSend => case SignalReceive => case Grant => case Revoke => case Retire =>
    }
    SubsetCard(operations, FULL);
  }

  function FromCode(operations: OperationSet, code: nat): OperationSet {
    set k: nat | code <= k < 10 && OperationAt(k) in operations :: OperationAt(k)
  }

  lemma {:induction false} SetFromBitsFrom(operations: OperationSet, code: nat)
    ensures SetFrom(BitsFrom(operations, code), code) == FromCode(operations, code)
    decreases 10 - code
  {
    if code < 10 {
      SetFromBitsFrom(operations, code + 1);
      var bits := BitsFrom(operations, code);
      assert bits / 2 == BitsFrom(operations, code + 1);
      assert FromCode(operations, code)
          == (if OperationAt(code) in operations then {OperationAt(code)} else {}) + FromCode(operations, code + 1);
    }
  }

  /** The bit representation loses nothing. */
  lemma BitsRoundTrip(operations: OperationSet)
    ensures FromBits(Bits(operations)) == Some(operations)
  {
    SetFromBitsFrom(operations, 0);
    forall o | o in operations ensures o in FromCode(operations, 0) {
      EveryCode(o);
      var k: nat :| k < 10 && OperationAt(k) == o;
    }
    assert FromCode(operations, 0) == operations;
  }

  lemma EveryCode(o: Operation)
    ensures exists k: nat :: k < 10 && OperationAt(k) == o
  {
    var code: nat := match o
      case Read => 0 case Update => 1 case Checkpoint => 2 case BlobRead => 3 case BlobPut => 4
      case SignalSend => 5 case SignalReceive => 6 case Grant => 7 case Revoke => 8 case Retire => 9;
    assert OperationAt(code) == o;
  }

  /** A nonempty subset: the only operation sets a grant may hand down. */
  predicate Allows(held: OperationSet, candidate: OperationSet) {
    candidate != {} && candidate <= held
  }
}
