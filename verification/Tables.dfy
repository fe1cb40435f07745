/** The relational tables of the authoritative store, and what recovery accepts of them. */
module Tables {
  import opened Prelude
  import opened Types
  import opened Bytes
  import opened UpdateRecord
  import opened CapabilityTree

  const MAX_CONTROL_RECEIPTS_PER_DOCUMENT: nat := 4096
  const MAX_GLOBAL_CAPABILITIES: nat := 0x4000
  const MAX_GLOBAL_CONTROL_RECEIPTS: nat := 0x1_0000
  const MAX_DOCUMENT_CONTROL_BYTES: nat := 0x10_0000
  const MAX_GLOBAL_CONTROL_BYTES: nat := 0x100_0000
  const MAX_DOCUMENTS_PER_CREATE_AUTHORITY: nat := 4096
  const MAX_GLOBAL_DOCUMENTS: nat := 0x4000
  const MAX_GLOBAL_CREATE_RECEIPTS: nat := 0x1_0000

  /** Verifier derivation is left open: every result below holds for any four derivations. */
  datatype Scheme = Scheme(
    live: (DocumentId, CapabilityId, Authenticator) -> Secret,
    receipt: (DocumentId, CapabilityId, Authenticator) -> Secret,
    createLive: (CreateAuthorityId, Authenticator) -> Secret,
    createReceipt: (CreateAuthorityId, Authenticator) -> Secret)

  datatype ControlReceipt = ControlReceipt(operation: nat, input: seq<byte>)

  datatype LogRow = LogRow(updateId: UpdateId, sequence: nat, record: seq<byte>)

  /** One document with the rows of every table that its identifier keys. */
  datatype Document = Document(
    retired: bool,
    revision: nat,
    root: CapabilityId,
    capabilities: Tree,
    receipts: map<(CapabilityId, RequestId), ControlReceipt>,
    nextSequence: Option<nat>,
    log: seq<LogRow>,
    rangeIndex: map<UpdateId, seq<LoroRange>>,
    peers: set<u64>)

  datatype CreateAuthorityRow = CreateAuthorityRow(live: Secret, receipt: Secret, enabled: bool)

  datatype CreateReceipt = CreateReceipt(documentId: DocumentId, root: CapabilityId, input: seq<byte>)

  datatype Db = Db(
    documents: map<DocumentId, Document>,
    authorities: map<CreateAuthorityId, CreateAuthorityRow>,
    createReceipts: map<(CreateAuthorityId, RequestId), CreateReceipt>)

  // ---- Normalized inputs ---------------------------------------------------

  function GrantInput(descendant: CapabilityId, live: Secret, receipt: Secret, operations: OperationSet): (b: seq<byte>)
    ensures |b| == 82
    ensures b[..16] == descendant && b[16..48] == live && b[48..80] == receipt && b[80..] == U16Bytes(Bits(operations))
  {
    descendant + live + receipt + U16Bytes(Bits(operations))
  }

  function CreateInput(documentId: DocumentId, root: CapabilityId, live: Secret, receipt: Secret): (b: seq<byte>)
    ensures |b| == 96
    ensures b[..16] == documentId && b[16..32] == root && b[32..64] == live && b[64..] == receipt
  {
    documentId + root + live + receipt
  }

  // ---- Logical bytes --------------------------------------------------------

  function CapabilityBytes(c: Capability): nat {
    IDENTIFIER_LENGTH + (if c.parent.Some? then IDENTIFIER_LENGTH else 0) + |c.live| + |c.receipt| + 8 + 2
    + |c.operations| * (IDENTIFIER_LENGTH * 2 + 1)
  }

  function ReceiptBytes(r: ControlReceipt): nat {
    IDENTIFIER_LENGTH * 2 + |r.input| + 1
  }

  ghost function DocumentBytes(d: Document): nat {
    Sum(d.capabilities, CapabilityBytes) + Sum(d.receipts, ReceiptBytes)
  }

  function CapabilityCount(d: Document): nat { |d.capabilities| }

  function ReceiptCount(d: Document): nat { |d.receipts| }

  ghost function GlobalCapabilities(db: Db): nat { Sum(db.documents, CapabilityCount) }

  ghost function GlobalReceipts(db: Db): nat { Sum(db.documents, ReceiptCount) }

  ghost function GlobalBytes(db: Db): nat { Sum(db.documents, DocumentBytes) }

  ghost function AuthorityDocuments(db: Db, a: CreateAuthorityId): set<(CreateAuthorityId, RequestId)> {
    set k | k in db.createReceipts && k.0 == a
  }

  // ---- The append-only log --------------------------------------------------

  /** A stored row holds a canonical record of the update it is indexed under. */
  predicate GoodRow(documentId: DocumentId, row: LogRow) {
    var r := DecodeUpdateRecord(row.record);
    r.Success? && r.value.documentId == documentId && r.value.updateId == row.updateId
  }

  function RowRanges(row: LogRow): seq<LoroRange> {
    match DecodeUpdateRecord(row.record) case Success(u) => u.ranges case Failure(_) => []
  }

  function LogPeers(log: seq<LogRow>): set<u64> {
    if log == [] then {} else LogPeers(log[..|log| - 1]) + PeersOf(RowRanges(log[|log| - 1]))
  }

  ghost predicate DistinctIds(log: seq<LogRow>) {
    forall i, j :: 0 <= i < j < |log| ==> log[i].updateId != log[j].updateId
  }

  /** The range table lists the ranges of every logged update and of nothing else. */
  ghost predicate ExactIndex(log: seq<LogRow>, index: map<UpdateId, seq<LoroRange>>) {
    && index.Keys == (set i | 0 <= i < |log| :: log[i].updateId)
    && forall i :: 0 <= i < |log| ==> index[log[i].updateId] == RowRanges(log[i])
  }

  /** Contiguous sequences, canonical records, exact range index, exact peer union, exact counter. */
  ghost predicate ValidLog(id: DocumentId, d: Document) {
    && |d.log| + 1 <= U64_MAX
    && (forall i :: 0 <= i < |d.log| ==> d.log[i].sequence == i + 1)
    && (forall i :: 0 <= i < |d.log| ==> GoodRow(id, d.log[i]))
    && DistinctIds(d.log)
    && ExactIndex(d.log, d.rangeIndex)
    && d.peers == LogPeers(d.log)
    && |d.peers| <= MAX_LORO_PEERS
    && (d.log != [] ==> d.nextSequence == Some(|d.log| + 1))
  }

  // ---- Receipts -------------------------------------------------------------

  /** A retained grant names exactly the capability it created; a retained revoke names a revoked one. */
  predicate GoodReceipt(t: Tree, issuer: CapabilityId, r: ControlReceipt) {
    && issuer in t
    && match r.operation
       case 0 =>
         && |r.input| == 82
         && r.input[..16] in t
         && var c := t[r.input[..16]];
         && c.parent == Some(issuer)
         && r.input[16..48] == c.live
         && r.input[48..80] == c.receipt
         && FromBits(U16From(r.input[80..])) == Some(c.operations)
         && c.operations != {}
       case 1 => |r.input| == 16 && r.input in t && t[r.input].revoked
       case _ => false
  }

  ghost predicate ValidControlRows(d: Document) {
    && ValidTree(d.capabilities, d.root, d.revision)
    && (forall k {:trigger k in d.receipts} :: k in d.receipts ==> GoodReceipt(d.capabilities, k.0, d.receipts[k]))
    && |d.receipts| <= MAX_CONTROL_RECEIPTS_PER_DOCUMENT
    && d.revision == |d.receipts| + 1
  }

  ghost predicate ValidControl(d: Document) {
    ValidControlRows(d) && DocumentBytes(d) <= MAX_DOCUMENT_CONTROL_BYTES
  }

  predicate GoodCreateReceipt(db: Db, r: CreateReceipt) {
    && |r.input| == 96
    && r.documentId in db.documents
    && var t := db.documents[r.documentId].capabilities;
    && r.root in t
    && t[r.root].root
    && r.input == CreateInput(r.documentId, r.root, t[r.root].live, t[r.root].receipt)
  }

  ghost predicate ValidCreation(db: Db) {
    && |db.documents| == |db.createReceipts|
    && |db.documents| <= MAX_GLOBAL_DOCUMENTS
    && |db.createReceipts| <= MAX_GLOBAL_CREATE_RECEIPTS
    && (forall k {:trigger k in db.createReceipts} :: k in db.createReceipts ==> GoodCreateReceipt(db, db.createReceipts[k]))
    && (forall a :: |AuthorityDocuments(db, a)| <= MAX_DOCUMENTS_PER_CREATE_AUTHORITY)
  }

  /** Everything recovery insists on before the store may serve. */
  ghost predicate Recoverable(db: Db) {
    && ValidCreation(db)
    && (forall id {:trigger id in db.documents} :: id in db.documents ==>
         ValidControl(db.documents[id]) && ValidLog(id, db.documents[id]))
    && GlobalCapabilities(db) <= MAX_GLOBAL_CAPABILITIES
    && GlobalReceipts(db) <= MAX_GLOBAL_CONTROL_RECEIPTS
    && GlobalBytes(db) <= MAX_GLOBAL_CONTROL_BYTES
  }

  /** Recovery does not look at the counter of a document without updates; live states keep it absent. */
  ghost predicate Inv(db: Db) {
    && Recoverable(db)
    && forall id {:trigger id in db.documents} :: id in db.documents && db.documents[id].log == [] ==> db.documents[id].nextSequence.None?
  }

  // ---- Bounds that follow from the counts -----------------------------------

  /** No capability row is heavier than 436 logical bytes. */
  lemma CapabilityWeight(c: Capability)
    ensures CapabilityBytes(c) <= 436
  {
    EveryOperation(c.operations);
  }

  /** The capability and receipt counts bound a document's logical bytes. */
  lemma CountsBoundBytes(d: Document)
    requires forall k :: k in d.receipts ==> |d.receipts[k].input| <= 82
    ensures DocumentBytes(d) <= 436 * |d.capabilities| + 115 * |d.receipts|
  {
    forall k | k in d.capabilities ensures CapabilityBytes(d.capabilities[k]) <= 436 {
      CapabilityWeight(d.capabilities[k]);
    }
    SumAtMost(d.capabilities, CapabilityBytes, 436);
    SumAtMost(d.receipts, ReceiptBytes, 115);
  }

  ghost predicate ShortInputs(db: Db) {
    forall id, k :: id in db.documents && k in db.documents[id].receipts ==>
      |db.documents[id].receipts[k].input| <= 82
  }

  lemma CountsBoundAllBytes(db: Db)
    requires ShortInputs(db)
    ensures forall id :: id in db.documents ==>
      DocumentBytes(db.documents[id]) <= 436 * |db.documents[id].capabilities| + 115 * |db.documents[id].receipts|
    ensures GlobalBytes(db) <= 436 * GlobalCapabilities(db) + 115 * GlobalReceipts(db)
  {
    forall id | id in db.documents
      ensures DocumentBytes(db.documents[id])
           <= 436 * CapabilityCount(db.documents[id]) + 115 * ReceiptCount(db.documents[id])
    {
      CountsBoundBytes(db.documents[id]);
    }
    SumLinear(db.documents, DocumentBytes, CapabilityCount, ReceiptCount, 436, 115);
  }

  /** Both byte limits follow from the count limits, so no operation can exceed them. */
  lemma ByteLimitsFollow(db: Db)
    requires ShortInputs(db)
    requires forall id {:trigger id in db.documents} :: id in db.documents ==>
      && |db.documents[id].capabilities| <= MAX_CAPABILITIES_PER_DOCUMENT
      && |db.documents[id].receipts| <= MAX_CONTROL_RECEIPTS_PER_DOCUMENT
    requires GlobalCapabilities(db) <= MAX_GLOBAL_CAPABILITIES
    requires GlobalReceipts(db) <= MAX_GLOBAL_CONTROL_RECEIPTS
    ensures forall id :: id in db.documents ==> DocumentBytes(db.documents[id]) <= MAX_DOCUMENT_CONTROL_BYTES
    ensures GlobalBytes(db) <= MAX_GLOBAL_CONTROL_BYTES
  {
    hide DocumentBytes, GlobalBytes, GlobalCapabilities, GlobalReceipts, ShortInputs;
    CountsBoundAllBytes(db);
  }

  /** Recovery of the log reads only the log's own tables. */
  lemma ValidLogFrame(id: DocumentId, d: Document, e: Document)
    requires ValidLog(id, d)
    requires e.log == d.log && e.rangeIndex == d.rangeIndex && e.peers == d.peers && e.nextSequence == d.nextSequence
    ensures ValidLog(id, e)
  {
  }

  /** Rows are never dropped and keep what receipts and proofs refer to. */
  ghost predicate KeepsIdentities(before: Tree, after: Tree) {
    forall c :: c in before ==> c in after && SameIdentity(before[c], after[c])
  }

  /** Everything but the revocation state is fixed when a capability row is inserted. */
  predicate SameIdentity(before: Capability, after: Capability) {
    && after.parent == before.parent && after.root == before.root && after.live == before.live
    && after.receipt == before.receipt && after.created == before.created && after.operations == before.operations
    && (before.revoked ==> after.revoked)
  }

  lemma GoodReceiptFrame(t: Tree, u: Tree, issuer: CapabilityId, r: ControlReceipt)
    requires GoodReceipt(t, issuer, r) && KeepsIdentities(t, u)
    ensures GoodReceipt(u, issuer, r)
  {
  }
}
