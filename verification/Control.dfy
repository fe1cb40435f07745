/** Creation, grants and revocations: each decision cascade, and what every commit preserves. */
module Control {
  import opened Prelude
  import opened Types
  import opened Bytes
  import opened CapabilityTree
  import opened Tables

  datatype CreateOutcome =
    | CreateInserted | CreateAlreadyPresent | CreateDenied
    | CreateIdentifierConflict | CreateRequestConflict | CreateLimitExceeded

  datatype ControlOutcome =
    | Inserted | AlreadyPresent | AuthorizationDenied | IdentifierConflict
    | RequestConflict | CounterExhausted | LimitExceeded

  datatype RevokePreflight = Resolved(outcome: ControlOutcome) | RequiresMutation

  datatype CreateRequest = CreateRequest(
    authority: CreateAuthorityId, authenticator: Authenticator, requestId: RequestId,
    documentId: DocumentId, root: CapabilityId, rootAuthenticator: Authenticator)

  datatype GrantRequest = GrantRequest(
    documentId: DocumentId, issuer: CapabilityId, authenticator: Authenticator, requestId: RequestId,
    descendant: CapabilityId, descendantAuthenticator: Authenticator, operations: OperationSet)

  datatype RevokeRequest = RevokeRequest(
    documentId: DocumentId, issuer: CapabilityId, authenticator: Authenticator, requestId: RequestId,
    target: CapabilityId)

  datatype Access = Authorized | Denied | RetiredDocument

  // ---- Decisions ------------------------------------------------------------

  /** Authority is effective when the secret matches, the operation is held, and no ancestor is revoked. */
  ghost function AccessTo(s: Scheme, db: Db, id: DocumentId, c: CapabilityId, secret: Authenticator,
                          operation: Operation): Access
  {
    if id !in db.documents || !Effective(db.documents[id].capabilities, c) then Denied
    else
      var d := db.documents[id];
      if d.capabilities[c].live != s.live(id, c, secret) || operation !in d.capabilities[c].operations then Denied
      else if d.retired then RetiredDocument
      else Authorized
  }

  /** The retained answer to a request already committed under this issuer and request identifier. */
  function ReceiptAnswer(s: Scheme, db: Db, id: DocumentId, issuer: CapabilityId, secret: Authenticator,
                         requestId: RequestId, receipt: ControlReceipt): Option<ControlOutcome>
  {
    if id !in db.documents || (issuer, requestId) !in db.documents[id].receipts then None
    else
      var d := db.documents[id];
      if issuer !in d.capabilities || d.capabilities[issuer].receipt != s.receipt(id, issuer, secret)
        then Some(AuthorizationDenied)
      else if d.receipts[(issuer, requestId)] == receipt then Some(AlreadyPresent)
      else Some(RequestConflict)
  }

  /** Logical bytes a control mutation declares it will add. */
  function AdditionalBytes(addsCapability: bool, operationCount: nat, inputLength: nat): nat {
    (if addsCapability then IDENTIFIER_LENGTH * 2 + SECRET_LENGTH * 2 + 8 + 2 + operationCount * (IDENTIFIER_LENGTH * 2 + 1)
     else 0)
    + IDENTIFIER_LENGTH * 2 + 1 + inputLength
  }

  ghost predicate ControlLimitsExceeded(db: Db, id: DocumentId, parent: Option<CapabilityId>, operationCount: nat,
                                        inputLength: nat)
    requires id in db.documents
  {
    var d := db.documents[id];
    var additional := AdditionalBytes(parent.Some?, operationCount, inputLength);
    || (parent.Some? && |Children(d.capabilities, parent.value)| >= MAX_DIRECT_CAPABILITY_CHILDREN)
    || (parent.Some? && |d.capabilities| >= MAX_CAPABILITIES_PER_DOCUMENT)
    || (parent.Some? && GlobalCapabilities(db) >= MAX_GLOBAL_CAPABILITIES)
    || |d.receipts| >= MAX_CONTROL_RECEIPTS_PER_DOCUMENT
    || GlobalReceipts(db) >= MAX_GLOBAL_CONTROL_RECEIPTS
    || DocumentBytes(d) + additional > MAX_DOCUMENT_CONTROL_BYTES
    || GlobalBytes(db) + additional > MAX_GLOBAL_CONTROL_BYTES
  }

  function GrantReceipt(s: Scheme, g: GrantRequest): ControlReceipt {
    ControlReceipt(0, GrantInput(g.descendant, s.live(g.documentId, g.descendant, g.descendantAuthenticator),
                                 s.receipt(g.documentId, g.descendant, g.descendantAuthenticator), g.operations))
  }

  function RevokeReceipt(r: RevokeRequest): ControlReceipt {
    ControlReceipt(1, r.target)
  }

  function GrantedRow(s: Scheme, g: GrantRequest, revision: nat): Capability {
    Capability(Some(g.issuer), false, s.live(g.documentId, g.descendant, g.descendantAuthenticator),
               s.receipt(g.documentId, g.descendant, g.descendantAuthenticator), false, revision, g.operations)
  }

  function WithDocument(db: Db, id: DocumentId, d: Document): Db {
    db.(documents := db.documents[id := d])
  }

  ghost function GrantCommit(s: Scheme, d: Document, g: GrantRequest): Document {
    d.(capabilities := Grown(d.capabilities, g.descendant, GrantedRow(s, g, d.revision + 1)),
       receipts := d.receipts[(g.issuer, g.requestId) := GrantReceipt(s, g)],
       revision := d.revision + 1)
  }

  ghost function RevokeCommit(d: Document, r: RevokeRequest): Document {
    d.(capabilities := Marked(d.capabilities, r.target),
       receipts := d.receipts[(r.issuer, r.requestId) := RevokeReceipt(r)],
       revision := d.revision + 1)
  }

  ghost function GrantDecision(s: Scheme, db: Db, g: GrantRequest): ControlOutcome
    requires Inv(db)
  {
    if g.operations == {} then AuthorizationDenied
    else
      match ReceiptAnswer(s, db, g.documentId, g.issuer, g.authenticator, g.requestId, GrantReceipt(s, g))
      case Some(answer) => answer
      case None =>
        if AccessTo(s, db, g.documentId, g.issuer, g.authenticator, Grant) != Authorized then AuthorizationDenied
        else
          var d := db.documents[g.documentId];
          if d.revision >= U64_MAX then CounterExhausted
          else if !Allows(d.capabilities[g.issuer].operations, g.operations) then AuthorizationDenied
          else if g.descendant in d.capabilities then IdentifierConflict
          else if |Chain(d.capabilities, g.issuer)| >= MAX_CAPABILITY_DEPTH
            || ControlLimitsExceeded(db, g.documentId, Some(g.issuer), |g.operations|, 82) then LimitExceeded
          else Inserted
  }

  ghost function RevokeDecision(s: Scheme, db: Db, r: RevokeRequest): ControlOutcome
    requires Inv(db)
  {
    match ReceiptAnswer(s, db, r.documentId, r.issuer, r.authenticator, r.requestId, RevokeReceipt(r))
    case Some(answer) => answer
    case None =>
      if AccessTo(s, db, r.documentId, r.issuer, r.authenticator, Revoke) != Authorized then AuthorizationDenied
      else
        var d := db.documents[r.documentId];
        if d.revision >= U64_MAX then CounterExhausted
        else if !(r.target in d.capabilities && !d.capabilities[r.target].revoked
                  && Ancestor(d.capabilities, r.issuer, r.target)) then AuthorizationDenied
        else if ControlLimitsExceeded(db, r.documentId, None, 0, 16) then LimitExceeded
        else Inserted
  }

  ghost function AfterGrant(s: Scheme, db: Db, g: GrantRequest): Db
    requires Inv(db)
  {
    if GrantDecision(s, db, g) != Inserted then db
    else WithDocument(db, g.documentId, GrantCommit(s, db.documents[g.documentId], g))
  }

  ghost function AfterRevoke(s: Scheme, db: Db, r: RevokeRequest): Db
    requires Inv(db)
  {
    if RevokeDecision(s, db, r) != Inserted then db
    else WithDocument(db, r.documentId, RevokeCommit(db.documents[r.documentId], r))
  }

  function NewCreateReceipt(s: Scheme, c: CreateRequest): CreateReceipt {
    CreateReceipt(c.documentId, c.root,
      CreateInput(c.documentId, c.root, s.live(c.documentId, c.root, c.rootAuthenticator),
                  s.receipt(c.documentId, c.root, c.rootAuthenticator)))
  }

  function RootRow(s: Scheme, c: CreateRequest): Capability {
    Capability(None, true, s.live(c.documentId, c.root, c.rootAuthenticator),
               s.receipt(c.documentId, c.root, c.rootAuthenticator), false, 1, FULL)
  }

  /** Whether the secret proves knowledge of a document's root, by its retained verifier. */
  predicate RootProved(s: Scheme, db: Db, id: DocumentId, root: CapabilityId, secret: Authenticator) {
    && id in db.documents
    && root in db.documents[id].capabilities
    && db.documents[id].capabilities[root].root
    && db.documents[id].capabilities[root].receipt == s.receipt(id, root, secret)
  }

  ghost predicate CreateLimitsExceeded(db: Db, a: CreateAuthorityId) {
    || |AuthorityDocuments(db, a)| >= MAX_DOCUMENTS_PER_CREATE_AUTHORITY
    || |db.documents| >= MAX_GLOBAL_DOCUMENTS
    || |db.createReceipts| >= MAX_GLOBAL_CREATE_RECEIPTS
    || GlobalCapabilities(db) >= MAX_GLOBAL_CAPABILITIES
  }

  ghost function CreateDecision(s: Scheme, db: Db, c: CreateRequest): CreateOutcome {
    if c.authority !in db.authorities then CreateDenied
    else
      var a := db.authorities[c.authority];
      var live := a.enabled && a.live == s.createLive(c.authority, c.authenticator);
      var retained := a.receipt == s.createReceipt(c.authority, c.authenticator);
      if !live && !retained then CreateDenied
      else if (c.authority, c.requestId) in db.createReceipts then
        var r := db.createReceipts[(c.authority, c.requestId)];
        if !retained || !RootProved(s, db, r.documentId, r.root, c.rootAuthenticator) then CreateDenied
        else if r.input == NewCreateReceipt(s, c).input then CreateAlreadyPresent
        else CreateRequestConflict
      else if !live then CreateDenied
      else if c.documentId in db.documents then
        if RootProved(s, db, c.documentId, db.documents[c.documentId].root, c.rootAuthenticator)
          then CreateIdentifierConflict else CreateDenied
      else if CreateLimitsExceeded(db, c.authority) then CreateLimitExceeded
      else CreateInserted
  }

  function NewDocument(s: Scheme, c: CreateRequest): Document {
    Document(false, 1, c.root, map[c.root := RootRow(s, c)], map[], None, [], map[], {})
  }

  ghost function AfterCreate(s: Scheme, db: Db, c: CreateRequest): Db {
    if CreateDecision(s, db, c) != CreateInserted then db
    else
      db.(documents := db.documents[c.documentId := NewDocument(s, c)],
          createReceipts := db.createReceipts[(c.authority, c.requestId) := NewCreateReceipt(s, c)])
  }

  /** The document state column moves to retired and never back. */
  function AfterRetire(db: Db, id: DocumentId): Db {
    if id in db.documents then WithDocument(db, id, db.documents[id].(retired := true)) else db
  }

  /** Authority as the bounded walk decides it. */
  function WalkedAccess(s: Scheme, db: Db, id: DocumentId, c: CapabilityId, secret: Authenticator,
                        operation: Operation): Access
  {
    if id !in db.documents || !AuthorityWalk(db.documents[id].capabilities, c, MAX_CAPABILITY_DEPTH) then Denied
    else
      var d := db.documents[id];
      if d.capabilities[c].live != s.live(id, c, secret) || operation !in d.capabilities[c].operations then Denied
      else if d.retired then RetiredDocument
      else Authorized
  }

  /** The next control revision of a document that still serves. */
  function NextRevision(db: Db, id: DocumentId): Option<nat> {
    if id !in db.documents || db.documents[id].retired || db.documents[id].revision >= U64_MAX then None
    else Some(db.documents[id].revision + 1)
  }

  /** The read-only cascade that classifies a revoke before the emission gate is taken, walk by walk. */
  ghost function Preflight(s: Scheme, db: Db, r: RevokeRequest): RevokePreflight {
    match ReceiptAnswer(s, db, r.documentId, r.issuer, r.authenticator, r.requestId, RevokeReceipt(r))
    case Some(answer) => Resolved(answer)
    case None =>
      if WalkedAccess(s, db, r.documentId, r.issuer, r.authenticator, Revoke) != Authorized
        then Resolved(AuthorizationDenied)
      else if NextRevision(db, r.documentId).None? then Resolved(CounterExhausted)
      else if !DescentWalk(db.documents[r.documentId].capabilities, r.issuer, r.target, MAX_CAPABILITY_DEPTH)
        then Resolved(AuthorizationDenied)
      else if ControlLimitsExceeded(db, r.documentId, None, 0, |RevokeReceipt(r).input|) then Resolved(LimitExceeded)
      else RequiresMutation
  }

  // ---- Every commit keeps the store recoverable ------------------------------

  lemma ReplaceKeepsCreation(db: Db, id: DocumentId, d: Document)
    requires ValidCreation(db) && id in db.documents
    requires KeepsIdentities(db.documents[id].capabilities, d.capabilities)
    ensures ValidCreation(WithDocument(db, id, d))
  {
    hide Sum, ValidTree, ValidLog;
    var after := WithDocument(db, id, d);
    assert after.documents.Keys == db.documents.Keys;
    assert |after.documents.Keys| == |db.documents.Keys|;
    forall k | k in after.createReceipts ensures GoodCreateReceipt(after, after.createReceipts[k]) {
      assert GoodCreateReceipt(db, db.createReceipts[k]);
    }
    forall a ensures |AuthorityDocuments(after, a)| <= MAX_DOCUMENTS_PER_CREATE_AUTHORITY {
      assert AuthorityDocuments(after, a) == AuthorityDocuments(db, a);
    }
  }

  lemma ReceiptInputsShort(db: Db)
    requires forall id {:trigger id in db.documents} :: id in db.documents ==> ValidControlRows(db.documents[id])
    ensures ShortInputs(db)
  {
    hide ValidTree;
    forall id, k | id in db.documents && k in db.documents[id].receipts
      ensures |db.documents[id].receipts[k].input| <= 82
    {
      assert GoodReceipt(db.documents[id].capabilities, k.0, db.documents[id].receipts[k]);
    }
  }

  lemma RowsAndCountsSuffice(db: Db)
    requires ValidCreation(db)
    requires forall id {:trigger id in db.documents} :: id in db.documents ==>
      && ValidControlRows(db.documents[id])
      && ValidLog(id, db.documents[id])
      && (db.documents[id].log == [] ==> db.documents[id].nextSequence.None?)
    requires GlobalCapabilities(db) <= MAX_GLOBAL_CAPABILITIES
    requires GlobalReceipts(db) <= MAX_GLOBAL_CONTROL_RECEIPTS
    ensures Inv(db)
  {
    hide Sum, DocumentBytes, ValidLog, ValidCreation, GoodReceipt, ShortInputs;
    ReceiptInputsShort(db);
    forall id | id in db.documents ensures |db.documents[id].capabilities| <= MAX_CAPABILITIES_PER_DOCUMENT {
      assert ValidControlRows(db.documents[id]);
    }
    ByteLimitsFollow(db);
  }

  /** Replacing one document by a valid successor that stays within the global counts. */
  lemma ReplaceKeepsInv(db: Db, id: DocumentId, d: Document)
    requires Inv(db) && id in db.documents
    requires ValidControlRows(d) && ValidLog(id, d) && (d.log == [] ==> d.nextSequence.None?)
    requires KeepsIdentities(db.documents[id].capabilities, d.capabilities)
    requires GlobalCapabilities(db) + |d.capabilities| <= MAX_GLOBAL_CAPABILITIES + |db.documents[id].capabilities|
    requires GlobalReceipts(db) + |d.receipts| <= MAX_GLOBAL_CONTROL_RECEIPTS + |db.documents[id].receipts|
    ensures Inv(WithDocument(db, id, d))
  {
    hide Sum, DocumentBytes, ValidTree, ValidLog, ValidCreation, GoodReceipt, KeepsIdentities;
    ReplaceKeepsCreation(db, id, d);
    SumInsert(db.documents, CapabilityCount, id, d);
    SumInsert(db.documents, ReceiptCount, id, d);
    RowsAndCountsSuffice(WithDocument(db, id, d));
  }

  /** What the grant cascade has established once it reaches its insertions. */
  lemma GrantFacts(s: Scheme, db: Db, g: GrantRequest)
    requires Inv(db) && GrantDecision(s, db, g) == Inserted
    ensures g.documentId in db.documents
    ensures
      var d := db.documents[g.documentId];
      && !d.retired && d.revision < U64_MAX
      && g.issuer in d.capabilities && !d.capabilities[g.issuer].revoked
      && Allows(d.capabilities[g.issuer].operations, g.operations)
      && g.descendant !in d.capabilities
      && (g.issuer, g.requestId) !in d.receipts
      && |Chain(d.capabilities, g.issuer)| < MAX_CAPABILITY_DEPTH
      && |Children(d.capabilities, g.issuer)| < MAX_DIRECT_CAPABILITY_CHILDREN
      && |d.capabilities| < MAX_CAPABILITIES_PER_DOCUMENT
      && |d.receipts| < MAX_CONTROL_RECEIPTS_PER_DOCUMENT
      && GlobalCapabilities(db) < MAX_GLOBAL_CAPABILITIES
      && GlobalReceipts(db) < MAX_GLOBAL_CONTROL_RECEIPTS
  {
    hide ValidLog, ValidCreation, GoodReceipt, DocumentBytes, Sum, Bits, GrantInput;
    var d := db.documents[g.documentId];
    EffectiveIsActive(d.capabilities, d.root, d.revision, g.issuer);
  }

  lemma RevokeFacts(s: Scheme, db: Db, r: RevokeRequest)
    requires Inv(db) && RevokeDecision(s, db, r) == Inserted
    ensures r.documentId in db.documents
    ensures
      var d := db.documents[r.documentId];
      && !d.retired && d.revision < U64_MAX
      && r.issuer in d.capabilities && !d.capabilities[r.issuer].revoked
      && r.target in d.capabilities && !d.capabilities[r.target].revoked
      && Ancestor(d.capabilities, r.issuer, r.target)
      && (r.issuer, r.requestId) !in d.receipts
      && |d.receipts| < MAX_CONTROL_RECEIPTS_PER_DOCUMENT
      && GlobalReceipts(db) < MAX_GLOBAL_CONTROL_RECEIPTS
  {
    hide ValidLog, ValidCreation, GoodReceipt, DocumentBytes, Sum;
    var d := db.documents[r.documentId];
    EffectiveIsActive(d.capabilities, d.root, d.revision, r.issuer);
  }

  lemma GrantReceiptGood(s: Scheme, g: GrantRequest, t: Tree, revision: nat)
    requires g.descendant in t && t[g.descendant] == GrantedRow(s, g, revision) && g.issuer in t && g.operations != {}
    ensures GoodReceipt(t, g.issuer, GrantReceipt(s, g))
  {
    hide Bits, FromBits;
    BitsRoundTrip(g.operations);
    U16RoundTrip(Bits(g.operations), []);
  }

  lemma GrantKeepsControl(s: Scheme, db: Db, g: GrantRequest)
    requires Inv(db) && GrantDecision(s, db, g) == Inserted
    ensures g.documentId in db.documents && ValidControlRows(GrantCommit(s, db.documents[g.documentId], g))
  {
    hide Sum, ValidLog, ValidCreation, GrantDecision, DocumentBytes, GoodReceipt, ValidTree, Children;
    GrantFacts(s, db, g);
    var d := db.documents[g.documentId];
    var after := GrantCommit(s, d, g);
    assert Linked(d.capabilities) by { ValidTreeLinked(d.capabilities, d.root, d.revision); }
    GrowKeepsValid(d.capabilities, d.root, d.revision, g.descendant, GrantedRow(s, g, d.revision + 1));
    forall k | k in after.receipts ensures GoodReceipt(after.capabilities, k.0, after.receipts[k]) {
      if k == (g.issuer, g.requestId) {
        GrantReceiptGood(s, g, after.capabilities, d.revision + 1);
      } else {
        assert GoodReceipt(d.capabilities, k.0, d.receipts[k]);
        GoodReceiptFrame(d.capabilities, after.capabilities, k.0, d.receipts[k]);
      }
    }
  }

  lemma ValidTreeLinked(t: Tree, root: CapabilityId, revision: nat)
    requires ValidTree(t, root, revision)
    ensures Linked(t)
  {
  }

  lemma GrantKeepsInv(s: Scheme, db: Db, g: GrantRequest)
    requires Inv(db)
    ensures Inv(AfterGrant(s, db, g))
  {
    hide Sum, ValidLog, ValidCreation, GrantDecision, DocumentBytes, GoodReceipt, ValidTree, ValidControlRows;
    if GrantDecision(s, db, g) == Inserted {
      GrantFacts(s, db, g);
      GrantKeepsControl(s, db, g);
      var d := db.documents[g.documentId];
      ValidLogFrame(g.documentId, d, GrantCommit(s, d, g));
      ReplaceKeepsInv(db, g.documentId, GrantCommit(s, d, g));
    }
  }

  lemma MarkedIdentities(t: Tree, target: CapabilityId)
    ensures KeepsIdentities(t, Marked(t, target)) && |Marked(t, target)| == |t|
  {
    assert Marked(t, target).Keys == t.Keys;
    assert |Marked(t, target).Keys| == |t.Keys|;
  }

  lemma RevokeKeepsControl(s: Scheme, db: Db, r: RevokeRequest)
    requires Inv(db) && RevokeDecision(s, db, r) == Inserted
    ensures r.documentId in db.documents && ValidControlRows(RevokeCommit(db.documents[r.documentId], r))
  {
    hide Sum, ValidLog, ValidCreation, RevokeDecision, DocumentBytes, ValidTree;
    RevokeFacts(s, db, r);
    var d := db.documents[r.documentId];
    var after := RevokeCommit(d, r);
    assert Linked(d.capabilities) by { ValidTreeLinked(d.capabilities, d.root, d.revision); }
    MarkKeepsValid(d.capabilities, d.root, d.revision, r.target);
    MarkedIdentities(d.capabilities, r.target);
    ChainIsAncestry(d.capabilities, r.target, r.target);
    forall k | k in after.receipts ensures GoodReceipt(after.capabilities, k.0, after.receipts[k]) {
      if k != (r.issuer, r.requestId) {
        assert GoodReceipt(d.capabilities, k.0, d.receipts[k]);
        GoodReceiptFrame(d.capabilities, after.capabilities, k.0, d.receipts[k]);
      }
    }
  }

  lemma RevokeKeepsInv(s: Scheme, db: Db, r: RevokeRequest)
    requires Inv(db)
    ensures Inv(AfterRevoke(s, db, r))
  {
    hide Sum, ValidLog, ValidCreation, RevokeDecision, DocumentBytes, GoodReceipt, ValidTree, ValidControlRows;
    if RevokeDecision(s, db, r) == Inserted {
      RevokeFacts(s, db, r);
      RevokeKeepsControl(s, db, r);
      var d := db.documents[r.documentId];
      MarkedIdentities(d.capabilities, r.target);
      ValidLogFrame(r.documentId, d, RevokeCommit(d, r));
      ReplaceKeepsInv(db, r.documentId, RevokeCommit(d, r));
    }
  }

  lemma NewDocumentValid(s: Scheme, c: CreateRequest)
    ensures ValidControlRows(NewDocument(s, c)) && ValidLog(c.documentId, NewDocument(s, c))
  {
    var d := NewDocument(s, c);
    var t := d.capabilities;
    assert LinkedAt(t, c.root);
    assert GoodLink(t, c.root, 1, c.root);
    forall k | k in t ensures |Chain(t, k)| <= MAX_CAPABILITY_DEPTH {
      assert Chain(t, k) == [k];
    }
    forall p ensures |Children(t, p)| <= MAX_DIRECT_CAPABILITY_CHILDREN {
      assert Children(t, p) == {};
    }
    assert d.rangeIndex.Keys == {};
  }

  lemma CreateFacts(s: Scheme, db: Db, c: CreateRequest)
    requires CreateDecision(s, db, c) == CreateInserted
    ensures c.documentId !in db.documents && (c.authority, c.requestId) !in db.createReceipts
    ensures |AuthorityDocuments(db, c.authority)| < MAX_DOCUMENTS_PER_CREATE_AUTHORITY
    ensures |db.documents| < MAX_GLOBAL_DOCUMENTS && |db.createReceipts| < MAX_GLOBAL_CREATE_RECEIPTS
    ensures GlobalCapabilities(db) < MAX_GLOBAL_CAPABILITIES
  {
  }

  lemma NewCreateReceiptGood(s: Scheme, db: Db, c: CreateRequest)
    requires c.documentId in db.documents && db.documents[c.documentId] == NewDocument(s, c)
    ensures GoodCreateReceipt(db, NewCreateReceipt(s, c))
  {
  }

  lemma OldCreateReceiptGood(db: Db, after: Db, r: CreateReceipt)
    requires GoodCreateReceipt(db, r)
    requires r.documentId in after.documents && after.documents[r.documentId] == db.documents[r.documentId]
    ensures GoodCreateReceipt(after, r)
  {
  }

  lemma CreateKeepsCreation(s: Scheme, db: Db, c: CreateRequest)
    requires ValidCreation(db) && CreateDecision(s, db, c) == CreateInserted
    ensures ValidCreation(AfterCreate(s, db, c))
  {
    hide CreateDecision, GoodCreateReceipt, NewDocument, NewCreateReceipt, AuthorityDocuments, GlobalCapabilities, Sum;
    CreateFacts(s, db, c);
    var after := AfterCreate(s, db, c);
    var key := (c.authority, c.requestId);
    CreateCountsOne(db, after, key);
    forall k | k in after.createReceipts ensures GoodCreateReceipt(after, after.createReceipts[k]) {
      if k == key {
        NewCreateReceiptGood(s, after, c);
      } else {
        assert GoodCreateReceipt(db, db.createReceipts[k]);
        CreateReceiptDocument(db, db.createReceipts[k]);
        OldCreateReceiptGood(db, after, db.createReceipts[k]);
      }
    }
  }

  /** One more receipt counts once, for its own authority. */
  lemma CreateCountsOne(db: Db, after: Db, key: (CreateAuthorityId, RequestId))
    requires key !in db.createReceipts && key in after.createReceipts
    requires after.createReceipts == db.createReceipts[key := after.createReceipts[key]]
    ensures forall a ::
      |AuthorityDocuments(after, a)| == |AuthorityDocuments(db, a)| + if a == key.0 then 1 else 0
  {
    forall a ensures |AuthorityDocuments(after, a)| == |AuthorityDocuments(db, a)| + if a == key.0 then 1 else 0 {
      if a == key.0 {
        assert AuthorityDocuments(after, a) == AuthorityDocuments(db, a) + {key};
      } else {
        assert AuthorityDocuments(after, a) == AuthorityDocuments(db, a);
      }
    }
  }

  lemma CreateReceiptDocument(db: Db, r: CreateReceipt)
    requires GoodCreateReceipt(db, r)
    ensures r.documentId in db.documents
  {
  }

  lemma CreateKeepsInv(s: Scheme, db: Db, c: CreateRequest)
    requires Inv(db)
    ensures Inv(AfterCreate(s, db, c))
  {
    hide Sum, DocumentBytes, ValidTree, ValidLog, ValidCreation, GoodReceipt, CreateDecision, NewCreateReceipt;
    if CreateDecision(s, db, c) == CreateInserted {
      var d := NewDocument(s, c);
      CreateFacts(s, db, c);
      CreateKeepsCreation(s, db, c);
      NewDocumentValid(s, c);
      SumInsert(db.documents, CapabilityCount, c.documentId, d);
      SumInsert(db.documents, ReceiptCount, c.documentId, d);
      RowsAndCountsSuffice(AfterCreate(s, db, c));
    }
  }

  lemma RetireKeepsInv(db: Db, id: DocumentId)
    requires Inv(db)
    ensures Inv(AfterRetire(db, id))
  {
    hide Sum, ValidTree, ValidCreation, GoodReceipt, ValidLog;
    if id in db.documents {
      var d := db.documents[id];
      ValidLogFrame(id, d, d.(retired := true));
      ReplaceKeepsInv(db, id, d.(retired := true));
    }
  }

  // ---- Accounting -------------------------------------------------------------

  /** The bytes declared before a grant are exactly the bytes its rows add. */
  lemma GrantGrowthExact(s: Scheme, db: Db, g: GrantRequest)
    requires Inv(db) && GrantDecision(s, db, g) == Inserted
    ensures g.documentId in db.documents
    ensures
      var d := db.documents[g.documentId];
      var additional := AdditionalBytes(true, |g.operations|, |GrantReceipt(s, g).input|);
      && DocumentBytes(GrantCommit(s, d, g)) == DocumentBytes(d) + additional
      && GlobalBytes(AfterGrant(s, db, g)) == GlobalBytes(db) + additional
  {
    hide ValidTree, ValidCreation, GoodReceipt, ValidLog, GrantDecision, Sum, Bits, GrantInput;
    GrantFacts(s, db, g);
    var d := db.documents[g.documentId];
    SumInsert(d.capabilities, CapabilityBytes, g.descendant, GrantedRow(s, g, d.revision + 1));
    SumInsert(d.receipts, ReceiptBytes, (g.issuer, g.requestId), GrantReceipt(s, g));
    SumInsert(db.documents, DocumentBytes, g.documentId, GrantCommit(s, d, g));
  }

  /** A revoke adds one receipt and changes no row's size. */
  lemma RevokeGrowthExact(s: Scheme, db: Db, r: RevokeRequest)
    requires Inv(db) && RevokeDecision(s, db, r) == Inserted
    ensures r.documentId in db.documents
    ensures
      var d := db.documents[r.documentId];
      var additional := AdditionalBytes(false, 0, |RevokeReceipt(r).input|);
      && DocumentBytes(RevokeCommit(d, r)) == DocumentBytes(d) + additional
      && GlobalBytes(AfterRevoke(s, db, r)) == GlobalBytes(db) + additional
  {
    hide ValidTree, ValidCreation, GoodReceipt, ValidLog, RevokeDecision, Sum;
    RevokeFacts(s, db, r);
    var d := db.documents[r.documentId];
    SumSame(d.capabilities, Marked(d.capabilities, r.target), CapabilityBytes);
    SumInsert(d.receipts, ReceiptBytes, (r.issuer, r.requestId), RevokeReceipt(r));
    SumInsert(db.documents, DocumentBytes, r.documentId, RevokeCommit(d, r));
  }

  /** In every live state both byte clauses of the limit check are implied by its count clauses. */
  lemma ByteLimitsNeverBind(db: Db, id: DocumentId, parent: Option<CapabilityId>, operations: OperationSet)
    requires Inv(db) && id in db.documents
    ensures
      var length := if parent.Some? then 82 else 16;
      ControlLimitsExceeded(db, id, parent, |operations|, length) <==>
        var d := db.documents[id];
        || (parent.Some? && |Children(d.capabilities, parent.value)| >= MAX_DIRECT_CAPABILITY_CHILDREN)
        || (parent.Some? && |d.capabilities| >= MAX_CAPABILITIES_PER_DOCUMENT)
        || (parent.Some? && GlobalCapabilities(db) >= MAX_GLOBAL_CAPABILITIES)
        || |d.receipts| >= MAX_CONTROL_RECEIPTS_PER_DOCUMENT
        || GlobalReceipts(db) >= MAX_GLOBAL_CONTROL_RECEIPTS
  {
    hide ValidLog, ValidCreation, GoodReceipt, Sum, DocumentBytes, ShortInputs, Children,
      GlobalBytes, GlobalReceipts, GlobalCapabilities;
    EveryOperation(operations);
    ReceiptInputsShort(db);
    CountsBoundAllBytes(db);
  }

  // ---- Preflight --------------------------------------------------------------

  lemma WalkedAccessExact(s: Scheme, db: Db, id: DocumentId, c: CapabilityId, secret: Authenticator,
                          operation: Operation)
    requires Inv(db)
    ensures WalkedAccess(s, db, id, c, secret, operation) == AccessTo(s, db, id, c, secret, operation)
  {
    hide ValidTree, ValidCreation, ValidLog, GoodReceipt, DocumentBytes, Sum, Effective, AuthorityWalk;
    if id in db.documents {
      var d := db.documents[id];
      AuthorityWalkExact(d.capabilities, d.root, d.revision, c);
      EffectiveIsActive(d.capabilities, d.root, d.revision, c);
    }
  }

  /**
   * In any one state the two cascades agree: preflight defers exactly the requests that revoke
   * would commit, and every answer it resolves is the answer revoke would give.
   */
  lemma PreflightExact(s: Scheme, db: Db, r: RevokeRequest)
    requires Inv(db)
    ensures Preflight(s, db, r) == RequiresMutation <==> RevokeDecision(s, db, r) == Inserted
    ensures Preflight(s, db, r) == RequiresMutation <==> AfterRevoke(s, db, r) != db
    ensures Preflight(s, db, r).Resolved? ==> Preflight(s, db, r).outcome == RevokeDecision(s, db, r)
  {
    PreflightDecides(s, db, r);
    hide Inv, RevokeDecision, Preflight;
    if RevokeDecision(s, db, r) == Inserted {
      RevokeFacts(s, db, r);
      assert AfterRevoke(s, db, r).documents[r.documentId].revision == db.documents[r.documentId].revision + 1;
    }
  }

  lemma PreflightDecides(s: Scheme, db: Db, r: RevokeRequest)
    requires Inv(db)
    ensures Preflight(s, db, r)
         == if RevokeDecision(s, db, r) == Inserted then RequiresMutation else Resolved(RevokeDecision(s, db, r))
  {
    hide ValidTree, ValidCreation, ValidLog, GoodReceipt, DocumentBytes, Sum, Effective, AuthorityWalk, DescentWalk,
      ControlLimitsExceeded, WalkedAccess;
    WalkedAccessExact(s, db, r.documentId, r.issuer, r.authenticator, Revoke);
    if r.documentId in db.documents {
      var d := db.documents[r.documentId];
      DescentWalkExact(d.capabilities, d.root, d.revision, r.issuer, r.target);
    }
  }
}
