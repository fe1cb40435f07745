/** Runs of the authoritative store: what every reachable state satisfies and what no run can undo. */
module History {
  import opened Prelude
  import opened Types
  import Bytes
  import opened UpdateRecord
  import opened CapabilityTree
  import opened Tables
  import opened Control
  import opened UpdateLog

  datatype Command =
    | CreateDocument(create: CreateRequest)
    | GrantCapability(grant: GrantRequest)
    | RevokeCapability(revoke: RevokeRequest)
    | AcceptUpdate(accept: AcceptRequest)
    | RetireDocument(documentId: DocumentId)

  ghost function Execute(s: Scheme, db: Db, c: Command): (after: Db)
    requires Inv(db)
  {
    match c
    case CreateDocument(create) => AfterCreate(s, db, create)
    case GrantCapability(grant) => AfterGrant(s, db, grant)
    case RevokeCapability(revoke) => AfterRevoke(s, db, revoke)
    case AcceptUpdate(accept) => AfterAccept(s, db, accept)
    case RetireDocument(id) => AfterRetire(db, id)
  }

  lemma ExecuteKeepsInv(s: Scheme, db: Db, c: Command)
    requires Inv(db)
    ensures Inv(Execute(s, db, c))
  {
    hide Inv, AfterCreate, AfterGrant, AfterRevoke, AfterAccept, AfterRetire;
    match c
    case CreateDocument(create) => CreateKeepsInv(s, db, create);
    case GrantCapability(grant) => GrantKeepsInv(s, db, grant);
    case RevokeCapability(revoke) => RevokeKeepsInv(s, db, revoke);
    case AcceptUpdate(accept) => AcceptKeepsInv(s, db, accept);
    case RetireDocument(id) => RetireKeepsInv(db, id);
  }

  ghost function Run(s: Scheme, db: Db, commands: seq<Command>): Db
    requires Inv(db)
    decreases |commands|
  {
    if commands == [] then db
    else
      ExecuteKeepsInv(s, db, commands[0]);
      Run(s, Execute(s, db, commands[0]), commands[1..])
  }

  lemma {:induction false} RunKeepsInv(s: Scheme, db: Db, commands: seq<Command>)
    requires Inv(db)
    ensures Inv(Run(s, db, commands))
    decreases |commands|
  {
    hide Inv, Execute;
    if commands != [] {
      ExecuteKeepsInv(s, db, commands[0]);
      RunKeepsInv(s, Execute(s, db, commands[0]), commands[1..]);
    }
  }

  /** A freshly initialised store holding only provisioned create authorities. */
  function Initial(authorities: map<CreateAuthorityId, CreateAuthorityRow>): Db {
    Db(map[], authorities, map[])
  }

  lemma InitialInv(authorities: map<CreateAuthorityId, CreateAuthorityRow>)
    ensures Inv(Initial(authorities))
  {
    var db := Initial(authorities);
    forall a ensures AuthorityDocuments(db, a) == {} {
    }
  }

  /** Recovery completeness: whatever commands have run, the whole recovery validation succeeds. */
  lemma RecoveryCompleteness(
    s: Scheme, authorities: map<CreateAuthorityId, CreateAuthorityRow>, commands: seq<Command>)
    ensures Inv(Initial(authorities))
    ensures Recoverable(Run(s, Initial(authorities), commands))
  {
    hide Recoverable, Run;
    InitialInv(authorities);
    RunKeepsInv(s, Initial(authorities), commands);
  }

  // ---- Nothing is undone -------------------------------------------------------

  /** One document grows into another: rows are only added, states only advance. */
  ghost predicate DocumentExtends(d: Document, e: Document) {
    && e.root == d.root
    && KeepsIdentities(d.capabilities, e.capabilities)
    && (forall k :: k in d.receipts ==> k in e.receipts && e.receipts[k] == d.receipts[k])
    && d.log <= e.log
    && (d.retired ==> e.retired)
    && d.revision <= e.revision
  }

  ghost predicate Extends(db: Db, after: Db) {
    && (forall id {:trigger id in db.documents} :: id in db.documents ==>
         id in after.documents && DocumentExtends(db.documents[id], after.documents[id]))
    && (forall k :: k in db.createReceipts ==> k in after.createReceipts && after.createReceipts[k] == db.createReceipts[k])
    && after.authorities == db.authorities
  }

  /** Replacing one document by an extension of it extends the store. */
  lemma ReplaceExtends(db: Db, id: DocumentId, e: Document)
    requires id in db.documents && DocumentExtends(db.documents[id], e)
    ensures Extends(db, WithDocument(db, id, e))
  {
    hide DocumentExtends;
    forall k | k in db.documents ensures DocumentExtends(db.documents[k], WithDocument(db, id, e).documents[k]) {
      if k != id { DocumentExtendsItself(db.documents[k]); }
    }
  }

  lemma DocumentExtendsItself(d: Document)
    ensures DocumentExtends(d, d)
  {
  }

  lemma GrantExtends(s: Scheme, db: Db, g: GrantRequest)
    requires Inv(db)
    ensures Extends(db, AfterGrant(s, db, g))
  {
    hide Inv, GrantDecision, GrantReceipt, Extends;
    if GrantDecision(s, db, g) == Inserted {
      GrantFacts(s, db, g);
      ReplaceExtends(db, g.documentId, GrantCommit(s, db.documents[g.documentId], g));
    } else {
      ExtendsReflexive(db);
    }
  }

  lemma RevokeExtends(s: Scheme, db: Db, r: RevokeRequest)
    requires Inv(db)
    ensures Extends(db, AfterRevoke(s, db, r))
  {
    hide Inv, RevokeDecision, Extends, Marked, KeepsIdentities;
    if RevokeDecision(s, db, r) == Inserted {
      RevokeFacts(s, db, r);
      MarkedIdentities(db.documents[r.documentId].capabilities, r.target);
      ReplaceExtends(db, r.documentId, RevokeCommit(db.documents[r.documentId], r));
    } else {
      ExtendsReflexive(db);
    }
  }

  lemma AcceptExtends(s: Scheme, db: Db, a: AcceptRequest)
    requires Inv(db)
    ensures Extends(db, AfterAccept(s, db, a))
  {
    hide Inv, AcceptDecision, DecodeUpdateRecord, PeersOf, Extends;
    match DecodeUpdateRecord(a.record)
    case Failure(_) => ExtendsReflexive(db);
    case Success(u) =>
      if AcceptDecision(s, db, u, a) == AcceptInserted {
        AcceptFacts(s, db, u, a);
        ReplaceExtends(db, u.documentId, AcceptCommit(db.documents[u.documentId], u, a.record));
      } else {
        ExtendsReflexive(db);
      }
  }

  lemma CreateExtends(s: Scheme, db: Db, c: CreateRequest)
    ensures Extends(db, AfterCreate(s, db, c))
  {
    hide CreateDecision, NewDocument, DocumentExtends, NewCreateReceipt;
    if CreateDecision(s, db, c) == CreateInserted { CreateFacts(s, db, c); }
    forall id | id in db.documents ensures DocumentExtends(db.documents[id], db.documents[id]) {
      DocumentExtendsItself(db.documents[id]);
    }
  }

  lemma ExecuteExtends(s: Scheme, db: Db, c: Command)
    requires Inv(db)
    ensures Extends(db, Execute(s, db, c))
  {
    hide Inv, Extends, AfterCreate, AfterGrant, AfterRevoke, AfterAccept;
    match c
    case CreateDocument(create) => CreateExtends(s, db, create);
    case GrantCapability(grant) => GrantExtends(s, db, grant);
    case RevokeCapability(revoke) => RevokeExtends(s, db, revoke);
    case AcceptUpdate(accept) => AcceptExtends(s, db, accept);
    case RetireDocument(id) =>
      if id in db.documents {
        ReplaceExtends(db, id, db.documents[id].(retired := true));
      } else {
        ExtendsReflexive(db);
      }
  }

  lemma ExtendsTransitive(a: Db, b: Db, c: Db)
    requires Extends(a, b) && Extends(b, c)
    ensures Extends(a, c)
  {
    forall id | id in a.documents ensures DocumentExtends(a.documents[id], c.documents[id]) {
      var d, e, f := a.documents[id], b.documents[id], c.documents[id];
      forall k | k in d.capabilities ensures k in f.capabilities && SameIdentity(d.capabilities[k], f.capabilities[k]) {
        assert k in e.capabilities;
      }
      forall k | k in d.receipts ensures k in f.receipts && f.receipts[k] == d.receipts[k] {
        assert k in e.receipts;
      }
    }
  }

  lemma {:induction false} RunExtends(s: Scheme, db: Db, commands: seq<Command>)
    requires Inv(db)
    ensures Extends(db, Run(s, db, commands))
    decreases |commands|
  {
    hide Inv, Execute, Extends;
    if commands == [] {
      ExtendsReflexive(db);
    } else {
      ExecuteKeepsInv(s, db, commands[0]);
      ExecuteExtends(s, db, commands[0]);
      var next := Execute(s, db, commands[0]);
      RunExtends(s, next, commands[1..]);
      ExtendsTransitive(db, next, Run(s, next, commands[1..]));
    }
  }

  lemma ExtendsReflexive(db: Db)
    ensures Extends(db, db)
  {
  }

  // ---- Revocation ----------------------------------------------------------------

  /** Once a capability is revoked, everything at or beneath it, now or ever, is without authority. */
  lemma RevokedStaysDenied(s: Scheme, db: Db, after: Db, id: DocumentId, target: CapabilityId, c: CapabilityId,
                           secret: Authenticator, operation: Operation)
    requires Inv(db) && Inv(after) && Extends(db, after)
    requires id in db.documents && target in db.documents[id].capabilities
    requires db.documents[id].capabilities[target].revoked
    requires Ancestor(after.documents[id].capabilities, target, c)
    ensures AccessTo(s, after, id, c, secret, operation) == Denied
  {
    hide ValidTree, ValidCreation, GoodReceipt, ValidLog, DocumentBytes, Sum;
    var d := after.documents[id];
    assert DocumentExtends(db.documents[id], d);
    assert d.capabilities[target].revoked;
  }

  /**
   * Revocation is permanent and complete: in every state reachable after a revoke of T commits,
   * no capability with T as ancestor or self is authorized for anything, and no grant issued by
   * one of them can commit.
   */
  lemma RevocationPermanent(s: Scheme, db: Db, r: RevokeRequest, commands: seq<Command>, c: CapabilityId,
                            secret: Authenticator, operation: Operation, g: GrantRequest)
    requires Inv(db) && RevokeDecision(s, db, r) == Inserted
    ensures Inv(AfterRevoke(s, db, r))
    ensures
      var after := Run(s, AfterRevoke(s, db, r), commands);
      && Inv(after)
      && r.documentId in after.documents
      && (Ancestor(after.documents[r.documentId].capabilities, r.target, c) ==>
           && AccessTo(s, after, r.documentId, c, secret, operation) == Denied
           && (g.documentId == r.documentId && g.issuer == c ==> GrantDecision(s, after, g) != Inserted))
  {
    hide Inv, RevokeDecision, Run, AfterRevoke, GrantDecision, AccessTo, Extends;
    RevokeKeepsInv(s, db, r);
    var committed := AfterRevoke(s, db, r);
    RevokeCommitted(s, db, r);
    RunExtends(s, committed, commands);
    RunKeepsInv(s, committed, commands);
    var after := Run(s, committed, commands);
    ExtendsKeepsDocument(committed, after, r.documentId);
    if Ancestor(after.documents[r.documentId].capabilities, r.target, c) {
      RevokedStaysDenied(s, committed, after, r.documentId, r.target, c, secret, operation);
      RevokedStaysDenied(s, committed, after, r.documentId, r.target, c, g.authenticator, Grant);
      DeniedCannotGrant(s, after, g);
    }
  }

  lemma ExtendsKeepsDocument(db: Db, after: Db, id: DocumentId)
    requires Extends(db, after) && id in db.documents
    ensures id in after.documents && DocumentExtends(db.documents[id], after.documents[id])
  {
  }

  lemma DeniedCannotGrant(s: Scheme, db: Db, g: GrantRequest)
    requires Inv(db)
    ensures AccessTo(s, db, g.documentId, g.issuer, g.authenticator, Grant) == Denied ==>
      GrantDecision(s, db, g) != Inserted
  {
    hide Inv, AccessTo, ControlLimitsExceeded, GrantReceipt, Chain;
  }

  /** What a committed revoke leaves behind. */
  lemma RevokeCommitted(s: Scheme, db: Db, r: RevokeRequest)
    requires Inv(db) && RevokeDecision(s, db, r) == Inserted
    ensures r.documentId in db.documents && r.issuer in db.documents[r.documentId].capabilities
    ensures r.documentId in AfterRevoke(s, db, r).documents
    ensures
      var t, d := db.documents[r.documentId].capabilities, AfterRevoke(s, db, r).documents[r.documentId];
      && r.target in d.capabilities && d.capabilities[r.target].revoked
      && r.issuer in d.capabilities && d.capabilities[r.issuer].receipt == t[r.issuer].receipt
      && (r.issuer, r.requestId) in d.receipts && d.receipts[(r.issuer, r.requestId)] == RevokeReceipt(r)
  {
    hide RevokeDecision, ValidTree, ValidCreation, ValidLog, GoodReceipt, DocumentBytes, Sum;
    RevokeFacts(s, db, r);
    var d := db.documents[r.documentId];
    ValidTreeLinked(d.capabilities, d.root, d.revision);
    ChainIsAncestry(d.capabilities, r.target, r.target);
  }

  // ---- Receipts --------------------------------------------------------------------

  /** The secret matches the verifier kept for retrieving an issuer's receipts. */
  predicate IssuerProved(s: Scheme, db: Db, id: DocumentId, issuer: CapabilityId, secret: Authenticator) {
    && id in db.documents
    && issuer in db.documents[id].capabilities
    && db.documents[id].capabilities[issuer].receipt == s.receipt(id, issuer, secret)
  }

  /** The answer retained for a committed control request, whatever has happened to its issuer since. */
  lemma ReceiptRetained(s: Scheme, db: Db, after: Db, id: DocumentId, issuer: CapabilityId, secret: Authenticator,
                        requestId: RequestId, receipt: ControlReceipt, asked: ControlReceipt)
    requires Extends(db, after)
    requires id in db.documents && issuer in db.documents[id].capabilities
    requires (issuer, requestId) in db.documents[id].receipts
    requires db.documents[id].receipts[(issuer, requestId)] == receipt
    requires db.documents[id].capabilities[issuer].receipt == s.receipt(id, issuer, secret)
    ensures ReceiptAnswer(s, after, id, issuer, secret, requestId, asked)
         == Some(if asked == receipt then AlreadyPresent else RequestConflict)
  {
    assert DocumentExtends(db.documents[id], after.documents[id]);
  }

  /** Distinct grants have distinct receipts: the normalized input determines all it normalizes. */
  lemma GrantReceiptInjective(s: Scheme, g: GrantRequest, h: GrantRequest)
    requires GrantReceipt(s, g) == GrantReceipt(s, h) && g.documentId == h.documentId
    ensures g.descendant == h.descendant && g.operations == h.operations
    ensures s.live(g.documentId, g.descendant, g.descendantAuthenticator)
         == s.live(h.documentId, h.descendant, h.descendantAuthenticator)
  {
    hide Bits, FromBits;
    BitsRoundTrip(g.operations);
    BitsRoundTrip(h.operations);
    Bytes.U16RoundTrip(Bits(g.operations), []);
    Bytes.U16RoundTrip(Bits(h.operations), []);
    var a, b := GrantReceipt(s, g).input, GrantReceipt(s, h).input;
    assert a[..16] == b[..16] && a[16..48] == b[16..48] && a[80..] == b[80..];
  }

  /**
   * Receipts are forever. After a grant commits, in every later state a request under the same
   * issuer, request identifier and secret that the issuer's receipt verifier accepts answers
   * AlreadyPresent if it asks for the same thing and RequestConflict if it asks for another, and
   * changes nothing, even when the issuer has been revoked meanwhile.
   */
  lemma GrantReceiptForever(s: Scheme, db: Db, g: GrantRequest, commands: seq<Command>, h: GrantRequest)
    requires Inv(db) && GrantDecision(s, db, g) == Inserted
    requires h.documentId == g.documentId && h.issuer == g.issuer && h.requestId == g.requestId
    requires IssuerProved(s, db, g.documentId, g.issuer, h.authenticator)
    requires h.operations != {}
    ensures Inv(AfterGrant(s, db, g))
    ensures
      var after := Run(s, AfterGrant(s, db, g), commands);
      && Inv(after)
      && GrantDecision(s, after, h)
         == (if GrantReceipt(s, h) == GrantReceipt(s, g) then AlreadyPresent else RequestConflict)
      && AfterGrant(s, after, h) == after
  {
    hide Inv, Run, AfterGrant, GrantDecision, GrantReceipt, Extends, ReceiptAnswer;
    GrantKeepsInv(s, db, g);
    var committed := AfterGrant(s, db, g);
    RunExtends(s, committed, commands);
    RunKeepsInv(s, committed, commands);
    var after := Run(s, committed, commands);
    GrantCommitted(s, db, g);
    ReceiptRetained(s, committed, after, g.documentId, g.issuer, h.authenticator, g.requestId,
                    GrantReceipt(s, g), GrantReceipt(s, h));
    GrantAnswered(s, after, h);
  }

  lemma GrantAnswered(s: Scheme, db: Db, g: GrantRequest)
    requires Inv(db) && g.operations != {}
    requires ReceiptAnswer(s, db, g.documentId, g.issuer, g.authenticator, g.requestId, GrantReceipt(s, g)).Some?
    ensures GrantDecision(s, db, g)
         == ReceiptAnswer(s, db, g.documentId, g.issuer, g.authenticator, g.requestId, GrantReceipt(s, g)).value
    ensures GrantDecision(s, db, g) != Inserted && AfterGrant(s, db, g) == db
  {
    hide Inv, AccessTo, ControlLimitsExceeded, GrantReceipt, Chain;
  }

  lemma RevokeAnswered(s: Scheme, db: Db, r: RevokeRequest)
    requires Inv(db)
    requires ReceiptAnswer(s, db, r.documentId, r.issuer, r.authenticator, r.requestId, RevokeReceipt(r)).Some?
    ensures RevokeDecision(s, db, r)
         == ReceiptAnswer(s, db, r.documentId, r.issuer, r.authenticator, r.requestId, RevokeReceipt(r)).value
    ensures RevokeDecision(s, db, r) != Inserted && AfterRevoke(s, db, r) == db
    ensures Preflight(s, db, r) == Resolved(RevokeDecision(s, db, r))
  {
    hide Inv, AccessTo, ControlLimitsExceeded;
  }

  lemma GrantCommitted(s: Scheme, db: Db, g: GrantRequest)
    requires Inv(db) && GrantDecision(s, db, g) == Inserted
    ensures g.documentId in AfterGrant(s, db, g).documents
    ensures
      var d := AfterGrant(s, db, g).documents[g.documentId];
      && g.documentId in db.documents && g.issuer in db.documents[g.documentId].capabilities
      && g.issuer in d.capabilities
      && d.capabilities[g.issuer] == db.documents[g.documentId].capabilities[g.issuer]
      && (g.issuer, g.requestId) in d.receipts
      && d.receipts[(g.issuer, g.requestId)] == GrantReceipt(s, g)
  {
    hide Inv, GrantDecision;
    GrantFacts(s, db, g);
  }

  /** The same for revocations; the target's revocation is part of the retained state. */
  lemma RevokeReceiptForever(s: Scheme, db: Db, r: RevokeRequest, commands: seq<Command>, q: RevokeRequest)
    requires Inv(db) && RevokeDecision(s, db, r) == Inserted
    requires q.documentId == r.documentId && q.issuer == r.issuer && q.requestId == r.requestId
    requires IssuerProved(s, db, r.documentId, r.issuer, q.authenticator)
    ensures Inv(AfterRevoke(s, db, r))
    ensures
      var after := Run(s, AfterRevoke(s, db, r), commands);
      && Inv(after)
      && RevokeDecision(s, after, q) == (if q.target == r.target then AlreadyPresent else RequestConflict)
      && AfterRevoke(s, after, q) == after
      && Preflight(s, after, q) == Resolved(RevokeDecision(s, after, q))
  {
    hide Inv, Run, AfterRevoke, RevokeDecision, Extends, ReceiptAnswer, Preflight;
    RevokeKeepsInv(s, db, r);
    var committed := AfterRevoke(s, db, r);
    RunExtends(s, committed, commands);
    RunKeepsInv(s, committed, commands);
    var after := Run(s, committed, commands);
    RevokeCommitted(s, db, r);
    ReceiptRetained(s, committed, after, r.documentId, r.issuer, q.authenticator, r.requestId,
                    RevokeReceipt(r), RevokeReceipt(q));
    RevokeAnswered(s, after, q);
  }

  /** A retained answer is the answer of every later state. */
  lemma ReceiptAnswerStands(s: Scheme, db: Db, after: Db, id: DocumentId, issuer: CapabilityId, secret: Authenticator,
                            requestId: RequestId, asked: ControlReceipt)
    requires Inv(db) && Extends(db, after)
    requires ReceiptAnswer(s, db, id, issuer, secret, requestId, asked).Some?
    ensures ReceiptAnswer(s, after, id, issuer, secret, requestId, asked)
         == ReceiptAnswer(s, db, id, issuer, secret, requestId, asked)
  {
    hide ValidTree, ValidCreation, ValidLog, DocumentBytes, Sum, GlobalCapabilities, GlobalReceipts, GlobalBytes;
    var d := db.documents[id];
    assert GoodReceipt(d.capabilities, issuer, d.receipts[(issuer, requestId)]);
    assert DocumentExtends(d, after.documents[id]);
  }

  /**
   * What the daemon relies on when it answers a preflight without taking the gate: an answer
   * resolved from a retained receipt, so every AlreadyPresent and every RequestConflict, is still
   * revoke's answer, and preflight's, in every later state, and changes nothing there.
   */
  lemma PreflightStands(s: Scheme, db: Db, r: RevokeRequest, commands: seq<Command>)
    requires Inv(db) && Preflight(s, db, r).Resolved?
    requires
      || Preflight(s, db, r).outcome == AlreadyPresent
      || Preflight(s, db, r).outcome == RequestConflict
      || (r.documentId in db.documents && (r.issuer, r.requestId) in db.documents[r.documentId].receipts)
    ensures
      var after := Run(s, db, commands);
      && Inv(after)
      && RevokeDecision(s, after, r) == Preflight(s, db, r).outcome
      && Preflight(s, after, r) == Preflight(s, db, r)
      && AfterRevoke(s, after, r) == after
  {
    hide Inv, Run, AfterRevoke, RevokeDecision, Extends;
    ResolvedByReceipt(s, db, r);
    RunKeepsInv(s, db, commands);
    RunExtends(s, db, commands);
    var after := Run(s, db, commands);
    ReceiptAnswerStands(s, db, after, r.documentId, r.issuer, r.authenticator, r.requestId, RevokeReceipt(r));
    RevokeAnswered(s, db, r);
    RevokeAnswered(s, after, r);
  }

  lemma ResolvedByReceipt(s: Scheme, db: Db, r: RevokeRequest)
    requires Preflight(s, db, r).Resolved?
    requires
      || Preflight(s, db, r).outcome == AlreadyPresent
      || Preflight(s, db, r).outcome == RequestConflict
      || (r.documentId in db.documents && (r.issuer, r.requestId) in db.documents[r.documentId].receipts)
    ensures ReceiptAnswer(s, db, r.documentId, r.issuer, r.authenticator, r.requestId, RevokeReceipt(r)).Some?
  {
    hide WalkedAccess, ControlLimitsExceeded, DescentWalk;
  }

  // ---- One secret behind both verifiers ------------------------------------------------

  /** Some one secret yields both verifiers of a row. */
  ghost predicate OneSecret(s: Scheme, id: DocumentId, c: CapabilityId, row: Capability) {
    exists secret: Authenticator :: row.live == s.live(id, c, secret) && row.receipt == s.receipt(id, c, secret)
  }

  ghost predicate Derived(s: Scheme, db: Db) {
    forall id, c :: id in db.documents && c in db.documents[id].capabilities ==>
      OneSecret(s, id, c, db.documents[id].capabilities[c])
  }

  /** Every row after a step was there before with the same verifiers, or comes from one secret. */
  lemma AddedRowsDerived(s: Scheme, db: Db, after: Db)
    requires Derived(s, db) && Extends(db, after)
    requires forall id, c :: id in after.documents && c in after.documents[id].capabilities ==>
      (id in db.documents && c in db.documents[id].capabilities) || OneSecret(s, id, c, after.documents[id].capabilities[c])
    ensures Derived(s, after)
  {
    forall id, c | id in after.documents && c in after.documents[id].capabilities
      ensures OneSecret(s, id, c, after.documents[id].capabilities[c])
    {
      if id in db.documents && c in db.documents[id].capabilities {
        assert DocumentExtends(db.documents[id], after.documents[id]);
        assert OneSecret(s, id, c, db.documents[id].capabilities[c]);
      }
    }
  }

  lemma ExecuteKeepsDerived(s: Scheme, db: Db, c: Command)
    requires Inv(db) && Derived(s, db)
    ensures Derived(s, Execute(s, db, c))
  {
    hide Inv, Derived, Extends, Execute, OneSecret;
    ExecuteExtends(s, db, c);
    forall id, k | id in Execute(s, db, c).documents && k in Execute(s, db, c).documents[id].capabilities
      ensures (id in db.documents && k in db.documents[id].capabilities)
           || OneSecret(s, id, k, Execute(s, db, c).documents[id].capabilities[k])
    {
      NewRowHasOneSecret(s, db, c, id, k);
    }
    AddedRowsDerived(s, db, Execute(s, db, c));
  }

  lemma NewRowHasOneSecret(s: Scheme, db: Db, c: Command, id: DocumentId, k: CapabilityId)
    requires Inv(db) && id in Execute(s, db, c).documents && k in Execute(s, db, c).documents[id].capabilities
    ensures (id in db.documents && k in db.documents[id].capabilities)
         || OneSecret(s, id, k, Execute(s, db, c).documents[id].capabilities[k])
  {
    hide Inv, CreateDecision, GrantDecision, RevokeDecision, AcceptDecision, DecodeUpdateRecord, PeersOf, Subtree,
      GrantReceipt, NewCreateReceipt;
    match c
    case CreateDocument(create) =>
      if CreateDecision(s, db, create) == CreateInserted { CreateFacts(s, db, create); }
    case GrantCapability(grant) =>
      if GrantDecision(s, db, grant) == Inserted { GrantFacts(s, db, grant); }
    case RevokeCapability(revoke) =>
      if RevokeDecision(s, db, revoke) == Inserted { RevokeFacts(s, db, revoke); }
    case AcceptUpdate(accept) =>
      match DecodeUpdateRecord(accept.record) {
        case Failure(_) =>
        case Success(u) =>
          if AcceptDecision(s, db, u, accept) == AcceptInserted { AcceptFacts(s, db, u, accept); }
      }
    case RetireDocument(_) =>
  }

  lemma {:induction false} RunKeepsDerived(s: Scheme, db: Db, commands: seq<Command>)
    requires Inv(db) && Derived(s, db)
    ensures Derived(s, Run(s, db, commands))
    decreases |commands|
  {
    hide Inv, Execute, Derived;
    if commands != [] {
      ExecuteKeepsInv(s, db, commands[0]);
      ExecuteKeepsDerived(s, db, commands[0]);
      RunKeepsDerived(s, Execute(s, db, commands[0]), commands[1..]);
    }
  }

  /** Different secrets of one capability have different live verifiers. */
  ghost predicate LiveInjective(s: Scheme, id: DocumentId, c: CapabilityId) {
    forall a: Authenticator, b: Authenticator :: s.live(id, c, a) == s.live(id, c, b) ==> a == b
  }

  /** Where live verifiers tell secrets apart, whoever is authorized can also retrieve receipts. */
  lemma AuthorizedIsProved(s: Scheme, db: Db, id: DocumentId, c: CapabilityId, secret: Authenticator, operation: Operation)
    requires Derived(s, db) && LiveInjective(s, id, c)
    requires AccessTo(s, db, id, c, secret, operation) == Authorized
    ensures IssuerProved(s, db, id, c, secret)
  {
    var row := db.documents[id].capabilities[c];
    assert OneSecret(s, id, c, row);
    var own: Authenticator :| row.live == s.live(id, c, own) && row.receipt == s.receipt(id, c, own);
    assert s.live(id, c, own) == s.live(id, c, secret);
  }

  /**
   * In every run, the very request that committed a grant answers AlreadyPresent ever after, with
   * no assumption about its secret but that live verifiers tell the issuer's secrets apart.
   */
  lemma IdenticalGrantForever(s: Scheme, authorities: map<CreateAuthorityId, CreateAuthorityRow>,
                              commands: seq<Command>, g: GrantRequest, later: seq<Command>)
    requires LiveInjective(s, g.documentId, g.issuer)
    ensures Inv(Initial(authorities)) && Inv(Run(s, Initial(authorities), commands))
    ensures
      var db := Run(s, Initial(authorities), commands);
      && Inv(AfterGrant(s, db, g))
      && var after := Run(s, AfterGrant(s, db, g), later);
      && Inv(after)
      && (GrantDecision(s, db, g) == Inserted ==>
           GrantDecision(s, after, g) == AlreadyPresent && AfterGrant(s, after, g) == after)
  {
    hide Inv, Run, AfterGrant, GrantDecision, Derived, LiveInjective, AccessTo, GrantReceipt, IssuerProved;
    InitialInv(authorities);
    RunKeepsInv(s, Initial(authorities), commands);
    InitialDerived(s, authorities);
    RunKeepsDerived(s, Initial(authorities), commands);
    var db := Run(s, Initial(authorities), commands);
    GrantKeepsInv(s, db, g);
    RunKeepsInv(s, AfterGrant(s, db, g), later);
    if GrantDecision(s, db, g) == Inserted {
      GrantAuthorized(s, db, g);
      AuthorizedIsProved(s, db, g.documentId, g.issuer, g.authenticator, Grant);
      GrantReceiptForever(s, db, g, later, g);
    }
  }

  /** The same for revokes. */
  lemma IdenticalRevokeForever(s: Scheme, authorities: map<CreateAuthorityId, CreateAuthorityRow>,
                               commands: seq<Command>, r: RevokeRequest, later: seq<Command>)
    requires LiveInjective(s, r.documentId, r.issuer)
    ensures Inv(Initial(authorities)) && Inv(Run(s, Initial(authorities), commands))
    ensures
      var db := Run(s, Initial(authorities), commands);
      && Inv(AfterRevoke(s, db, r))
      && var after := Run(s, AfterRevoke(s, db, r), later);
      && Inv(after)
      && (RevokeDecision(s, db, r) == Inserted ==>
           && RevokeDecision(s, after, r) == AlreadyPresent && AfterRevoke(s, after, r) == after
           && Preflight(s, after, r) == Resolved(AlreadyPresent))
  {
    hide Inv, Run, AfterRevoke, RevokeDecision, Derived, LiveInjective, AccessTo, IssuerProved, Preflight;
    InitialInv(authorities);
    RunKeepsInv(s, Initial(authorities), commands);
    InitialDerived(s, authorities);
    RunKeepsDerived(s, Initial(authorities), commands);
    var db := Run(s, Initial(authorities), commands);
    RevokeKeepsInv(s, db, r);
    RunKeepsInv(s, AfterRevoke(s, db, r), later);
    if RevokeDecision(s, db, r) == Inserted {
      RevokeAuthorized(s, db, r);
      AuthorizedIsProved(s, db, r.documentId, r.issuer, r.authenticator, Revoke);
      RevokeReceiptForever(s, db, r, later, r);
    }
  }

  lemma InitialDerived(s: Scheme, authorities: map<CreateAuthorityId, CreateAuthorityRow>)
    ensures Derived(s, Initial(authorities))
  {
  }

  lemma GrantAuthorized(s: Scheme, db: Db, g: GrantRequest)
    requires Inv(db) && GrantDecision(s, db, g) == Inserted
    ensures AccessTo(s, db, g.documentId, g.issuer, g.authenticator, Grant) == Authorized && g.operations != {}
  {
    hide Inv, AccessTo, ControlLimitsExceeded, GrantReceipt, Chain;
  }

  lemma RevokeAuthorized(s: Scheme, db: Db, r: RevokeRequest)
    requires Inv(db) && RevokeDecision(s, db, r) == Inserted
    ensures AccessTo(s, db, r.documentId, r.issuer, r.authenticator, Revoke) == Authorized
  {
    hide Inv, AccessTo, ControlLimitsExceeded, Ancestor;
  }

  // ---- Authority in reachable states --------------------------------------------------

  /**
   * In every reachable state authority reduces to the presented row: it is active, the secret
   * matches, and the operation is one of its own, all of which every ancestor also holds.
   */
  lemma AccessCollapses(s: Scheme, db: Db, id: DocumentId, c: CapabilityId, secret: Authenticator,
                        operation: Operation)
    requires Inv(db)
    ensures AccessTo(s, db, id, c, secret, operation) != Denied <==>
      && id in db.documents
      && var t := db.documents[id].capabilities;
      && c in t && !t[c].revoked && t[c].live == s.live(id, c, secret) && operation in t[c].operations
    ensures AccessTo(s, db, id, c, secret, operation) != Denied ==>
      var t := db.documents[id].capabilities;
      forall a :: Ancestor(t, a, c) ==> a in t && !t[a].revoked && operation in t[a].operations
  {
    hide ValidTree, ValidCreation, GoodReceipt, ValidLog, DocumentBytes, Sum;
    if id in db.documents {
      var d := db.documents[id];
      EffectiveIsActive(d.capabilities, d.root, d.revision, c);
      forall a | Ancestor(d.capabilities, a, c)
        ensures c in d.capabilities && a in d.capabilities && d.capabilities[c].operations <= d.capabilities[a].operations
      {
        AncestorsHoldMore(d.capabilities, d.root, d.revision, a, c);
      }
    }
  }
}
