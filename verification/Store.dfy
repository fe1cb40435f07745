/** The authoritative store as one object: its operations run as written, proved against the step functions. */
module Store {
  import opened Prelude
  import opened Types
  import opened UpdateRecord
  import opened CapabilityTree
  import opened Tables
  import opened Control
  import opened UpdateLog
  import opened History
  import opened Reads
  import opened PassRegistry
  import opened EnumerationPasses
  import opened VectorPasses
  import opened Service
  import opened Subscriptions
  import Recovery

  lemma {:induction false} RetainSame<P>(s: seq<P>, f: P -> bool, g: P -> bool)
    requires forall p :: p in s ==> f(p) == g(p)
    ensures Retain(s, f) == Retain(s, g)
  {
    if s != [] {
      assert s == s[..|s| - 1] + [s[|s| - 1]];
      RetainSame(s[..|s| - 1], f, g);
    }
  }

  lemma {:induction false} RetainEverything<P>(s: seq<P>, f: P -> bool)
    requires forall p :: p in s ==> f(p)
    ensures Retain(s, f) == s
  {
    if s != [] {
      assert s == s[..|s| - 1] + [s[|s| - 1]];
      RetainEverything(s[..|s| - 1], f);
    }
  }

  class DurableUpdateStore {
    const scheme: Scheme
    const generation: Identifier
    const subscriptions: UpdateSubscriptionRegistry

    var documents: map<DocumentId, Document>
    var authorities: map<CreateAuthorityId, CreateAuthorityRow>
    var createReceipts: map<(CreateAuthorityId, RequestId), CreateReceipt>
    var enumerationPasses: seq<EnumerationPass>
    var vectorPasses: seq<VectorPass>

    /** What the holders of cursors have been handed: history, not state. */
    ghost var handed: Ledger
    ghost var vectorHanded: VectorLedger

    function Tables(): Db
      reads this
    {
      Db(documents, authorities, createReceipts)
    }

    ghost function State(): ServiceState
      reads this
    {
      ServiceState(Tables(), generation, enumerationPasses, vectorPasses, handed, vectorHanded)
    }

    ghost predicate Valid()
      reads this, subscriptions
    {
      ServiceInv(State()) && RegistryInv(subscriptions.Value())
    }

    /** A store opens over tables only when recovery accepts them; its registries start empty. */
    constructor (s: Scheme, g: Identifier, db: Db)
      requires Inv(db)
      ensures Valid() && fresh(subscriptions)
      ensures State() == ServiceState(db, g, [], [], map[], map[]) && scheme == s
      ensures subscriptions.Value() == Registry([], map[], {}, 1, 1)
    {
      scheme, generation := s, g;
      subscriptions := new UpdateSubscriptionRegistry();
      documents, authorities, createReceipts := db.documents, db.authorities, db.createReceipts;
      enumerationPasses, vectorPasses := [], [];
      handed, vectorHanded := map[], map[];
      new;
      hide Inv;
      EmptyTracked(LogOf(db), map[], map[]);
      assert Tables() == db;
    }

    // ---- Authorization -----------------------------------------------------------------

    /** The 64-step walk: secret and operation at the presented row, activity at every row. */
    method AuthorizeDocument(id: DocumentId, c: CapabilityId, secret: Authenticator, operation: Operation)
      returns (access: Access)
      requires Inv(Tables())
      ensures access == AccessTo(scheme, Tables(), id, c, secret, operation)
    {
      hide ValidCreation, ValidLog, GoodReceipt, DocumentBytes, Sum, ValidTree;
      if id !in documents { return Denied; }
      var d := documents[id];
      var t := d.capabilities;
      EffectiveIsActive(t, d.root, d.revision, c);
      ValidTreeLinked(t, d.root, d.revision);
      var current := c;
      for depth := 0 to MAX_CAPABILITY_DEPTH
        invariant depth == 0 ==> current == c
        invariant depth > 0 ==>
          && c in t && depth < |Chain(t, c)| && current == Chain(t, c)[depth]
          && !t[c].revoked && t[c].live == scheme.live(id, c, secret) && operation in t[c].operations
      {
        if current !in t { return Denied; }
        ChainInherits(t, d.root, d.revision, c, depth);
        ChainStep(t, c, depth);
        if t[current].revoked { return Denied; }
        if depth == 0 && (t[c].live != scheme.live(id, c, secret) || operation !in t[c].operations) { return Denied; }
        if t[current].parent.None? { return if d.retired then RetiredDocument else Authorized; }
        current := t[current].parent.value;
      }
      ShortChains(t, d.root, d.revision, c);
      return Denied;
    }

    // ---- Control ------------------------------------------------------------------------

    method GlobalControlBytes() returns (bytes: nat)
      ensures bytes == GlobalBytes(Tables())
    {
      hide DocumentBytes;
      var rest := documents;
      bytes := 0;
      while rest != map[]
        invariant bytes + Sum(rest, DocumentBytes) == GlobalBytes(Tables())
        decreases |rest|
      {
        var id :| id in rest;
        SumRemove(rest, DocumentBytes, id);
        var size := Recovery.ControlBytes(rest[id]);
        bytes := bytes + size;
        rest := rest - {id};
      }
    }

    method LimitsExceeded(id: DocumentId, parent: Option<CapabilityId>, operationCount: nat, inputLength: nat)
      returns (exceeded: bool)
      requires id in documents
      ensures exceeded == ControlLimitsExceeded(Tables(), id, parent, operationCount, inputLength)
    {
      hide DocumentBytes;
      var d := documents[id];
      if parent.Some? {
        var children := set c | c in d.capabilities && d.capabilities[c].parent == Some(parent.value);
        assert children == Children(d.capabilities, parent.value);
        if |children| >= MAX_DIRECT_CAPABILITY_CHILDREN { return true; }
      }
      var globalCapabilities := Total(documents, CapabilityCount);
      var globalReceipts := Total(documents, ReceiptCount);
      if (parent.Some? && (|d.capabilities| >= MAX_CAPABILITIES_PER_DOCUMENT || globalCapabilities >= MAX_GLOBAL_CAPABILITIES))
        || |d.receipts| >= MAX_CONTROL_RECEIPTS_PER_DOCUMENT
        || globalReceipts >= MAX_GLOBAL_CONTROL_RECEIPTS
      {
        return true;
      }
      var used := Recovery.ControlBytes(d);
      var globalUsed := GlobalControlBytes();
      var additional := AdditionalBytes(parent.Some?, operationCount, inputLength);
      return used + additional > MAX_DOCUMENT_CONTROL_BYTES || globalUsed + additional > MAX_GLOBAL_CONTROL_BYTES;
    }

    method DecideGrant(g: GrantRequest) returns (outcome: ControlOutcome)
      requires Inv(Tables())
      ensures outcome == GrantDecision(scheme, Tables(), g)
    {
      hide ValidCreation, ValidLog, GoodReceipt, DocumentBytes, Sum, ValidTree, ControlLimitsExceeded, AccessTo, GrantReceipt;
      if g.operations == {} { return AuthorizationDenied; }
      var answer := ReceiptAnswer(scheme, Tables(), g.documentId, g.issuer, g.authenticator, g.requestId,
                                  GrantReceipt(scheme, g));
      if answer.Some? { return answer.value; }
      var access := AuthorizeDocument(g.documentId, g.issuer, g.authenticator, Grant);
      if access != Authorized { return AuthorizationDenied; }
      AccessHasCapability(scheme, Tables(), g.documentId, g.issuer, g.authenticator, Grant);
      var d := documents[g.documentId];
      if d.revision >= U64_MAX { return CounterExhausted; }
      if !Allows(d.capabilities[g.issuer].operations, g.operations) { return AuthorizationDenied; }
      if g.descendant in d.capabilities { return IdentifierConflict; }
      var capacity := IssuerHasDescendantCapacity(d.capabilities, d.root, d.revision, g.issuer);
      if !capacity { return LimitExceeded; }
      var limited := LimitsExceeded(g.documentId, Some(g.issuer), |g.operations|, 82);
      return if limited then LimitExceeded else Inserted;
    }

    method DecideRevoke(r: RevokeRequest) returns (outcome: ControlOutcome)
      requires Inv(Tables())
      ensures outcome == RevokeDecision(scheme, Tables(), r)
    {
      hide ValidCreation, ValidLog, GoodReceipt, DocumentBytes, Sum, ValidTree, ControlLimitsExceeded, AccessTo;
      var answer := ReceiptAnswer(scheme, Tables(), r.documentId, r.issuer, r.authenticator, r.requestId, RevokeReceipt(r));
      if answer.Some? { return answer.value; }
      var access := AuthorizeDocument(r.documentId, r.issuer, r.authenticator, Revoke);
      if access != Authorized { return AuthorizationDenied; }
      AccessHasCapability(scheme, Tables(), r.documentId, r.issuer, r.authenticator, Revoke);
      var d := documents[r.documentId];
      if d.revision >= U64_MAX { return CounterExhausted; }
      var active := IsActiveDescendant(d.capabilities, d.root, d.revision, r.issuer, r.target);
      if !active { return AuthorizationDenied; }
      var limited := LimitsExceeded(r.documentId, None, 0, 16);
      return if limited then LimitExceeded else Inserted;
    }

    /** Creates a document with its full root, or resolves a retained request. */
    method CreateDocument(c: CreateRequest) returns (outcome: CreateOutcome)
      requires Valid()
      modifies this
      ensures Valid()
      ensures outcome == CreateDecision(scheme, old(Tables()), c)
      ensures State() == Step(scheme, old(State()), Event.Mutate(Command.CreateDocument(c)))
    {
      hide ServiceInv, RegistryInv, Inv, CreateDecision, Step;
      ghost var before := State();
      StateInv(before);
      QuietMutation(scheme, before, Command.CreateDocument(c));
      StepKeeps(scheme, before, Event.Mutate(Command.CreateDocument(c)));
      outcome := DecideCreate(c);
      if outcome == CreateInserted {
        documents := documents[c.documentId := NewDocument(scheme, c)];
        createReceipts := createReceipts[(c.authority, c.requestId) := NewCreateReceipt(scheme, c)];
      }
      assert State() == before.(db := AfterCreate(scheme, before.db, c));
    }

    method DecideCreate(c: CreateRequest) returns (outcome: CreateOutcome)
      ensures outcome == CreateDecision(scheme, Tables(), c)
    {
      hide CreateLimitsExceeded, NewCreateReceipt;
      if c.authority !in authorities { return CreateDenied; }
      var a := authorities[c.authority];
      var live := a.enabled && a.live == scheme.createLive(c.authority, c.authenticator);
      var retained := a.receipt == scheme.createReceipt(c.authority, c.authenticator);
      if !live && !retained { return CreateDenied; }
      if (c.authority, c.requestId) in createReceipts {
        var r := createReceipts[(c.authority, c.requestId)];
        if !retained || !RootProved(scheme, Tables(), r.documentId, r.root, c.rootAuthenticator) { return CreateDenied; }
        return if r.input == NewCreateReceipt(scheme, c).input then CreateAlreadyPresent else CreateRequestConflict;
      }
      if !live { return CreateDenied; }
      if c.documentId in documents {
        var proved := RootProved(scheme, Tables(), c.documentId, documents[c.documentId].root, c.rootAuthenticator);
        return if proved then CreateIdentifierConflict else CreateDenied;
      }
      var limited := CreateLimits(c.authority);
      return if limited then CreateLimitExceeded else CreateInserted;
    }

    method CreateLimits(a: CreateAuthorityId) returns (exceeded: bool)
      ensures exceeded == CreateLimitsExceeded(Tables(), a)
    {
      var own := set k | k in createReceipts && k.0 == a;
      assert own == AuthorityDocuments(Tables(), a);
      var capabilities := Total(documents, CapabilityCount);
      return |own| >= MAX_DOCUMENTS_PER_CREATE_AUTHORITY || |documents| >= MAX_GLOBAL_DOCUMENTS
        || |createReceipts| >= MAX_GLOBAL_CREATE_RECEIPTS || capabilities >= MAX_GLOBAL_CAPABILITIES;
    }

    /** Retirement becomes durable, then passes and subscriptions of the document end. */
    method Retire(id: DocumentId)
      requires Valid() && id in documents
      modifies this, subscriptions
      ensures Valid()
      ensures State() == Step(scheme, old(State()), Event.Mutate(RetireDocument(id)))
      ensures subscriptions.Value() == Ended(old(subscriptions.Value()), ForDocument(id), Retired)
    {
      hide ServiceInv, RegistryInv, Inv, Ended, Retain;
      ghost var before := State();
      ghost var registry := subscriptions.Value();
      StateInv(before);
      StepKeeps(scheme, before, Event.Mutate(RetireDocument(id)));
      RegistryEntries(registry);
      documents := documents[id := documents[id].(retired := true)];
      var keep := (c: Context) => c.documentId != id;
      RetainSameEnumerations(before.enumerations, keep, Outlives(scheme, before.db, RetireDocument(id)));
      RetainSameVectors(before.vectors, keep, Outlives(scheme, before.db, RetireDocument(id)));
      enumerationPasses := RetainPasses(enumerationPasses, EnumerationsIn(keep));
      vectorPasses := RetainPasses(vectorPasses, VectorsIn(keep));
      EndedKeepsInv(registry, ForDocument(id), Retired);
      subscriptions.InvalidateDocument(id, Retired);
    }

    /** A lost channel takes its passes and subscriptions with it. */
    method CloseBrokerChannel(channel: nat)
      requires Valid()
      modifies this, subscriptions
      ensures Valid()
      ensures State() == Step(scheme, old(State()), Event.CloseChannel(channel))
      ensures subscriptions.Value() == Closed(old(subscriptions.Value()), channel)
    {
      hide ServiceInv, RegistryInv, Inv, Closed, Retain;
      ghost var before := State();
      ghost var registry := subscriptions.Value();
      StepKeeps(scheme, before, Event.CloseChannel(channel));
      RegistryEntries(registry);
      enumerationPasses := RetainPasses(enumerationPasses, EnumerationsIn(OffChannel(channel)));
      vectorPasses := RetainPasses(vectorPasses, VectorsIn(OffChannel(channel)));
      ClosedKeepsInv(registry, channel);
      subscriptions.CloseChannel(channel);
    }

    /** Registers a reader for wakeups, under the same lock as the accepts that produce them. */
    method SubscribeUpdates(channel: nat, id: DocumentId, c: CapabilityId, secret: Authenticator)
      returns (outcome: Option<RegisterOutcome>)
      requires Valid() && channel in subscriptions.live
      modifies subscriptions
      ensures Valid()
      ensures outcome.Some? <==> AccessTo(scheme, Tables(), id, c, secret, Read) == Authorized
      ensures outcome.None? ==> subscriptions.Value() == old(subscriptions.Value())
      ensures outcome.Some? ==>
        (subscriptions.Value(), outcome.value) == Subscribed(old(subscriptions.Value()), channel, id, c)
    {
      hide ServiceInv, RegistryInv, Inv, Subscribed;
      ghost var registry := subscriptions.Value();
      StateInv(State());
      var access := AuthorizeDocument(id, c, secret, Read);
      if access != Authorized { return None; }
      RegistryEntries(registry);
      RegisterKeepsInv(registry, channel, id, c);
      var registered := subscriptions.Register(channel, id, c);
      return Some(registered);
    }

    /** One opaque payload by its complete key. */
    method FetchAuthorized(id: DocumentId, updateId: UpdateId, c: CapabilityId, secret: Authenticator)
      returns (outcome: ReadOutcome<Option<seq<byte>>>)
      requires Inv(Tables())
      ensures outcome.ReadAuthorized? <==> AccessTo(scheme, Tables(), id, c, secret, Read) == Authorized
      ensures outcome.ReadAuthorized? || outcome.ReadDenied?
      ensures outcome.ReadAuthorized? ==>
        && id in documents
        && match outcome.response
           case None => forall i :: 0 <= i < |documents[id].log| ==> documents[id].log[i].updateId != updateId
           case Some(payload) => exists i :: 0 <= i < |documents[id].log| && Carries(documents[id].log[i], id, updateId, payload)
    {
      hide ValidCreation, ValidControl, AccessTo, DecodeUpdateRecord, ExactIndex, LogPeers;
      var access := AuthorizeDocument(id, c, secret, Read);
      if access != Authorized { return ReadDenied; }
      AccessHasCapability(scheme, Tables(), id, c, secret, Read);
      var row := RowWithId(documents[id].log, updateId);
      if row.None? { return ReadAuthorized(None); }
      ghost var i :| 0 <= i < |documents[id].log| && documents[id].log[i] == row.value;
      assert GoodRow(id, documents[id].log[i]);
      var decoded := DecodeUpdateRecord(row.value.record);
      if decoded.Failure? || decoded.value.documentId != id || decoded.value.updateId != updateId {
        return StoreCorrupt;
      }
      assert Carries(documents[id].log[i], id, updateId, decoded.value.payload);
      return ReadAuthorized(Some(decoded.value.payload));
    }

    // ---- Paginated reads -----------------------------------------------------------------

    /** The next page of a document's updates, under the same snapshot as its authorization. */
    method EnumerateAuthorized(call: EnumerationCall, secret: Authenticator)
      returns (outcome: ReadOutcome<EnumerationResponse>)
      requires Valid()
      modifies this
      ensures Valid()
      ensures State() == Step(scheme, old(State()), Event.EnumerateUpdates(call, secret))
      ensures outcome == EnumerateOutcome(scheme, old(State()), call, secret)
    {
      hide ServiceInv, RegistryInv, Inv, AccessTo, Enumerate, EnumeratePage, LogOf;
      ghost var before := State();
      StateInv(before);
      StepKeeps(scheme, before, Event.EnumerateUpdates(call, secret));
      TrackedWithinAll(before);
      var id := call.context.documentId;
      var access := AuthorizeDocument(id, call.context.capability, secret, Read);
      if access == Denied { return ReadDenied; }
      if access == RetiredDocument { return ReadRetired; }
      AccessHasCapability(scheme, Tables(), id, call.context.capability, secret, Read);
      LogIsPublic(Tables(), id);
      DocumentLog(Tables(), id);
      var answer := EnumeratePasses(enumerationPasses, generation, id, documents[id], call);
      enumerationPasses := answer.passes;
      handed := HandedAfter(handed, call.start, answer.outcome);
      return answer.outcome;
    }

    /** The next page of what a client's version misses. */
    method VectorBackfillAuthorized(call: VectorCall, secret: Authenticator) returns (outcome: ReadOutcome<VectorResponse>)
      requires Valid()
      modifies this
      ensures Valid()
      ensures State() == Step(scheme, old(State()), Event.BackfillUpdates(call, secret))
      ensures outcome == BackfillOutcome(scheme, old(State()), call, secret)
    {
      hide ServiceInv, RegistryInv, Inv, AccessTo, Backfill, VectorPage, LogOf, VectorAfter;
      ghost var before := State();
      StateInv(before);
      StepKeeps(scheme, before, Event.BackfillUpdates(call, secret));
      var id := call.context.documentId;
      var access := AuthorizeDocument(id, call.context.capability, secret, Read);
      if access == Denied { return ReadDenied; }
      if access == RetiredDocument { return ReadRetired; }
      AccessHasCapability(scheme, Tables(), id, call.context.capability, secret, Read);
      LogIsPublic(Tables(), id);
      DocumentLog(Tables(), id);
      var answer := BackfillPasses(vectorPasses, id, documents[id], call);
      vectorPasses := answer.passes;
      vectorHanded := VectorAfter(vectorHanded, call.start, LogOf(Tables())(id), answer.outcome);
      return answer.outcome;
    }

    /** Grants one nonempty attenuated descendant, or answers why not. */
    method GrantCapability(g: GrantRequest) returns (outcome: ControlOutcome)
      requires Valid()
      modifies this
      ensures Valid()
      ensures outcome == GrantDecision(scheme, old(Tables()), g)
      ensures State() == Step(scheme, old(State()), Event.Mutate(Command.GrantCapability(g)))
    {
      hide ServiceInv, RegistryInv, Inv, GrantDecision, Step;
      ghost var before := State();
      StateInv(before);
      QuietMutation(scheme, before, Command.GrantCapability(g));
      StepKeeps(scheme, before, Event.Mutate(Command.GrantCapability(g)));
      outcome := DecideGrant(g);
      if outcome == Inserted {
        GrantFacts(scheme, Tables(), g);
        var d := documents[g.documentId];
        var row := GrantedRow(scheme, g, d.revision + 1);
        documents := documents[g.documentId := d.(
          capabilities := d.capabilities[g.descendant := row],
          receipts := d.receipts[(g.issuer, g.requestId) := GrantReceipt(scheme, g)],
          revision := d.revision + 1)];
      }
      assert State() == before.(db := AfterGrant(scheme, before.db, g));
    }

    /** Revokes a subtree, drops its passes, and ends its subscriptions, all or nothing. */
    method RevokeCapability(r: RevokeRequest) returns (outcome: ControlOutcome)
      requires Valid()
      modifies this, subscriptions
      ensures Valid()
      ensures outcome == RevokeDecision(scheme, old(Tables()), r)
      ensures State() == Step(scheme, old(State()), Event.Mutate(Command.RevokeCapability(r)))
      ensures subscriptions.Value()
           == (if outcome == Inserted
               then Ended(old(subscriptions.Value()), WithIds(RevokedIds(old(Tables()), old(subscriptions.Value()), r)), Revoked)
               else old(subscriptions.Value()))
    {
      hide ServiceInv, RegistryInv, Inv, RevokeDecision, Outlives, RevokedIds, Ended, Step, AfterRevoke, Retain;
      ghost var before := State();
      ghost var registry := subscriptions.Value();
      StateInv(before);
      StepKeeps(scheme, before, Event.Mutate(Command.RevokeCapability(r)));
      RegistryEntries(registry);
      outcome := DecideRevoke(r);
      if outcome != Inserted {
        Undisturbed(scheme, before, r);
        return;
      }
      RevokeFacts(scheme, Tables(), r);
      var ended := RevokedSubscriptions(Tables(), subscriptions.Value(), r);
      var passes := RevokedPassCapabilities(Tables(), enumerationPasses, vectorPasses, r);
      CommitRevoke(r);
      var keep := (c: Context) => c.documentId != r.documentId || c.capability !in passes;
      PurgeExact(scheme, before, r, passes, keep);
      enumerationPasses := RetainPasses(enumerationPasses, EnumerationsIn(keep));
      vectorPasses := RetainPasses(vectorPasses, VectorsIn(keep));
      EndedKeepsInv(registry, WithIds(ended), Revoked);
      subscriptions.InvalidateSubscriptions(ended, Revoked);
    }

    /** The three row changes of a revoke, committed together. */
    method CommitRevoke(r: RevokeRequest)
      requires Inv(Tables()) && RevokeDecision(scheme, Tables(), r) == Inserted
      modifies this`documents
      ensures Tables() == AfterRevoke(scheme, old(Tables()), r)
    {
      hide Inv, RevokeDecision, ValidTree;
      RevokeFacts(scheme, Tables(), r);
      DocumentTree(Tables(), r.documentId);
      var d := documents[r.documentId];
      var subtree := SubtreeFixpoint(d.capabilities, d.root, d.revision, r.target);
      documents := documents[r.documentId := d.(
        capabilities := map c | c in d.capabilities ::
          if c in subtree then d.capabilities[c].(revoked := true) else d.capabilities[c],
        receipts := d.receipts[(r.issuer, r.requestId) := RevokeReceipt(r)],
        revision := d.revision + 1)];
    }

    /** Classifies a revoke without reserving anything: a cascade of its own over the same walks. */
    method PreflightRevokeCapability(r: RevokeRequest) returns (p: RevokePreflight)
      requires Inv(Tables())
      ensures p == Preflight(scheme, Tables(), r)
    {
      hide ValidCreation, ValidLog, GoodReceipt, DocumentBytes, Sum, ValidTree, ControlLimitsExceeded, AccessTo,
        WalkedAccess, DescentWalk;
      var answer := ReceiptAnswer(scheme, Tables(), r.documentId, r.issuer, r.authenticator, r.requestId, RevokeReceipt(r));
      if answer.Some? { return Resolved(answer.value); }
      WalkedAccessExact(scheme, Tables(), r.documentId, r.issuer, r.authenticator, Revoke);
      var access := AuthorizeDocument(r.documentId, r.issuer, r.authenticator, Revoke);
      if access != Authorized { return Resolved(AuthorizationDenied); }
      AccessHasCapability(scheme, Tables(), r.documentId, r.issuer, r.authenticator, Revoke);
      if NextRevision(Tables(), r.documentId).None? { return Resolved(CounterExhausted); }
      var d := documents[r.documentId];
      DescentWalkExact(d.capabilities, d.root, d.revision, r.issuer, r.target);
      var active := IsActiveDescendant(d.capabilities, d.root, d.revision, r.issuer, r.target);
      if !active { return Resolved(AuthorizationDenied); }
      var limited := LimitsExceeded(r.documentId, None, 0, |RevokeReceipt(r).input|);
      return if limited then Resolved(LimitExceeded) else RequiresMutation;
    }

    /** Commits a first acceptance and notifies, or resolves an exact or conflicting retry. */
    method Accept(a: AcceptRequest, u: ImmutableUpdate) returns (outcome: AcceptOutcome)
      requires Valid() && DecodeUpdateRecord(a.record) == Prelude.Success(u)
      modifies this, subscriptions
      ensures Valid()
      ensures outcome == AcceptDecision(scheme, old(Tables()), u, a)
      ensures State() == Step(scheme, old(State()), Event.Mutate(AcceptUpdate(a)))
      ensures subscriptions.Value()
           == (if outcome == AcceptInserted then Notified(old(subscriptions.Value()), u.documentId, u.updateId)
               else old(subscriptions.Value()))
    {
      hide ServiceInv, RegistryInv, Inv, DecodeUpdateRecord, AcceptDecision, Step, PeersOf;
      ghost var before := State();
      ghost var registry := subscriptions.Value();
      StateInv(before);
      QuietMutation(scheme, before, AcceptUpdate(a));
      StepKeeps(scheme, before, Event.Mutate(AcceptUpdate(a)));
      var peers: set<u64>;
      outcome, peers := DecideAccept(a, u);
      if outcome == AcceptInserted {
        AcceptFacts(scheme, Tables(), u, a);
        var d := documents[u.documentId];
        var sequence := NextSequence(d);
        documents := documents[u.documentId := d.(
          nextSequence := Some(sequence + 1),
          log := d.log + [LogRow(u.updateId, sequence, a.record)],
          rangeIndex := d.rangeIndex[u.updateId := u.ranges],
          peers := peers)];
        RegistryEntries(registry);
        NotifiedKeepsInv(registry, u.documentId, u.updateId);
        subscriptions.Notify(u.documentId, u.updateId);
      }
      assert State() == before.(db := AfterAccept(scheme, before.db, a));
    }

    method DecideAccept(a: AcceptRequest, u: ImmutableUpdate) returns (outcome: AcceptOutcome, peers: set<u64>)
      requires Inv(Tables())
      ensures outcome == AcceptDecision(scheme, Tables(), u, a)
      ensures outcome == AcceptInserted ==> u.documentId in documents && peers == documents[u.documentId].peers + PeersOf(u.ranges)
    {
      hide ValidCreation, ValidLog, ValidControl, AccessTo, PeersOf;
      peers := {};
      var access := AuthorizeDocument(u.documentId, a.capability, a.authenticator, Update);
      if access != Authorized { return AcceptDenied, peers; }
      AccessHasCapability(scheme, Tables(), u.documentId, a.capability, a.authenticator, Update);
      var d := documents[u.documentId];
      var existing := RowWithId(d.log, u.updateId);
      if existing.Some? {
        return if existing.value.record == a.record then AcceptAlreadyPresent else AcceptIdentifierConflict, peers;
      }
      if NextSequence(d) >= U64_MAX { return AcceptCounterExhausted, peers; }
      var within, union := InsertLoroPeers(d.peers, u.ranges);
      return if within then AcceptInserted else AcceptLimitExceeded, union;
    }
  }

  /**
   * Opening a database: the store exists exactly when recovery accepts the tables. The two
   * conditions are the update table's primary key, and that a counter row is only ever written
   * together with an update.
   */
  method Recover(s: Scheme, g: Identifier, db: Db) returns (store: Option<DurableUpdateStore>)
    requires forall id {:trigger id in db.documents} :: id in db.documents ==>
      DistinctIds(db.documents[id].log) && (db.documents[id].log == [] ==> db.documents[id].nextSequence.None?)
    ensures store.Some? <==> Recoverable(db)
    ensures store.Some? ==>
      && fresh(store.value) && fresh(store.value.subscriptions)
      && store.value.Valid()
      && store.value.State() == ServiceState(db, g, [], [], map[], map[])
  {
    hide Recoverable, DistinctIds;
    var ok := Recovery.Validate(db);
    if !ok { return None; }
    var serving := new DurableUpdateStore(s, g, db);
    return Some(serving);
  }

  lemma ShortChains(t: Tree, root: CapabilityId, revision: nat, c: CapabilityId)
    requires ValidTree(t, root, revision)
    ensures Linked(t)
    ensures c in t ==> |Chain(t, c)| <= MAX_CAPABILITY_DEPTH
  {
  }

  lemma AccessHasCapability(s: Scheme, db: Db, id: DocumentId, c: CapabilityId, secret: Authenticator, operation: Operation)
    requires AccessTo(s, db, id, c, secret, operation) == Authorized
    ensures id in db.documents && c in db.documents[id].capabilities
  {
  }

  lemma StateInv(z: ServiceState)
    requires ServiceInv(z)
    ensures Inv(z.db)
  {
  }

  lemma RegistryEntries(r: Registry)
    requires RegistryInv(r)
    ensures EntriesLinked(r)
  {
  }

  lemma DocumentTree(db: Db, id: DocumentId)
    requires Inv(db) && id in db.documents
    ensures ValidTree(db.documents[id].capabilities, db.documents[id].root, db.documents[id].revision)
  {
    hide ValidTree, ValidLog, ValidCreation;
  }

  lemma TargetIsItsOwnAncestor(d: Document, target: CapabilityId)
    requires ValidTree(d.capabilities, d.root, d.revision) && target in d.capabilities
    ensures Ancestor(d.capabilities, target, target)
  {
    ChainIsAncestry(d.capabilities, target, target);
  }

  /** Commands that end nothing leave the pass registries as they are. */
  lemma QuietMutation(s: Scheme, z: ServiceState, command: Command)
    requires ServiceInv(z) && !command.RevokeCapability? && !command.RetireDocument?
    ensures Step(s, z, Event.Mutate(command)) == z.(db := Execute(s, z.db, command))
  {
    hide Inv, Execute, Tracked, VectorTracked;
    RetainEverything(z.enumerations, EnumerationsIn(Outlives(s, z.db, command)));
    RetainEverything(z.vectors, VectorsIn(Outlives(s, z.db, command)));
  }

  /** A revoke that does not commit leaves everything as it is. */
  lemma Undisturbed(s: Scheme, z: ServiceState, r: RevokeRequest)
    requires ServiceInv(z) && RevokeDecision(s, z.db, r) != Inserted
    ensures Step(s, z, Event.Mutate(Command.RevokeCapability(r))) == z
  {
    hide Inv, RevokeDecision, Tracked, VectorTracked;
    RetainEverything(z.enumerations, EnumerationsIn(Outlives(s, z.db, Command.RevokeCapability(r))));
    RetainEverything(z.vectors, VectorsIn(Outlives(s, z.db, Command.RevokeCapability(r))));
  }

  /** Purging by the collected capabilities is purging by ancestry. */
  lemma PurgeExact(s: Scheme, z: ServiceState, r: RevokeRequest, passes: set<CapabilityId>, keep: Context -> bool)
    requires ServiceInv(z) && RevokeDecision(s, z.db, r) == Inserted && r.documentId in z.db.documents
    requires forall c: Context :: keep(c) == (c.documentId != r.documentId || c.capability !in passes)
    requires forall p :: p in z.enumerations && p.context.documentId == r.documentId ==>
      (p.context.capability in passes
       <==> Ancestor(z.db.documents[r.documentId].capabilities, r.target, p.context.capability))
    requires forall p :: p in z.vectors && p.context.documentId == r.documentId ==>
      (p.context.capability in passes
       <==> Ancestor(z.db.documents[r.documentId].capabilities, r.target, p.context.capability))
    ensures Step(s, z, Event.Mutate(Command.RevokeCapability(r)))
         == z.(db := AfterRevoke(s, z.db, r),
               enumerations := Retain(z.enumerations, EnumerationsIn(keep)),
               vectors := Retain(z.vectors, VectorsIn(keep)))
  {
    hide Inv, RevokeDecision, Tracked, VectorTracked, Ancestor, AfterRevoke;
    var outlives := Outlives(s, z.db, Command.RevokeCapability(r));
    RetainSame(z.enumerations, EnumerationsIn(keep), EnumerationsIn(outlives));
    RetainSame(z.vectors, VectorsIn(keep), VectorsIn(outlives));
  }

  ghost predicate RevokedEntry(db: Db, registry: Registry, r: RevokeRequest, e: Entry)
    requires r.documentId in db.documents && e.id in registry.cells
  {
    && e.documentId == r.documentId
    && registry.cells[e.id].state.None?
    && e.channel in registry.live
    && Ancestor(db.documents[r.documentId].capabilities, r.target, e.capability)
  }

  /** The subscriptions a committed revoke ends. */
  ghost function RevokedIds(db: Db, registry: Registry, r: RevokeRequest): set<nat>
    requires EntriesLinked(registry) && r.documentId in db.documents
  {
    set e | e in registry.entries && RevokedEntry(db, registry, r, e) :: e.id
  }

  /** The bounded upward walk, as the sweeps before a revoke use it. */
  method Descends(db: Db, id: DocumentId, target: CapabilityId, candidate: CapabilityId) returns (r: bool)
    requires Inv(db) && id in db.documents && target in db.documents[id].capabilities
    ensures r <==> Ancestor(db.documents[id].capabilities, target, candidate)
  {
    hide Inv, ValidTree, Ancestor;
    DocumentTree(db, id);
    var d := db.documents[id];
    TargetIsItsOwnAncestor(d, target);
    r := IsDescendantOrSelf(d.capabilities, d.root, d.revision, target, candidate);
  }

  /** Live subscriptions of the document whose capability the upward walk finds under the target. */
  method RevokedSubscriptions(db: Db, registry: Registry, r: RevokeRequest) returns (ended: set<nat>)
    requires Inv(db) && r.documentId in db.documents && r.target in db.documents[r.documentId].capabilities
    requires EntriesLinked(registry)
    ensures ended == RevokedIds(db, registry, r)
  {
    hide Inv, Ancestor;
    ended := {};
    for i := 0 to |registry.entries|
      invariant ended == set e | e in registry.entries[..i] && RevokedEntry(db, registry, r, e) :: e.id
    {
      var e := registry.entries[i];
      assert e in registry.entries;
      assert registry.entries[..i + 1] == registry.entries[..i] + [e];
      var descends := Descends(db, r.documentId, r.target, e.capability);
      if e.documentId == r.documentId && registry.cells[e.id].state.None? && e.channel in registry.live && descends {
        ended := ended + {e.id};
      }
    }
    assert registry.entries[..|registry.entries|] == registry.entries;
  }

  /** Capabilities that hold a pass on the document and stand at or beneath the target. */
  method RevokedPassCapabilities(db: Db, enumerations: seq<EnumerationPass>, vectors: seq<VectorPass>, r: RevokeRequest)
    returns (revoked: set<CapabilityId>)
    requires Inv(db) && r.documentId in db.documents && r.target in db.documents[r.documentId].capabilities
    ensures forall p :: p in enumerations && p.context.documentId == r.documentId ==>
      (p.context.capability in revoked
       <==> Ancestor(db.documents[r.documentId].capabilities, r.target, p.context.capability))
    ensures forall p :: p in vectors && p.context.documentId == r.documentId ==>
      (p.context.capability in revoked
       <==> Ancestor(db.documents[r.documentId].capabilities, r.target, p.context.capability))
  {
    hide Inv, Ancestor;
    var contexts := (set p | p in enumerations && p.context.documentId == r.documentId :: p.context.capability)
                  + (set p | p in vectors && p.context.documentId == r.documentId :: p.context.capability);
    revoked := {};
    var rest := contexts;
    while rest != {}
      invariant rest <= contexts && revoked !! rest
      invariant forall c :: c in contexts && c !in rest ==>
        (c in revoked <==> Ancestor(db.documents[r.documentId].capabilities, r.target, c))
      decreases |rest|
    {
      var c :| c in rest;
      var descends := Descends(db, r.documentId, r.target, c);
      if descends { revoked := revoked + {c}; }
      rest := rest - {c};
    }
  }

  lemma RetainSameEnumerations(passes: seq<EnumerationPass>, f: Context -> bool, g: Context -> bool)
    requires forall c :: f(c) == g(c)
    ensures Retain(passes, EnumerationsIn(f)) == Retain(passes, EnumerationsIn(g))
  {
    forall p | p in passes ensures EnumerationsIn(f)(p) == EnumerationsIn(g)(p) {
      assert f(p.context) == g(p.context);
    }
    RetainSame(passes, EnumerationsIn(f), EnumerationsIn(g));
  }

  lemma RetainSameVectors(passes: seq<VectorPass>, f: Context -> bool, g: Context -> bool)
    requires forall c :: f(c) == g(c)
    ensures Retain(passes, VectorsIn(f)) == Retain(passes, VectorsIn(g))
  {
    forall p | p in passes ensures VectorsIn(f)(p) == VectorsIn(g)(p) {
      assert f(p.context) == g(p.context);
    }
    RetainSame(passes, VectorsIn(f), VectorsIn(g));
  }

  /** A stored row that carries the payload of exactly this update. */
  predicate Carries(row: LogRow, id: DocumentId, updateId: UpdateId, payload: seq<byte>) {
    var u := DecodeUpdateRecord(row.record);
    u.Success? && u.value.documentId == id && u.value.updateId == updateId == row.updateId && u.value.payload == payload
  }

  lemma DocumentLog(db: Db, id: DocumentId)
    requires Inv(db) && id in db.documents
    ensures ValidLog(id, db.documents[id])
  {
    hide ValidControl, ValidLog, ValidCreation;
  }
}
