/** Runs of the whole store: mutations, paginated reads and channel loss in any order. */
module Service {
  import opened Prelude
  import opened Types
  import opened UpdateRecord
  import opened Pages
  import opened CapabilityTree
  import opened Tables
  import opened Control
  import opened UpdateLog
  import opened History
  import opened Reads
  import opened PassRegistry
  import opened EnumerationPasses
  import opened VectorPasses

  /** Durable tables, the two volatile registries, and what the holders of cursors have been handed. */
  datatype ServiceState = ServiceState(
    db: Db,
    generation: Identifier,
    enumerations: seq<EnumerationPass>,
    vectors: seq<VectorPass>,
    handed: Ledger,
    vectorHanded: VectorLedger)

  datatype Event =
    | Mutate(command: Command)
    | EnumerateUpdates(enumeration: EnumerationCall, secret: Authenticator)
    | BackfillUpdates(backfill: VectorCall, secret: Authenticator)
    | CloseChannel(channel: nat)
    | Restart(generation: Identifier)

  ghost function LogOf(db: Db): DocumentId -> seq<UpdateMetadata> {
    (id: DocumentId) =>
      if id in db.documents && Decodable(db.documents[id].log) then Metas(db.documents[id].log) else []
  }

  /** The contexts a committed command puts an end to. */
  ghost function Outlives(s: Scheme, db: Db, command: Command): Context -> bool
    requires Inv(db)
  {
    match command
    case RevokeCapability(r) =>
      if RevokeDecision(s, db, r) != Inserted then ((c: Context) => true)
      else ((c: Context) => c.documentId != r.documentId
        || !(r.documentId in db.documents && Ancestor(db.documents[r.documentId].capabilities, r.target, c.capability)))
    case RetireDocument(id) => (c: Context) => c.documentId != id
    case _ => (c: Context) => true
  }

  function EnumerationsIn(keep: Context -> bool): EnumerationPass -> bool {
    (p: EnumerationPass) => keep(p.context)
  }

  function VectorsIn(keep: Context -> bool): VectorPass -> bool {
    (p: VectorPass) => keep(p.context)
  }

  function OffChannel(channel: nat): Context -> bool {
    (c: Context) => c.channel != channel
  }

  ghost predicate CanRead(s: Scheme, db: Db, c: Context, secret: Authenticator) {
    AccessTo(s, db, c.documentId, c.capability, secret, Read) == Authorized
  }

  ghost function Step(s: Scheme, z: ServiceState, e: Event): ServiceState
    requires ServiceInv(z)
  {
    TrackedWithinAll(z);
    match e
    case Mutate(command) =>
      var keep := Outlives(s, z.db, command);
      z.(db := Execute(s, z.db, command),
         enumerations := Retain(z.enumerations, EnumerationsIn(keep)),
         vectors := Retain(z.vectors, VectorsIn(keep)))
    case EnumerateUpdates(call, secret) =>
      if !CanRead(s, z.db, call.context, secret) then z
      else
        var answer := Enumerate(z.enumerations, z.generation, LogOf(z.db)(call.context.documentId), call);
        z.(enumerations := answer.passes, handed := HandedAfter(z.handed, call.start, answer.outcome))
    case BackfillUpdates(call, secret) =>
      if !CanRead(s, z.db, call.context, secret) then z
      else
        var metas := LogOf(z.db)(call.context.documentId);
        var answer := Backfill(z.vectors, metas, call);
        z.(vectors := answer.passes, vectorHanded := VectorAfter(z.vectorHanded, call.start, metas, answer.outcome))
    case CloseChannel(channel) =>
      z.(enumerations := Retain(z.enumerations, EnumerationsIn(OffChannel(channel))),
         vectors := Retain(z.vectors, VectorsIn(OffChannel(channel))))
    case Restart(generation) => z.(generation := generation, enumerations := [], vectors := [])
  }

  /** A context whose document serves and whose capability is neither revoked nor unable to read. */
  predicate LiveContext(db: Db, c: Context) {
    && c.documentId in db.documents
    && var d := db.documents[c.documentId];
    && !d.retired
    && c.capability in d.capabilities
    && !d.capabilities[c.capability].revoked
    && Read in d.capabilities[c.capability].operations
  }

  ghost predicate ServiceInv(z: ServiceState) {
    && Inv(z.db)
    && Tracked(z.enumerations, LogOf(z.db), z.handed)
    && VectorTracked(z.vectors, LogOf(z.db), z.vectorHanded)
    && AllEnumerations(z.enumerations, LiveIn(z.db))
    && AllVectors(z.vectors, LiveIn(z.db))
  }

  lemma TrackedWithinAll(z: ServiceState)
    requires ServiceInv(z)
    ensures forall p, id :: p in z.enumerations && p.context.documentId == id ==> WithinLog(p, LogOf(z.db)(id))
  {
    hide Inv, LiveContext, VectorTracked, Orderly;
  }

  /** What an enumeration call is answered. */
  ghost function EnumerateOutcome(s: Scheme, z: ServiceState, call: EnumerationCall, secret: Authenticator)
    : ReadOutcome<EnumerationResponse>
    requires ServiceInv(z)
  {
    TrackedWithinAll(z);
    match AccessTo(s, z.db, call.context.documentId, call.context.capability, secret, Read)
    case Denied => ReadDenied
    case RetiredDocument => ReadRetired
    case Authorized => Enumerate(z.enumerations, z.generation, LogOf(z.db)(call.context.documentId), call).outcome
  }

  /** What a backfill call is answered. */
  ghost function BackfillOutcome(s: Scheme, z: ServiceState, call: VectorCall, secret: Authenticator)
    : ReadOutcome<VectorResponse>
    requires ServiceInv(z)
  {
    match AccessTo(s, z.db, call.context.documentId, call.context.capability, secret, Read)
    case Denied => ReadDenied
    case RetiredDocument => ReadRetired
    case Authorized => Backfill(z.vectors, LogOf(z.db)(call.context.documentId), call).outcome
  }

  // ---- Each step keeps the invariant ---------------------------------------------

  lemma LogsGrow(db: Db, after: Db, id: DocumentId)
    requires Inv(db) && Inv(after) && Extends(db, after) && id in db.documents
    ensures LogOf(db)(id) <= LogOf(after)(id)
  {
    hide ValidControl, ValidCreation, ValidLog, KeepsIdentities, DecodeUpdateRecord, Metadata;
    var d, e := db.documents[id], after.documents[id];
    assert DocumentExtends(d, e);
    ValidLogDecodable(id, d);
    ValidLogDecodable(id, e);
    assert Metas(e.log)[..|d.log|] == Metas(d.log);
  }

  /** The contexts that outlive a command are live after it. */
  lemma OutlivesStaysLive(s: Scheme, db: Db, command: Command, c: Context)
    requires Inv(db) && LiveContext(db, c) && Outlives(s, db, command)(c)
    ensures LiveContext(Execute(s, db, command), c)
  {
    hide Inv, AfterCreate, AfterGrant, AfterRevoke, AfterAccept, Outlives;
    match command
    case CreateDocument(create) => CreateStaysLive(s, db, create, c);
    case GrantCapability(grant) => GrantStaysLive(s, db, grant, c);
    case RevokeCapability(revoke) => RevokeStaysLive(s, db, revoke, c);
    case AcceptUpdate(accept) => AcceptStaysLive(s, db, accept, c);
    case RetireDocument(id) => RetireStaysLive(s, db, id, c);
  }

  lemma RetireStaysLive(s: Scheme, db: Db, id: DocumentId, c: Context)
    requires Inv(db) && LiveContext(db, c) && Outlives(s, db, RetireDocument(id))(c)
    ensures LiveContext(AfterRetire(db, id), c)
  {
    hide Inv, RevokeDecision;
  }

  lemma CreateStaysLive(s: Scheme, db: Db, create: CreateRequest, c: Context)
    requires LiveContext(db, c)
    ensures LiveContext(AfterCreate(s, db, create), c)
  {
    hide CreateDecision, NewDocument, NewCreateReceipt;
    if CreateDecision(s, db, create) == CreateInserted { CreateFacts(s, db, create); }
  }

  lemma GrantStaysLive(s: Scheme, db: Db, grant: GrantRequest, c: Context)
    requires Inv(db) && LiveContext(db, c)
    ensures LiveContext(AfterGrant(s, db, grant), c)
  {
    hide Inv, GrantDecision, GrantReceipt, GrantedRow;
    if GrantDecision(s, db, grant) == Inserted { GrantFacts(s, db, grant); }
  }

  lemma AcceptStaysLive(s: Scheme, db: Db, accept: AcceptRequest, c: Context)
    requires Inv(db) && LiveContext(db, c)
    ensures LiveContext(AfterAccept(s, db, accept), c)
  {
    hide Inv, AcceptDecision, DecodeUpdateRecord, PeersOf;
    match DecodeUpdateRecord(accept.record)
    case Failure(_) =>
    case Success(u) =>
      if AcceptDecision(s, db, u, accept) == AcceptInserted { AcceptFacts(s, db, u, accept); }
  }

  lemma RevokeStaysLive(s: Scheme, db: Db, r: RevokeRequest, c: Context)
    requires Inv(db) && LiveContext(db, c) && Outlives(s, db, RevokeCapability(r))(c)
    ensures LiveContext(AfterRevoke(s, db, r), c)
  {
    hide ValidLog, ValidCreation, GoodReceipt, DocumentBytes, Sum, RevokeDecision, ValidTree;
    if RevokeDecision(s, db, r) == Inserted {
      RevokeFacts(s, db, r);
      var d := db.documents[r.documentId];
      ValidTreeLinked(d.capabilities, d.root, d.revision);
      if c.documentId == r.documentId {
        ChainIsAncestry(d.capabilities, r.target, c.capability);
      }
    }
  }

  lemma MutateKeeps(s: Scheme, z: ServiceState, command: Command)
    requires ServiceInv(z)
    ensures ServiceInv(Step(s, z, Mutate(command)))
  {
    hide Inv, Tracked, VectorTracked, LiveContext, Execute, Outlives, Extends;
    var after := Execute(s, z.db, command);
    var keep := Outlives(s, z.db, command);
    ExecuteKeepsInv(s, z.db, command);
    ExecuteExtends(s, z.db, command);
    RetainTracked(z.enumerations, EnumerationsIn(keep), LogOf(z.db), z.handed);
    RetainVectorTracked(z.vectors, VectorsIn(keep), LogOf(z.db), z.vectorHanded);
    RetainMembers(z.enumerations, EnumerationsIn(keep));
    RetainMembers(z.vectors, VectorsIn(keep));
    var es, vs := Retain(z.enumerations, EnumerationsIn(keep)), Retain(z.vectors, VectorsIn(keep));
    forall p | p in es
      ensures LiveContext(after, p.context) && LogOf(z.db)(p.context.documentId) <= LogOf(after)(p.context.documentId)
    {
      KeptContext(s, z.db, command, p.context);
    }
    forall p | p in vs
      ensures LiveContext(after, p.context) && LogOf(z.db)(p.context.documentId) <= LogOf(after)(p.context.documentId)
    {
      KeptContext(s, z.db, command, p.context);
    }
    GrowTracked(es, LogOf(z.db), LogOf(after), z.handed);
    GrowVectorTracked(vs, LogOf(z.db), LogOf(after), z.vectorHanded);
  }

  lemma KeptContext(s: Scheme, db: Db, command: Command, c: Context)
    requires Inv(db) && Inv(Execute(s, db, command)) && Extends(db, Execute(s, db, command))
    requires LiveContext(db, c) && Outlives(s, db, command)(c)
    ensures LiveContext(Execute(s, db, command), c)
    ensures LogOf(db)(c.documentId) <= LogOf(Execute(s, db, command))(c.documentId)
  {
    hide Inv, Execute, Outlives, Extends, LogOf;
    OutlivesStaysLive(s, db, command, c);
    LogsGrow(db, Execute(s, db, command), c.documentId);
  }

  lemma ReadersAreLive(s: Scheme, db: Db, c: Context, secret: Authenticator)
    requires Inv(db) && CanRead(s, db, c, secret)
    ensures LiveContext(db, c)
  {
    hide Inv;
    AccessCollapses(s, db, c.documentId, c.capability, secret, Read);
  }

  lemma EnumerateKeeps(s: Scheme, z: ServiceState, call: EnumerationCall, secret: Authenticator)
    requires ServiceInv(z)
    ensures ServiceInv(Step(s, z, EnumerateUpdates(call, secret)))
  {
    hide Inv, Tracked, VectorTracked, LiveContext, Exact, CanRead, Enumerate, Fits, LogOf;
    if CanRead(s, z.db, call.context, secret) {
      ReadersAreLive(s, z.db, call.context, secret);
      EnumerateExact(z.enumerations, z.generation, LogOf(z.db), z.handed, call);
      EnumerateContexts(z.enumerations, z.generation, LogOf(z.db)(call.context.documentId), call, LiveIn(z.db));
    }
  }

  ghost predicate AllEnumerations(passes: seq<EnumerationPass>, keep: Context -> bool) {
    forall p {:trigger p in passes} :: p in passes ==> keep(p.context)
  }

  ghost predicate AllVectors(passes: seq<VectorPass>, keep: Context -> bool) {
    forall p {:trigger p in passes} :: p in passes ==> keep(p.context)
  }

  function LiveIn(db: Db): Context -> bool {
    (c: Context) => LiveContext(db, c)
  }

  lemma ReplacedContexts(live: seq<EnumerationPass>, i: nat, q: EnumerationPass, keep: Context -> bool)
    requires i < |live| && AllEnumerations(live, keep) && q.context == live[i].context
    ensures AllEnumerations(live[i := q], keep)
  {
    assert live[i] in live;
    forall p | p in live[i := q] ensures keep(p.context) {
      if p != q { assert p in live; }
    }
  }

  lemma AdvanceContexts(live: seq<EnumerationPass>, i: nat, lower: nat, terminal: nat, ordinal: nat,
                        metas: seq<UpdateMetadata>, call: EnumerationCall, keep: Context -> bool)
    requires i < |live| && call.start.Resume? && |call.start.encoded| == CONTINUATION_LENGTH && terminal <= |metas|
    requires AllEnumerations(live, keep)
    ensures AllEnumerations(Advance(live, i, lower, terminal, ordinal, metas, call).passes, keep)
  {
    hide EnumeratePage, AllTokens, Mint;
    SwapRemoveMembers(live, i);
    if lower + ordinal < terminal {
      var page := EnumeratePage(metas, lower, terminal, ordinal, call.budget);
      forall token: Token
        ensures AllEnumerations(live[i := Advanced(live[i], lower, terminal, page, token, call)], keep)
      {
        ReplacedContexts(live, i, Advanced(live[i], lower, terminal, page, token, call), keep);
      }
    }
  }

  lemma OpenContexts(live: seq<EnumerationPass>, generation: Identifier, metas: seq<UpdateMetadata>,
                     call: EnumerationCall, keep: Context -> bool)
    requires AllEnumerations(live, keep) && keep(call.context)
    ensures AllEnumerations(Open(live, generation, metas, call).passes, keep)
  {
    hide EnumeratePage, AllTokens, Mint, CanAdmit;
    RetainMembers(live, OutsideContext(call.context));
  }

  /** Every pass a call leaves behind was there before or belongs to the caller. */
  lemma EnumerateContexts(passes: seq<EnumerationPass>, generation: Identifier, metas: seq<UpdateMetadata>,
                          call: EnumerationCall, keep: Context -> bool)
    requires forall p :: p in passes && p.context.documentId == call.context.documentId ==> WithinLog(p, metas)
    requires AllEnumerations(passes, keep) && keep(call.context)
    ensures AllEnumerations(Enumerate(passes, generation, metas, call).passes, keep)
  {
    hide Advance, Open;
    var live := Retain(passes, EnumerationPasses.Unexpired(call.clock.now));
    RetainMembers(passes, EnumerationPasses.Unexpired(call.clock.now));
    if call.start == Origin {
      OpenContexts(live, generation, metas, call, keep);
    } else {
      forall i: nat, lower: nat, terminal: nat, ordinal: nat | i < |live| && |call.start.encoded| == CONTINUATION_LENGTH && terminal <= |metas|
        ensures AllEnumerations(Advance(live, i, lower, terminal, ordinal, metas, call).passes, keep)
      {
        AdvanceContexts(live, i, lower, terminal, ordinal, metas, call, keep);
      }
    }
  }

  lemma AdvanceVectorContexts(live: seq<VectorPass>, i: nat, position: nat, metas: seq<UpdateMetadata>,
                              call: VectorCall, keep: Context -> bool)
    requires i < |live| && call.start.VectorContinue? && |call.start.encoded| == CONTINUATION_LENGTH
    requires AllVectors(live, keep)
    ensures AllVectors(AdvanceVector(live, i, position, metas, call).passes, keep)
  {
    hide VectorPage, AllTokens, Mint;
    SwapRemoveMembers(live, i);
    assert live[i] in live;
  }

  lemma OpenVectorContexts(live: seq<VectorPass>, metas: seq<UpdateMetadata>, call: VectorCall, keep: Context -> bool)
    requires AllVectors(live, keep) && keep(call.context)
    ensures AllVectors(OpenVector(live, metas, call).passes, keep)
  {
    hide VectorPage, AllTokens, Mint, CanAdmit;
    RetainMembers(live, OutsideKey(call.context, call.version));
  }

  lemma VectorContexts(passes: seq<VectorPass>, metas: seq<UpdateMetadata>, call: VectorCall, keep: Context -> bool)
    requires AllVectors(passes, keep) && keep(call.context)
    ensures AllVectors(Backfill(passes, metas, call).passes, keep)
  {
    hide AdvanceVector, OpenVector, HoldsVectorToken;
    var live := Retain(passes, VectorUnexpired(call.clock.now));
    RetainMembers(passes, VectorUnexpired(call.clock.now));
    if call.start == VectorOrigin {
      OpenVectorContexts(live, metas, call, keep);
    } else {
      FollowVectorContexts(live, metas, call, keep);
    }
  }

  lemma FollowVectorContexts(live: seq<VectorPass>, metas: seq<UpdateMetadata>, call: VectorCall, keep: Context -> bool)
    requires AllVectors(live, keep) && call.start.VectorContinue?
    ensures AllVectors(FollowVector(live, metas, call).passes, keep)
  {
    hide AdvanceVector;
    var found := Position(live, HoldsVectorToken(call.start.encoded));
    if found.Some? && live[found.value].current.Some? && |call.start.encoded| == CONTINUATION_LENGTH {
      AdvanceVectorContexts(live, found.value, live[found.value].current.value.position, metas, call, keep);
    }
  }

  lemma BackfillKeeps(s: Scheme, z: ServiceState, call: VectorCall, secret: Authenticator)
    requires ServiceInv(z)
    ensures ServiceInv(Step(s, z, BackfillUpdates(call, secret)))
  {
    hide Inv, Tracked, VectorTracked, LiveContext, VectorExact, CanRead, Backfill, Fits, LogOf;
    if CanRead(s, z.db, call.context, secret) {
      ReadersAreLive(s, z.db, call.context, secret);
      VectorBackfillExact(z.vectors, LogOf(z.db), z.vectorHanded, call);
      VectorContexts(z.vectors, LogOf(z.db)(call.context.documentId), call, LiveIn(z.db));
    }
  }

  lemma CloseKeeps(s: Scheme, z: ServiceState, channel: nat)
    requires ServiceInv(z)
    ensures ServiceInv(Step(s, z, CloseChannel(channel)))
  {
    hide Inv, Tracked, VectorTracked, LiveContext;
    RetainTracked(z.enumerations, EnumerationsIn(OffChannel(channel)), LogOf(z.db), z.handed);
    RetainVectorTracked(z.vectors, VectorsIn(OffChannel(channel)), LogOf(z.db), z.vectorHanded);
    RetainMembers(z.enumerations, EnumerationsIn(OffChannel(channel)));
    RetainMembers(z.vectors, VectorsIn(OffChannel(channel)));
  }

  lemma EmptyTracked(logs: DocumentId -> seq<UpdateMetadata>, handed: Ledger, vectorHanded: VectorLedger)
    ensures Tracked([], logs, handed) && VectorTracked([], logs, vectorHanded)
  {
  }

  lemma StepKeeps(s: Scheme, z: ServiceState, e: Event)
    requires ServiceInv(z)
    ensures ServiceInv(Step(s, z, e))
  {
    hide Inv, Tracked, VectorTracked, LiveContext, LogOf;
    match e
    case Mutate(command) => MutateKeeps(s, z, command);
    case EnumerateUpdates(call, secret) => EnumerateKeeps(s, z, call, secret);
    case BackfillUpdates(call, secret) => BackfillKeeps(s, z, call, secret);
    case CloseChannel(channel) => CloseKeeps(s, z, channel);
    case Restart(_) => EmptyTracked(LogOf(z.db), z.handed, z.vectorHanded);
  }

  ghost function Serve(s: Scheme, z: ServiceState, events: seq<Event>): ServiceState
    requires ServiceInv(z)
    decreases |events|
  {
    if events == [] then z
    else
      StepKeeps(s, z, events[0]);
      Serve(s, Step(s, z, events[0]), events[1..])
  }

  lemma {:induction false} ServeKeeps(s: Scheme, z: ServiceState, events: seq<Event>)
    requires ServiceInv(z)
    ensures ServiceInv(Serve(s, z, events))
    decreases |events|
  {
    hide ServiceInv, Step;
    if events != [] {
      StepKeeps(s, z, events[0]);
      ServeKeeps(s, Step(s, z, events[0]), events[1..]);
    }
  }

  ghost function Fresh(authorities: map<CreateAuthorityId, CreateAuthorityRow>, generation: Identifier): (z: ServiceState)
    ensures ServiceInv(z)
  {
    InitialInv(authorities);
    EmptyTracked(LogOf(Initial(authorities)), map[], map[]);
    ServiceState(Initial(authorities), generation, [], [], map[], map[])
  }

  // ---- What holds in every run ----------------------------------------------------

  /** The public log of a served document lists the metadata of its stored records, every entry within budget. */
  lemma LogIsPublic(db: Db, id: DocumentId)
    requires Inv(db) && id in db.documents
    ensures Decodable(db.documents[id].log) && LogOf(db)(id) == Metas(db.documents[id].log)
    ensures Fits(LogOf(db)(id), METADATA_BYTE_LIMIT)
  {
    hide ValidControl, ValidCreation, ValidLog, Metas, Decodable;
    ValidLogDecodable(id, db.documents[id]);
    StoredEntriesFit(db.documents[id].log);
  }

  /**
   * Enumeration exactness over whole runs: however mutations, reads, lost channels and restarts
   * interleave, an authorized page extends what its caller has been handed to a longer prefix of
   * the document's log; the empty page without a cursor comes exactly when that is the whole log;
   * and under the daemon's budget no call fails on stored data.
   */
  lemma EnumerationExactInEveryRun(s: Scheme, authorities: map<CreateAuthorityId, CreateAuthorityRow>,
                                   generation: Identifier, events: seq<Event>, call: EnumerationCall,
                                   secret: Authenticator)
    requires call.budget == METADATA_BYTE_LIMIT
    requires CanRead(s, Serve(s, Fresh(authorities, generation), events).db, call.context, secret)
    ensures
      var z := Serve(s, Fresh(authorities, generation), events);
      forall p, id :: p in z.enumerations && p.context.documentId == id ==> WithinLog(p, LogOf(z.db)(id))
    ensures
      var z := Serve(s, Fresh(authorities, generation), events);
      var id := call.context.documentId;
      && id in z.db.documents && Decodable(z.db.documents[id].log)
      && var metas := Metas(z.db.documents[id].log);
      && LogOf(z.db)(id) == metas
      && var outcome := Enumerate(z.enumerations, z.generation, LogOf(z.db)(id), call).outcome;
      && !outcome.StoreCorrupt?
      && (outcome.ReadAuthorized? ==> Exact(HandedBefore(z.handed, call.start), outcome.response, metas))
  {
    hide Inv, Tracked, VectorTracked, LiveContext, Exact, CanRead, Enumerate, Fits, LogOf, Fresh, Serve, Decodable, Metas;
    ServeKeeps(s, Fresh(authorities, generation), events);
    var z := Serve(s, Fresh(authorities, generation), events);
    TrackedWithinAll(z);
    ReadersAreLive(s, z.db, call.context, secret);
    LiveHasDocument(z.db, call.context);
    LogIsPublic(z.db, call.context.documentId);
    EnumerateExact(z.enumerations, z.generation, LogOf(z.db), z.handed, call);
  }

  lemma LiveHasDocument(db: Db, c: Context)
    requires LiveContext(db, c)
    ensures c.documentId in db.documents
  {
  }

  /**
   * Backfill exactness over whole runs: the pages of one pass concatenate to exactly the updates of
   * the captured window that hold an operation the client's version does not cover.
   */
  lemma BackfillExactInEveryRun(s: Scheme, authorities: map<CreateAuthorityId, CreateAuthorityRow>,
                                generation: Identifier, events: seq<Event>, call: VectorCall, secret: Authenticator)
    requires call.budget == METADATA_BYTE_LIMIT
    requires CanRead(s, Serve(s, Fresh(authorities, generation), events).db, call.context, secret)
    ensures
      var z := Serve(s, Fresh(authorities, generation), events);
      var id := call.context.documentId;
      && id in z.db.documents && Decodable(z.db.documents[id].log)
      && var metas := Metas(z.db.documents[id].log);
      && var outcome := Backfill(z.vectors, metas, call).outcome;
      && !outcome.StoreCorrupt?
      && (outcome.ReadAuthorized? ==>
           VectorExact(VectorBefore(z.vectorHanded, call.start, metas), call.version, outcome.response, metas))
  {
    hide Inv, Tracked, VectorTracked, LiveContext, VectorExact, CanRead, Backfill, Fits, LogOf, Fresh, Serve, Decodable, Metas;
    ServeKeeps(s, Fresh(authorities, generation), events);
    var z := Serve(s, Fresh(authorities, generation), events);
    ReadersAreLive(s, z.db, call.context, secret);
    LiveHasDocument(z.db, call.context);
    LogIsPublic(z.db, call.context.documentId);
    VectorBackfillExact(z.vectors, LogOf(z.db), z.vectorHanded, call);
  }

  /**
   * The registry invariant over whole runs: live tokens are distinct, no context has two passes,
   * every quota holds, no live pass belongs to a retired document or a revoked capability, and
   * every cursor of a live pass stands for exactly what its holder was handed.
   */
  lemma RegistriesInEveryRun(s: Scheme, authorities: map<CreateAuthorityId, CreateAuthorityRow>,
                             generation: Identifier, events: seq<Event>)
    ensures
      var z := Serve(s, Fresh(authorities, generation), events);
      && Orderly(z.enumerations, ContextOf, ContextOf, TokensOf)
      && Orderly(z.vectors, VectorContext, VectorKey, VectorTokens)
      && (forall p :: p in z.enumerations ==>
           LiveContext(z.db, p.context) && GoodPass(p, LogOf(z.db)(p.context.documentId), z.handed))
      && (forall p :: p in z.vectors ==>
           LiveContext(z.db, p.context) && GoodVectorPass(p, LogOf(z.db)(p.context.documentId), z.vectorHanded))
  {
    hide Inv, Orderly, LiveContext, Fresh, Serve, GoodPass, GoodVectorPass;
    ServeKeeps(s, Fresh(authorities, generation), events);
  }

  /**
   * Windows over whole runs: a live enumeration pass has handed out nothing past its window's
   * terminal, the response it retains carries its current token and leads from what the consumed
   * token stood for to what the current one stands for.
   */
  lemma WindowsInEveryRun(s: Scheme, authorities: map<CreateAuthorityId, CreateAuthorityRow>,
                          generation: Identifier, events: seq<Event>, p: EnumerationPass)
    requires p in Serve(s, Fresh(authorities, generation), events).enumerations
    ensures
      var z := Serve(s, Fresh(authorities, generation), events);
      && p.current.token in z.handed
      && p.lower < |z.handed[p.current.token]| == p.lower + p.current.nextOrdinal <= p.terminal
      && p.terminal <= |LogOf(z.db)(p.context.documentId)|
      && (p.current.mode == AfterTail <==> |z.handed[p.current.token]| == p.terminal)
      && (p.retry.Some? ==>
           && p.retry.value.response.nextCursor == Some(p.current.token)
           && p.retry.value.token in z.handed
           && z.handed[p.retry.value.token] + p.retry.value.response.page.updates == z.handed[p.current.token])
  {
    hide Inv, Orderly, LiveContext, Fresh, Serve, GoodVectorPass, LogOf;
    ServeKeeps(s, Fresh(authorities, generation), events);
    var z := Serve(s, Fresh(authorities, generation), events);
    assert GoodPass(p, LogOf(z.db)(p.context.documentId), z.handed);
  }

  /**
   * Progress over whole runs: whenever a caller follows a live window's cursor and is authorized,
   * the page ends inside that window, the window does not move, and strictly less of it is left.
   */
  lemma WindowShrinksInEveryRun(s: Scheme, authorities: map<CreateAuthorityId, CreateAuthorityRow>,
                                generation: Identifier, events: seq<Event>, p: EnumerationPass, call: EnumerationCall)
    requires p in Serve(s, Fresh(authorities, generation), events).enumerations
    requires Presents(p, Serve(s, Fresh(authorities, generation), events).generation, call)
    requires call.start == Resume(Continue, p.current.token) && p.current.mode == Continue
    ensures
      var z := Serve(s, Fresh(authorities, generation), events);
      forall q :: q in z.enumerations && q.context.documentId == call.context.documentId ==>
        WithinLog(q, LogOf(z.db)(call.context.documentId))
    ensures
      var z := Serve(s, Fresh(authorities, generation), events);
      var answer := Enumerate(z.enumerations, z.generation, LogOf(z.db)(call.context.documentId), call);
      answer.outcome.ReadAuthorized? ==>
        && |HandedBefore(z.handed, call.start) + answer.outcome.response.page.updates| <= p.terminal
        && (exists q :: q in answer.passes && q.context == p.context && q.lower == p.lower && q.terminal == p.terminal
             && q.terminal - q.lower - q.current.nextOrdinal < p.terminal - p.lower - p.current.nextOrdinal)
  {
    hide Inv, Tracked, VectorTracked, LiveContext, Fresh, Serve, LogOf, Enumerate;
    ServeKeeps(s, Fresh(authorities, generation), events);
    var z := Serve(s, Fresh(authorities, generation), events);
    WindowShrinks(z.enumerations, p, z.generation, LogOf(z.db), z.handed, call);
    PageInWindow(z.enumerations, p, z.generation, LogOf(z.db), z.handed, call);
  }

  // ---- The commands of a run ------------------------------------------------------------

  /** What a run of the service asks of the tables. */
  function Commands(events: seq<Event>): seq<Command> {
    if events == [] then []
    else (if events[0].Mutate? then [events[0].command] else []) + Commands(events[1..])
  }

  /** Reads, lost channels and restarts leave the tables to the commands. */
  lemma {:induction false} ServeRunsCommands(s: Scheme, z: ServiceState, events: seq<Event>)
    requires ServiceInv(z)
    ensures Inv(z.db) && Serve(s, z, events).db == Run(s, z.db, Commands(events))
    decreases |events|
  {
    hide Inv, Tracked, VectorTracked, Execute, Enumerate, Backfill, Outlives, CanRead, LogOf;
    if events != [] {
      StepKeeps(s, z, events[0]);
      var next := Step(s, z, events[0]);
      ServeRunsCommands(s, next, events[1..]);
      if events[0].Mutate? {
        assert ([events[0].command] + Commands(events[1..]))[1..] == Commands(events[1..]);
      } else {
        assert [] + Commands(events[1..]) == Commands(events[1..]);
      }
    }
  }
}
