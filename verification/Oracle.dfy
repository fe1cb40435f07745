/** The reference model of acceptance, and the proof that the store refines it. */
module Oracle {
  import opened Prelude
  import opened Types
  import opened UpdateRecord
  import opened CapabilityTree
  import opened Tables
  import opened Control
  import opened UpdateLog
  import opened History
  import opened Reads

  datatype AcceptedUpdate = AcceptedUpdate(sequence: nat, update: ImmutableUpdate)

  datatype Model = Model(
    order: map<(DocumentId, nat), UpdateId>,
    peers: map<DocumentId, set<u64>>,
    next: map<DocumentId, nat>,
    updates: map<(DocumentId, UpdateId), AcceptedUpdate>)

  const EMPTY_MODEL: Model := Model(map[], map[], map[], map[])

  // ---- The model's own operations ----------------------------------------------

  function PeersIn(m: Model, id: DocumentId): set<u64> {
    if id in m.peers then m.peers[id] else {}
  }

  function NextIn(m: Model, id: DocumentId): nat {
    if id in m.next then m.next[id] else 1
  }

  function OrderAt(m: Model, id: DocumentId, sequence: nat): Option<UpdateId> {
    if (id, sequence) in m.order then Some(m.order[(id, sequence)]) else None
  }

  function UpdateAt(m: Model, id: DocumentId, updateId: UpdateId): Option<AcceptedUpdate> {
    if (id, updateId) in m.updates then Some(m.updates[(id, updateId)]) else None
  }

  /** Ranges whose peer is new to the document. */
  function NewRangesOf(peers: set<u64>, ranges: seq<LoroRange>): nat {
    if ranges == [] then 0
    else NewRangesOf(peers, ranges[..|ranges| - 1]) + if ranges[|ranges| - 1].peer in peers then 0 else 1
  }

  function ModelDecision(m: Model, u: ImmutableUpdate): AcceptOutcome {
    match UpdateAt(m, u.documentId, u.updateId)
    case Some(existing) => if existing.update == u then AcceptAlreadyPresent else AcceptIdentifierConflict
    case None =>
      if NextIn(m, u.documentId) >= U64_MAX then AcceptCounterExhausted
      else
        var peers := PeersIn(m, u.documentId);
        if |peers| + NewRangesOf(peers, u.ranges) > MAX_LORO_PEERS then AcceptLimitExceeded else AcceptInserted
  }

  function ModelAfter(m: Model, u: ImmutableUpdate): Model {
    if ModelDecision(m, u) != AcceptInserted then m
    else
      var sequence := NextIn(m, u.documentId);
      Model(m.order[(u.documentId, sequence) := u.updateId],
            m.peers[u.documentId := PeersIn(m, u.documentId) + PeersOf(u.ranges)],
            m.next[u.documentId := sequence + 1],
            m.updates[(u.documentId, u.updateId) := AcceptedUpdate(sequence, u)])
  }

  function ModelMetadata(u: ImmutableUpdate): UpdateMetadata {
    UpdateMetadata(if |u.payload| <= U32_MAX then |u.payload| else U32_MAX, u.ranges, u.updateId)
  }

  /** One document's accepted updates after one position and up to another. */
  function Window(m: Model, id: DocumentId, after: nat, terminal: nat): seq<(nat, UpdateMetadata)>
    decreases terminal
  {
    if terminal <= after then []
    else
      Window(m, id, after, terminal - 1) +
      match OrderAt(m, id, terminal)
      case None => []
      case Some(updateId) =>
        match UpdateAt(m, id, updateId)
        case None => []
        case Some(accepted) => [(terminal, ModelMetadata(accepted.update))]
  }

  function Wanted(version: LoroOplogVersion, window: seq<(nat, UpdateMetadata)>): seq<(nat, UpdateMetadata)> {
    if window == [] then []
    else
      var last := window[|window| - 1];
      Wanted(version, window[..|window| - 1]) + if Selected(version, last.1.ranges) then [last] else []
  }

  /** The deterministic in-memory oracle. */
  class UpdateModel {
    var acceptanceOrder: map<(DocumentId, nat), UpdateId>
    var documentPeers: map<DocumentId, set<u64>>
    var nextSequences: map<DocumentId, nat>
    var updates: map<(DocumentId, UpdateId), AcceptedUpdate>

    function Value(): Model
      reads this
    {
      Model(acceptanceOrder, documentPeers, nextSequences, updates)
    }

    constructor ()
      ensures Value() == EMPTY_MODEL
    {
      acceptanceOrder, documentPeers, nextSequences, updates := map[], map[], map[], map[];
    }

    method Accept(u: ImmutableUpdate) returns (outcome: AcceptOutcome)
      modifies this
      ensures outcome == ModelDecision(old(Value()), u)
      ensures Value() == ModelAfter(old(Value()), u)
    {
      var key := (u.documentId, u.updateId);
      if key in updates {
        return if updates[key].update == u then AcceptAlreadyPresent else AcceptIdentifierConflict;
      }
      var sequence := if u.documentId in nextSequences then nextSequences[u.documentId] else 1;
      if sequence >= U64_MAX { return AcceptCounterExhausted; }
      var existing := if u.documentId in documentPeers then documentPeers[u.documentId] else {};
      var additional := 0;
      for i := 0 to |u.ranges|
        invariant additional == NewRangesOf(existing, u.ranges[..i])
      {
        assert u.ranges[..i + 1][..i] == u.ranges[..i];
        if u.ranges[i].peer !in existing { additional := additional + 1; }
      }
      assert u.ranges[..|u.ranges|] == u.ranges;
      if |existing| + additional > MAX_LORO_PEERS { return AcceptLimitExceeded; }
      nextSequences := nextSequences[u.documentId := sequence + 1];
      acceptanceOrder := acceptanceOrder[(u.documentId, sequence) := u.updateId];
      documentPeers := documentPeers[u.documentId := existing + PeersOf(u.ranges)];
      updates := updates[key := AcceptedUpdate(sequence, u)];
      return AcceptInserted;
    }

    method AcceptanceWindow(id: DocumentId, after: Option<nat>, terminal: nat)
      returns (window: seq<(nat, UpdateMetadata)>)
      ensures window == Window(Value(), id, if after.Some? then after.value else 0, terminal)
    {
      var from := if after.Some? then after.value else 0;
      window := [];
      if terminal <= from { return; }
      for position := from to terminal
        invariant window == Window(Value(), id, from, position)
      {
        if (id, position + 1) in acceptanceOrder {
          var updateId := acceptanceOrder[(id, position + 1)];
          if (id, updateId) in updates {
            window := window + [(position + 1, ModelMetadata(updates[(id, updateId)].update))];
          }
        }
      }
    }

    method VectorBackfill(id: DocumentId, version: LoroOplogVersion, after: Option<nat>, terminal: nat)
      returns (wanted: seq<(nat, UpdateMetadata)>)
      ensures wanted == Wanted(version, Window(Value(), id, if after.Some? then after.value else 0, terminal))
    {
      var window := AcceptanceWindow(id, after, terminal);
      wanted := [];
      for i := 0 to |window|
        invariant wanted == Wanted(version, window[..i])
      {
        assert window[..i + 1][..i] == window[..i];
        var selected := SelectedByVersion(version, window[i].1.ranges);
        if selected { wanted := wanted + [window[i]]; }
      }
      assert window[..|window|] == window;
    }
  }

  // ---- Correspondence ------------------------------------------------------------

  /** What acceptance knows of one document, present or not. */
  datatype LogView = LogView(next: nat, log: seq<LogRow>, peers: set<u64>)

  function ViewOf(db: Db, id: DocumentId): LogView {
    if id in db.documents
      then LogView(NextSequence(db.documents[id]), db.documents[id].log, db.documents[id].peers)
    else LogView(1, [], {})
  }

  function StoredUpdate(log: seq<LogRow>, updateId: UpdateId): Option<AcceptedUpdate> {
    match RowWithId(log, updateId)
    case None => None
    case Some(row) =>
      match DecodeUpdateRecord(row.record)
      case Failure(_) => None
      case Success(u) => Some(AcceptedUpdate(row.sequence, u))
  }

  ghost predicate SameLog(m: Model, id: DocumentId, v: LogView) {
    && PeersIn(m, id) == v.peers
    && NextIn(m, id) == v.next
    && (forall n: nat :: OrderAt(m, id, n) == if 1 <= n <= |v.log| then Some(v.log[n - 1].updateId) else None)
    && (forall u: UpdateId :: UpdateAt(m, id, u) == StoredUpdate(v.log, u))
  }

  ghost predicate Corresponds(m: Model, db: Db) {
    forall id: DocumentId :: SameLog(m, id, ViewOf(db, id))
  }

  lemma AddPeer(peers: set<u64>, named: set<u64>, peer: u64)
    requires peer !in named
    ensures |peers + (named + {peer})| == |peers + named| + if peer in peers then 0 else 1
  {
    if peer in peers {
      assert peers + (named + {peer}) == peers + named;
    } else {
      assert peers + (named + {peer}) == (peers + named) + {peer};
    }
  }

  lemma {:induction false} NewRangesCount(peers: set<u64>, ranges: seq<LoroRange>)
    requires StrictPeers(ranges)
    ensures |peers| + NewRangesOf(peers, ranges) == |peers + PeersOf(ranges)|
  {
    if ranges == [] {
      assert peers + PeersOf(ranges) == peers;
    } else {
      var front, last := ranges[..|ranges| - 1], ranges[|ranges| - 1];
      NewRangesCount(peers, front);
      assert last.peer !in PeersOf(front);
      PeersOfPrefix(ranges, |ranges| - 1);
      assert ranges[..|ranges|] == ranges;
      AddPeer(peers, PeersOf(front), last.peer);
    }
  }

  /** Byte equality of stored records is equality of the updates they carry. */
  lemma SameRecordSameUpdate(a: seq<byte>, b: seq<byte>)
    requires DecodeUpdateRecord(a).Success? && DecodeUpdateRecord(b).Success?
    ensures a == b <==> DecodeUpdateRecord(a).value == DecodeUpdateRecord(b).value
  {
    hide DecodeUpdateRecord, EncodeUpdateRecord;
    RecordIsCanonical(DecodeUpdateRecord(a).value, a);
    RecordIsCanonical(DecodeUpdateRecord(b).value, b);
  }

  /** Given authority, the store decides exactly as the oracle does. */
  lemma SameDecision(s: Scheme, db: Db, m: Model, u: ImmutableUpdate, a: AcceptRequest)
    requires Inv(db) && Corresponds(m, db) && DecodeUpdateRecord(a.record) == Success(u)
    requires AccessTo(s, db, u.documentId, a.capability, a.authenticator, Update) == Authorized
    ensures AcceptDecision(s, db, u, a) == ModelDecision(m, u)
  {
    hide ValidControl, ValidCreation, DecodeUpdateRecord, PeersOf, ExactIndex, LogPeers, GoodRow;
    var d := db.documents[u.documentId];
    assert SameLog(m, u.documentId, ViewOf(db, u.documentId));
    var row := RowWithId(d.log, u.updateId);
    NewRangesCount(d.peers, u.ranges);
    if row.Some? {
      RowDecodes(u.documentId, d, row.value);
      SameRecordSameUpdate(row.value.record, a.record);
    }
  }

  lemma RowDecodes(id: DocumentId, d: Document, row: LogRow)
    requires ValidLog(id, d) && row in d.log
    ensures DecodeUpdateRecord(row.record).Success?
  {
    hide DecodeUpdateRecord, ExactIndex, LogPeers;
    var i :| 0 <= i < |d.log| && d.log[i] == row;
    assert GoodRow(id, d.log[i]);
  }

  /**
   * Accept refines the oracle: outcomes agree, corresponding states stay so, and whatever is not
   * inserted leaves both sides unchanged.
   */
  lemma AcceptRefines(s: Scheme, db: Db, m: Model, u: ImmutableUpdate, a: AcceptRequest)
    requires Inv(db) && Corresponds(m, db) && DecodeUpdateRecord(a.record) == Success(u)
    requires AccessTo(s, db, u.documentId, a.capability, a.authenticator, Update) == Authorized
    ensures AcceptDecision(s, db, u, a) == ModelDecision(m, u)
    ensures Corresponds(ModelAfter(m, u), AfterAccept(s, db, a))
    ensures ModelDecision(m, u) != AcceptInserted ==> ModelAfter(m, u) == m && AfterAccept(s, db, a) == db
  {
    hide Inv, AccessTo, AcceptDecision, DecodeUpdateRecord, PeersOf, SameLog;
    SameDecision(s, db, m, u, a);
    if ModelDecision(m, u) == AcceptInserted {
      AcceptFacts(s, db, u, a);
      var after := AfterAccept(s, db, a);
      forall id: DocumentId ensures SameLog(ModelAfter(m, u), id, ViewOf(after, id)) {
        assert SameLog(m, id, ViewOf(db, id));
        if id == u.documentId {
          AppendSameLog(m, db.documents[id], u, a.record);
        } else {
          OtherSameLog(m, u, id, ViewOf(db, id));
        }
      }
    }
  }

  lemma OtherSameLog(m: Model, u: ImmutableUpdate, id: DocumentId, v: LogView)
    requires SameLog(m, id, v) && id != u.documentId
    ensures SameLog(ModelAfter(m, u), id, v)
  {
    hide StoredUpdate, PeersOf, ModelDecision;
    var n := ModelAfter(m, u);
    forall k: nat ensures OrderAt(n, id, k) == OrderAt(m, id, k) {}
    forall k: UpdateId ensures UpdateAt(n, id, k) == UpdateAt(m, id, k) {}
  }

  lemma AppendSameLog(m: Model, d: Document, u: ImmutableUpdate, record: seq<byte>)
    requires SameLog(m, u.documentId, LogView(NextSequence(d), d.log, d.peers))
    requires ModelDecision(m, u) == AcceptInserted && DecodeUpdateRecord(record) == Success(u)
    requires NextSequence(d) == |d.log| + 1
    ensures
      var e := AcceptCommit(d, u, record);
      SameLog(ModelAfter(m, u), u.documentId, LogView(NextSequence(e), e.log, e.peers))
  {
    hide PeersOf, DecodeUpdateRecord, ModelDecision;
    var e := AcceptCommit(d, u, record);
    var n := ModelAfter(m, u);
    assert e.log[..|e.log| - 1] == d.log;
    forall k: nat
      ensures OrderAt(n, u.documentId, k) == if 1 <= k <= |e.log| then Some(e.log[k - 1].updateId) else None
    {
      assert OrderAt(m, u.documentId, k) == if 1 <= k <= |d.log| then Some(d.log[k - 1].updateId) else None;
    }
    forall k: UpdateId ensures UpdateAt(n, u.documentId, k) == StoredUpdate(e.log, k) {
      assert UpdateAt(m, u.documentId, k) == StoredUpdate(d.log, k);
    }
  }

  // ---- Whole runs -----------------------------------------------------------------

  /** The oracle sees exactly the decodable records that arrive with authority. */
  ghost function OracleStep(s: Scheme, db: Db, m: Model, c: Command): Model {
    match c
    case AcceptUpdate(a) =>
      (match DecodeUpdateRecord(a.record)
       case Failure(_) => m
       case Success(u) =>
         if AccessTo(s, db, u.documentId, a.capability, a.authenticator, Update) == Authorized
           then ModelAfter(m, u) else m)
    case _ => m
  }

  ghost function OracleRun(s: Scheme, db: Db, m: Model, commands: seq<Command>): Model
    requires Inv(db)
    decreases |commands|
  {
    if commands == [] then m
    else
      ExecuteKeepsInv(s, db, commands[0]);
      OracleRun(s, Execute(s, db, commands[0]), OracleStep(s, db, m, commands[0]), commands[1..])
  }

  lemma SameViews(m: Model, db: Db, after: Db)
    requires Corresponds(m, db) && forall id: DocumentId :: ViewOf(after, id) == ViewOf(db, id)
    ensures Corresponds(m, after)
  {
    hide SameLog;
    forall id: DocumentId ensures SameLog(m, id, ViewOf(after, id)) {
      assert SameLog(m, id, ViewOf(db, id));
    }
  }

  lemma ControlKeepsViews(s: Scheme, db: Db, c: Command, id: DocumentId)
    requires Inv(db) && !c.AcceptUpdate?
    ensures ViewOf(Execute(s, db, c), id) == ViewOf(db, id)
  {
    hide Inv, CreateDecision, GrantDecision, RevokeDecision, GrantReceipt, GrantedRow, NewCreateReceipt, RootRow, Marked;
    match c
    case CreateDocument(create) =>
      if CreateDecision(s, db, create) == CreateInserted { CreateFacts(s, db, create); }
    case GrantCapability(grant) =>
      if GrantDecision(s, db, grant) == Inserted { GrantFacts(s, db, grant); }
    case RevokeCapability(revoke) =>
      if RevokeDecision(s, db, revoke) == Inserted { RevokeFacts(s, db, revoke); }
    case RetireDocument(_) =>
  }

  lemma StepCorresponds(s: Scheme, db: Db, m: Model, c: Command)
    requires Inv(db) && Corresponds(m, db)
    ensures Corresponds(OracleStep(s, db, m, c), Execute(s, db, c))
  {
    hide Inv, Corresponds, AfterCreate, AfterGrant, AfterRevoke, AccessTo, DecodeUpdateRecord, ViewOf, ModelAfter;
    if c.AcceptUpdate? {
      var a := c.accept;
      match DecodeUpdateRecord(a.record)
      case Failure(_) =>
      case Success(u) =>
        if AccessTo(s, db, u.documentId, a.capability, a.authenticator, Update) == Authorized {
          AcceptRefines(s, db, m, u, a);
        }
    } else {
      forall id: DocumentId ensures ViewOf(Execute(s, db, c), id) == ViewOf(db, id) {
        ControlKeepsViews(s, db, c, id);
      }
      SameViews(m, db, Execute(s, db, c));
    }
  }

  /** Whatever commands run, store and oracle stay in correspondence. */
  lemma {:induction false} RunCorresponds(s: Scheme, db: Db, m: Model, commands: seq<Command>)
    requires Inv(db) && Corresponds(m, db)
    ensures Corresponds(OracleRun(s, db, m, commands), Run(s, db, commands))
    decreases |commands|
  {
    hide Inv, Corresponds, Execute, OracleStep;
    if commands != [] {
      ExecuteKeepsInv(s, db, commands[0]);
      StepCorresponds(s, db, m, commands[0]);
      RunCorresponds(s, Execute(s, db, commands[0]), OracleStep(s, db, m, commands[0]), commands[1..]);
    }
  }

  lemma InitialCorresponds(authorities: map<CreateAuthorityId, CreateAuthorityRow>)
    ensures Corresponds(EMPTY_MODEL, Initial(authorities))
  {
  }

  /** From an empty store and an empty model, every run keeps the two in correspondence. */
  lemma EveryRunCorresponds(s: Scheme, authorities: map<CreateAuthorityId, CreateAuthorityRow>, commands: seq<Command>)
    ensures Inv(Initial(authorities))
    ensures Corresponds(OracleRun(s, Initial(authorities), EMPTY_MODEL, commands), Run(s, Initial(authorities), commands))
  {
    hide Inv, Corresponds, Initial;
    InitialInv(authorities);
    InitialCorresponds(authorities);
    RunCorresponds(s, Initial(authorities), EMPTY_MODEL, commands);
  }

  // ---- Reads -----------------------------------------------------------------------

  /** The oracle's acceptance window is the slice of the stored log, with its positions. */
  lemma {:induction false} WindowIsSlice(m: Model, db: Db, id: DocumentId, after: nat, terminal: nat)
    requires Inv(db) && Corresponds(m, db) && id in db.documents
    requires after <= terminal <= |db.documents[id].log|
    ensures Decodable(db.documents[id].log)
    ensures
      var w := Window(m, id, after, terminal);
      && |w| == terminal - after
      && forall i :: 0 <= i < |w| ==> w[i] == (after + i + 1, Metas(db.documents[id].log)[after + i])
    decreases terminal
  {
    hide ValidControl, ValidCreation, ValidLog, DecodeUpdateRecord, Metadata;
    ValidLogDecodable(id, db.documents[id]);
    if after < terminal {
      WindowIsSlice(m, db, id, after, terminal - 1);
      WindowEntry(m, db, id, terminal);
    }
  }

  lemma WindowEntry(m: Model, db: Db, id: DocumentId, position: nat)
    requires Inv(db) && Corresponds(m, db) && id in db.documents
    requires 0 < position <= |db.documents[id].log| && Decodable(db.documents[id].log)
    ensures
      var row := db.documents[id].log[position - 1];
      && OrderAt(m, id, position) == Some(row.updateId)
      && UpdateAt(m, id, row.updateId).Some?
      && ModelMetadata(UpdateAt(m, id, row.updateId).value.update) == Metadata(row)
  {
    hide Inv, DecodeUpdateRecord, StoredUpdate;
    var d := db.documents[id];
    assert SameLog(m, id, ViewOf(db, id));
    StoredAt(db, id, position);
    RecordMetadataFits(d.log[position - 1].record);
  }

  /** A stored row is found again under its own identifier. */
  lemma StoredAt(db: Db, id: DocumentId, position: nat)
    requires Inv(db) && id in db.documents && 0 < position <= |db.documents[id].log|
    requires Decodable(db.documents[id].log)
    ensures
      var row := db.documents[id].log[position - 1];
      StoredUpdate(db.documents[id].log, row.updateId)
      == Some(AcceptedUpdate(row.sequence, DecodeUpdateRecord(row.record).value))
  {
    hide ValidControl, ValidCreation, DecodeUpdateRecord, ExactIndex, LogPeers, GoodRow;
    var d := db.documents[id];
    var row := d.log[position - 1];
    var found := RowWithId(d.log, row.updateId);
    assert found.Some?;
    var i :| 0 <= i < |d.log| && d.log[i] == found.value;
    assert i == position - 1;
  }

  /** The metadata the oracle selects for a version is what the store's scans select. */
  lemma {:induction false} WantedIsRelevant(version: LoroOplogVersion, window: seq<(nat, UpdateMetadata)>,
                                            metas: seq<UpdateMetadata>)
    requires |window| == |metas| && forall i :: 0 <= i < |metas| ==> window[i].1 == metas[i]
    ensures
      var w := Wanted(version, window);
      && |w| == |Relevant(version, metas)|
      && forall i :: 0 <= i < |w| ==> w[i].1 == Relevant(version, metas)[i]
  {
    hide Selected;
    if metas != [] {
      WantedIsRelevant(version, window[..|window| - 1], metas[..|metas| - 1]);
    }
  }

  /** Backfill of a whole captured window agrees with the oracle's vector selection. */
  lemma BackfillRefines(m: Model, db: Db, id: DocumentId, version: LoroOplogVersion, terminal: nat)
    requires Inv(db) && Corresponds(m, db) && id in db.documents && terminal <= |db.documents[id].log|
    ensures Decodable(db.documents[id].log)
    ensures
      var w := Wanted(version, Window(m, id, 0, terminal));
      var relevant := Relevant(version, Metas(db.documents[id].log)[..terminal]);
      |w| == |relevant| && forall i :: 0 <= i < |w| ==> w[i].1 == relevant[i]
  {
    hide Inv, Corresponds, Decodable, Metas, Wanted, Relevant, Window;
    WindowIsSlice(m, db, id, 0, terminal);
    WantedIsRelevant(version, Window(m, id, 0, terminal), Metas(db.documents[id].log)[..terminal]);
  }
}
