/** The reference model's authorization walk, and exactly where it departs from the store's. */
module CapabilityOracle {
  import opened Prelude
  import opened Types
  import opened CapabilityTree
  import opened Tables
  import opened Control
  import opened History

  // ---- The model's walk -------------------------------------------------------------

  /** The model only recognises the root one step after it, when there is no parent left to visit. */
  predicate ModelWalk(t: Tree, current: Option<CapabilityId>, steps: nat)
    decreases steps
  {
    && steps > 0
    && match current
       case None => true
       case Some(c) => c in t && !t[c].revoked && ModelWalk(t, t[c].parent, steps - 1)
  }

  predicate ModelAccess(s: Scheme, t: Tree, id: DocumentId, c: CapabilityId, secret: Authenticator,
                        operation: Operation)
  {
    && c in t
    && t[c].live == s.live(id, c, secret)
    && operation in t[c].operations
    && ModelWalk(t, Some(c), MAX_CAPABILITY_DEPTH)
  }

  method ModelAuthorizes(s: Scheme, t: Tree, id: DocumentId, c: CapabilityId, secret: Authenticator,
                         operation: Operation) returns (r: bool)
    ensures r <==> ModelAccess(s, t, id, c, secret, operation)
  {
    if c !in t { return false; }
    if t[c].live != s.live(id, c, secret) || operation !in t[c].operations { return false; }
    var current := Some(c);
    for depth := 0 to MAX_CAPABILITY_DEPTH
      invariant ModelWalk(t, Some(c), MAX_CAPABILITY_DEPTH) == ModelWalk(t, current, MAX_CAPABILITY_DEPTH - depth)
    {
      if current.None? { return true; }
      if current.value !in t { return false; }
      if t[current.value].revoked { return false; }
      current := t[current.value].parent;
    }
    return false;
  }

  lemma {:induction false} ModelWalkAlong(t: Tree, c: CapabilityId, steps: nat)
    requires Linked(t) && c in t
    ensures ModelWalk(t, Some(c), steps)
       <==> |Chain(t, c)| < steps && forall i :: 0 <= i < |Chain(t, c)| ==> !t[Chain(t, c)[i]].revoked
    decreases steps
  {
    assert LinkedAt(t, c);
    if steps > 0 && t[c].parent.Some? {
      var p := t[c].parent.value;
      ModelWalkAlong(t, p, steps - 1);
      assert forall i :: 0 <= i < |Chain(t, p)| ==> Chain(t, p)[i] == Chain(t, c)[i + 1];
      assert forall i :: 0 < i < |Chain(t, c)| ==> Chain(t, c)[i] == Chain(t, p)[i - 1];
    }
  }

  /** On valid trees the model recognises exactly the active capabilities on chains of fewer than 64 nodes. */
  lemma ModelWalkExact(t: Tree, root: CapabilityId, revision: nat, c: CapabilityId)
    requires ValidTree(t, root, revision) && c in t
    ensures Linked(t)
    ensures ModelWalk(t, Some(c), MAX_CAPABILITY_DEPTH) <==> !t[c].revoked && |Chain(t, c)| < MAX_CAPABILITY_DEPTH
  {
    ModelWalkAlong(t, c, MAX_CAPABILITY_DEPTH);
    forall i | 0 <= i < |Chain(t, c)| ensures t[Chain(t, c)[i]].revoked ==> t[c].revoked {
      ChainInherits(t, root, revision, c, i);
    }
  }

  /**
   * Store and model agree on a request exactly unless it presents an active row with its secret and
   * one of its operations at the full depth of 64.
   */
  lemma AgreeBelowFullDepth(s: Scheme, db: Db, id: DocumentId, c: CapabilityId, secret: Authenticator,
                            operation: Operation)
    requires Inv(db) && id in db.documents
    ensures Linked(db.documents[id].capabilities)
    ensures
      var t := db.documents[id].capabilities;
      (ModelAccess(s, t, id, c, secret, operation) <==> AccessTo(s, db, id, c, secret, operation) != Denied)
      <==> !(c in t && !t[c].revoked && t[c].live == s.live(id, c, secret) && operation in t[c].operations
             && |Chain(t, c)| == MAX_CAPABILITY_DEPTH)
  {
    hide ValidCreation, ValidLog, GoodReceipt, DocumentBytes, Sum, Effective, ModelWalk, AccessTo;
    var d := db.documents[id];
    AccessCollapses(s, db, id, c, secret, operation);
    if c in d.capabilities {
      ModelWalkExact(d.capabilities, d.root, d.revision, c);
      assert |Chain(d.capabilities, c)| <= MAX_CAPABILITY_DEPTH;
    }
  }

  // ---- A run that reaches the full depth ----------------------------------------------

  const LADDER: DocumentId := [0,0,0,0,0,0,0,0,0,0,0,0,0,0,0,0]
  const OPENER: CreateAuthorityId := LADDER
  const REQUEST: RequestId := LADDER

  function RungId(k: byte): (id: CapabilityId)
    ensures id[0] == k
  {
    [k] + seq(15, _ => 0)
  }

  /** Each rung is held with a secret of its own. */
  function RungSecret(k: byte): Authenticator {
    [k] + seq(31, _ => 0)
  }

  function Opening(): CreateRequest {
    CreateRequest(OPENER, RungSecret(0), REQUEST, LADDER, RungId(0), RungSecret(0))
  }

  function Climb(k: byte): GrantRequest
    requires k < 63
  {
    GrantRequest(LADDER, RungId(k), RungSecret(k), REQUEST, RungId(k + 1), RungSecret(k + 1), FULL)
  }

  /** One creation, then `k` grants, each issued with the capability just granted. */
  function Ascent(k: byte): seq<Command>
    requires k < 64
  {
    if k == 0 then [CreateDocument(Opening())] else Ascent(k - 1) + [GrantCapability(Climb(k - 1))]
  }

  /** The store provisioned with the one create authority that opens the ladder. */
  function Provisioned(s: Scheme): map<CreateAuthorityId, CreateAuthorityRow> {
    map[OPENER := CreateAuthorityRow(s.createLive(OPENER, RungSecret(0)), s.createReceipt(OPENER, RungSecret(0)), true)]
  }

  function RungIds(n: byte): (ids: set<CapabilityId>)
    requires n <= 64
    ensures forall id :: id in ids <==> id[0] < n && id == RungId(id[0])
    ensures |ids| == n
  {
    if n == 0 then {} else RungIds(n - 1) + {RungId(n - 1)}
  }

  predicate RungRow(s: Scheme, row: Capability, k: byte) {
    && row.parent == (if k == 0 then None else Some(RungId(k - 1)))
    && !row.revoked
    && row.live == s.live(LADDER, RungId(k), RungSecret(k))
    && row.operations == FULL
  }

  /** The one document of the store after `k` grants. */
  predicate Reached(s: Scheme, db: Db, k: byte)
    requires k < 64
  {
    db.documents.Keys == {LADDER} && Climbed(s, db.documents[LADDER], k)
  }

  predicate Climbed(s: Scheme, d: Document, k: byte)
    requires k < 64
  {
    && !d.retired && d.revision == k + 1
    && d.capabilities.Keys == RungIds(k + 1)
    && (forall id :: id in d.capabilities ==> RungRow(s, d.capabilities[id], id[0]))
    && (forall key :: key in d.receipts ==> key.0[0] < k)
  }

  lemma RungAt(s: Scheme, db: Db, k: byte, j: byte)
    requires k < 64 && Reached(s, db, k) && j <= k
    ensures LADDER in db.documents && RungId(j) in db.documents[LADDER].capabilities
    ensures RungRow(s, db.documents[LADDER].capabilities[RungId(j)], j)
  {
    hide FULL;
    assert RungId(j) in RungIds(k + 1);
  }

  lemma {:induction false} RungChain(s: Scheme, db: Db, k: byte, j: byte)
    requires k < 64 && Reached(s, db, k) && j <= k && LADDER in db.documents && Linked(db.documents[LADDER].capabilities)
    ensures RungId(j) in db.documents[LADDER].capabilities && |Chain(db.documents[LADDER].capabilities, RungId(j))| == j + 1
  {
    hide FULL, Reached, RungId;
    RungAt(s, db, k, j);
    if j > 0 { RungChain(s, db, k, j - 1); }
  }

  lemma TopHasNoChildren(s: Scheme, db: Db, k: byte)
    requires k < 64 && Reached(s, db, k) && LADDER in db.documents
    ensures Children(db.documents[LADDER].capabilities, RungId(k)) == {}
  {
    hide FULL, RungId, RungSecret;
    var t := db.documents[LADDER].capabilities;
    forall c | c in t ensures t[c].parent != Some(RungId(k)) {
      assert RungRow(s, t[c], c[0]) && c in RungIds(k + 1);
      if c[0] > 0 { assert RungId(c[0] - 1)[0] < k; }
    }
  }

  lemma OneDocumentTotals(db: Db)
    requires db.documents.Keys == {LADDER}
    ensures GlobalCapabilities(db) == |db.documents[LADDER].capabilities|
    ensures GlobalReceipts(db) == |db.documents[LADDER].receipts|
  {
    SumRemove(db.documents, CapabilityCount, LADDER);
    SumRemove(db.documents, ReceiptCount, LADDER);
    assert db.documents - {LADDER} == map[];
  }

  lemma FullAllowsFull()
    ensures Allows(FULL, FULL) && FULL != {} && forall o: Operation :: o in FULL
  {
    assert Read in FULL;
    forall o: Operation ensures o in FULL { EveryOperation({o}); }
  }

  /** The holder of the top rung may still climb below the full depth. */
  lemma ClimbCommits(s: Scheme, db: Db, k: byte)
    requires Inv(db) && k < 63 && Reached(s, db, k)
    ensures GrantDecision(s, db, Climb(k)) == Inserted
  {
    hide ValidTree, ValidCreation, ValidLog, GoodReceipt, DocumentBytes, Sum, FULL, ControlLimitsExceeded, AccessTo,
      GrantReceipt, RungId, Reached, GlobalCapabilities, GlobalReceipts, Children;
    var g := Climb(k);
    FullAllowsFull();
    RungAt(s, db, k, k);
    ReachedFacts(s, db, k);
    var d := db.documents[LADDER];
    ValidTreeLinked(d.capabilities, d.root, d.revision);
    RungChain(s, db, k, k);
    TopHasNoChildren(s, db, k);
    OneDocumentTotals(db);
    AccessCollapses(s, db, LADDER, RungId(k), RungSecret(k), Grant);
    ServingIsAuthorized(s, db, LADDER, RungId(k), RungSecret(k), Grant);
    ByteLimitsNeverBind(db, LADDER, Some(RungId(k)), FULL);
  }

  lemma ServingIsAuthorized(s: Scheme, db: Db, id: DocumentId, c: CapabilityId, secret: Authenticator,
                            operation: Operation)
    requires AccessTo(s, db, id, c, secret, operation) != Denied && id in db.documents && !db.documents[id].retired
    ensures AccessTo(s, db, id, c, secret, operation) == Authorized
  {
  }

  /** What a store on the ladder looks like from outside. */
  lemma ReachedFacts(s: Scheme, db: Db, k: byte)
    requires Inv(db) && k < 64 && Reached(s, db, k)
    ensures db.documents.Keys == {LADDER}
    ensures
      var d := db.documents[LADDER];
      && !d.retired && d.revision == k + 1
      && ValidTree(d.capabilities, d.root, d.revision)
      && |d.capabilities| == k + 1 && |d.receipts| == k
      && (k < 63 ==> RungId(k + 1) !in d.capabilities)
      && (RungId(k), REQUEST) !in d.receipts
  {
    hide ValidTree, ValidCreation, ValidLog, GoodReceipt, DocumentBytes, Sum, FULL;
    var d := db.documents[LADDER];
    assert |d.capabilities| == |d.capabilities.Keys|;
    assert (RungId(k), REQUEST).0[0] == k;
  }

  lemma ClimbReaches(s: Scheme, db: Db, k: byte)
    requires Inv(db) && k < 63 && Reached(s, db, k) && GrantDecision(s, db, Climb(k)) == Inserted
    ensures Reached(s, AfterGrant(s, db, Climb(k)), k + 1)
  {
    hide Inv, GrantDecision, FULL, GrantReceipt, GrantedRow, Climbed, RungId, RungSecret;
    var d := db.documents[LADDER];
    var g := Climb(k);
    var row := GrantedRow(s, g, d.revision + 1);
    NextRung(s, k, d.revision + 1);
    ClimbedStep(s, d, GrantCommit(s, d, g), k, row, GrantReceipt(s, g));
  }

  lemma NextRung(s: Scheme, k: byte, revision: nat)
    requires k < 63
    ensures RungRow(s, GrantedRow(s, Climb(k), revision), k + 1)
  {
  }

  lemma NextRungIds(k: byte)
    requires k < 63
    ensures RungIds(k + 2) == RungIds(k + 1) + {RungId(k + 1)}
  {
  }

  lemma ClimbedStep(s: Scheme, d: Document, e: Document, k: byte, row: Capability, receipt: ControlReceipt)
    requires k < 63 && Climbed(s, d, k) && RungRow(s, row, k + 1)
    requires e == d.(capabilities := d.capabilities[RungId(k + 1) := row],
                     receipts := d.receipts[(RungId(k), REQUEST) := receipt], revision := d.revision + 1)
    ensures Climbed(s, e, k + 1)
  {
    hide RungRow, RungId, RungIds;
    NextRungIds(k);
    forall id | id in e.capabilities ensures RungRow(s, e.capabilities[id], id[0]) {
      if id != RungId(k + 1) { assert e.capabilities[id] == d.capabilities[id]; }
    }
    forall key | key in e.receipts ensures key.0[0] < k + 1 {
      if key != (RungId(k), REQUEST) { assert key in d.receipts; }
    }
  }

  lemma OpeningReaches(s: Scheme)
    ensures Inv(Initial(Provisioned(s)))
    ensures CreateDecision(s, Initial(Provisioned(s)), Opening()) == CreateInserted
    ensures Reached(s, AfterCreate(s, Initial(Provisioned(s)), Opening()), 0)
  {
    hide FULL;
    var db := Initial(Provisioned(s));
    InitialInv(Provisioned(s));
    assert AuthorityDocuments(db, OPENER) == {};
    assert GlobalCapabilities(db) == 0;
    assert RungIds(1) == {RungId(0)};
  }

  lemma {:induction false} RunSnoc(s: Scheme, db: Db, commands: seq<Command>, c: Command)
    requires Inv(db)
    ensures Inv(Run(s, db, commands))
    ensures Run(s, db, commands + [c]) == Execute(s, Run(s, db, commands), c)
    decreases |commands|
  {
    hide Inv, Execute;
    RunKeepsInv(s, db, commands);
    if commands == [] {
      assert ([] + [c])[1..] == [];
    } else {
      ExecuteKeepsInv(s, db, commands[0]);
      assert (commands + [c])[1..] == commands[1..] + [c];
      RunSnoc(s, Execute(s, db, commands[0]), commands[1..], c);
    }
  }

  lemma {:induction false} AscentReaches(s: Scheme, k: byte)
    requires k < 64
    ensures Inv(Initial(Provisioned(s))) && Inv(Run(s, Initial(Provisioned(s)), Ascent(k)))
    ensures Reached(s, Run(s, Initial(Provisioned(s)), Ascent(k)), k)
  {
    hide Inv, GrantDecision, CreateDecision, Reached, Run, AfterGrant, AfterCreate;
    var start := Initial(Provisioned(s));
    OpeningReaches(s);
    if k == 0 {
      RunSnoc(s, start, [], CreateDocument(Opening()));
      RunNothing(s, start);
      assert [] + [CreateDocument(Opening())] == Ascent(0);
      RunKeepsInv(s, start, Ascent(0));
    } else {
      AscentReaches(s, k - 1);
      var db := Run(s, start, Ascent(k - 1));
      ClimbCommits(s, db, k - 1);
      ClimbReaches(s, db, k - 1);
      RunSnoc(s, start, Ascent(k - 1), GrantCapability(Climb(k - 1)));
      RunKeepsInv(s, start, Ascent(k));
    }
  }

  lemma RunNothing(s: Scheme, db: Db)
    requires Inv(db)
    ensures Run(s, db, []) == db
  {
  }

  /**
   * For any verifier derivation, one creation and 63 grants lead to a store that authorizes the
   * last capability to read while the model denies it.
   */
  lemma ModelDeniesFullDepth(s: Scheme)
    ensures Inv(Initial(Provisioned(s)))
    ensures
      var after := Run(s, Initial(Provisioned(s)), Ascent(63));
      && LADDER in after.documents
      && AccessTo(s, after, LADDER, RungId(63), RungSecret(63), Read) == Authorized
      && !ModelAccess(s, after.documents[LADDER].capabilities, LADDER, RungId(63), RungSecret(63), Read)
  {
    hide Inv, Run, FULL, Reached, AccessTo, ModelAccess, Ascent, RungId, ValidTree;
    AscentReaches(s, 63);
    var after := Run(s, Initial(Provisioned(s)), Ascent(63));
    FullAllowsFull();
    ReachedFacts(s, after, 63);
    var d := after.documents[LADDER];
    ValidTreeLinked(d.capabilities, d.root, d.revision);
    RungAt(s, after, 63, 63);
    RungChain(s, after, 63, 63);
    AccessCollapses(s, after, LADDER, RungId(63), RungSecret(63), Read);
    ServingIsAuthorized(s, after, LADDER, RungId(63), RungSecret(63), Read);
    AgreeBelowFullDepth(s, after, LADDER, RungId(63), RungSecret(63), Read);
  }
}
