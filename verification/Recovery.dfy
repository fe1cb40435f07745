/** Recovery validation: the walk over every table that decides whether the store may serve. */
module Recovery {
  import opened Prelude
  import opened Types
  import opened UpdateRecord
  import opened CapabilityTree
  import opened Tables
  import opened UpdateLog

  // ---- Counting rows by group ---------------------------------------------------

  ghost function Group<K, V, G>(m: map<K, V>, keys: set<K>, group: (K, V) -> Option<G>, g: G): set<K> {
    set k | k in keys && k in m && group(k, m[k]) == Some(g)
  }

  function Tally<G>(counts: map<G, nat>, g: G): nat {
    if g in counts then counts[g] else 0
  }

  /** Running counts reject exactly when some group exceeds the limit. */
  method GroupsWithin<K(==), V, G(==)>(m: map<K, V>, group: (K, V) -> Option<G>, limit: nat) returns (ok: bool)
    ensures ok <==> forall g :: |Group(m, m.Keys, group, g)| <= limit
  {
    var counts: map<G, nat> := map[];
    var rest := m.Keys;
    ghost var done: set<K> := {};
    while rest != {}
      invariant done !! rest && done + rest == m.Keys
      invariant forall g :: |Group(m, done, group, g)| == Tally(counts, g) <= limit
      decreases |rest|
    {
      var k :| k in rest;
      GroupGrows(m, done, group, k);
      hide Group;
      done := done + {k};
      rest := rest - {k};
      var g := group(k, m[k]);
      if g.Some? {
        if Tally(counts, g.value) + 1 > limit {
          GroupMonotone(m, done, m.Keys, group, g.value);
          return false;
        }
        counts := counts[g.value := Tally(counts, g.value) + 1];
      }
    }
    assert done == m.Keys;
    return true;
  }

  lemma GroupGrows<K, V, G>(m: map<K, V>, keys: set<K>, group: (K, V) -> Option<G>, k: K)
    requires k !in keys && k in m
    ensures forall g :: |Group(m, keys + {k}, group, g)| == |Group(m, keys, group, g)| + if group(k, m[k]) == Some(g) then 1 else 0
  {
    forall g ensures |Group(m, keys + {k}, group, g)| == |Group(m, keys, group, g)| + if group(k, m[k]) == Some(g) then 1 else 0 {
      assert Group(m, keys + {k}, group, g) == Group(m, keys, group, g) + if group(k, m[k]) == Some(g) then {k} else {};
    }
  }

  lemma GroupMonotone<K, V, G>(m: map<K, V>, keys: set<K>, more: set<K>, group: (K, V) -> Option<G>, g: G)
    requires keys <= more
    ensures |Group(m, keys, group, g)| <= |Group(m, more, group, g)|
  {
    SubsetCard(Group(m, keys, group, g), Group(m, more, group, g));
  }

  // ---- Ancestry -------------------------------------------------------------------

  /** One accepted link of an upward walk. */
  predicate GoodStep(t: Tree, c: CapabilityId)
    requires c in t && t[c].parent.Some?
  {
    var p := t[c].parent.value;
    && !t[c].root
    && p in t
    && t[p].created < t[c].created
    && Allows(t[p].operations, t[c].operations)
    && (t[p].revoked ==> t[c].revoked)
  }

  /** A walk that reaches the document's root within the given number of nodes. */
  predicate WalkOk(t: Tree, root: CapabilityId, c: CapabilityId, nodes: nat)
    requires c in t
    decreases nodes
  {
    nodes > 0
    && match t[c].parent
       case None => t[c].root && c == root
       case Some(p) => GoodStep(t, c) && WalkOk(t, root, p, nodes - 1)
  }

  predicate AncestryOk(t: Tree, root: CapabilityId, revision: nat, c: CapabilityId)
    requires c in t
  {
    0 < t[c].created <= revision && WalkOk(t, root, c, MAX_CAPABILITY_DEPTH)
  }

  /** The bounded walk with its cycle check; falling revisions make the cycle check redundant. */
  method ValidateAncestry(t: Tree, root: CapabilityId, revision: nat, c: CapabilityId) returns (ok: bool)
    requires c in t
    ensures ok <==> AncestryOk(t, root, revision, c)
  {
    if t[c].created == 0 || t[c].created > revision { return false; }
    var current := c;
    var seen: set<CapabilityId> := {};
    for depth := 0 to MAX_CAPABILITY_DEPTH
      invariant current in t
      invariant forall s :: s in seen ==> s in t && t[s].created > t[current].created
      invariant WalkOk(t, root, c, MAX_CAPABILITY_DEPTH) == WalkOk(t, root, current, MAX_CAPABILITY_DEPTH - depth)
    {
      if current in seen { return false; }
      seen := seen + {current};
      if t[current].parent.None? { return t[current].root && current == root; }
      if t[current].root { return false; }
      var p := t[current].parent.value;
      if p !in t || t[p].created >= t[current].created || !Allows(t[p].operations, t[current].operations)
        || (t[p].revoked && !t[current].revoked)
      {
        return false;
      }
      current := p;
    }
    return false;
  }

  lemma {:induction false} WalkBoundsChain(t: Tree, root: CapabilityId, c: CapabilityId, nodes: nat)
    requires Linked(t) && c in t
    ensures WalkOk(t, root, c, nodes) ==> |Chain(t, c)| <= nodes
    decreases nodes
  {
    if nodes > 0 && t[c].parent.Some? {
      assert LinkedAt(t, c);
      WalkBoundsChain(t, root, t[c].parent.value, nodes - 1);
    }
  }

  lemma {:induction false} ChainWalks(t: Tree, root: CapabilityId, revision: nat, c: CapabilityId, nodes: nat)
    requires ValidTree(t, root, revision) && c in t && |Chain(t, c)| <= nodes
    ensures WalkOk(t, root, c, nodes)
    decreases nodes
  {
    assert GoodLink(t, root, revision, c);
    if t[c].parent.Some? {
      ChainWalks(t, root, revision, t[c].parent.value, nodes - 1);
    }
  }

  predicate RowOk(t: Tree, root: CapabilityId, revision: nat, c: CapabilityId) {
    c in t && t[c].operations != {} && AncestryOk(t, root, revision, c)
  }

  ghost predicate RowsOk(t: Tree, root: CapabilityId, revision: nat) {
    && GoodRoot(t, root)
    && (forall c {:trigger RowOk(t, root, revision, c)} :: c in t ==> RowOk(t, root, revision, c))
    && (forall p :: |Children(t, p)| <= MAX_DIRECT_CAPABILITY_CHILDREN)
    && |t| <= MAX_CAPABILITIES_PER_DOCUMENT
  }

  /** The walks, row by row, decide exactly the global tree invariant. */
  lemma RowsDecideTree(t: Tree, root: CapabilityId, revision: nat)
    ensures RowsOk(t, root, revision) <==> ValidTree(t, root, revision)
  {
    hide Children, Allows;
    if RowsOk(t, root, revision) {
      forall c | c in t ensures GoodLink(t, root, revision, c) && LinkedAt(t, c) {
        assert RowOk(t, root, revision, c);
        assert WalkOk(t, root, c, MAX_CAPABILITY_DEPTH);
        if t[c].parent.Some? {
          assert RowOk(t, root, revision, t[c].parent.value);
        }
      }
      forall c | c in t ensures |Chain(t, c)| <= MAX_CAPABILITY_DEPTH {
        assert RowOk(t, root, revision, c);
        WalkBoundsChain(t, root, c, MAX_CAPABILITY_DEPTH);
      }
    }
    if ValidTree(t, root, revision) {
      forall c | c in t ensures RowOk(t, root, revision, c) {
        assert GoodLink(t, root, revision, c);
        ChainWalks(t, root, revision, c, MAX_CAPABILITY_DEPTH);
      }
    }
  }

  function ParentOf(): (CapabilityId, Capability) -> Option<CapabilityId> {
    (id: CapabilityId, c: Capability) => c.parent
  }

  lemma ChildrenAreGroups(t: Tree)
    ensures (forall p :: |Group(t, t.Keys, ParentOf(), p)| <= MAX_DIRECT_CAPABILITY_CHILDREN)
       <==> (forall p :: |Children(t, p)| <= MAX_DIRECT_CAPABILITY_CHILDREN)
  {
    forall p: CapabilityId ensures Group(t, t.Keys, ParentOf(), p) == Children(t, p) {}
  }

  lemma OneRoot(t: Tree, root: CapabilityId, revision: nat)
    requires ValidTree(t, root, revision)
    ensures (set c | c in t && t[c].root) == {root}
  {
    forall c | c in t && t[c].root ensures c == root {
      assert GoodLink(t, root, revision, c);
    }
  }

  method ValidateTree(t: Tree, root: CapabilityId, revision: nat) returns (ok: bool)
    ensures ok <==> ValidTree(t, root, revision)
  {
    RowsDecideTree(t, root, revision);
    ChildrenAreGroups(t);
    hide ValidTree, WalkOk, Children;
    if |t| > MAX_CAPABILITIES_PER_DOCUMENT { return false; }
    var fanOut := GroupsWithin(t, ParentOf(), MAX_DIRECT_CAPABILITY_CHILDREN);
    if !fanOut { return false; }
    if root !in t { return false; }
    assert RowsOk(t, root, revision) ==> (set c | c in t && t[c].root) == {root} by {
      if RowsOk(t, root, revision) { OneRoot(t, root, revision); }
    }
    var roots := set c | c in t && t[c].root;
    if |roots| != 1 || !t[root].root || t[root].parent.Some? { return false; }
    if t[root].created != 1 || t[root].operations != FULL { return false; }
    var rest := t.Keys;
    while rest != {}
      invariant rest <= t.Keys
      invariant forall c {:trigger RowOk(t, root, revision, c)} :: c in t && c !in rest ==> RowOk(t, root, revision, c)
      decreases |rest|
    {
      var c :| c in rest;
      assert RowOk(t, root, revision, c) <==> t[c].operations != {} && AncestryOk(t, root, revision, c);
      if t[c].operations == {} { return false; }
      var ancestry := ValidateAncestry(t, root, revision, c);
      if !ancestry { return false; }
      rest := rest - {c};
    }
    return true;
  }

  // ---- Documents --------------------------------------------------------------------

  method ValidateReceipts(d: Document) returns (ok: bool)
    ensures ok <==> forall k {:trigger k in d.receipts} :: k in d.receipts ==> GoodReceipt(d.capabilities, k.0, d.receipts[k])
  {
    hide GoodReceipt;
    var rest := d.receipts.Keys;
    while rest != {}
      invariant rest <= d.receipts.Keys
      invariant forall k {:trigger k in d.receipts} :: k in d.receipts && k !in rest ==>
        GoodReceipt(d.capabilities, k.0, d.receipts[k])
      decreases |rest|
    {
      var k :| k in rest;
      if !GoodReceipt(d.capabilities, k.0, d.receipts[k]) { return false; }
      rest := rest - {k};
    }
    return true;
  }

  method ValidateControl(d: Document) returns (ok: bool)
    ensures ok <==> ValidControl(d)
  {
    hide ValidTree, GoodReceipt, CapabilityBytes, ReceiptBytes;
    var tree := ValidateTree(d.capabilities, d.root, d.revision);
    if !tree { return false; }
    var receipts := ValidateReceipts(d);
    if !receipts || |d.receipts| > MAX_CONTROL_RECEIPTS_PER_DOCUMENT { return false; }
    if d.revision != |d.receipts| + 1 { return false; }
    var bytes := ControlBytes(d);
    return bytes <= MAX_DOCUMENT_CONTROL_BYTES;
  }

  /** What the update scan has established of the first `n` rows. */
  ghost predicate ScannedRows(id: DocumentId, d: Document, n: nat)
    requires n <= |d.log|
  {
    forall i :: 0 <= i < n ==>
      && d.log[i].sequence == i + 1
      && GoodRow(id, d.log[i])
      && d.log[i].updateId in d.rangeIndex
      && d.rangeIndex[d.log[i].updateId] == RowRanges(d.log[i])
  }

  lemma LogPeersStep(log: seq<LogRow>, n: nat)
    requires n < |log|
    ensures LogPeers(log[..n + 1]) == LogPeers(log[..n]) + PeersOf(RowRanges(log[n]))
    ensures LogPeers(log[..n]) <= LogPeers(log[..n + 1])
  {
    assert log[..n + 1][..n] == log[..n];
  }

  lemma {:induction false} LogPeersPrefix(log: seq<LogRow>, n: nat)
    requires n <= |log|
    ensures LogPeers(log[..n]) <= LogPeers(log)
    decreases |log| - n
  {
    if n < |log| {
      LogPeersStep(log, n);
      LogPeersPrefix(log, n + 1);
    } else {
      assert log[..n] == log;
    }
  }

  /** Matching rows and matching counts leave no room for an index entry without an update. */
  lemma IndexExact(d: Document)
    requires DistinctIds(d.log) && |d.rangeIndex| == |d.log|
    requires forall i :: 0 <= i < |d.log| ==>
      d.log[i].updateId in d.rangeIndex && d.rangeIndex[d.log[i].updateId] == RowRanges(d.log[i])
    ensures ExactIndex(d.log, d.rangeIndex)
  {
    hide RowRanges;
    var ids := IdsBelow(d.log, |d.log|);
    DistinctCount(d.log, |d.log|);
    assert ids <= d.rangeIndex.Keys;
    SubsetSameCard(ids, d.rangeIndex.Keys);
  }

  ghost function IdsBelow(log: seq<LogRow>, n: nat): set<UpdateId>
    requires n <= |log|
  {
    set i | 0 <= i < n :: log[i].updateId
  }

  lemma IdsStep(log: seq<LogRow>, n: nat)
    requires n < |log|
    ensures IdsBelow(log, n + 1) == IdsBelow(log, n) + {log[n].updateId}
  {
  }

  lemma {:induction false} DistinctCount(log: seq<LogRow>, n: nat)
    requires DistinctIds(log) && n <= |log|
    ensures |IdsBelow(log, n)| == n
  {
    if n > 0 {
      DistinctCount(log, n - 1);
      IdsStep(log, n - 1);
      assert log[n - 1].updateId !in IdsBelow(log, n - 1);
    }
  }

  lemma ExactCount(d: Document)
    requires DistinctIds(d.log) && ExactIndex(d.log, d.rangeIndex)
    ensures |d.rangeIndex| == |d.log|
  {
    hide RowRanges;
    DistinctCount(d.log, |d.log|);
    assert |d.rangeIndex| == |d.rangeIndex.Keys|;
  }

  /** Update identifiers are the primary key of a document's updates; everything else is checked. */
  method ValidateUpdates(id: DocumentId, d: Document) returns (ok: bool)
    requires DistinctIds(d.log)
    ensures ok <==> ValidLog(id, d)
  {
    hide DecodeUpdateRecord, PeersOf, GoodRow, RowRanges, ExactIndex, LogPeers;
    var peers: set<u64> := {};
    assert LogPeers(d.log[..0]) == {} by { NoPeers(); }
    for i := 0 to |d.log|
      invariant ScannedRows(id, d, i)
      invariant peers == LogPeers(d.log[..i]) && |peers| <= MAX_LORO_PEERS
      invariant i > 0 ==> i + 1 <= U64_MAX
    {
      var row := d.log[i];
      if row.sequence != i + 1 || row.sequence >= U64_MAX { return false; }
      if !GoodRow(id, row) { return false; }
      if row.updateId !in d.rangeIndex || d.rangeIndex[row.updateId] != RowRanges(row) {
        NotExact(d, i);
        return false;
      }
      LogPeersStep(d.log, i);
      LogPeersPrefix(d.log, i + 1);
      var within, union := InsertLoroPeers(peers, RowRanges(row));
      if !within {
        SubsetCard(LogPeers(d.log[..i + 1]), LogPeers(d.log));
        return false;
      }
      peers := union;
    }
    assert d.log[..|d.log|] == d.log;
    if |d.rangeIndex| != |d.log| {
      if ValidLog(id, d) { ExactCount(d); }
      return false;
    }
    IndexExact(d);
    if d.peers != peers { return false; }
    return d.log == [] || d.nextSequence == Some(|d.log| + 1);
  }

  lemma NoPeers()
    ensures LogPeers([]) == {}
  {
  }

  lemma NotExact(d: Document, i: nat)
    requires i < |d.log|
    requires d.log[i].updateId !in d.rangeIndex || d.rangeIndex[d.log[i].updateId] != RowRanges(d.log[i])
    ensures !ExactIndex(d.log, d.rangeIndex)
  {
    hide RowRanges;
  }

  // ---- The whole store -----------------------------------------------------------------

  function AuthorityOf(): ((CreateAuthorityId, RequestId), CreateReceipt) -> Option<CreateAuthorityId> {
    (k: (CreateAuthorityId, RequestId), r: CreateReceipt) => Some(k.0)
  }

  lemma AuthoritiesAreGroups(db: Db)
    ensures (forall a :: |Group(db.createReceipts, db.createReceipts.Keys, AuthorityOf(), a)| <= MAX_DOCUMENTS_PER_CREATE_AUTHORITY)
       <==> (forall a :: |AuthorityDocuments(db, a)| <= MAX_DOCUMENTS_PER_CREATE_AUTHORITY)
  {
    forall a: CreateAuthorityId
      ensures Group(db.createReceipts, db.createReceipts.Keys, AuthorityOf(), a) == AuthorityDocuments(db, a)
    {
    }
  }

  method ValidateCreation(db: Db) returns (ok: bool)
    ensures ok <==> ValidCreation(db)
  {
    hide GoodCreateReceipt, AuthorityDocuments, Group;
    AuthoritiesAreGroups(db);
    if |db.documents| != |db.createReceipts| { return false; }
    if |db.documents| > MAX_GLOBAL_DOCUMENTS || |db.createReceipts| > MAX_GLOBAL_CREATE_RECEIPTS { return false; }
    var rest := db.createReceipts.Keys;
    while rest != {}
      invariant rest <= db.createReceipts.Keys
      invariant forall k {:trigger k in db.createReceipts} :: k in db.createReceipts && k !in rest ==>
        GoodCreateReceipt(db, db.createReceipts[k])
      decreases |rest|
    {
      var k :| k in rest;
      if !GoodCreateReceipt(db, db.createReceipts[k]) { return false; }
      rest := rest - {k};
    }
    ok := GroupsWithin(db.createReceipts, AuthorityOf(), MAX_DOCUMENTS_PER_CREATE_AUTHORITY);
  }

  /** The recovery gate: it opens exactly for the tables that every commit preserves. */
  method Validate(db: Db) returns (ok: bool)
    requires forall id {:trigger id in db.documents} :: id in db.documents ==> DistinctIds(db.documents[id].log)
    ensures ok <==> Recoverable(db)
  {
    hide ValidCreation, ValidControl, ValidLog, DistinctIds, CapabilityCount, ReceiptCount, DocumentBytes;
    var creation := ValidateCreation(db);
    if !creation { return false; }
    var rest := db.documents;
    var capabilities, receipts, bytes := 0, 0, 0;
    while rest != map[]
      invariant rest.Keys <= db.documents.Keys && forall id :: id in rest ==> rest[id] == db.documents[id]
      invariant forall id {:trigger id in db.documents} :: id in db.documents && id !in rest ==>
        ValidControl(db.documents[id]) && ValidLog(id, db.documents[id])
      invariant capabilities + Sum(rest, CapabilityCount) == GlobalCapabilities(db)
      invariant receipts + Sum(rest, ReceiptCount) == GlobalReceipts(db)
      invariant bytes + Sum(rest, DocumentBytes) == GlobalBytes(db)
      decreases |rest|
    {
      var id :| id in rest;
      var control := ValidateControl(rest[id]);
      if !control { return false; }
      var updates := ValidateUpdates(id, rest[id]);
      if !updates { return false; }
      SumRemove(rest, CapabilityCount, id);
      SumRemove(rest, ReceiptCount, id);
      SumRemove(rest, DocumentBytes, id);
      var size := ControlBytes(rest[id]);
      capabilities := capabilities + CapabilityCount(rest[id]);
      receipts := receipts + ReceiptCount(rest[id]);
      bytes := bytes + size;
      rest := rest - {id};
    }
    return capabilities <= MAX_GLOBAL_CAPABILITIES && receipts <= MAX_GLOBAL_CONTROL_RECEIPTS
      && bytes <= MAX_GLOBAL_CONTROL_BYTES;
  }

  /** The two table aggregates behind a document's logical bytes. */
  method ControlBytes(d: Document) returns (bytes: nat)
    ensures bytes == DocumentBytes(d)
  {
    hide CapabilityBytes, ReceiptBytes;
    var rows := Total(d.capabilities, CapabilityBytes);
    var answers := Total(d.receipts, ReceiptBytes);
    return rows + answers;
  }
}
