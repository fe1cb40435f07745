/** One document's capability tree: bounded upward walks, the downward subtree, and their agreement. */
module CapabilityTree {
  import opened Prelude
  import opened Types

  const MAX_CAPABILITY_DEPTH: nat := 64
  const MAX_DIRECT_CAPABILITY_CHILDREN: nat := 64
  const MAX_CAPABILITIES_PER_DOCUMENT: nat := 1024

  datatype Capability = Capability(
    parent: Option<CapabilityId>, root: bool, live: Secret, receipt: Secret,
    revoked: bool, created: nat, operations: OperationSet)

  type Tree = map<CapabilityId, Capability>

  // ---- Ancestry -----------------------------------------------------------

  /** Parent links stay inside the tree and strictly precede their children. */
  ghost predicate Linked(t: Tree) {
    forall c {:trigger LinkedAt(t, c)} :: c in t ==> LinkedAt(t, c)
  }

  ghost predicate LinkedAt(t: Tree, c: CapabilityId)
    requires c in t
  {
    t[c].parent.Some? ==> t[c].parent.value in t && t[t[c].parent.value].created < t[c].created
  }

  /** A capability followed by all of its ancestors, nearest first. */
  ghost function Chain(t: Tree, c: CapabilityId): (s: seq<CapabilityId>)
    requires Linked(t) && c in t
    ensures s != [] && s[0] == c
    ensures forall i :: 0 <= i < |s| ==> s[i] in t
    decreases t[c].created
  {
    assert LinkedAt(t, c);
    match t[c].parent
    case None => [c]
    case Some(p) => [c] + Chain(t, p)
  }

  /** An explicit path of parent links, child first. */
  ghost predicate Path(t: Tree, p: seq<CapabilityId>) {
    && p != []
    && (forall i :: 0 <= i < |p| ==> p[i] in t)
    && forall i :: 0 < i < |p| ==> t[p[i - 1]].parent == Some(p[i])
  }

  /** The reference notion of ancestry: some path of parent links leads from `c` up to `a`. */
  ghost predicate Ancestor(t: Tree, a: CapabilityId, c: CapabilityId) {
    exists p :: Path(t, p) && p[0] == c && p[|p| - 1] == a
  }

  lemma {:induction false} ChainTail(t: Tree, c: CapabilityId, i: nat)
    requires Linked(t) && c in t && i < |Chain(t, c)|
    ensures Chain(t, Chain(t, c)[i]) == Chain(t, c)[i..]
    decreases t[c].created
  {
    if i > 0 {
      assert LinkedAt(t, c);
      var p := t[c].parent.value;
      ChainTail(t, p, i - 1);
      assert Chain(t, c)[i..] == Chain(t, p)[i - 1..];
    }
  }

  /** Walking one link up from position `i` of a chain reaches position `i + 1`, or the root. */
  lemma ChainStep(t: Tree, c: CapabilityId, i: nat)
    requires Linked(t) && c in t && i < |Chain(t, c)|
    ensures t[Chain(t, c)[i]].parent == if i + 1 < |Chain(t, c)| then Some(Chain(t, c)[i + 1]) else None
  {
    ChainTail(t, c, i);
    var x := Chain(t, c)[i];
    assert Chain(t, x) == Chain(t, c)[i..];
    if t[x].parent.Some? {
      assert Chain(t, x)[1] == t[x].parent.value;
    }
  }

  lemma {:induction false} PathIsChainPrefix(t: Tree, p: seq<CapabilityId>)
    requires Linked(t) && Path(t, p)
    ensures p <= Chain(t, p[0])
  {
    if |p| > 1 {
      assert t[p[0]].parent == Some(p[1]);
      PathIsChainPrefix(t, p[1..]);
    }
  }

  /** The chain lists exactly the ancestors. */
  lemma ChainIsAncestry(t: Tree, a: CapabilityId, c: CapabilityId)
    requires Linked(t)
    ensures Ancestor(t, a, c) <==> c in t && a in Chain(t, c)
  {
    if Ancestor(t, a, c) {
      var p :| Path(t, p) && p[0] == c && p[|p| - 1] == a;
      PathIsChainPrefix(t, p);
      assert Chain(t, c)[|p| - 1] == a;
    }
    if c in t && a in Chain(t, c) {
      var i :| 0 <= i < |Chain(t, c)| && Chain(t, c)[i] == a;
      var p := Chain(t, c)[..i + 1];
      forall j | 0 < j < |p| ensures t[p[j - 1]].parent == Some(p[j]) {
        ChainStep(t, c, j - 1);
      }
      assert Path(t, p);
    }
  }

  /** Ancestors were created strictly earlier, so no capability occurs twice on a chain. */
  lemma {:induction false} ChainDescends(t: Tree, c: CapabilityId, i: nat)
    requires Linked(t) && c in t && 0 < i < |Chain(t, c)|
    ensures t[Chain(t, c)[i]].created < t[c].created
    decreases t[c].created
  {
    assert LinkedAt(t, c);
    if i > 1 {
      ChainDescends(t, t[c].parent.value, i - 1);
    }
  }

  // ---- The tree the store maintains ---------------------------------------

  ghost function Children(t: Tree, p: CapabilityId): set<CapabilityId> {
    set c | c in t && t[c].parent == Some(p)
  }

  /** What every capability must satisfy relative to its parent. */
  ghost predicate GoodLink(t: Tree, root: CapabilityId, revision: nat, c: CapabilityId)
    requires c in t
  {
    && 0 < t[c].created <= revision
    && t[c].operations != {}
    && match t[c].parent
       case None => t[c].root && c == root
       case Some(p) =>
         && !t[c].root
         && p in t
         && t[p].created < t[c].created
         && Allows(t[p].operations, t[c].operations)
         && (t[p].revoked ==> t[c].revoked)
  }

  ghost predicate GoodRoot(t: Tree, root: CapabilityId) {
    root in t && t[root].root && t[root].parent.None? && t[root].created == 1 && t[root].operations == FULL
  }

  /** The recovered-tree invariant: shape, revisions, attenuation, revocation closure, bounds. */
  ghost predicate ValidTree(t: Tree, root: CapabilityId, revision: nat) {
    && GoodRoot(t, root)
    && (forall c {:trigger GoodLink(t, root, revision, c)} :: c in t ==> GoodLink(t, root, revision, c))
    && Linked(t)
    && (forall c {:trigger Chain(t, c)} :: c in t ==> |Chain(t, c)| <= MAX_CAPABILITY_DEPTH)
    && (forall p :: |Children(t, p)| <= MAX_DIRECT_CAPABILITY_CHILDREN)
    && |t| <= MAX_CAPABILITIES_PER_DOCUMENT
  }

  /** Along a chain every right is held by every ancestor, and revocation flows only downward. */
  lemma {:induction false} ChainInherits(t: Tree, root: CapabilityId, revision: nat, c: CapabilityId, i: nat)
    requires ValidTree(t, root, revision) && c in t && i < |Chain(t, c)|
    ensures t[c].operations <= t[Chain(t, c)[i]].operations
    ensures t[Chain(t, c)[i]].revoked ==> t[c].revoked
    decreases t[c].created
  {
    assert GoodLink(t, root, revision, c);
    if i > 0 {
      ChainInherits(t, root, revision, t[c].parent.value, i - 1);
    }
  }

  lemma {:induction false} ChainEndsAtRoot(t: Tree, root: CapabilityId, revision: nat, c: CapabilityId)
    requires ValidTree(t, root, revision) && c in t
    ensures Chain(t, c)[|Chain(t, c)| - 1] == root
    decreases t[c].created
  {
    assert GoodLink(t, root, revision, c);
    if t[c].parent.Some? {
      ChainEndsAtRoot(t, root, revision, t[c].parent.value);
    }
  }

  /** Self and all ancestors active: the unbounded definition of effective authority. */
  ghost predicate Effective(t: Tree, c: CapabilityId) {
    c in t && forall a :: Ancestor(t, a, c) ==> a in t && !t[a].revoked
  }

  /** In a valid tree the whole ancestry condition collapses to the capability's own state. */
  lemma EffectiveIsActive(t: Tree, root: CapabilityId, revision: nat, c: CapabilityId)
    requires ValidTree(t, root, revision)
    ensures Effective(t, c) <==> c in t && !t[c].revoked
  {
    if c in t {
      ChainIsAncestry(t, c, c);
      forall a | Ancestor(t, a, c) ensures a in t && (t[a].revoked ==> t[c].revoked) {
        ChainIsAncestry(t, a, c);
        var i :| 0 <= i < |Chain(t, c)| && Chain(t, c)[i] == a;
        ChainInherits(t, root, revision, c, i);
      }
    }
  }

  /** Every operation a capability holds is held by each of its ancestors, up to a full root. */
  lemma AncestorsHoldMore(t: Tree, root: CapabilityId, revision: nat, a: CapabilityId, c: CapabilityId)
    requires ValidTree(t, root, revision) && Ancestor(t, a, c)
    ensures c in t && a in t && t[c].operations <= t[a].operations
    ensures Ancestor(t, root, c) && t[root].operations == FULL
  {
    ChainIsAncestry(t, a, c);
    var i :| 0 <= i < |Chain(t, c)| && Chain(t, c)[i] == a;
    ChainInherits(t, root, revision, c, i);
    ChainEndsAtRoot(t, root, revision, c);
    ChainIsAncestry(t, root, c);
  }

  // ---- The bounded upward walks -------------------------------------------

  /** The 64-step walk that decides descent when subscriptions and passes are swept. */
  method IsDescendantOrSelf(t: Tree, ghost root: CapabilityId, ghost revision: nat,
                            ancestor: CapabilityId, candidate: CapabilityId) returns (r: bool)
    requires ValidTree(t, root, revision)
    ensures r <==> ancestor == candidate || Ancestor(t, ancestor, candidate)
  {
    ChainIsAncestry(t, ancestor, candidate);
    var current := candidate;
    for depth := 0 to MAX_CAPABILITY_DEPTH
      invariant depth == 0 ==> current == candidate
      invariant depth > 0 ==>
        candidate in t && depth < |Chain(t, candidate)| && current == Chain(t, candidate)[depth]
      invariant candidate in t ==> ancestor !in Chain(t, candidate)[..depth]
    {
      if current == ancestor { return true; }
      if current !in t { return false; }
      ChainStep(t, candidate, depth);
      if t[current].parent.None? { return false; }
      current := t[current].parent.value;
    }
    return false;
  }

  /** The walk behind a revoke: every node up to the issuer must be active. */
  method IsActiveDescendant(t: Tree, ghost root: CapabilityId, ghost revision: nat,
                            issuer: CapabilityId, target: CapabilityId) returns (r: bool)
    requires ValidTree(t, root, revision)
    ensures r <==> target in t && !t[target].revoked && Ancestor(t, issuer, target)
  {
    ChainIsAncestry(t, issuer, target);
    if target !in t { return false; }
    var current := target;
    for depth := 0 to MAX_CAPABILITY_DEPTH
      invariant depth < |Chain(t, target)| && current == Chain(t, target)[depth]
      invariant depth > 0 ==> !t[target].revoked
      invariant issuer !in Chain(t, target)[..depth]
    {
      ChainInherits(t, root, revision, target, depth);
      ChainStep(t, target, depth);
      if t[current].revoked { return false; }
      if current == issuer { return true; }
      if t[current].parent.None? { return false; }
      current := t[current].parent.value;
    }
    return false;
  }

  /** Whether one more level still fits below the issuer. */
  method IssuerHasDescendantCapacity(t: Tree, ghost root: CapabilityId, ghost revision: nat,
                                     issuer: CapabilityId) returns (r: bool)
    requires ValidTree(t, root, revision)
    ensures r <==> issuer in t && |Chain(t, issuer)| < MAX_CAPABILITY_DEPTH
  {
    if issuer !in t { return false; }
    var current := issuer;
    for depth := 0 to MAX_CAPABILITY_DEPTH
      invariant depth < |Chain(t, issuer)| && current == Chain(t, issuer)[depth]
    {
      ChainStep(t, issuer, depth);
      if t[current].parent.None? { return depth + 1 < MAX_CAPABILITY_DEPTH; }
      current := t[current].parent.value;
    }
    return false;
  }

  // ---- The walks as predicates -----------------------------------------------

  /** Every row on the way to the root is present and active, and the root is within reach. */
  predicate AuthorityWalk(t: Tree, current: CapabilityId, nodes: nat)
    decreases nodes
  {
    && nodes > 0
    && current in t && !t[current].revoked
    && match t[current].parent
       case None => true
       case Some(p) => AuthorityWalk(t, p, nodes - 1)
  }

  /** Every row on the way to the issuer is present and active, and the issuer is within reach. */
  predicate DescentWalk(t: Tree, issuer: CapabilityId, current: CapabilityId, nodes: nat)
    decreases nodes
  {
    && nodes > 0
    && current in t && !t[current].revoked
    && (current == issuer
        || match t[current].parent
           case None => false
           case Some(p) => DescentWalk(t, issuer, p, nodes - 1))
  }

  lemma {:induction false} AuthorityWalkAlong(t: Tree, c: CapabilityId, nodes: nat)
    requires Linked(t) && c in t && |Chain(t, c)| <= nodes
    ensures AuthorityWalk(t, c, nodes) <==> forall i :: 0 <= i < |Chain(t, c)| ==> !t[Chain(t, c)[i]].revoked
    decreases nodes
  {
    assert LinkedAt(t, c);
    if t[c].parent.Some? {
      var p := t[c].parent.value;
      AuthorityWalkAlong(t, p, nodes - 1);
      assert forall i :: 0 <= i < |Chain(t, p)| ==> Chain(t, p)[i] == Chain(t, c)[i + 1];
      assert forall i :: 0 < i < |Chain(t, c)| ==> Chain(t, c)[i] == Chain(t, p)[i - 1];
    }
  }

  /** In a valid tree the bounded authority walk is the unbounded definition. */
  lemma AuthorityWalkExact(t: Tree, root: CapabilityId, revision: nat, c: CapabilityId)
    requires ValidTree(t, root, revision)
    ensures AuthorityWalk(t, c, MAX_CAPABILITY_DEPTH) <==> Effective(t, c)
  {
    EffectiveIsActive(t, root, revision, c);
    if c in t {
      AuthorityWalkAlong(t, c, MAX_CAPABILITY_DEPTH);
      forall i | 0 <= i < |Chain(t, c)| ensures t[Chain(t, c)[i]].revoked ==> t[c].revoked {
        ChainInherits(t, root, revision, c, i);
      }
    }
  }

  lemma {:induction false} DescentWalkAlong(t: Tree, issuer: CapabilityId, c: CapabilityId, nodes: nat)
    requires Linked(t) && c in t && |Chain(t, c)| <= nodes
    ensures DescentWalk(t, issuer, c, nodes) ==> issuer in Chain(t, c) && !t[c].revoked
    ensures issuer in Chain(t, c) && (forall i :: 0 <= i < |Chain(t, c)| ==> !t[Chain(t, c)[i]].revoked) ==>
      DescentWalk(t, issuer, c, nodes)
    decreases nodes
  {
    assert LinkedAt(t, c);
    if t[c].parent.Some? {
      var p := t[c].parent.value;
      DescentWalkAlong(t, issuer, p, nodes - 1);
      assert Chain(t, c) == [c] + Chain(t, p);
      assert forall i :: 0 <= i < |Chain(t, p)| ==> Chain(t, p)[i] == Chain(t, c)[i + 1];
    }
  }

  /** In a valid tree the bounded walk down from a target finds its issuer exactly when the target is active beneath it. */
  lemma DescentWalkExact(t: Tree, root: CapabilityId, revision: nat, issuer: CapabilityId, target: CapabilityId)
    requires ValidTree(t, root, revision)
    ensures DescentWalk(t, issuer, target, MAX_CAPABILITY_DEPTH)
       <==> target in t && !t[target].revoked && Ancestor(t, issuer, target)
  {
    ChainIsAncestry(t, issuer, target);
    if target in t {
      DescentWalkAlong(t, issuer, target, MAX_CAPABILITY_DEPTH);
      forall i | 0 <= i < |Chain(t, target)| ensures t[Chain(t, target)[i]].revoked ==> t[target].revoked {
        ChainInherits(t, root, revision, target, i);
      }
    }
  }

  // ---- The downward subtree ------------------------------------------------

  /** A capability and everything granted beneath it. */
  ghost function Subtree(t: Tree, target: CapabilityId): set<CapabilityId> {
    set c | c in t && Ancestor(t, target, c)
  }

  ghost function Level(t: Tree, target: CapabilityId, depth: nat): set<CapabilityId>
    requires Linked(t)
  {
    set c | c in t && depth < |Chain(t, c)| && Chain(t, c)[depth] == target
  }

  /** The capabilities at most `depth` grants below the target. */
  ghost function UpTo(t: Tree, target: CapabilityId, depth: nat): set<CapabilityId>
    requires Linked(t)
    decreases depth
  {
    Level(t, target, depth) + if depth == 0 then {} else UpTo(t, target, depth - 1)
  }

  lemma NextLevel(t: Tree, target: CapabilityId, depth: nat)
    requires Linked(t)
    ensures Level(t, target, depth + 1)
         == set c | c in t && t[c].parent.Some? && t[c].parent.value in Level(t, target, depth)
  {
    forall c | c in t && t[c].parent.Some?
      ensures c in Level(t, target, depth + 1) <==> t[c].parent.value in Level(t, target, depth)
    {
      assert LinkedAt(t, c);
      assert Chain(t, c) == [c] + Chain(t, t[c].parent.value);
    }
  }

  lemma {:induction false} InUpTo(t: Tree, target: CapabilityId, depth: nat, c: CapabilityId)
    requires Linked(t)
    ensures c in UpTo(t, target, depth) <==>
      c in t && exists i :: 0 <= i <= depth && i < |Chain(t, c)| && Chain(t, c)[i] == target
    decreases depth
  {
    if depth > 0 {
      InUpTo(t, target, depth - 1, c);
    }
  }

  /** Once a level is empty every deeper level is empty too. */
  lemma {:induction false} EmptyLevelIsLast(t: Tree, target: CapabilityId, depth: nat, c: CapabilityId, i: nat)
    requires Linked(t) && c in t && i < |Chain(t, c)| && Chain(t, c)[i] == target
    requires Level(t, target, depth) == {}
    ensures i < depth
    decreases i
  {
    assert c in Level(t, target, i);
    if i > depth {
      assert LinkedAt(t, c);
      EmptyLevelIsLast(t, target, depth, t[c].parent.value, i - 1);
    }
  }

  /** When the frontier runs dry, what has been collected is the whole subtree. */
  lemma UpToIsSubtree(t: Tree, target: CapabilityId, depth: nat)
    requires Linked(t) && Level(t, target, depth) == {}
    ensures UpTo(t, target, depth) == Subtree(t, target)
  {
    forall c ensures c in UpTo(t, target, depth) <==> c in Subtree(t, target) {
      InUpTo(t, target, depth, c);
      ChainIsAncestry(t, target, c);
      if c in Subtree(t, target) {
        var i :| 0 <= i < |Chain(t, c)| && Chain(t, c)[i] == target;
        EmptyLevelIsLast(t, target, depth, c, i);
      }
    }
  }

  /**
   * The recursive query behind a revoke: seed with the target, then join children of the last
   * rows until no row is added. It marks exactly the capabilities whose 64-step upward walk
   * finds the target, and the depth bound makes it terminate.
   */
  method SubtreeFixpoint(t: Tree, ghost root: CapabilityId, ghost revision: nat, target: CapabilityId)
    returns (subtree: set<CapabilityId>)
    requires ValidTree(t, root, revision) && target in t
    ensures subtree == Subtree(t, target)
  {
    subtree := {target};
    var frontier := {target};
    ghost var depth := 0;
    assert frontier == Level(t, target, 0);
    while frontier != {}
      invariant frontier == Level(t, target, depth)
      invariant subtree == UpTo(t, target, depth)
      invariant depth <= MAX_CAPABILITY_DEPTH
      decreases MAX_CAPABILITY_DEPTH - depth
    {
      assert depth < MAX_CAPABILITY_DEPTH by {
        var c :| c in Level(t, target, depth);
        assert depth < |Chain(t, c)|;
      }
      NextLevel(t, target, depth);
      frontier := set c | c in t && t[c].parent.Some? && t[c].parent.value in frontier;
      subtree := subtree + frontier;
      depth := depth + 1;
    }
    UpToIsSubtree(t, target, depth);
  }

  // ---- How the two tree mutations act on ancestry --------------------------

  /** Ancestry depends only on parent links and creation order. */
  lemma {:induction false} ChainFrame(t: Tree, u: Tree, c: CapabilityId)
    requires Linked(t) && Linked(u) && c in t
    requires forall k :: k in t ==> k in u && u[k].parent == t[k].parent
    ensures Chain(u, c) == Chain(t, c)
    decreases t[c].created
  {
    assert LinkedAt(t, c);
    if t[c].parent.Some? {
      ChainFrame(t, u, t[c].parent.value);
    }
  }

  ghost function Grown(t: Tree, id: CapabilityId, row: Capability): Tree {
    t[id := row]
  }

  ghost function Marked(t: Tree, target: CapabilityId): Tree {
    map c | c in t :: if c in Subtree(t, target) then t[c].(revoked := true) else t[c]
  }

  lemma GrowKeepsLinks(t: Tree, root: CapabilityId, revision: nat, id: CapabilityId, row: Capability)
    requires ValidTree(t, root, revision) && id !in t
    requires row.parent.Some? && row.parent.value in t && !row.root && row.created == revision + 1
    requires !t[row.parent.value].revoked && Allows(t[row.parent.value].operations, row.operations)
    ensures var u := Grown(t, id, row);
      Linked(u) && forall c :: c in u ==> GoodLink(u, root, revision + 1, c)
  {
    var u := Grown(t, id, row);
    assert GoodLink(t, root, revision, row.parent.value);
    forall c | c in u ensures GoodLink(u, root, revision + 1, c) && LinkedAt(u, c) {
      if c != id { assert GoodLink(t, root, revision, c); }
    }
  }

  lemma GrowChildren(t: Tree, id: CapabilityId, row: Capability, q: CapabilityId)
    requires id !in t && row.parent.Some?
    ensures |Children(Grown(t, id, row), q)| == |Children(t, q)| + if row.parent.value == q then 1 else 0
  {
    if q == row.parent.value {
      assert Children(Grown(t, id, row), q) == Children(t, q) + {id};
    } else {
      assert Children(Grown(t, id, row), q) == Children(t, q);
    }
  }

  lemma GrowKeepsValid(t: Tree, root: CapabilityId, revision: nat, id: CapabilityId, row: Capability)
    requires ValidTree(t, root, revision) && id !in t && |t| < MAX_CAPABILITIES_PER_DOCUMENT
    requires row.parent.Some? && row.parent.value in t && !row.root && row.created == revision + 1
    requires !t[row.parent.value].revoked && Allows(t[row.parent.value].operations, row.operations)
    requires |Chain(t, row.parent.value)| < MAX_CAPABILITY_DEPTH
    requires |Children(t, row.parent.value)| < MAX_DIRECT_CAPABILITY_CHILDREN
    ensures ValidTree(Grown(t, id, row), root, revision + 1)
  {
    var u, p := Grown(t, id, row), row.parent.value;
    GrowKeepsLinks(t, root, revision, id, row);
    forall c | c in u ensures |Chain(u, c)| <= MAX_CAPABILITY_DEPTH {
      if c == id {
        ChainFrame(t, u, p);
        assert Chain(u, c) == [c] + Chain(u, p);
      } else {
        ChainFrame(t, u, c);
      }
    }
    forall q ensures |Children(u, q)| <= MAX_DIRECT_CAPABILITY_CHILDREN {
      GrowChildren(t, id, row, q);
    }
  }

  lemma MarkKeepsLinks(t: Tree, root: CapabilityId, revision: nat, target: CapabilityId)
    requires ValidTree(t, root, revision)
    ensures var u := Marked(t, target);
      Linked(u) && forall c :: c in u ==> GoodLink(u, root, revision + 1, c)
  {
    var u := Marked(t, target);
    forall c | c in u ensures GoodLink(u, root, revision + 1, c) && LinkedAt(u, c) {
      assert GoodLink(t, root, revision, c);
      if t[c].parent.Some? {
        var p := t[c].parent.value;
        ChainIsAncestry(t, target, p);
        ChainIsAncestry(t, target, c);
        assert Chain(t, c) == [c] + Chain(t, p);
      }
    }
  }

  lemma MarkKeepsValid(t: Tree, root: CapabilityId, revision: nat, target: CapabilityId)
    requires ValidTree(t, root, revision)
    ensures ValidTree(Marked(t, target), root, revision + 1)
  {
    hide Marked, Children, GoodLink, Subtree, Ancestor;
    var u := Marked(t, target);
    MarkKeepsLinks(t, root, revision, target);
    MarkFacts(t, root, revision, target);
    forall c | c in u ensures |Chain(u, c)| <= MAX_CAPABILITY_DEPTH {
      ChainFrame(t, u, c);
    }
  }

  lemma MarkFacts(t: Tree, root: CapabilityId, revision: nat, target: CapabilityId)
    requires GoodRoot(t, root)
    ensures
      var u := Marked(t, target);
      && GoodRoot(u, root) && u.Keys == t.Keys && |u| == |t|
      && (forall c :: c in t ==> u[c].parent == t[c].parent && u[c].created == t[c].created)
      && forall q :: Children(u, q) == Children(t, q)
  {
    hide Subtree;
    var u := Marked(t, target);
    assert u.Keys == t.Keys;
    assert |u.Keys| == |t.Keys|;
    forall q ensures Children(u, q) == Children(t, q) {}
  }

  /** Parent links never change, so ancestry established once is ancestry forever. */
  lemma AncestryFrame(t: Tree, u: Tree, a: CapabilityId, c: CapabilityId)
    requires Linked(t) && Linked(u) && c in t
    requires forall k :: k in t ==> k in u && u[k].parent == t[k].parent
    ensures Ancestor(u, a, c) <==> Ancestor(t, a, c)
  {
    ChainFrame(t, u, c);
    ChainIsAncestry(t, a, c);
    ChainIsAncestry(u, a, c);
  }
}
