/** Bounded registries of resumable read passes: what retaining, admitting and advancing preserve. */
module PassRegistry {
  import opened Prelude
  import opened Types

  const MAX_PASSES: nat := 1024
  const MAX_PASSES_PER_CHANNEL: nat := 32
  const MAX_PASSES_PER_DOCUMENT: nat := 32
  const MAX_PASSES_PER_AUTHORITY: nat := 8
  const PASS_IDLE_TTL: nat := 300
  const MINT_ATTEMPTS: nat := 4

  type Token = Secret

  datatype Context = Context(channel: nat, documentId: DocumentId, capability: CapabilityId)

  /** Two clock readings of one call: at its start and after its commit. */
  datatype Clock = Clock(now: nat, later: nat)

  datatype ReadOutcome<+T> =
    | ReadAuthorized(response: T)
    | ReadDenied | ReadRetired | InvalidContinuation | Backpressure
    | StoreCorrupt

  /** What the holder of a cursor has been handed so far, and the log length when its pass began. */
  datatype Handed = Handed(updates: seq<UpdateMetadata>, window: nat)

  // ---- Sequences that change in place -----------------------------------------

  function Retain<P>(s: seq<P>, keep: P -> bool): seq<P> {
    if s == [] then []
    else Retain(s[..|s| - 1], keep) + if keep(s[|s| - 1]) then [s[|s| - 1]] else []
  }

  function Count<P>(s: seq<P>, counted: P -> bool): nat {
    if s == [] then 0 else Count(s[..|s| - 1], counted) + if counted(s[|s| - 1]) then 1 else 0
  }

  /** The first element that satisfies the test. */
  function Position<P>(s: seq<P>, test: P -> bool): (r: Option<nat>)
    ensures r.Some? ==> r.value < |s| && test(s[r.value]) && forall i :: 0 <= i < r.value ==> !test(s[i])
    ensures r.None? ==> forall i :: 0 <= i < |s| ==> !test(s[i])
  {
    if s == [] then None
    else
      match Position(s[..|s| - 1], test)
      case Some(i) => Some(i)
      case None => if test(s[|s| - 1]) then Some(|s| - 1) else None
  }

  /** Removal that fills the hole with the last element. */
  function SwapRemove<P>(s: seq<P>, i: nat): seq<P>
    requires i < |s|
  {
    if i == |s| - 1 then s[..i] else s[i := s[|s| - 1]][..|s| - 1]
  }

  lemma SwapRemoveMembers<P>(s: seq<P>, i: nat)
    requires i < |s|
    ensures forall p :: p in SwapRemove(s, i) ==> p in s
  {
    forall p | p in SwapRemove(s, i) ensures p in s {
      var k :| 0 <= k < |s| - 1 && SwapRemove(s, i)[k] == p;
      assert p == if k == i then s[|s| - 1] else s[k];
    }
  }

  method RetainPasses<P>(s: seq<P>, keep: P -> bool) returns (r: seq<P>)
    ensures r == Retain(s, keep)
  {
    r := [];
    for i := 0 to |s|
      invariant r == Retain(s[..i], keep)
    {
      assert s[..i + 1][..i] == s[..i];
      if keep(s[i]) { r := r + [s[i]]; }
    }
    assert s[..|s|] == s;
  }

  method CountPasses<P>(s: seq<P>, counted: P -> bool) returns (n: nat)
    ensures n == Count(s, counted)
  {
    n := 0;
    for i := 0 to |s|
      invariant n == Count(s[..i], counted)
    {
      assert s[..i + 1][..i] == s[..i];
      if counted(s[i]) { n := n + 1; }
    }
    assert s[..|s|] == s;
  }

  lemma {:induction false} RetainMembers<P>(s: seq<P>, keep: P -> bool)
    ensures forall p :: p in Retain(s, keep) <==> p in s && keep(p)
    ensures forall i :: 0 <= i < |Retain(s, keep)| ==> Retain(s, keep)[i] in s
    ensures |Retain(s, keep)| <= |s|
  {
    if s != [] {
      RetainMembers(s[..|s| - 1], keep);
      assert s == s[..|s| - 1] + [s[|s| - 1]];
    }
  }

  lemma {:induction false} RetainCount<P>(s: seq<P>, keep: P -> bool, counted: P -> bool)
    ensures Count(Retain(s, keep), counted) <= Count(s, counted)
  {
    if s != [] {
      RetainCount(s[..|s| - 1], keep, counted);
      var kept := Retain(s[..|s| - 1], keep);
      assert (kept + [s[|s| - 1]])[..|kept|] == kept && kept + [] == kept;
    }
  }

  lemma {:induction false} ReplaceCount<P>(s: seq<P>, i: nat, p: P, counted: P -> bool)
    requires i < |s| && counted(p) == counted(s[i])
    ensures Count(s[i := p], counted) == Count(s, counted)
  {
    var t := s[i := p];
    if i < |s| - 1 {
      assert t[..|s| - 1] == s[..|s| - 1][i := p];
      ReplaceCount(s[..|s| - 1], i, p, counted);
    } else {
      assert t[..|s| - 1] == s[..|s| - 1];
    }
  }

  // ---- A relation that holds between every two passes ------------------------

  ghost predicate Pairwise<P>(s: seq<P>, apart: (P, P) -> bool) {
    forall i, j :: 0 <= i < j < |s| ==> apart(s[i], s[j])
  }

  lemma {:induction false} RetainPairwise<P>(s: seq<P>, keep: P -> bool, apart: (P, P) -> bool)
    requires Pairwise(s, apart)
    ensures Pairwise(Retain(s, keep), apart)
  {
    if s != [] {
      var front, last := s[..|s| - 1], s[|s| - 1];
      RetainPairwise(front, keep, apart);
      RetainMembers(front, keep);
      var kept := Retain(front, keep);
      forall i | 0 <= i < |kept| ensures apart(kept[i], last) {
        assert kept[i] in front;
        var k :| 0 <= k < |front| && front[k] == kept[i];
        assert apart(s[k], s[|s| - 1]);
      }
    }
  }

  // ---- The registry invariant --------------------------------------------------

  function OnChannel<P>(context: P -> Context, channel: nat): P -> bool {
    p => context(p).channel == channel
  }

  function OnDocument<P>(context: P -> Context, documentId: DocumentId): P -> bool {
    p => context(p).documentId == documentId
  }

  function UnderAuthority<P>(context: P -> Context, documentId: DocumentId, capability: CapabilityId): P -> bool {
    p => context(p).documentId == documentId && context(p).capability == capability
  }

  predicate CanAdmit<P>(s: seq<P>, context: P -> Context, c: Context) {
    && |s| < MAX_PASSES
    && Count(s, OnChannel(context, c.channel)) < MAX_PASSES_PER_CHANNEL
    && Count(s, OnDocument(context, c.documentId)) < MAX_PASSES_PER_DOCUMENT
    && Count(s, UnderAuthority(context, c.documentId, c.capability)) < MAX_PASSES_PER_AUTHORITY
  }

  ghost predicate Quotas<P>(s: seq<P>, context: P -> Context) {
    && |s| <= MAX_PASSES
    && (forall c :: Count(s, OnChannel(context, c)) <= MAX_PASSES_PER_CHANNEL)
    && (forall d :: Count(s, OnDocument(context, d)) <= MAX_PASSES_PER_DOCUMENT)
    && (forall d, c :: Count(s, UnderAuthority(context, d, c)) <= MAX_PASSES_PER_AUTHORITY)
  }

  function DisjointTokens<P>(tokens: P -> set<Token>): (P, P) -> bool {
    (p, q) => tokens(p) !! tokens(q)
  }

  function OtherKey<P, K(==)>(key: P -> K): (P, P) -> bool {
    (p, q) => key(p) != key(q)
  }

  /** Live tokens are distinct, each key has at most one pass, and the four quotas hold. */
  ghost predicate Orderly<P, K>(s: seq<P>, context: P -> Context, key: P -> K, tokens: P -> set<Token>) {
    Pairwise(s, DisjointTokens(tokens)) && Pairwise(s, OtherKey(key)) && Quotas(s, context)
  }

  function AllTokens<P>(s: seq<P>, tokens: P -> set<Token>): (all: set<Token>)
    ensures forall p :: p in s ==> tokens(p) <= all
    ensures forall t :: t in all ==> exists p :: p in s && t in tokens(p)
  {
    if s == [] then {}
    else
      var front, last := s[..|s| - 1], s[|s| - 1];
      assert s == front + [last];
      AllTokens(front, tokens) + tokens(last)
  }

  lemma RetainOrderly<P, K>(s: seq<P>, keep: P -> bool, context: P -> Context, key: P -> K, tokens: P -> set<Token>)
    requires Orderly(s, context, key, tokens)
    ensures Orderly(Retain(s, keep), context, key, tokens)
  {
    RetainPairwise(s, keep, DisjointTokens(tokens));
    RetainPairwise(s, keep, OtherKey(key));
    RetainMembers(s, keep);
    hide Pairwise;
    forall c ensures Count(Retain(s, keep), OnChannel(context, c)) <= MAX_PASSES_PER_CHANNEL {
      RetainCount(s, keep, OnChannel(context, c));
    }
    forall d ensures Count(Retain(s, keep), OnDocument(context, d)) <= MAX_PASSES_PER_DOCUMENT {
      RetainCount(s, keep, OnDocument(context, d));
    }
    forall d, c ensures Count(Retain(s, keep), UnderAuthority(context, d, c)) <= MAX_PASSES_PER_AUTHORITY {
      RetainCount(s, keep, UnderAuthority(context, d, c));
    }
  }

  /** A pass admitted under the quotas, with a fresh token and a key of its own. */
  lemma AdmitOrderly<P, K>(s: seq<P>, p: P, context: P -> Context, key: P -> K, tokens: P -> set<Token>)
    requires Orderly(s, context, key, tokens) && CanAdmit(s, context, context(p))
    requires tokens(p) !! AllTokens(s, tokens)
    requires forall q :: q in s ==> key(q) != key(p)
    ensures Orderly(s + [p], context, key, tokens)
  {
    assert (s + [p])[..|s|] == s;
    forall i | 0 <= i < |s| ensures tokens(s[i]) !! tokens(p) && key(s[i]) != key(p) {
      assert s[i] in s;
    }
  }

  /** A pass that keeps its context and key and takes only fresh tokens beside its own. */
  lemma AdvanceOrderly<P, K>(s: seq<P>, i: nat, p: P, context: P -> Context, key: P -> K, tokens: P -> set<Token>)
    requires Orderly(s, context, key, tokens) && i < |s|
    requires context(p) == context(s[i]) && key(p) == key(s[i])
    requires (tokens(p) - tokens(s[i])) !! AllTokens(s, tokens)
    ensures Orderly(s[i := p], context, key, tokens)
  {
    var t := s[i := p];
    forall j, k | 0 <= j < k < |t| ensures tokens(t[j]) !! tokens(t[k]) && key(t[j]) != key(t[k]) {
      assert s[j] in s && s[k] in s;
      assert DisjointTokens(tokens)(s[j], s[k]) && OtherKey(key)(s[j], s[k]);
    }
    forall c ensures Count(t, OnChannel(context, c)) <= MAX_PASSES_PER_CHANNEL {
      ReplaceCount(s, i, p, OnChannel(context, c));
    }
    forall d ensures Count(t, OnDocument(context, d)) <= MAX_PASSES_PER_DOCUMENT {
      ReplaceCount(s, i, p, OnDocument(context, d));
    }
    forall d, c ensures Count(t, UnderAuthority(context, d, c)) <= MAX_PASSES_PER_AUTHORITY {
      ReplaceCount(s, i, p, UnderAuthority(context, d, c));
    }
  }

  // ---- Fresh tokens ---------------------------------------------------------------

  /** The first of the drawn candidates, from `attempt` on, that no live pass uses. */
  function Mint(draw: nat -> Token, taken: set<Token>, attempt: nat): (r: Option<Token>)
    ensures r.Some? ==> r.value !in taken
    ensures r.None? ==> forall i :: attempt <= i < MINT_ATTEMPTS ==> draw(i) in taken
    decreases MINT_ATTEMPTS - attempt
  {
    if attempt >= MINT_ATTEMPTS then None
    else if draw(attempt) !in taken then Some(draw(attempt))
    else Mint(draw, taken, attempt + 1)
  }

  method MintToken(draw: nat -> Token, taken: set<Token>) returns (r: Option<Token>)
    ensures r == Mint(draw, taken, 0)
  {
    for attempt := 0 to MINT_ATTEMPTS
      invariant Mint(draw, taken, 0) == Mint(draw, taken, attempt)
    {
      if draw(attempt) !in taken { return Some(draw(attempt)); }
    }
    return None;
  }
}
