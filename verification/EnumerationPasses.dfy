/** Enumeration passes: cursors that walk frozen windows of a growing log. */
module EnumerationPasses {
  import opened Prelude
  import opened Types
  import opened UpdateRecord
  import opened Tables
  import opened Reads
  import opened PassRegistry

  datatype Mode = Continue | AfterTail

  datatype EnumerationPosition = EnumerationPosition(mode: Mode, nextOrdinal: nat, token: Token)

  datatype EnumerationResponse = EnumerationResponse(page: StoredPage, nextCursor: Option<seq<byte>>)

  datatype EnumerationRetry = EnumerationRetry(mode: Mode, response: EnumerationResponse, token: Token)

  datatype EnumerationPass = EnumerationPass(
    context: Context,
    current: EnumerationPosition,
    expires: nat,
    generation: Identifier,
    lower: nat,
    retry: Option<EnumerationRetry>,
    terminal: nat)

  datatype EnumerationStart = Origin | Resume(mode: Mode, encoded: seq<byte>)

  /** One authorized call: its context, where it starts, two clock readings and the tokens it draws. */
  datatype EnumerationCall = EnumerationCall(
    context: Context, start: EnumerationStart, clock: Clock, draw: nat -> Token, budget: nat)

  datatype EnumerationAnswer = EnumerationAnswer(
    passes: seq<EnumerationPass>, outcome: ReadOutcome<EnumerationResponse>)

  const EMPTY_RESPONSE: EnumerationResponse := EnumerationResponse(StoredPage(false, 0, []), None)

  function ContextOf(p: EnumerationPass): Context {
    p.context
  }

  function TokensOf(p: EnumerationPass): set<Token> {
    {p.current.token} + if p.retry.Some? then {p.retry.value.token} else {}
  }

  function Unexpired(now: nat): EnumerationPass -> bool {
    (p: EnumerationPass) => p.expires > now
  }

  function OutsideContext(c: Context): EnumerationPass -> bool {
    (p: EnumerationPass) => p.context != c
  }

  /** The pass a presented cursor belongs to, as its current or as its last consumed token. */
  function HoldsToken(token: seq<byte>, mode: Mode): EnumerationPass -> bool {
    (p: EnumerationPass) => (p.current.token == token && p.current.mode == mode)
      || (p.retry.Some? && p.retry.value.token == token && p.retry.value.mode == mode)
  }

  function ModeAfter(page: StoredPage): Mode {
    if page.hasMore then Continue else AfterTail
  }

  // ---- One call -----------------------------------------------------------------

  /** A fresh pass replaces the caller's previous one and freezes the whole log as its window. */
  function Open(live: seq<EnumerationPass>, generation: Identifier, metas: seq<UpdateMetadata>, call: EnumerationCall)
    : EnumerationAnswer
  {
    var kept := Retain(live, OutsideContext(call.context));
    if metas == [] then EnumerationAnswer(kept, ReadAuthorized(EMPTY_RESPONSE))
    else
      var page := EnumeratePage(metas, 0, |metas|, 0, call.budget);
      if page.updates == [] then EnumerationAnswer(kept, StoreCorrupt)
      else if !CanAdmit(kept, ContextOf, call.context) then EnumerationAnswer(kept, Backpressure)
      else
        match Mint(call.draw, AllTokens(kept, TokensOf), 0)
        case None => EnumerationAnswer(kept, Backpressure)
        case Some(token) =>
          var pass := EnumerationPass(call.context, EnumerationPosition(ModeAfter(page), page.nextOrdinal, token),
            call.clock.now + PASS_IDLE_TTL, generation, 0, None, |metas|);
          EnumerationAnswer(kept + [pass], ReadAuthorized(EnumerationResponse(page, Some(token))))
  }

  predicate WithinLog(p: EnumerationPass, metas: seq<UpdateMetadata>) {
    p.terminal <= |metas|
  }

  function Advanced(p: EnumerationPass, lower: nat, terminal: nat, page: StoredPage, token: Token,
                    call: EnumerationCall): EnumerationPass
    requires call.start.Resume? && |call.start.encoded| == CONTINUATION_LENGTH
  {
    p.(current := EnumerationPosition(ModeAfter(page), page.nextOrdinal, token),
       expires := call.clock.later + PASS_IDLE_TTL,
       lower := lower,
       retry := Some(EnumerationRetry(call.start.mode, EnumerationResponse(page, Some(token)), call.start.encoded)),
       terminal := terminal)
  }

  /** The next page of a window, chained to a fresh token; the consumed token stays good for a retry. */
  function Advance(live: seq<EnumerationPass>, i: nat, lower: nat, terminal: nat, ordinal: nat,
                   metas: seq<UpdateMetadata>, call: EnumerationCall): EnumerationAnswer
    requires i < |live| && call.start.Resume? && |call.start.encoded| == CONTINUATION_LENGTH && terminal <= |metas|
  {
    if lower + ordinal >= terminal then EnumerationAnswer(SwapRemove(live, i), InvalidContinuation)
    else
      var page := EnumeratePage(metas, lower, terminal, ordinal, call.budget);
      if page.updates == [] then EnumerationAnswer(live, StoreCorrupt)
      else
        match Mint(call.draw, AllTokens(live, TokensOf), 0)
        case None => EnumerationAnswer(live, Backpressure)
        case Some(token) =>
          var response := EnumerationResponse(page, Some(token));
          EnumerationAnswer(live[i := Advanced(live[i], lower, terminal, page, token, call)], ReadAuthorized(response))
  }

  predicate Presents(p: EnumerationPass, generation: Identifier, call: EnumerationCall) {
    p.context == call.context && p.generation == generation && p.expires > call.clock.now
  }

  predicate Replays(p: EnumerationPass, start: EnumerationStart) {
    start.Resume? && p.retry.Some? && p.retry.value.token == start.encoded && p.retry.value.mode == start.mode
  }

  function Follow(live: seq<EnumerationPass>, generation: Identifier, metas: seq<UpdateMetadata>, call: EnumerationCall)
    : EnumerationAnswer
    requires call.start.Resume?
    requires forall p :: p in live && p.context.documentId == call.context.documentId ==> WithinLog(p, metas)
  {
    if |call.start.encoded| != CONTINUATION_LENGTH then EnumerationAnswer(live, InvalidContinuation)
    else
      match Position(live, HoldsToken(call.start.encoded, call.start.mode))
      case None => EnumerationAnswer(live, InvalidContinuation)
      case Some(i) =>
        var p := live[i];
        if !Presents(p, generation, call) then EnumerationAnswer(live, InvalidContinuation)
        else if Replays(p, call.start) then EnumerationAnswer(live, ReadAuthorized(p.retry.value.response))
        else if p.current.token != call.start.encoded || p.current.mode != call.start.mode
          then EnumerationAnswer(live, InvalidContinuation)
        else
          assert WithinLog(p, metas);
          match call.start.mode
          case Continue => Advance(live, i, p.lower, p.terminal, p.current.nextOrdinal, metas, call)
          case AfterTail =>
            if metas == [] || |metas| < p.terminal then EnumerationAnswer(live, InvalidContinuation)
            else if |metas| == p.terminal then EnumerationAnswer(live, ReadAuthorized(EMPTY_RESPONSE))
            else Advance(live, i, p.terminal, |metas|, 0, metas, call)
  }

  /** An authorized enumeration against the log `metas`, as one step over the registry. */
  function Enumerate(passes: seq<EnumerationPass>, generation: Identifier, metas: seq<UpdateMetadata>,
                     call: EnumerationCall): EnumerationAnswer
    requires forall p :: p in passes && p.context.documentId == call.context.documentId ==> WithinLog(p, metas)
  {
    RetainMembers(passes, Unexpired(call.clock.now));
    var live := Retain(passes, Unexpired(call.clock.now));
    match call.start
    case Origin => Open(live, generation, metas, call)
    case Resume(_, _) => Follow(live, generation, metas, call)
  }

  // ---- The same call over the tables ---------------------------------------------------

  method FindPass(live: seq<EnumerationPass>, token: seq<byte>, mode: Mode) returns (r: Option<nat>)
    ensures r == Position(live, HoldsToken(token, mode))
  {
    for i := 0 to |live|
      invariant forall k :: 0 <= k < i ==> !HoldsToken(token, mode)(live[k])
    {
      if HoldsToken(token, mode)(live[i]) { return Some(i); }
    }
    return None;
  }

  method Admissible(passes: seq<EnumerationPass>, c: Context) returns (r: bool)
    ensures r == CanAdmit(passes, ContextOf, c)
  {
    var channelCount := CountPasses(passes, OnChannel(ContextOf, c.channel));
    var documentCount := CountPasses(passes, OnDocument(ContextOf, c.documentId));
    var authorityCount := CountPasses(passes, UnderAuthority(ContextOf, c.documentId, c.capability));
    return |passes| < MAX_PASSES && channelCount < MAX_PASSES_PER_CHANNEL
      && documentCount < MAX_PASSES_PER_DOCUMENT && authorityCount < MAX_PASSES_PER_AUTHORITY;
  }

  method OpenPass(live: seq<EnumerationPass>, generation: Identifier, id: DocumentId, d: Document, call: EnumerationCall)
    returns (answer: EnumerationAnswer)
    requires ValidLog(id, d) && id == call.context.documentId
    ensures Decodable(d.log) && answer == Open(live, generation, Metas(d.log), call)
  {
    hide ValidLog, EnumeratePage, Metas, Decodable, CanAdmit, Mint, AllTokens, Retain;
    ValidLogDecodable(id, d);
    var kept := RetainPasses(live, OutsideContext(call.context));
    HighWaterIsLength(id, d);
    var terminal := HighWater(d.log);
    if terminal.None? { return EnumerationAnswer(kept, ReadAuthorized(EMPTY_RESPONSE)); }
    var scan := EnumerateIn(id, d, 0, terminal.value, 0, call.budget);
    if !scan.Scanned? || scan.page.updates == [] { return EnumerationAnswer(kept, StoreCorrupt); }
    var admissible := Admissible(kept, call.context);
    if !admissible { return EnumerationAnswer(kept, Backpressure); }
    var minted := MintToken(call.draw, AllTokens(kept, TokensOf));
    if minted.None? { return EnumerationAnswer(kept, Backpressure); }
    var pass := EnumerationPass(
      call.context, EnumerationPosition(ModeAfter(scan.page), scan.page.nextOrdinal, minted.value),
      call.clock.now + PASS_IDLE_TTL, generation, 0, None, terminal.value);
    return EnumerationAnswer(kept + [pass], ReadAuthorized(EnumerationResponse(scan.page, Some(minted.value))));
  }

  method AdvancePass(live: seq<EnumerationPass>, i: nat, lower: nat, terminal: nat, ordinal: nat,
                     id: DocumentId, d: Document, call: EnumerationCall) returns (answer: EnumerationAnswer)
    requires ValidLog(id, d) && i < |live| && terminal <= |d.log|
    requires call.start.Resume? && |call.start.encoded| == CONTINUATION_LENGTH
    ensures Decodable(d.log) && answer == Advance(live, i, lower, terminal, ordinal, Metas(d.log), call)
  {
    hide ValidLog, EnumeratePage, Metas, Decodable, Mint, AllTokens;
    var scan := EnumerateIn(id, d, lower, terminal, ordinal, call.budget);
    if scan.InvalidPosition? { return EnumerationAnswer(SwapRemove(live, i), InvalidContinuation); }
    if scan.Corrupt? { return EnumerationAnswer(live, StoreCorrupt); }
    if scan.page.updates == [] { return EnumerationAnswer(live, StoreCorrupt); }
    var minted := MintToken(call.draw, AllTokens(live, TokensOf));
    if minted.None? { return EnumerationAnswer(live, Backpressure); }
    return EnumerationAnswer(
      live[i := Advanced(live[i], lower, terminal, scan.page, minted.value, call)],
      ReadAuthorized(EnumerationResponse(scan.page, Some(minted.value))));
  }

  method FollowPass(live: seq<EnumerationPass>, generation: Identifier, id: DocumentId, d: Document,
                    call: EnumerationCall) returns (answer: EnumerationAnswer)
    requires ValidLog(id, d) && id == call.context.documentId && call.start.Resume?
    requires Decodable(d.log)
    requires forall p :: p in live && p.context.documentId == id ==> WithinLog(p, Metas(d.log))
    ensures answer == Follow(live, generation, Metas(d.log), call)
  {
    hide ValidLog, Metas, Decodable, Advance;
    if |call.start.encoded| != CONTINUATION_LENGTH { return EnumerationAnswer(live, InvalidContinuation); }
    var found := FindPass(live, call.start.encoded, call.start.mode);
    if found.None? { return EnumerationAnswer(live, InvalidContinuation); }
    var p := live[found.value];
    if !Presents(p, generation, call) { return EnumerationAnswer(live, InvalidContinuation); }
    if Replays(p, call.start) { return EnumerationAnswer(live, ReadAuthorized(p.retry.value.response)); }
    if p.current.token != call.start.encoded || p.current.mode != call.start.mode {
      return EnumerationAnswer(live, InvalidContinuation);
    }
    HighWaterIsLength(id, d);
    assert WithinLog(p, Metas(d.log));
    if call.start.mode == Continue {
      answer := AdvancePass(live, found.value, p.lower, p.terminal, p.current.nextOrdinal, id, d, call);
      return;
    }
    var terminal := HighWater(d.log);
    if terminal.None? || terminal.value < p.terminal { return EnumerationAnswer(live, InvalidContinuation); }
    if terminal.value == p.terminal { return EnumerationAnswer(live, ReadAuthorized(EMPTY_RESPONSE)); }
    answer := AdvancePass(live, found.value, p.terminal, terminal.value, 0, id, d, call);
  }

  /** One authorized enumeration: expired passes go first, then the call opens or follows a pass. */
  method EnumeratePasses(passes: seq<EnumerationPass>, generation: Identifier, id: DocumentId, d: Document,
                         call: EnumerationCall) returns (answer: EnumerationAnswer)
    requires ValidLog(id, d) && id == call.context.documentId && Decodable(d.log)
    requires forall p :: p in passes && p.context.documentId == id ==> WithinLog(p, Metas(d.log))
    ensures answer == Enumerate(passes, generation, Metas(d.log), call)
  {
    hide ValidLog, Metas, Decodable, Open, Follow, WithinLog;
    var live := RetainPasses(passes, Unexpired(call.clock.now));
    RetainMembers(passes, Unexpired(call.clock.now));
    if call.start == Origin {
      answer := OpenPass(live, generation, id, d, call);
    } else {
      answer := FollowPass(live, generation, id, d, call);
    }
  }

  // ---- What every cursor stands for -----------------------------------------------

  type Ledger = map<seq<byte>, seq<UpdateMetadata>>

  /** What a caller has been handed before the call: nothing at an origin, else its cursor's history. */
  function HandedBefore(handed: Ledger, start: EnumerationStart): seq<UpdateMetadata> {
    if start.Resume? && start.encoded in handed then handed[start.encoded] else []
  }

  /** Whoever receives a page with a cursor holds, under that cursor, all pages up to this one. */
  function HandedAfter(handed: Ledger, start: EnumerationStart, outcome: ReadOutcome<EnumerationResponse>): Ledger {
    if outcome.ReadAuthorized? && outcome.response.nextCursor.Some?
      then handed[outcome.response.nextCursor.value := HandedBefore(handed, start) + outcome.response.page.updates]
    else handed
  }

  predicate GoodRetry(p: EnumerationPass, metas: seq<UpdateMetadata>, handed: Ledger)
    requires p.retry.Some? && p.lower + p.current.nextOrdinal <= |metas|
  {
    var retry := p.retry.value;
    && retry.token != p.current.token
    && retry.token in handed
    && retry.response.nextCursor == Some(p.current.token)
    && retry.response.page.updates != []
    && retry.response.page.nextOrdinal == p.current.nextOrdinal
    && retry.response.page.hasMore == (p.current.mode == Continue)
    && handed[retry.token] + retry.response.page.updates == metas[..p.lower + p.current.nextOrdinal]
  }

  /** The holder of the current cursor has exactly the log up to the pass's position inside its window. */
  predicate GoodPass(p: EnumerationPass, metas: seq<UpdateMetadata>, handed: Ledger) {
    && p.lower < p.terminal <= |metas|
    && 0 < p.current.nextOrdinal <= p.terminal - p.lower
    && (p.current.mode == AfterTail <==> p.current.nextOrdinal == p.terminal - p.lower)
    && p.current.token in handed
    && handed[p.current.token] == metas[..p.lower + p.current.nextOrdinal]
    && (p.retry.Some? ==> GoodRetry(p, metas, handed))
  }

  ghost predicate Tracked(passes: seq<EnumerationPass>, logs: DocumentId -> seq<UpdateMetadata>, handed: Ledger) {
    && Orderly(passes, ContextOf, ContextOf, TokensOf)
    && forall p {:trigger p in passes} :: p in passes ==> GoodPass(p, logs(p.context.documentId), handed)
  }

  /** A page that continues its caller's history to a position strictly further into the window. */
  predicate Hands(handed: Ledger, start: EnumerationStart, response: EnumerationResponse,
                  metas: seq<UpdateMetadata>, lower: nat, terminal: nat, ordinal: nat)
    requires terminal <= |metas|
  {
    var page := response.page;
    && response.nextCursor.Some?
    && page.updates != []
    && ordinal < page.nextOrdinal <= terminal - lower
    && (page.hasMore <==> page.nextOrdinal < terminal - lower)
    && HandedBefore(handed, start) + page.updates == metas[..lower + page.nextOrdinal]
  }

  lemma TrackedWithin(passes: seq<EnumerationPass>, logs: DocumentId -> seq<UpdateMetadata>, handed: Ledger, id: DocumentId)
    requires Tracked(passes, logs, handed)
    ensures forall p :: p in passes && p.context.documentId == id ==> WithinLog(p, logs(id))
  {
  }

  /** Dropping passes keeps the rest tracked. */
  lemma RetainTracked(passes: seq<EnumerationPass>, keep: EnumerationPass -> bool,
                      logs: DocumentId -> seq<UpdateMetadata>, handed: Ledger)
    requires Tracked(passes, logs, handed)
    ensures Tracked(Retain(passes, keep), logs, handed)
  {
    hide Orderly, GoodPass;
    RetainOrderly(passes, keep, ContextOf, ContextOf, TokensOf);
    RetainMembers(passes, keep);
  }

  /** Logs only grow, so what a cursor stands for does not change under accepts. */
  lemma GrowTracked(passes: seq<EnumerationPass>, logs: DocumentId -> seq<UpdateMetadata>,
                    grown: DocumentId -> seq<UpdateMetadata>, handed: Ledger)
    requires Tracked(passes, logs, handed)
    requires forall p :: p in passes ==> logs(p.context.documentId) <= grown(p.context.documentId)
    ensures Tracked(passes, grown, handed)
  {
    hide Orderly;
    forall p | p in passes ensures GoodPass(p, grown(p.context.documentId), handed) {
      var metas, after := logs(p.context.documentId), grown(p.context.documentId);
      assert GoodPass(p, metas, handed);
      var n := p.lower + p.current.nextOrdinal;
      assert metas[..n] == after[..n];
    }
  }

  lemma GoodPassFrame(p: EnumerationPass, metas: seq<UpdateMetadata>, handed: Ledger, token: Token,
                      updates: seq<UpdateMetadata>)
    requires GoodPass(p, metas, handed) && token !in TokensOf(p)
    ensures GoodPass(p, metas, handed[token := updates])
  {
  }

  /** A page is the slice of the log between its own two positions. */
  lemma PageSlice(metas: seq<UpdateMetadata>, lower: nat, terminal: nat, ordinal: nat, budget: nat)
    requires lower + ordinal < terminal <= |metas|
    ensures
      var page := EnumeratePage(metas, lower, terminal, ordinal, budget);
      && ordinal <= page.nextOrdinal <= terminal - lower
      && (page.hasMore <==> page.nextOrdinal < terminal - lower)
      && page.updates == metas[lower + ordinal..lower + page.nextOrdinal]
      && metas[..lower + ordinal] + page.updates == metas[..lower + page.nextOrdinal]
      && (page.updates != [] ==> ordinal < page.nextOrdinal)
  {
    hide PageEnd;
  }

  /** What an advance leaves of the pass it advances. */
  lemma AdvancedPassGood(p: EnumerationPass, token: Token, lower: nat, terminal: nat, ordinal: nat,
                         metas: seq<UpdateMetadata>, handed: Ledger, call: EnumerationCall)
    requires p.current.token in handed && token !in TokensOf(p)
    requires lower + ordinal < terminal <= |metas| && handed[p.current.token] == metas[..lower + ordinal]
    requires call.start.Resume? && call.start.encoded == p.current.token
    requires EnumeratePage(metas, lower, terminal, ordinal, call.budget).updates != []
    ensures
      var page := EnumeratePage(metas, lower, terminal, ordinal, call.budget);
      var q := Advanced(p, lower, terminal, page, token, call);
      && GoodPass(q, metas, handed[token := metas[..lower + page.nextOrdinal]])
      && q.context == p.context
      && TokensOf(q) - TokensOf(p) == {token}
  {
    hide EnumeratePage;
    PageSlice(metas, lower, terminal, ordinal, call.budget);
  }

  /** Replacing one pass by its advance keeps every other cursor's meaning. */
  lemma ReplaceTracked(live: seq<EnumerationPass>, i: nat, q: EnumerationPass, token: Token,
                       updates: seq<UpdateMetadata>, logs: DocumentId -> seq<UpdateMetadata>, handed: Ledger)
    requires Tracked(live, logs, handed) && i < |live| && q.context == live[i].context
    requires token !in AllTokens(live, TokensOf) && TokensOf(q) - TokensOf(live[i]) == {token}
    requires GoodPass(q, logs(q.context.documentId), handed[token := updates])
    ensures Tracked(live[i := q], logs, handed[token := updates])
  {
    hide Orderly, GoodPass, TokensOf;
    AdvanceOrderly(live, i, q, ContextOf, ContextOf, TokensOf);
    forall r | r in live[i := q] ensures GoodPass(r, logs(r.context.documentId), handed[token := updates]) {
      if r != q {
        assert r in live;
        GoodPassFrame(r, logs(r.context.documentId), handed, token, updates);
      }
    }
  }

  /** What an advance from a tracked state leaves behind, and what it answers. */
  lemma AdvanceTracked(live: seq<EnumerationPass>, i: nat, lower: nat, terminal: nat, ordinal: nat,
                       logs: DocumentId -> seq<UpdateMetadata>, handed: Ledger, call: EnumerationCall)
    requires Tracked(live, logs, handed) && i < |live|
    requires call.start.Resume? && call.start.encoded == live[i].current.token && live[i].current.token in handed
    requires live[i].context == call.context
    requires
      var metas := logs(call.context.documentId);
      lower + ordinal < terminal <= |metas| && handed[live[i].current.token] == metas[..lower + ordinal]
    ensures
      var answer := Advance(live, i, lower, terminal, ordinal, logs(call.context.documentId), call);
      && Tracked(answer.passes, logs, HandedAfter(handed, call.start, answer.outcome))
      && (answer.outcome.ReadAuthorized? ==>
           Hands(handed, call.start, answer.outcome.response, logs(call.context.documentId), lower, terminal, ordinal))
      && (answer.outcome.InvalidContinuation? ==> false)
  {
    hide Tracked, GoodPass, EnumeratePage, TokensOf, Advanced, AllTokens, Mint;
    var metas := logs(call.context.documentId);
    PageSlice(metas, lower, terminal, ordinal, call.budget);
    var page := EnumeratePage(metas, lower, terminal, ordinal, call.budget);
    var answer := Advance(live, i, lower, terminal, ordinal, metas, call);
    if answer.outcome.ReadAuthorized? {
      var token := answer.outcome.response.nextCursor.value;
      assert live[i] in live;
      AdvancedPassGood(live[i], token, lower, terminal, ordinal, metas, handed, call);
      ReplaceTracked(live, i, Advanced(live[i], lower, terminal, page, token, call), token,
                     metas[..lower + page.nextOrdinal], logs, handed);
    }
  }

  /** What an authorized answer adds to its caller's history: always a prefix of the log, all of it at the tail. */
  predicate Exact(before: seq<UpdateMetadata>, response: EnumerationResponse, metas: seq<UpdateMetadata>) {
    && before + response.page.updates <= metas
    && (response.nextCursor.None? <==> response.page.updates == [])
    && (response.nextCursor.None? ==> before == metas)
  }

  lemma FittingPageAdvances(metas: seq<UpdateMetadata>, lower: nat, terminal: nat, ordinal: nat, budget: nat)
    requires lower + ordinal < terminal <= |metas| && Fits(metas, budget)
    ensures EnumeratePage(metas, lower, terminal, ordinal, budget).updates != []
  {
    hide MetadataLength;
  }

  lemma OpenTracked(live: seq<EnumerationPass>, generation: Identifier, logs: DocumentId -> seq<UpdateMetadata>,
                    handed: Ledger, call: EnumerationCall)
    requires Tracked(live, logs, handed) && call.start == Origin
    ensures
      var metas := logs(call.context.documentId);
      var answer := Open(live, generation, metas, call);
      && Tracked(answer.passes, logs, HandedAfter(handed, call.start, answer.outcome))
      && (answer.outcome.ReadAuthorized? ==> Exact([], answer.outcome.response, metas))
      && (Fits(metas, call.budget) ==> !answer.outcome.StoreCorrupt?)
      && !answer.outcome.InvalidContinuation?
  {
    hide Orderly, EnumeratePage, Fits, AllTokens, Mint, CanAdmit;
    var metas := logs(call.context.documentId);
    var kept := Retain(live, OutsideContext(call.context));
    RetainTracked(live, OutsideContext(call.context), logs, handed);
    RetainMembers(live, OutsideContext(call.context));
    if metas != [] {
      PageSlice(metas, 0, |metas|, 0, call.budget);
      if Fits(metas, call.budget) { FittingPageAdvances(metas, 0, |metas|, 0, call.budget); }
      var answer := Open(live, generation, metas, call);
      if answer.outcome.ReadAuthorized? {
        var token := answer.outcome.response.nextCursor.value;
        var updates := answer.outcome.response.page.updates;
        var pass := answer.passes[|kept|];
        assert metas[..0] == [] && [] + updates == updates;
        AdmitTracked(kept, pass, token, updates, logs, handed);
      }
    }
  }

  lemma AdmitTracked(kept: seq<EnumerationPass>, pass: EnumerationPass, token: Token, updates: seq<UpdateMetadata>,
                     logs: DocumentId -> seq<UpdateMetadata>, handed: Ledger)
    requires Tracked(kept, logs, handed) && CanAdmit(kept, ContextOf, pass.context)
    requires TokensOf(pass) == {token} && token !in AllTokens(kept, TokensOf)
    requires forall q :: q in kept ==> q.context != pass.context
    requires GoodPass(pass, logs(pass.context.documentId), handed[token := updates])
    ensures Tracked(kept + [pass], logs, handed[token := updates])
  {
    hide Orderly, GoodPass, TokensOf, CanAdmit;
    AdmitOrderly(kept, pass, ContextOf, ContextOf, TokensOf);
    forall r | r in kept + [pass] ensures GoodPass(r, logs(r.context.documentId), handed[token := updates]) {
      if r != pass {
        assert r in kept;
        GoodPassFrame(r, logs(r.context.documentId), handed, token, updates);
      }
    }
  }

  /** What one call that follows a cursor promises. */
  ghost predicate Followed(live: seq<EnumerationPass>, answer: EnumerationAnswer,
                           logs: DocumentId -> seq<UpdateMetadata>, handed: Ledger, call: EnumerationCall)
  {
    && Tracked(answer.passes, logs, HandedAfter(handed, call.start, answer.outcome))
    && (answer.outcome.ReadAuthorized? ==>
         Exact(HandedBefore(handed, call.start), answer.outcome.response, logs(call.context.documentId)))
    && (Fits(logs(call.context.documentId), call.budget) ==> !answer.outcome.StoreCorrupt?)
    && (answer.outcome.InvalidContinuation? ==> answer.passes == live)
  }

  lemma AdvanceFollowed(live: seq<EnumerationPass>, i: nat, lower: nat, terminal: nat, ordinal: nat,
                        logs: DocumentId -> seq<UpdateMetadata>, handed: Ledger, call: EnumerationCall)
    requires Tracked(live, logs, handed) && i < |live|
    requires call.start.Resume? && call.start.encoded == live[i].current.token && live[i].current.token in handed
    requires live[i].context == call.context
    requires
      var metas := logs(call.context.documentId);
      lower + ordinal < terminal <= |metas| && handed[live[i].current.token] == metas[..lower + ordinal]
    ensures Followed(live, Advance(live, i, lower, terminal, ordinal, logs(call.context.documentId), call),
                     logs, handed, call)
  {
    hide Tracked, EnumeratePage, Fits, AllTokens, Mint, Advanced, HandedAfter;
    var metas := logs(call.context.documentId);
    AdvanceTracked(live, i, lower, terminal, ordinal, logs, handed, call);
    if Fits(metas, call.budget) { FittingPageAdvances(metas, lower, terminal, ordinal, call.budget); }
  }

  lemma ReplayFollowed(live: seq<EnumerationPass>, p: EnumerationPass,
                       logs: DocumentId -> seq<UpdateMetadata>, handed: Ledger, call: EnumerationCall)
    requires Tracked(live, logs, handed) && p in live && p.context == call.context && Replays(p, call.start)
    ensures Followed(live, EnumerationAnswer(live, ReadAuthorized(p.retry.value.response)), logs, handed, call)
  {
    hide Orderly;
    assert GoodPass(p, logs(call.context.documentId), handed);
    var updates := p.retry.value.response.page.updates;
    assert handed[p.current.token := handed[p.retry.value.token] + updates] == handed;
  }

  lemma TailFollowed(live: seq<EnumerationPass>, p: EnumerationPass,
                     logs: DocumentId -> seq<UpdateMetadata>, handed: Ledger, call: EnumerationCall)
    requires Tracked(live, logs, handed) && p in live && p.context == call.context
    requires call.start == Resume(AfterTail, p.current.token) && p.current.mode == AfterTail
    requires |logs(call.context.documentId)| == p.terminal
    ensures Followed(live, EnumerationAnswer(live, ReadAuthorized(EMPTY_RESPONSE)), logs, handed, call)
  {
    hide Orderly, GoodRetry;
    var metas := logs(call.context.documentId);
    assert GoodPass(p, metas, handed);
    assert metas[..|metas|] == metas && metas + [] == metas;
  }

  /** Following a cursor: a replay changes nothing, a tail without news ends, anything else advances. */
  lemma FollowTracked(live: seq<EnumerationPass>, generation: Identifier, logs: DocumentId -> seq<UpdateMetadata>,
                      handed: Ledger, call: EnumerationCall)
    requires Tracked(live, logs, handed) && call.start.Resume?
    requires forall p :: p in live && p.context.documentId == call.context.documentId ==>
      WithinLog(p, logs(call.context.documentId))
    ensures Followed(live, Follow(live, generation, logs(call.context.documentId), call), logs, handed, call)
  {
    hide Orderly, GoodRetry, Advance, Fits, Exact, Replays;
    var metas := logs(call.context.documentId);
    var found := Position(live, HoldsToken(call.start.encoded, call.start.mode));
    if |call.start.encoded| == CONTINUATION_LENGTH && found.Some? && Presents(live[found.value], generation, call) {
      var p := live[found.value];
      assert p in live && GoodPass(p, metas, handed);
      if Replays(p, call.start) {
        ReplayFollowed(live, p, logs, handed, call);
      } else if p.current.token == call.start.encoded && p.current.mode == call.start.mode {
        if call.start.mode == Continue {
          AdvanceFollowed(live, found.value, p.lower, p.terminal, p.current.nextOrdinal, logs, handed, call);
        } else if |metas| == p.terminal {
          TailFollowed(live, p, logs, handed, call);
        } else {
          AdvanceFollowed(live, found.value, p.terminal, |metas|, 0, logs, handed, call);
        }
      }
    }
  }

  /**
   * Enumeration exactness of one call: after it every live cursor still stands for exactly the
   * prefix of the log its holder has been handed, the answer extends its caller's history to a
   * longer prefix, and an answer without a cursor means that the caller holds the whole log.
   * No call finds a live pass with an unusable position, and none fails while entries fit.
   */
  lemma EnumerateExact(passes: seq<EnumerationPass>, generation: Identifier, logs: DocumentId -> seq<UpdateMetadata>,
                       handed: Ledger, call: EnumerationCall)
    requires Tracked(passes, logs, handed)
    ensures forall p :: p in passes && p.context.documentId == call.context.documentId ==>
      WithinLog(p, logs(call.context.documentId))
    ensures
      var metas := logs(call.context.documentId);
      var answer := Enumerate(passes, generation, metas, call);
      && Tracked(answer.passes, logs, HandedAfter(handed, call.start, answer.outcome))
      && (answer.outcome.ReadAuthorized? ==> Exact(HandedBefore(handed, call.start), answer.outcome.response, metas))
      && (Fits(metas, call.budget) ==> !answer.outcome.StoreCorrupt?)
      && (answer.outcome.InvalidContinuation? ==> answer.passes == Retain(passes, Unexpired(call.clock.now)))
  {
    hide Tracked, Open, Follow, Exact, Fits, HandedAfter;
    TrackedWithin(passes, logs, handed, call.context.documentId);
    var live := Retain(passes, Unexpired(call.clock.now));
    RetainTracked(passes, Unexpired(call.clock.now), logs, handed);
    RetainMembers(passes, Unexpired(call.clock.now));
    match call.start
    case Origin => OpenTracked(live, generation, logs, handed, call);
    case Resume(_, _) => FollowTracked(live, generation, logs, handed, call);
  }

  /** A live token leads to the one pass that holds it. */
  lemma OwnerFound(live: seq<EnumerationPass>, p: EnumerationPass, logs: DocumentId -> seq<UpdateMetadata>,
                   handed: Ledger, token: seq<byte>, mode: Mode)
    requires Tracked(live, logs, handed) && p in live && HoldsToken(token, mode)(p)
    ensures
      var found := Position(live, HoldsToken(token, mode));
      found.Some? && live[found.value] == p
  {
    hide GoodPass, Quotas;
    var found := Position(live, HoldsToken(token, mode));
    var i :| 0 <= i < |live| && live[i] == p;
    assert found.Some?;
    var j := found.value;
    assert token in TokensOf(live[j]) * TokensOf(live[i]);
  }

  /**
   * Replay: while the advanced pass lives, presenting the consumed cursor again answers with the
   * identical response, changes no pass, and draws no token, whatever has been accepted since.
   */
  lemma ReplayIdentical(passes: seq<EnumerationPass>, p: EnumerationPass, generation: Identifier,
                        logs: DocumentId -> seq<UpdateMetadata>, handed: Ledger, call: EnumerationCall)
    requires Tracked(passes, logs, handed) && p in passes && Presents(p, generation, call)
    requires p.retry.Some? && call.start == Resume(p.retry.value.mode, p.retry.value.token)
    ensures forall q :: q in passes && q.context.documentId == call.context.documentId ==>
      WithinLog(q, logs(call.context.documentId))
    ensures Enumerate(passes, generation, logs(call.context.documentId), call)
         == EnumerationAnswer(Retain(passes, Unexpired(call.clock.now)), ReadAuthorized(p.retry.value.response))
  {
    hide Orderly, GoodPass;
    TrackedWithin(passes, logs, handed, call.context.documentId);
    var live := Retain(passes, Unexpired(call.clock.now));
    RetainTracked(passes, Unexpired(call.clock.now), logs, handed);
    RetainMembers(passes, Unexpired(call.clock.now));
    OwnerFound(live, p, logs, handed, call.start.encoded, call.start.mode);
  }

  /** Within one window every page shortens what is left, and the window itself does not move. */
  lemma WindowShrinks(passes: seq<EnumerationPass>, p: EnumerationPass, generation: Identifier,
                      logs: DocumentId -> seq<UpdateMetadata>, handed: Ledger, call: EnumerationCall)
    requires Tracked(passes, logs, handed) && p in passes && Presents(p, generation, call)
    requires call.start == Resume(Continue, p.current.token) && p.current.mode == Continue
    ensures forall q :: q in passes && q.context.documentId == call.context.documentId ==>
      WithinLog(q, logs(call.context.documentId))
    ensures
      var answer := Enumerate(passes, generation, logs(call.context.documentId), call);
      answer.outcome.ReadAuthorized? ==>
        exists q :: q in answer.passes && q.context == p.context && q.lower == p.lower && q.terminal == p.terminal
          && q.terminal - q.lower - q.current.nextOrdinal < p.terminal - p.lower - p.current.nextOrdinal
  {
    hide Orderly, EnumeratePage, Mint, AllTokens;
    TrackedWithin(passes, logs, handed, call.context.documentId);
    var live := Retain(passes, Unexpired(call.clock.now));
    RetainTracked(passes, Unexpired(call.clock.now), logs, handed);
    RetainMembers(passes, Unexpired(call.clock.now));
    OwnerFound(live, p, logs, handed, call.start.encoded, Continue);
    var metas := logs(call.context.documentId);
    assert GoodPass(p, metas, handed);
    PageSlice(metas, p.lower, p.terminal, p.current.nextOrdinal, call.budget);
    var found := Position(live, HoldsToken(call.start.encoded, Continue)).value;
    var answer := Enumerate(passes, generation, metas, call);
    if answer.outcome.ReadAuthorized? {
      assert answer.passes[found] in answer.passes;
    }
  }

  /** A page that continues a window ends inside it. */
  lemma PageInWindow(passes: seq<EnumerationPass>, p: EnumerationPass, generation: Identifier,
                     logs: DocumentId -> seq<UpdateMetadata>, handed: Ledger, call: EnumerationCall)
    requires Tracked(passes, logs, handed) && p in passes && Presents(p, generation, call)
    requires call.start == Resume(Continue, p.current.token) && p.current.mode == Continue
    ensures forall q :: q in passes && q.context.documentId == call.context.documentId ==>
      WithinLog(q, logs(call.context.documentId))
    ensures
      var answer := Enumerate(passes, generation, logs(call.context.documentId), call);
      answer.outcome.ReadAuthorized? ==>
        |HandedBefore(handed, call.start) + answer.outcome.response.page.updates| <= p.terminal
  {
    hide Orderly, EnumeratePage, Mint, AllTokens;
    TrackedWithin(passes, logs, handed, call.context.documentId);
    var live := Retain(passes, Unexpired(call.clock.now));
    RetainTracked(passes, Unexpired(call.clock.now), logs, handed);
    RetainMembers(passes, Unexpired(call.clock.now));
    OwnerFound(live, p, logs, handed, call.start.encoded, Continue);
    var metas := logs(call.context.documentId);
    assert GoodPass(p, metas, handed);
    PageSlice(metas, p.lower, p.terminal, p.current.nextOrdinal, call.budget);
  }

  // ---- The windows behind the cursors -------------------------------------------------

  /** An answer that repeats what a live pass retains, rather than opening or advancing one. */
  predicate Repeats(live: seq<EnumerationPass>, start: EnumerationStart, token: seq<byte>) {
    start.Resume? && exists p :: p in live && p.current.token == token
  }

  /** The pass an answer's cursor belongs to: in the caller's context, and with more exactly while it continues. */
  predicate Owns(p: EnumerationPass, call: EnumerationCall, response: EnumerationResponse) {
    && response.nextCursor == Some(p.current.token)
    && p.context == call.context
    && (response.page.hasMore <==> p.current.mode == Continue)
  }

  /** The window a new cursor stands in: its predecessor's, or the whole log as of the call. */
  ghost predicate InWindow(live: seq<EnumerationPass>, p: EnumerationPass, metas: seq<UpdateMetadata>,
                           call: EnumerationCall)
  {
    if call.start.Resume? && call.start.mode == Continue
      then exists q :: q in live && q.current.token == call.start.encoded && q.context == p.context && q.terminal == p.terminal
    else p.terminal == |metas|
  }

  /** What an answer with a cursor leaves behind. */
  ghost predicate Windowed(live: seq<EnumerationPass>, answer: EnumerationAnswer, metas: seq<UpdateMetadata>,
                           call: EnumerationCall)
  {
    answer.outcome.ReadAuthorized? && answer.outcome.response.nextCursor.Some? ==>
      var response := answer.outcome.response;
      exists p :: p in answer.passes && Owns(p, call, response) &&
        if Repeats(live, call.start, response.nextCursor.value) then answer.passes == live
        else InWindow(live, p, metas, call) && forall q :: q in answer.passes ==> q == p || q in live
  }

  lemma AdvanceWindowed(live: seq<EnumerationPass>, i: nat, lower: nat, terminal: nat, ordinal: nat,
                        metas: seq<UpdateMetadata>, call: EnumerationCall)
    requires i < |live| && lower + ordinal < terminal <= |metas|
    requires call.start.Resume? && call.start.encoded == live[i].current.token && live[i].context == call.context
    requires call.start.mode == Continue ==> terminal == live[i].terminal
    requires call.start.mode == AfterTail ==> terminal == |metas|
    ensures Windowed(live, Advance(live, i, lower, terminal, ordinal, metas, call), metas, call)
  {
    hide EnumeratePage, AllTokens, Mint;
    var answer := Advance(live, i, lower, terminal, ordinal, metas, call);
    if answer.outcome.ReadAuthorized? {
      var p := answer.passes[i];
      var token := answer.outcome.response.nextCursor.value;
      assert live[i] in live && p in answer.passes;
      forall q | q in live ensures q.current.token != token {
        assert TokensOf(q) <= AllTokens(live, TokensOf);
      }
      assert Owns(p, call, answer.outcome.response);
    }
  }

  lemma OpenWindowed(live: seq<EnumerationPass>, generation: Identifier, metas: seq<UpdateMetadata>,
                     call: EnumerationCall)
    requires call.start == Origin
    ensures Windowed(live, Open(live, generation, metas, call), metas, call)
  {
    hide EnumeratePage, AllTokens, Mint, CanAdmit;
    RetainMembers(live, OutsideContext(call.context));
    var answer := Open(live, generation, metas, call);
    if answer.outcome.ReadAuthorized? && answer.outcome.response.nextCursor.Some? {
      var p := answer.passes[|answer.passes| - 1];
      assert p in answer.passes && Owns(p, call, answer.outcome.response);
    }
  }

  lemma FollowWindowed(live: seq<EnumerationPass>, generation: Identifier, logs: DocumentId -> seq<UpdateMetadata>,
                       handed: Ledger, call: EnumerationCall)
    requires Tracked(live, logs, handed) && call.start.Resume?
    requires forall p :: p in live && p.context.documentId == call.context.documentId ==>
      WithinLog(p, logs(call.context.documentId))
    ensures Windowed(live, Follow(live, generation, logs(call.context.documentId), call), logs(call.context.documentId), call)
  {
    hide Orderly, Advance, Windowed;
    var metas := logs(call.context.documentId);
    var found := Position(live, HoldsToken(call.start.encoded, call.start.mode));
    if |call.start.encoded| == CONTINUATION_LENGTH && found.Some? && Presents(live[found.value], generation, call) {
      var p := live[found.value];
      assert p in live && GoodPass(p, metas, handed);
      if Replays(p, call.start) {
        RepeatWindowed(live, p, metas, call);
      } else if p.current.token == call.start.encoded && p.current.mode == call.start.mode {
        if call.start.mode == Continue {
          AdvanceWindowed(live, found.value, p.lower, p.terminal, p.current.nextOrdinal, metas, call);
        } else if |metas| > p.terminal {
          AdvanceWindowed(live, found.value, p.terminal, |metas|, 0, metas, call);
        } else {
          NothingWindowed(live, ReadAuthorized(EMPTY_RESPONSE), metas, call);
          NothingWindowed(live, InvalidContinuation, metas, call);
        }
      } else {
        NothingWindowed(live, InvalidContinuation, metas, call);
      }
    } else {
      NothingWindowed(live, InvalidContinuation, metas, call);
    }
  }

  lemma NothingWindowed(live: seq<EnumerationPass>, outcome: ReadOutcome<EnumerationResponse>,
                        metas: seq<UpdateMetadata>, call: EnumerationCall)
    requires outcome == InvalidContinuation || outcome == ReadAuthorized(EMPTY_RESPONSE)
    ensures Windowed(live, EnumerationAnswer(live, outcome), metas, call)
  {
  }

  lemma RepeatWindowed(live: seq<EnumerationPass>, p: EnumerationPass, metas: seq<UpdateMetadata>, call: EnumerationCall)
    requires p in live && p.context == call.context && Replays(p, call.start)
    requires p.retry.value.response.nextCursor == Some(p.current.token)
    requires p.retry.value.response.page.hasMore == (p.current.mode == Continue)
    ensures Windowed(live, EnumerationAnswer(live, ReadAuthorized(p.retry.value.response)), metas, call)
  {
    assert Owns(p, call, p.retry.value.response);
    assert Repeats(live, call.start, p.current.token);
  }

  /**
   * The windows of one call: a replay changes no window; a continued cursor stands in its
   * predecessor's window; an origin and a genuine advance past the tail capture the log as it is.
   */
  lemma EnumerateWindowed(passes: seq<EnumerationPass>, generation: Identifier, logs: DocumentId -> seq<UpdateMetadata>,
                          handed: Ledger, call: EnumerationCall)
    requires Tracked(passes, logs, handed)
    ensures forall p :: p in passes && p.context.documentId == call.context.documentId ==>
      WithinLog(p, logs(call.context.documentId))
    ensures Windowed(Retain(passes, Unexpired(call.clock.now)),
                     Enumerate(passes, generation, logs(call.context.documentId), call),
                     logs(call.context.documentId), call)
  {
    hide Tracked, Open, Follow, Windowed;
    TrackedWithin(passes, logs, handed, call.context.documentId);
    var live := Retain(passes, Unexpired(call.clock.now));
    RetainTracked(passes, Unexpired(call.clock.now), logs, handed);
    RetainMembers(passes, Unexpired(call.clock.now));
    match call.start
    case Origin => OpenWindowed(live, generation, logs(call.context.documentId), call);
    case Resume(_, _) => FollowWindowed(live, generation, logs, handed, call);
  }

  /** A call that hands out no cursor leaves only passes that were there before. */
  ghost predicate OnlyOld(live: seq<EnumerationPass>, answer: EnumerationAnswer) {
    !(answer.outcome.ReadAuthorized? && answer.outcome.response.nextCursor.Some?) ==>
      forall p :: p in answer.passes ==> p in live
  }

  lemma AdvanceOnlyOld(live: seq<EnumerationPass>, i: nat, lower: nat, terminal: nat, ordinal: nat,
                       metas: seq<UpdateMetadata>, call: EnumerationCall)
    requires i < |live| && call.start.Resume? && |call.start.encoded| == CONTINUATION_LENGTH && terminal <= |metas|
    ensures OnlyOld(live, Advance(live, i, lower, terminal, ordinal, metas, call))
  {
    hide EnumeratePage, AllTokens, Mint, Advanced;
    SwapRemoveMembers(live, i);
  }

  lemma OpenOnlyOld(live: seq<EnumerationPass>, generation: Identifier, metas: seq<UpdateMetadata>,
                    call: EnumerationCall)
    ensures OnlyOld(live, Open(live, generation, metas, call))
  {
    hide EnumeratePage, AllTokens, Mint, CanAdmit;
    RetainMembers(live, OutsideContext(call.context));
  }

  lemma FollowOnlyOld(live: seq<EnumerationPass>, generation: Identifier, metas: seq<UpdateMetadata>,
                      call: EnumerationCall)
    requires call.start.Resume?
    requires forall p :: p in live && p.context.documentId == call.context.documentId ==> WithinLog(p, metas)
    ensures OnlyOld(live, Follow(live, generation, metas, call))
  {
    hide Advance;
    var found := Position(live, HoldsToken(call.start.encoded, call.start.mode));
    if |call.start.encoded| == CONTINUATION_LENGTH && found.Some? && Presents(live[found.value], generation, call) {
      var p := live[found.value];
      assert WithinLog(p, metas);
      AdvanceOnlyOld(live, found.value, p.lower, p.terminal, p.current.nextOrdinal, metas, call);
      AdvanceOnlyOld(live, found.value, p.terminal, |metas|, 0, metas, call);
    }
  }

  lemma CursorlessKeeps(passes: seq<EnumerationPass>, generation: Identifier, metas: seq<UpdateMetadata>,
                        call: EnumerationCall)
    requires forall p :: p in passes && p.context.documentId == call.context.documentId ==> WithinLog(p, metas)
    ensures OnlyOld(Retain(passes, Unexpired(call.clock.now)), Enumerate(passes, generation, metas, call))
  {
    hide Open, Follow, OnlyOld;
    var live := Retain(passes, Unexpired(call.clock.now));
    RetainMembers(passes, Unexpired(call.clock.now));
    match call.start
    case Origin => OpenOnlyOld(live, generation, metas, call);
    case Resume(_, _) => FollowOnlyOld(live, generation, metas, call);
  }

  // ---- What a call retains ----------------------------------------------------------------

  /** The pass that retains an answer for a replay of the cursor it was given for. */
  predicate Retains(p: EnumerationPass, generation: Identifier, call: EnumerationCall, response: EnumerationResponse) {
    && call.start.Resume?
    && p.context == call.context && p.generation == generation
    && response.nextCursor == Some(p.current.token)
    && p.retry.Some?
    && p.retry.value.mode == call.start.mode && p.retry.value.token == call.start.encoded
    && p.retry.value.response == response
  }

  ghost predicate Retained(answer: EnumerationAnswer, generation: Identifier, call: EnumerationCall) {
    answer.outcome.ReadAuthorized? && answer.outcome.response.nextCursor.Some? ==>
      exists p :: p in answer.passes && Retains(p, generation, call, answer.outcome.response)
  }

  lemma AdvanceRetained(live: seq<EnumerationPass>, i: nat, lower: nat, terminal: nat, ordinal: nat,
                        generation: Identifier, metas: seq<UpdateMetadata>, call: EnumerationCall)
    requires i < |live| && call.start.Resume? && |call.start.encoded| == CONTINUATION_LENGTH && terminal <= |metas|
    requires live[i].context == call.context && live[i].generation == generation
    ensures Retained(Advance(live, i, lower, terminal, ordinal, metas, call), generation, call)
  {
    hide EnumeratePage, AllTokens, Mint;
    var answer := Advance(live, i, lower, terminal, ordinal, metas, call);
    if answer.outcome.ReadAuthorized? {
      assert answer.passes[i] in answer.passes;
      assert Retains(answer.passes[i], generation, call, answer.outcome.response);
    }
  }

  lemma NothingRetained(live: seq<EnumerationPass>, outcome: ReadOutcome<EnumerationResponse>,
                        generation: Identifier, call: EnumerationCall)
    requires outcome == InvalidContinuation || outcome == ReadAuthorized(EMPTY_RESPONSE)
    ensures Retained(EnumerationAnswer(live, outcome), generation, call)
  {
  }

  lemma FollowRetained(live: seq<EnumerationPass>, generation: Identifier, logs: DocumentId -> seq<UpdateMetadata>,
                       handed: Ledger, call: EnumerationCall)
    requires Tracked(live, logs, handed) && call.start.Resume?
    requires forall p :: p in live && p.context.documentId == call.context.documentId ==>
      WithinLog(p, logs(call.context.documentId))
    ensures Retained(Follow(live, generation, logs(call.context.documentId), call), generation, call)
  {
    hide Orderly, Advance, Retained;
    var metas := logs(call.context.documentId);
    NothingRetained(live, InvalidContinuation, generation, call);
    NothingRetained(live, ReadAuthorized(EMPTY_RESPONSE), generation, call);
    var found := Position(live, HoldsToken(call.start.encoded, call.start.mode));
    if |call.start.encoded| == CONTINUATION_LENGTH && found.Some? && Presents(live[found.value], generation, call) {
      var p := live[found.value];
      assert p in live && GoodPass(p, metas, handed);
      if Replays(p, call.start) {
        ReplayRetained(live, p, generation, call);
      } else {
        AdvanceRetained(live, found.value, p.lower, p.terminal, p.current.nextOrdinal, generation, metas, call);
        AdvanceRetained(live, found.value, p.terminal, |metas|, 0, generation, metas, call);
      }
    }
  }

  lemma ReplayRetained(live: seq<EnumerationPass>, p: EnumerationPass, generation: Identifier, call: EnumerationCall)
    requires p in live && p.context == call.context && p.generation == generation && Replays(p, call.start)
    requires p.retry.value.response.nextCursor == Some(p.current.token)
    ensures Retained(EnumerationAnswer(live, ReadAuthorized(p.retry.value.response)), generation, call)
  {
    assert Retains(p, generation, call, p.retry.value.response);
  }

  /** Every page a cursor was presented for is retained, with its cursor, for a replay. */
  lemma EnumerateRetained(passes: seq<EnumerationPass>, generation: Identifier, logs: DocumentId -> seq<UpdateMetadata>,
                          handed: Ledger, call: EnumerationCall)
    requires Tracked(passes, logs, handed) && call.start.Resume?
    ensures forall p :: p in passes && p.context.documentId == call.context.documentId ==>
      WithinLog(p, logs(call.context.documentId))
    ensures Retained(Enumerate(passes, generation, logs(call.context.documentId), call), generation, call)
  {
    hide Tracked, Follow, Retained;
    TrackedWithin(passes, logs, handed, call.context.documentId);
    var live := Retain(passes, Unexpired(call.clock.now));
    RetainTracked(passes, Unexpired(call.clock.now), logs, handed);
    RetainMembers(passes, Unexpired(call.clock.now));
    FollowRetained(live, generation, logs, handed, call);
  }

  // ---- What a call leaves in place ----------------------------------------------------------

  /** A call that drops a pass, replaces it, or takes it further with a page of its own. */
  predicate Touches(call: EnumerationCall, q: EnumerationPass, outcome: ReadOutcome<EnumerationResponse>) {
    || q.expires <= call.clock.now
    || (call.start == Origin && q.context == call.context)
    || (call.start == Resume(q.current.mode, q.current.token)
        && outcome.ReadAuthorized? && outcome.response.nextCursor.Some?)
  }

  ghost predicate LeavesInPlace(live: seq<EnumerationPass>, answer: EnumerationAnswer, call: EnumerationCall) {
    forall q :: q in live && !Touches(call, q, answer.outcome) ==> q in answer.passes
  }

  lemma ReplacedInPlace(live: seq<EnumerationPass>, i: nat, p: EnumerationPass)
    requires i < |live|
    ensures forall q :: q in live && q != live[i] ==> q in live[i := p]
  {
    forall q | q in live && q != live[i] ensures q in live[i := p] {
      var k :| 0 <= k < |live| && live[k] == q;
      assert live[i := p][k] == q;
    }
  }

  lemma AdvanceInPlace(live: seq<EnumerationPass>, i: nat, lower: nat, terminal: nat, ordinal: nat,
                       metas: seq<UpdateMetadata>, call: EnumerationCall)
    requires i < |live| && lower + ordinal < terminal <= |metas|
    requires call.start == Resume(live[i].current.mode, live[i].current.token)
    ensures LeavesInPlace(live, Advance(live, i, lower, terminal, ordinal, metas, call), call)
  {
    hide EnumeratePage, AllTokens, Mint;
    var page := EnumeratePage(metas, lower, terminal, ordinal, call.budget);
    forall token: Token
      ensures forall q :: q in live && q != live[i] ==> q in live[i := Advanced(live[i], lower, terminal, page, token, call)]
    {
      ReplacedInPlace(live, i, Advanced(live[i], lower, terminal, page, token, call));
    }
  }

  lemma OpenInPlace(live: seq<EnumerationPass>, generation: Identifier, metas: seq<UpdateMetadata>,
                    call: EnumerationCall)
    requires call.start == Origin
    ensures LeavesInPlace(live, Open(live, generation, metas, call), call)
  {
    hide EnumeratePage, AllTokens, Mint, CanAdmit;
    RetainMembers(live, OutsideContext(call.context));
  }

  lemma FollowInPlace(live: seq<EnumerationPass>, generation: Identifier, logs: DocumentId -> seq<UpdateMetadata>,
                      handed: Ledger, call: EnumerationCall)
    requires Tracked(live, logs, handed) && call.start.Resume?
    requires forall p :: p in live && p.context.documentId == call.context.documentId ==>
      WithinLog(p, logs(call.context.documentId))
    ensures LeavesInPlace(live, Follow(live, generation, logs(call.context.documentId), call), call)
  {
    hide Orderly, Advance;
    var metas := logs(call.context.documentId);
    var found := Position(live, HoldsToken(call.start.encoded, call.start.mode));
    if |call.start.encoded| == CONTINUATION_LENGTH && found.Some? && Presents(live[found.value], generation, call) {
      var p := live[found.value];
      assert p in live && GoodPass(p, metas, handed);
      if !Replays(p, call.start) && p.current.token == call.start.encoded && p.current.mode == call.start.mode {
        if call.start.mode == Continue {
          AdvanceInPlace(live, found.value, p.lower, p.terminal, p.current.nextOrdinal, metas, call);
        } else if |metas| > p.terminal {
          AdvanceInPlace(live, found.value, p.terminal, |metas|, 0, metas, call);
        }
      }
    }
  }

  /** A call moves no pass but one that has expired, that its caller replaces, or whose cursor it follows. */
  lemma EnumerateInPlace(passes: seq<EnumerationPass>, generation: Identifier, logs: DocumentId -> seq<UpdateMetadata>,
                         handed: Ledger, call: EnumerationCall)
    requires Tracked(passes, logs, handed)
    ensures forall p :: p in passes && p.context.documentId == call.context.documentId ==>
      WithinLog(p, logs(call.context.documentId))
    ensures LeavesInPlace(passes, Enumerate(passes, generation, logs(call.context.documentId), call), call)
  {
    hide Tracked, Open, Follow;
    TrackedWithin(passes, logs, handed, call.context.documentId);
    var live := Retain(passes, Unexpired(call.clock.now));
    RetainTracked(passes, Unexpired(call.clock.now), logs, handed);
    RetainMembers(passes, Unexpired(call.clock.now));
    match call.start
    case Origin => OpenInPlace(live, generation, logs(call.context.documentId), call);
    case Resume(_, _) => FollowInPlace(live, generation, logs, handed, call);
  }
}
