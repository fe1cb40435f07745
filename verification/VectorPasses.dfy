/** Vector-backfill passes: bounded scans of one captured window for what a client version misses. */
module VectorPasses {
  import opened Prelude
  import opened Types
  import opened UpdateRecord
  import opened Tables
  import opened Reads
  import opened PassRegistry

  datatype VectorPosition = VectorPosition(position: nat, token: Token)

  datatype VectorResponse = VectorResponse(page: StoredVectorPage, nextCursor: Option<seq<byte>>)

  datatype VectorRetry = VectorRetry(response: VectorResponse, token: Token)

  datatype VectorPass = VectorPass(
    context: Context,
    current: Option<VectorPosition>,
    expires: nat,
    version: LoroOplogVersion,
    retry: Option<VectorRetry>,
    terminal: nat)

  datatype VectorStart = VectorOrigin | VectorContinue(encoded: seq<byte>)

  datatype VectorCall = VectorCall(
    context: Context, version: LoroOplogVersion, start: VectorStart, clock: Clock, draw: nat -> Token, budget: nat)

  datatype VectorAnswer = VectorAnswer(passes: seq<VectorPass>, outcome: ReadOutcome<VectorResponse>)

  function VectorContext(p: VectorPass): Context {
    p.context
  }

  function VectorKey(p: VectorPass): (Context, LoroOplogVersion) {
    (p.context, p.version)
  }

  function VectorTokens(p: VectorPass): set<Token> {
    (if p.current.Some? then {p.current.value.token} else {}) + (if p.retry.Some? then {p.retry.value.token} else {})
  }

  function VectorUnexpired(now: nat): VectorPass -> bool {
    (p: VectorPass) => p.expires > now
  }

  function OutsideKey(c: Context, version: LoroOplogVersion): VectorPass -> bool {
    (p: VectorPass) => p.context != c || p.version != version
  }

  function HoldsVectorToken(token: seq<byte>): VectorPass -> bool {
    (p: VectorPass) => (p.current.Some? && p.current.value.token == token)
      || (p.retry.Some? && p.retry.value.token == token)
  }

  // ---- One call -------------------------------------------------------------------

  const EMPTY_BACKFILL: VectorResponse := VectorResponse(StoredVectorPage(false, None, []), None)

  /** The first scan captures the log as its window; only an unfinished scan leaves a pass behind. */
  function OpenVector(live: seq<VectorPass>, metas: seq<UpdateMetadata>, call: VectorCall): VectorAnswer {
    if metas == [] then VectorAnswer(live, ReadAuthorized(EMPTY_BACKFILL))
    else
      var page := VectorPage(metas, call.version, 0, |metas|, call.budget);
      if !page.hasMore then VectorAnswer(live, ReadAuthorized(VectorResponse(page, None)))
      else if page.lastExamined.None? then VectorAnswer(live, StoreCorrupt)
      else
        var kept := Retain(live, OutsideKey(call.context, call.version));
        if !CanAdmit(kept, VectorContext, call.context) then VectorAnswer(kept, Backpressure)
        else
          match Mint(call.draw, AllTokens(kept, VectorTokens), 0)
          case None => VectorAnswer(kept, Backpressure)
          case Some(token) =>
            var pass := VectorPass(call.context, Some(VectorPosition(page.lastExamined.value, token)),
              call.clock.now + PASS_IDLE_TTL, call.version, None, |metas|);
            VectorAnswer(kept + [pass], ReadAuthorized(VectorResponse(page, Some(token))))
  }

  function VectorAdvanced(p: VectorPass, response: VectorResponse, next: Option<VectorPosition>, call: VectorCall)
    : VectorPass
    requires call.start.VectorContinue? && |call.start.encoded| == CONTINUATION_LENGTH
  {
    p.(current := next,
       retry := Some(VectorRetry(response, call.start.encoded)),
       expires := call.clock.later + PASS_IDLE_TTL)
  }

  function AdvanceVector(live: seq<VectorPass>, i: nat, position: nat, metas: seq<UpdateMetadata>, call: VectorCall)
    : VectorAnswer
    requires i < |live| && call.start.VectorContinue? && |call.start.encoded| == CONTINUATION_LENGTH
  {
    var p := live[i];
    if !(0 < p.terminal && position <= p.terminal <= |metas|)
      then VectorAnswer(SwapRemove(live, i), InvalidContinuation)
    else
      var page := VectorPage(metas, call.version, position, p.terminal, call.budget);
      if !page.hasMore then
        var response := VectorResponse(page, None);
        VectorAnswer(live[i := VectorAdvanced(p, response, None, call)], ReadAuthorized(response))
      else if page.lastExamined.None? then VectorAnswer(live, StoreCorrupt)
      else
        match Mint(call.draw, AllTokens(live, VectorTokens), 0)
        case None => VectorAnswer(live, Backpressure)
        case Some(token) =>
          var response := VectorResponse(page, Some(token));
          var next := Some(VectorPosition(page.lastExamined.value, token));
          VectorAnswer(live[i := VectorAdvanced(p, response, next, call)], ReadAuthorized(response))
  }

  predicate PresentsVector(p: VectorPass, call: VectorCall) {
    p.context == call.context && p.version == call.version && p.expires > call.clock.now
  }

  function FollowVector(live: seq<VectorPass>, metas: seq<UpdateMetadata>, call: VectorCall): VectorAnswer
    requires call.start.VectorContinue?
  {
    if |call.start.encoded| != CONTINUATION_LENGTH then VectorAnswer(live, InvalidContinuation)
    else
      match Position(live, HoldsVectorToken(call.start.encoded))
      case None => VectorAnswer(live, InvalidContinuation)
      case Some(i) =>
        var p := live[i];
        if !PresentsVector(p, call) then VectorAnswer(live, InvalidContinuation)
        else if p.retry.Some? && p.retry.value.token == call.start.encoded
          then VectorAnswer(live, ReadAuthorized(p.retry.value.response))
        else if p.current.None? || p.current.value.token != call.start.encoded
          then VectorAnswer(live, InvalidContinuation)
        else AdvanceVector(live, i, p.current.value.position, metas, call)
  }

  /** An authorized backfill against the log `metas`, as one step over the registry. */
  function Backfill(passes: seq<VectorPass>, metas: seq<UpdateMetadata>, call: VectorCall): VectorAnswer {
    var live := Retain(passes, VectorUnexpired(call.clock.now));
    match call.start
    case VectorOrigin => OpenVector(live, metas, call)
    case VectorContinue(_) => FollowVector(live, metas, call)
  }

  // ---- The same call over the tables ---------------------------------------------------

  method FindVectorPass(live: seq<VectorPass>, token: seq<byte>) returns (r: Option<nat>)
    ensures r == Position(live, HoldsVectorToken(token))
  {
    for i := 0 to |live|
      invariant forall k :: 0 <= k < i ==> !HoldsVectorToken(token)(live[k])
    {
      if HoldsVectorToken(token)(live[i]) { return Some(i); }
    }
    return None;
  }

  method VectorAdmissible(passes: seq<VectorPass>, c: Context) returns (r: bool)
    ensures r == CanAdmit(passes, VectorContext, c)
  {
    var channelCount := CountPasses(passes, OnChannel(VectorContext, c.channel));
    var documentCount := CountPasses(passes, OnDocument(VectorContext, c.documentId));
    var authorityCount := CountPasses(passes, UnderAuthority(VectorContext, c.documentId, c.capability));
    return |passes| < MAX_PASSES && channelCount < MAX_PASSES_PER_CHANNEL
      && documentCount < MAX_PASSES_PER_DOCUMENT && authorityCount < MAX_PASSES_PER_AUTHORITY;
  }

  method OpenVectorPass(live: seq<VectorPass>, id: DocumentId, d: Document, call: VectorCall)
    returns (answer: VectorAnswer)
    requires ValidLog(id, d) && id == call.context.documentId
    ensures Decodable(d.log) && answer == OpenVector(live, Metas(d.log), call)
  {
    hide ValidLog, VectorPage, Metas, Decodable, CanAdmit, Mint, AllTokens, Retain;
    ValidLogDecodable(id, d);
    HighWaterIsLength(id, d);
    var terminal := HighWater(d.log);
    if terminal.None? { return VectorAnswer(live, ReadAuthorized(EMPTY_BACKFILL)); }
    var scan := VectorBackfillIn(id, d, 0, terminal.value, call.version, call.budget);
    if !scan.Scanned? { return VectorAnswer(live, StoreCorrupt); }
    if !scan.page.hasMore { return VectorAnswer(live, ReadAuthorized(VectorResponse(scan.page, None))); }
    if scan.page.lastExamined.None? { return VectorAnswer(live, StoreCorrupt); }
    var kept := RetainPasses(live, OutsideKey(call.context, call.version));
    var admissible := VectorAdmissible(kept, call.context);
    if !admissible { return VectorAnswer(kept, Backpressure); }
    var minted := MintToken(call.draw, AllTokens(kept, VectorTokens));
    if minted.None? { return VectorAnswer(kept, Backpressure); }
    var pass := VectorPass(call.context, Some(VectorPosition(scan.page.lastExamined.value, minted.value)),
                           call.clock.now + PASS_IDLE_TTL, call.version, None, terminal.value);
    return VectorAnswer(kept + [pass], ReadAuthorized(VectorResponse(scan.page, Some(minted.value))));
  }

  method AdvanceVectorPass(live: seq<VectorPass>, i: nat, position: nat, id: DocumentId, d: Document, call: VectorCall)
    returns (answer: VectorAnswer)
    requires ValidLog(id, d) && i < |live| && call.start.VectorContinue? && |call.start.encoded| == CONTINUATION_LENGTH
    ensures Decodable(d.log) && answer == AdvanceVector(live, i, position, Metas(d.log), call)
  {
    hide ValidLog, VectorPage, Metas, Decodable, Mint, AllTokens;
    var p := live[i];
    var scan := VectorBackfillIn(id, d, position, p.terminal, call.version, call.budget);
    if scan.InvalidPosition? { return VectorAnswer(SwapRemove(live, i), InvalidContinuation); }
    if scan.Corrupt? { return VectorAnswer(live, StoreCorrupt); }
    var page := scan.page;
    if !page.hasMore {
      var last := VectorResponse(page, None);
      return VectorAnswer(live[i := VectorAdvanced(p, last, None, call)], ReadAuthorized(last));
    }
    if page.lastExamined.None? { return VectorAnswer(live, StoreCorrupt); }
    var minted := MintToken(call.draw, AllTokens(live, VectorTokens));
    if minted.None? { return VectorAnswer(live, Backpressure); }
    var response := VectorResponse(page, Some(minted.value));
    var next := Some(VectorPosition(page.lastExamined.value, minted.value));
    return VectorAnswer(live[i := VectorAdvanced(p, response, next, call)], ReadAuthorized(response));
  }

  /** One authorized backfill: expired passes go first, then the call opens or follows a pass. */
  method BackfillPasses(passes: seq<VectorPass>, id: DocumentId, d: Document, call: VectorCall)
    returns (answer: VectorAnswer)
    requires ValidLog(id, d) && id == call.context.documentId && Decodable(d.log)
    ensures answer == Backfill(passes, Metas(d.log), call)
  {
    hide ValidLog, Metas, Decodable, OpenVector, AdvanceVector;
    var live := RetainPasses(passes, VectorUnexpired(call.clock.now));
    if call.start == VectorOrigin {
      answer := OpenVectorPass(live, id, d, call);
      return;
    }
    if |call.start.encoded| != CONTINUATION_LENGTH { return VectorAnswer(live, InvalidContinuation); }
    var found := FindVectorPass(live, call.start.encoded);
    if found.None? { return VectorAnswer(live, InvalidContinuation); }
    var p := live[found.value];
    if !PresentsVector(p, call) { return VectorAnswer(live, InvalidContinuation); }
    if p.retry.Some? && p.retry.value.token == call.start.encoded {
      return VectorAnswer(live, ReadAuthorized(p.retry.value.response));
    }
    if p.current.None? || p.current.value.token != call.start.encoded {
      return VectorAnswer(live, InvalidContinuation);
    }
    answer := AdvanceVectorPass(live, found.value, p.current.value.position, id, d, call);
  }

  // ---- What every cursor stands for -------------------------------------------------

  type VectorLedger = map<seq<byte>, Handed>

  /** Before an origin nothing has been handed, and the window is the log as it is now. */
  function VectorBefore(handed: VectorLedger, start: VectorStart, metas: seq<UpdateMetadata>): Handed {
    if start.VectorContinue? && start.encoded in handed then handed[start.encoded] else Handed([], |metas|)
  }

  function VectorAfter(handed: VectorLedger, start: VectorStart, metas: seq<UpdateMetadata>,
                       outcome: ReadOutcome<VectorResponse>): VectorLedger
  {
    if outcome.ReadAuthorized? && outcome.response.nextCursor.Some? then
      var before := VectorBefore(handed, start, metas);
      handed[outcome.response.nextCursor.value := before.(updates := before.updates + outcome.response.page.updates)]
    else handed
  }

  /** Where a pass stands: its position, or the end of its window once its last page is out. */
  function Reached(p: VectorPass): nat {
    if p.current.Some? then p.current.value.position else p.terminal
  }

  predicate GoodVectorRetry(p: VectorPass, metas: seq<UpdateMetadata>, handed: VectorLedger)
    requires p.retry.Some? && Reached(p) <= |metas|
  {
    var retry := p.retry.value;
    && retry.token in handed
    && handed[retry.token].window == p.terminal
    && (p.current.Some? ==> p.current.value.token != retry.token)
    && retry.response.nextCursor == (if p.current.Some? then Some(p.current.value.token) else None)
    && retry.response.page.hasMore == p.current.Some?
    && handed[retry.token].updates + retry.response.page.updates == Relevant(p.version, metas[..Reached(p)])
  }

  /** The holder of the current cursor has exactly what its version misses below the position. */
  predicate GoodVectorPass(p: VectorPass, metas: seq<UpdateMetadata>, handed: VectorLedger) {
    && 0 < Reached(p) <= p.terminal <= |metas|
    && (p.current.Some? ==>
         && Reached(p) < p.terminal
         && p.current.value.token in handed
         && handed[p.current.value.token] == Handed(Relevant(p.version, metas[..Reached(p)]), p.terminal))
    && (p.current.None? ==> p.retry.Some?)
    && (p.retry.Some? ==> GoodVectorRetry(p, metas, handed))
  }

  ghost predicate VectorTracked(passes: seq<VectorPass>, logs: DocumentId -> seq<UpdateMetadata>, handed: VectorLedger) {
    && Orderly(passes, VectorContext, VectorKey, VectorTokens)
    && forall p {:trigger p in passes} :: p in passes ==> GoodVectorPass(p, logs(p.context.documentId), handed)
  }

  /**
   * What an authorized answer adds to its caller's history: exactly the updates of the captured
   * window's front that the version misses, and of the whole window once no cursor follows.
   */
  ghost predicate VectorExact(before: Handed, version: LoroOplogVersion, response: VectorResponse,
                              metas: seq<UpdateMetadata>)
  {
    && before.window <= |metas|
    && (response.nextCursor.Some? <==> response.page.hasMore)
    && (exists k: nat :: k <= before.window && before.updates + response.page.updates == Relevant(version, metas[..k]))
    && (response.nextCursor.None? ==>
         before.updates + response.page.updates == Relevant(version, metas[..before.window]))
  }

  lemma RetainVectorTracked(passes: seq<VectorPass>, keep: VectorPass -> bool,
                            logs: DocumentId -> seq<UpdateMetadata>, handed: VectorLedger)
    requires VectorTracked(passes, logs, handed)
    ensures VectorTracked(Retain(passes, keep), logs, handed)
  {
    hide Orderly, GoodVectorPass;
    RetainOrderly(passes, keep, VectorContext, VectorKey, VectorTokens);
    RetainMembers(passes, keep);
  }

  lemma GrowVectorTracked(passes: seq<VectorPass>, logs: DocumentId -> seq<UpdateMetadata>,
                          grown: DocumentId -> seq<UpdateMetadata>, handed: VectorLedger)
    requires VectorTracked(passes, logs, handed)
    requires forall p :: p in passes ==> logs(p.context.documentId) <= grown(p.context.documentId)
    ensures VectorTracked(passes, grown, handed)
  {
    hide Orderly, Relevant;
    forall p | p in passes ensures GoodVectorPass(p, grown(p.context.documentId), handed) {
      var metas, after := logs(p.context.documentId), grown(p.context.documentId);
      assert GoodVectorPass(p, metas, handed);
      assert metas[..Reached(p)] == after[..Reached(p)];
    }
  }

  lemma GoodVectorPassFrame(p: VectorPass, metas: seq<UpdateMetadata>, handed: VectorLedger, token: Token, h: Handed)
    requires GoodVectorPass(p, metas, handed) && token !in VectorTokens(p)
    ensures GoodVectorPass(p, metas, handed[token := h])
  {
    hide Relevant;
  }

  /** A page is what the version misses between its two positions. */
  lemma VectorSlice(metas: seq<UpdateMetadata>, version: LoroOplogVersion, position: nat, terminal: nat, budget: nat)
    requires position <= terminal <= |metas|
    ensures
      var page := VectorPage(metas, version, position, terminal, budget);
      var end := if page.lastExamined.Some? then page.lastExamined.value else position;
      && position <= end <= terminal
      && (page.lastExamined.Some? ==> position < end)
      && (page.hasMore <==> end < terminal)
      && Relevant(version, metas[..position]) + page.updates == Relevant(version, metas[..end])
  {
    hide ScanEnd, Relevant;
    var end := ScanEnd(metas, version, position, terminal, 0, budget);
    RelevantSplit(version, metas, 0, position, end);
    assert metas[0..position] == metas[..position] && metas[0..end] == metas[..end];
  }

  lemma FittingScanAdvances(metas: seq<UpdateMetadata>, version: LoroOplogVersion, position: nat, terminal: nat,
                            budget: nat)
    requires position < terminal <= |metas| && Fits(metas, budget)
    ensures VectorPage(metas, version, position, terminal, budget).lastExamined.Some?
  {
    hide MetadataLength, Selected, Relevant;
  }

  function Minted(token: Option<Token>): set<Token> {
    if token.Some? then {token.value} else {}
  }

  function Recorded(handed: VectorLedger, token: Option<Token>, h: Handed): VectorLedger {
    if token.Some? then handed[token.value := h] else handed
  }

  lemma ReplaceVectorTracked(live: seq<VectorPass>, i: nat, q: VectorPass, token: Option<Token>, h: Handed,
                             logs: DocumentId -> seq<UpdateMetadata>, handed: VectorLedger)
    requires VectorTracked(live, logs, handed) && i < |live|
    requires q.context == live[i].context && q.version == live[i].version
    requires Minted(token) !! AllTokens(live, VectorTokens)
    requires VectorTokens(q) - VectorTokens(live[i]) <= Minted(token)
    requires GoodVectorPass(q, logs(q.context.documentId), Recorded(handed, token, h))
    ensures VectorTracked(live[i := q], logs, Recorded(handed, token, h))
  {
    hide Orderly, GoodVectorPass, VectorTokens;
    AdvanceOrderly(live, i, q, VectorContext, VectorKey, VectorTokens);
    forall r | r in live[i := q] ensures GoodVectorPass(r, logs(r.context.documentId), Recorded(handed, token, h)) {
      if r != q {
        assert r in live;
        if token.Some? { GoodVectorPassFrame(r, logs(r.context.documentId), handed, token.value, h); }
      }
    }
  }

  /** What one backfill call promises. */
  ghost predicate VectorFollowed(live: seq<VectorPass>, answer: VectorAnswer, logs: DocumentId -> seq<UpdateMetadata>,
                                 handed: VectorLedger, call: VectorCall)
  {
    var metas := logs(call.context.documentId);
    && VectorTracked(answer.passes, logs, VectorAfter(handed, call.start, metas, answer.outcome))
    && (answer.outcome.ReadAuthorized? ==>
         VectorExact(VectorBefore(handed, call.start, metas), call.version, answer.outcome.response, metas))
    && (Fits(metas, call.budget) ==> !answer.outcome.StoreCorrupt?)
    && (answer.outcome.InvalidContinuation? ==> answer.passes == live)
  }

  lemma OpenVectorFollowed(live: seq<VectorPass>, logs: DocumentId -> seq<UpdateMetadata>, handed: VectorLedger,
                           call: VectorCall)
    requires VectorTracked(live, logs, handed) && call.start == VectorOrigin
    ensures VectorFollowed(live, OpenVector(live, logs(call.context.documentId), call), logs, handed, call)
  {
    hide Orderly, VectorPage, Fits, AllTokens, Mint, CanAdmit, Relevant;
    var metas := logs(call.context.documentId);
    assert metas[..|metas|] == metas && metas[..0] == [];
    RelevantEmpty(call.version);
    var key := OutsideKey(call.context, call.version);
    var kept := Retain(live, key);
    RetainVectorTracked(live, key, logs, handed);
    RetainMembers(live, key);
    VectorSlice(metas, call.version, 0, |metas|, call.budget);
    var page := VectorPage(metas, call.version, 0, |metas|, call.budget);
    assert [] + page.updates == page.updates;
    if metas != [] && Fits(metas, call.budget) { FittingScanAdvances(metas, call.version, 0, |metas|, call.budget); }
    var answer := OpenVector(live, metas, call);
    if answer.outcome.ReadAuthorized? && answer.outcome.response.nextCursor.Some? {
      AdmitVector(kept, answer.passes[|kept|], answer.outcome.response.nextCursor.value,
                  Handed(page.updates, |metas|), logs, handed);
    }
  }

  lemma AdmitVector(kept: seq<VectorPass>, pass: VectorPass, token: Token, h: Handed,
                    logs: DocumentId -> seq<UpdateMetadata>, handed: VectorLedger)
    requires VectorTracked(kept, logs, handed) && CanAdmit(kept, VectorContext, pass.context)
    requires VectorTokens(pass) == {token} && token !in AllTokens(kept, VectorTokens)
    requires forall q :: q in kept ==> VectorKey(q) != VectorKey(pass)
    requires GoodVectorPass(pass, logs(pass.context.documentId), handed[token := h])
    ensures VectorTracked(kept + [pass], logs, handed[token := h])
  {
    hide Orderly, GoodVectorPass, VectorTokens, CanAdmit;
    AdmitOrderly(kept, pass, VectorContext, VectorKey, VectorTokens);
    forall r | r in kept + [pass] ensures GoodVectorPass(r, logs(r.context.documentId), handed[token := h]) {
      if r != pass {
        assert r in kept;
        GoodVectorPassFrame(r, logs(r.context.documentId), handed, token, h);
      }
    }
  }

  lemma AdvanceVectorFollowed(live: seq<VectorPass>, i: nat, logs: DocumentId -> seq<UpdateMetadata>,
                              handed: VectorLedger, call: VectorCall)
    requires VectorTracked(live, logs, handed) && i < |live| && PresentsVector(live[i], call)
    requires live[i].current.Some? && call.start == VectorContinue(live[i].current.value.token)
    ensures VectorFollowed(live,
      AdvanceVector(live, i, live[i].current.value.position, logs(call.context.documentId), call), logs, handed, call)
  {
    hide Orderly, VectorPage, Fits, AllTokens, Mint, Relevant, Pairwise;
    var metas := logs(call.context.documentId);
    var p := live[i];
    assert p in live && GoodVectorPass(p, metas, handed);
    var position := p.current.value.position;
    VectorSlice(metas, call.version, position, p.terminal, call.budget);
    if Fits(metas, call.budget) { FittingScanAdvances(metas, call.version, position, p.terminal, call.budget); }
    var answer := AdvanceVector(live, i, position, metas, call);
    if answer.outcome.ReadAuthorized? {
      var before := VectorBefore(handed, call.start, metas);
      var updates := answer.outcome.response.page.updates;
      ReplaceVectorTracked(live, i, answer.passes[i], answer.outcome.response.nextCursor,
                           before.(updates := before.updates + updates), logs, handed);
    }
  }

  lemma ReplayVectorFollowed(live: seq<VectorPass>, p: VectorPass, logs: DocumentId -> seq<UpdateMetadata>,
                             handed: VectorLedger, call: VectorCall)
    requires VectorTracked(live, logs, handed) && p in live && PresentsVector(p, call)
    requires p.retry.Some? && call.start == VectorContinue(p.retry.value.token)
    ensures VectorFollowed(live, VectorAnswer(live, ReadAuthorized(p.retry.value.response)), logs, handed, call)
  {
    hide Orderly, Relevant;
    var metas := logs(call.context.documentId);
    assert GoodVectorPass(p, metas, handed);
    var retry := p.retry.value;
    if p.current.Some? {
      var h := handed[retry.token];
      assert handed[p.current.value.token := h.(updates := h.updates + retry.response.page.updates)] == handed;
    }
  }

  lemma FollowVectorFollowed(live: seq<VectorPass>, logs: DocumentId -> seq<UpdateMetadata>, handed: VectorLedger,
                             call: VectorCall)
    requires VectorTracked(live, logs, handed) && call.start.VectorContinue?
    ensures VectorFollowed(live, FollowVector(live, logs(call.context.documentId), call), logs, handed, call)
  {
    hide VectorTracked, AdvanceVector, Fits, VectorExact;
    var found := Position(live, HoldsVectorToken(call.start.encoded));
    if |call.start.encoded| == CONTINUATION_LENGTH && found.Some? && PresentsVector(live[found.value], call) {
      var p := live[found.value];
      if p.retry.Some? && p.retry.value.token == call.start.encoded {
        ReplayVectorFollowed(live, p, logs, handed, call);
      } else if p.current.Some? && p.current.value.token == call.start.encoded {
        AdvanceVectorFollowed(live, found.value, logs, handed, call);
      }
    }
  }

  /**
   * Backfill exactness of one call: after it every live cursor still stands for exactly what its
   * version misses below its position, empty scan-limited pages included; the answer extends its
   * caller's history accordingly, and completes the captured window when no cursor follows.
   */
  lemma VectorBackfillExact(passes: seq<VectorPass>, logs: DocumentId -> seq<UpdateMetadata>, handed: VectorLedger,
                            call: VectorCall)
    requires VectorTracked(passes, logs, handed)
    ensures VectorFollowed(Retain(passes, VectorUnexpired(call.clock.now)),
      Backfill(passes, logs(call.context.documentId), call), logs, handed, call)
  {
    hide VectorTracked, OpenVector, FollowVector, VectorFollowed;
    RetainVectorTracked(passes, VectorUnexpired(call.clock.now), logs, handed);
    var live := Retain(passes, VectorUnexpired(call.clock.now));
    match call.start
    case VectorOrigin => OpenVectorFollowed(live, logs, handed, call);
    case VectorContinue(_) => FollowVectorFollowed(live, logs, handed, call);
  }

  lemma VectorOwnerFound(live: seq<VectorPass>, p: VectorPass, logs: DocumentId -> seq<UpdateMetadata>,
                         handed: VectorLedger, token: seq<byte>)
    requires VectorTracked(live, logs, handed) && p in live && HoldsVectorToken(token)(p)
    ensures
      var found := Position(live, HoldsVectorToken(token));
      found.Some? && live[found.value] == p
  {
    hide GoodVectorPass, Quotas;
    var found := Position(live, HoldsVectorToken(token));
    var i :| 0 <= i < |live| && live[i] == p;
    assert found.Some?;
    var j := found.value;
    assert token in VectorTokens(live[j]) * VectorTokens(live[i]);
  }

  /** Replay of the consumed token, also of the one that fetched the last page. */
  lemma VectorReplayIdentical(passes: seq<VectorPass>, p: VectorPass, logs: DocumentId -> seq<UpdateMetadata>,
                              handed: VectorLedger, call: VectorCall)
    requires VectorTracked(passes, logs, handed) && p in passes && PresentsVector(p, call)
    requires p.retry.Some? && call.start == VectorContinue(p.retry.value.token)
    ensures Backfill(passes, logs(call.context.documentId), call)
         == VectorAnswer(Retain(passes, VectorUnexpired(call.clock.now)), ReadAuthorized(p.retry.value.response))
  {
    hide Orderly, GoodVectorPass;
    var live := Retain(passes, VectorUnexpired(call.clock.now));
    RetainVectorTracked(passes, VectorUnexpired(call.clock.now), logs, handed);
    RetainMembers(passes, VectorUnexpired(call.clock.now));
    VectorOwnerFound(live, p, logs, handed, call.start.encoded);
  }

  // ---- The windows behind the cursors -------------------------------------------------

  /** A pass as an advance leaves it: in its predecessor's window, keeping the consumed token for a retry. */
  predicate Continues(p: VectorPass, q: VectorPass, call: VectorCall) {
    && q.current.Some? && call.start == VectorContinue(q.current.value.token)
    && p.context == q.context && p.terminal == q.terminal
    && p.retry.Some? && p.retry.value.token == q.current.value.token
  }

  /** A pass as an origin leaves it: over the log as it is. */
  predicate Opens(p: VectorPass, metas: seq<UpdateMetadata>, call: VectorCall) {
    && call.start == VectorOrigin && p.context == call.context
    && p.terminal == |metas| && p.retry.None? && p.current.Some?
  }

  predicate HandsToken(answer: VectorAnswer, p: VectorPass) {
    p.current.Some? ==>
      answer.outcome.ReadAuthorized? && answer.outcome.response.nextCursor == Some(p.current.value.token)
  }

  /** Every pass after a call was there before, continues one that was, or was opened over the whole log. */
  ghost predicate VectorWindowed(live: seq<VectorPass>, answer: VectorAnswer, metas: seq<UpdateMetadata>, call: VectorCall) {
    forall p {:trigger p in answer.passes} :: p in answer.passes ==>
      || p in live
      || (HandsToken(answer, p) && (Opens(p, metas, call) || exists q :: q in live && Continues(p, q, call)))
  }

  lemma OpenVectorWindowed(live: seq<VectorPass>, metas: seq<UpdateMetadata>, call: VectorCall)
    requires call.start == VectorOrigin
    ensures VectorWindowed(live, OpenVector(live, metas, call), metas, call)
  {
    hide VectorPage, AllTokens, Mint, CanAdmit;
    RetainMembers(live, OutsideKey(call.context, call.version));
  }

  lemma AdvanceVectorWindowed(live: seq<VectorPass>, i: nat, metas: seq<UpdateMetadata>, call: VectorCall)
    requires i < |live| && live[i].current.Some? && call.start == VectorContinue(live[i].current.value.token)
    ensures VectorWindowed(live, AdvanceVector(live, i, live[i].current.value.position, metas, call), metas, call)
  {
    hide VectorPage, AllTokens, Mint;
    SwapRemoveMembers(live, i);
    var answer := AdvanceVector(live, i, live[i].current.value.position, metas, call);
    assert live[i] in live;
    if answer.outcome.ReadAuthorized? {
      var p := answer.passes[i];
      assert Continues(p, live[i], call) && HandsToken(answer, p);
      forall r | r in answer.passes ensures r == p || r in live {}
    }
  }

  lemma FollowVectorWindowed(live: seq<VectorPass>, metas: seq<UpdateMetadata>, call: VectorCall)
    requires call.start.VectorContinue?
    ensures VectorWindowed(live, FollowVector(live, metas, call), metas, call)
  {
    hide AdvanceVector;
    var found := Position(live, HoldsVectorToken(call.start.encoded));
    if |call.start.encoded| == CONTINUATION_LENGTH && found.Some? {
      var p := live[found.value];
      if p.current.Some? && p.current.value.token == call.start.encoded {
        AdvanceVectorWindowed(live, found.value, metas, call);
      }
    }
  }

  /** The windows of one call. */
  lemma BackfillWindowed(passes: seq<VectorPass>, metas: seq<UpdateMetadata>, call: VectorCall)
    ensures VectorWindowed(Retain(passes, VectorUnexpired(call.clock.now)), Backfill(passes, metas, call), metas, call)
  {
    hide OpenVector, FollowVector, VectorWindowed;
    var live := Retain(passes, VectorUnexpired(call.clock.now));
    match call.start
    case VectorOrigin => OpenVectorWindowed(live, metas, call);
    case VectorContinue(_) => FollowVectorWindowed(live, metas, call);
  }

  /** The pass an answer's cursor belongs to: opened or continued by the call, or the one it replays. */
  ghost predicate OwnsCursor(live: seq<VectorPass>, p: VectorPass, response: VectorResponse,
                             metas: seq<UpdateMetadata>, call: VectorCall)
  {
    && p.current.Some? && response.nextCursor == Some(p.current.value.token)
    && (|| Opens(p, metas, call)
        || (exists q :: q in live && Continues(p, q, call))
        || (p in live && p.context == call.context && p.retry.Some? && call.start == VectorContinue(p.retry.value.token)))
  }

  ghost predicate CursorOwned(live: seq<VectorPass>, answer: VectorAnswer, metas: seq<UpdateMetadata>, call: VectorCall) {
    answer.outcome.ReadAuthorized? && answer.outcome.response.nextCursor.Some? ==>
      exists p :: p in answer.passes && OwnsCursor(live, p, answer.outcome.response, metas, call)
  }

  lemma OpenVectorOwned(live: seq<VectorPass>, metas: seq<UpdateMetadata>, call: VectorCall)
    requires call.start == VectorOrigin
    ensures CursorOwned(live, OpenVector(live, metas, call), metas, call)
  {
    hide VectorPage, AllTokens, Mint, CanAdmit;
    var answer := OpenVector(live, metas, call);
    if answer.outcome.ReadAuthorized? && answer.outcome.response.nextCursor.Some? {
      var p := answer.passes[|answer.passes| - 1];
      assert p in answer.passes && Opens(p, metas, call);
    }
  }

  lemma AdvanceVectorOwned(live: seq<VectorPass>, i: nat, metas: seq<UpdateMetadata>, call: VectorCall)
    requires i < |live| && live[i].current.Some? && call.start == VectorContinue(live[i].current.value.token)
    ensures CursorOwned(live, AdvanceVector(live, i, live[i].current.value.position, metas, call), metas, call)
  {
    hide VectorPage, AllTokens, Mint;
    var answer := AdvanceVector(live, i, live[i].current.value.position, metas, call);
    if answer.outcome.ReadAuthorized? && answer.outcome.response.nextCursor.Some? {
      var p := answer.passes[i];
      assert p in answer.passes && live[i] in live && Continues(p, live[i], call);
    }
  }

  lemma FollowVectorOwned(live: seq<VectorPass>, logs: DocumentId -> seq<UpdateMetadata>, handed: VectorLedger,
                          call: VectorCall)
    requires VectorTracked(live, logs, handed) && call.start.VectorContinue?
    ensures CursorOwned(live, FollowVector(live, logs(call.context.documentId), call), logs(call.context.documentId), call)
  {
    hide Orderly, AdvanceVector, CursorOwned;
    var metas := logs(call.context.documentId);
    var found := Position(live, HoldsVectorToken(call.start.encoded));
    NothingOwned(live, metas, call);
    if |call.start.encoded| == CONTINUATION_LENGTH && found.Some? && PresentsVector(live[found.value], call) {
      var p := live[found.value];
      assert p in live && GoodVectorPass(p, metas, handed);
      if p.retry.Some? && p.retry.value.token == call.start.encoded {
        ReplayVectorOwned(live, p, metas, call);
      } else if p.current.Some? && p.current.value.token == call.start.encoded {
        AdvanceVectorOwned(live, found.value, metas, call);
      }
    }
  }

  lemma NothingOwned(live: seq<VectorPass>, metas: seq<UpdateMetadata>, call: VectorCall)
    ensures CursorOwned(live, VectorAnswer(live, InvalidContinuation), metas, call)
  {
  }

  lemma ReplayVectorOwned(live: seq<VectorPass>, p: VectorPass, metas: seq<UpdateMetadata>, call: VectorCall)
    requires p in live && p.context == call.context && p.retry.Some? && call.start == VectorContinue(p.retry.value.token)
    requires p.retry.value.response.nextCursor == if p.current.Some? then Some(p.current.value.token) else None
    ensures CursorOwned(live, VectorAnswer(live, ReadAuthorized(p.retry.value.response)), metas, call)
  {
    if p.current.Some? { assert OwnsCursor(live, p, p.retry.value.response, metas, call); }
  }

  /** Every cursor handed out belongs to a pass the call leaves behind. */
  lemma BackfillOwned(passes: seq<VectorPass>, logs: DocumentId -> seq<UpdateMetadata>, handed: VectorLedger,
                      call: VectorCall)
    requires VectorTracked(passes, logs, handed)
    ensures CursorOwned(Retain(passes, VectorUnexpired(call.clock.now)),
                        Backfill(passes, logs(call.context.documentId), call), logs(call.context.documentId), call)
  {
    hide VectorTracked, OpenVector, FollowVector, CursorOwned;
    RetainVectorTracked(passes, VectorUnexpired(call.clock.now), logs, handed);
    var live := Retain(passes, VectorUnexpired(call.clock.now));
    match call.start
    case VectorOrigin => OpenVectorOwned(live, logs(call.context.documentId), call);
    case VectorContinue(_) => FollowVectorOwned(live, logs, handed, call);
  }

  // ---- What a call retains ----------------------------------------------------------------

  /** The pass that retains an answer for a replay of the cursor it was given for. */
  predicate VectorRetains(p: VectorPass, call: VectorCall, response: VectorResponse) {
    && p.context == call.context && p.version == call.version
    && p.retry.Some? && call.start == VectorContinue(p.retry.value.token)
    && p.retry.value.response == response
  }

  ghost predicate VectorRetained(answer: VectorAnswer, call: VectorCall) {
    answer.outcome.ReadAuthorized? ==>
      exists p :: p in answer.passes && VectorRetains(p, call, answer.outcome.response)
  }

  lemma AdvanceVectorRetained(live: seq<VectorPass>, i: nat, position: nat, metas: seq<UpdateMetadata>, call: VectorCall)
    requires i < |live| && call.start.VectorContinue? && |call.start.encoded| == CONTINUATION_LENGTH
    requires live[i].context == call.context && live[i].version == call.version
    ensures VectorRetained(AdvanceVector(live, i, position, metas, call), call)
  {
    hide VectorPage, AllTokens, Mint;
    var answer := AdvanceVector(live, i, position, metas, call);
    if answer.outcome.ReadAuthorized? {
      assert answer.passes[i] in answer.passes;
      assert VectorRetains(answer.passes[i], call, answer.outcome.response);
    }
  }

  /** Every page a cursor was presented for is retained for a replay, the last one too. */
  lemma BackfillRetained(passes: seq<VectorPass>, metas: seq<UpdateMetadata>, call: VectorCall)
    requires call.start.VectorContinue?
    ensures VectorRetained(Backfill(passes, metas, call), call)
  {
    hide AdvanceVector;
    var live := Retain(passes, VectorUnexpired(call.clock.now));
    var found := Position(live, HoldsVectorToken(call.start.encoded));
    if |call.start.encoded| == CONTINUATION_LENGTH && found.Some? && PresentsVector(live[found.value], call) {
      var p := live[found.value];
      assert p in live;
      if p.retry.Some? && p.retry.value.token == call.start.encoded {
        assert VectorRetains(p, call, p.retry.value.response);
      } else if p.current.Some? {
        AdvanceVectorRetained(live, found.value, p.current.value.position, metas, call);
      }
    }
  }

  // ---- What a call leaves in place ----------------------------------------------------------

  /** A call that drops a pass, may replace it, or takes it further with a page of its own. */
  predicate TouchesVector(call: VectorCall, q: VectorPass, outcome: ReadOutcome<VectorResponse>) {
    || q.expires <= call.clock.now
    || (call.start == VectorOrigin && q.context == call.context && q.version == call.version)
    || (q.current.Some? && call.start == VectorContinue(q.current.value.token) && outcome.ReadAuthorized?)
  }

  ghost predicate LeavesVectors(live: seq<VectorPass>, answer: VectorAnswer, call: VectorCall) {
    forall q :: q in live && !TouchesVector(call, q, answer.outcome) ==> q in answer.passes
  }

  lemma ReplacedVectorInPlace(live: seq<VectorPass>, i: nat, p: VectorPass)
    requires i < |live|
    ensures forall q :: q in live && q != live[i] ==> q in live[i := p]
  {
    forall q | q in live && q != live[i] ensures q in live[i := p] {
      var k :| 0 <= k < |live| && live[k] == q;
      assert live[i := p][k] == q;
    }
  }

  lemma AdvanceVectorInPlace(live: seq<VectorPass>, i: nat, logs: DocumentId -> seq<UpdateMetadata>,
                             handed: VectorLedger, call: VectorCall)
    requires VectorTracked(live, logs, handed) && i < |live| && live[i].context == call.context
    requires live[i].current.Some? && call.start == VectorContinue(live[i].current.value.token)
    ensures LeavesVectors(live,
      AdvanceVector(live, i, live[i].current.value.position, logs(call.context.documentId), call), call)
  {
    hide Orderly, VectorPage, AllTokens, Mint, VectorAdvanced, GoodVectorRetry, Relevant;
    assert live[i] in live && GoodVectorPass(live[i], logs(call.context.documentId), handed);
    var answer := AdvanceVector(live, i, live[i].current.value.position, logs(call.context.documentId), call);
    if answer.outcome.ReadAuthorized? { ReplacedVectorInPlace(live, i, answer.passes[i]); }
  }

  lemma OpenVectorInPlace(live: seq<VectorPass>, metas: seq<UpdateMetadata>, call: VectorCall)
    requires call.start == VectorOrigin
    ensures LeavesVectors(live, OpenVector(live, metas, call), call)
  {
    hide VectorPage, AllTokens, Mint, CanAdmit;
    RetainMembers(live, OutsideKey(call.context, call.version));
  }

  lemma FollowVectorInPlace(live: seq<VectorPass>, logs: DocumentId -> seq<UpdateMetadata>, handed: VectorLedger,
                            call: VectorCall)
    requires VectorTracked(live, logs, handed) && call.start.VectorContinue?
    ensures LeavesVectors(live, FollowVector(live, logs(call.context.documentId), call), call)
  {
    hide VectorTracked, AdvanceVector;
    var found := Position(live, HoldsVectorToken(call.start.encoded));
    if |call.start.encoded| == CONTINUATION_LENGTH && found.Some? && PresentsVector(live[found.value], call) {
      var p := live[found.value];
      if p.current.Some? && p.current.value.token == call.start.encoded {
        AdvanceVectorInPlace(live, found.value, logs, handed, call);
      }
    }
  }

  /** A call moves no pass but one that has expired, that its caller replaces, or whose cursor it follows. */
  lemma BackfillInPlace(passes: seq<VectorPass>, logs: DocumentId -> seq<UpdateMetadata>, handed: VectorLedger,
                        call: VectorCall)
    requires VectorTracked(passes, logs, handed)
    ensures LeavesVectors(passes, Backfill(passes, logs(call.context.documentId), call), call)
  {
    hide VectorTracked, OpenVector, FollowVector;
    var live := Retain(passes, VectorUnexpired(call.clock.now));
    RetainVectorTracked(passes, VectorUnexpired(call.clock.now), logs, handed);
    RetainMembers(passes, VectorUnexpired(call.clock.now));
    match call.start
    case VectorOrigin => OpenVectorInPlace(live, logs(call.context.documentId), call);
    case VectorContinue(_) => FollowVectorInPlace(live, logs, handed, call);
  }
}
