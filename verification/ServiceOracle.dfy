/** Whole runs of the service against the reference model fed with the same authorized updates. */
module ServiceOracle {
  import opened Prelude
  import opened Types
  import opened Tables
  import opened Control
  import opened History
  import opened Reads
  import opened PassRegistry
  import opened VectorPasses
  import opened EnumerationPasses
  import opened Service
  import Oracle

  /** The metadata of a window, without its positions. */
  function Listed(window: seq<(nat, UpdateMetadata)>): seq<UpdateMetadata> {
    seq(|window|, i requires 0 <= i < |window| => window[i].1)
  }

  /** The reference model after a run: it accepted what the store was authorized to accept. */
  ghost function ModelOf(s: Scheme, authorities: map<CreateAuthorityId, CreateAuthorityRow>, events: seq<Event>)
    : Oracle.Model
  {
    InitialInv(authorities);
    Oracle.OracleRun(s, Initial(authorities), Oracle.EMPTY_MODEL, Commands(events))
  }

  lemma ServedCorresponds(s: Scheme, authorities: map<CreateAuthorityId, CreateAuthorityRow>, generation: Identifier,
                          events: seq<Event>)
    ensures
      var z := Serve(s, Fresh(authorities, generation), events);
      Inv(z.db) && Oracle.Corresponds(ModelOf(s, authorities, events), z.db)
  {
    hide Inv, Serve, Run, Oracle.OracleRun, Oracle.Corresponds, Initial, Tracked, VectorTracked;
    InitialInv(authorities);
    ServeKeeps(s, Fresh(authorities, generation), events);
    ServeRunsCommands(s, Fresh(authorities, generation), events);
    Oracle.EveryRunCorresponds(s, authorities, Commands(events));
  }

  /** What the model wants of a captured window is what the version misses of the log's front. */
  lemma WantedIsRelevant(s: Scheme, m: Oracle.Model, db: Db, id: DocumentId, version: LoroOplogVersion, terminal: nat)
    requires Inv(db) && Oracle.Corresponds(m, db) && id in db.documents && terminal <= |LogOf(db)(id)|
    ensures Listed(Oracle.Wanted(version, Oracle.Window(m, id, 0, terminal)))
         == Relevant(version, LogOf(db)(id)[..terminal])
  {
    hide Inv, Oracle.Corresponds, Oracle.Wanted, Oracle.Window, Relevant, LogOf, Decodable, Metas;
    LogIsPublic(db, id);
    Oracle.BackfillRefines(m, db, id, version, terminal);
  }

  /**
   * Backfill equals the reference model: in every run, the pages a backfill has handed out together
   * are the model's selection from a front of the captured window, and from the whole window once
   * no cursor follows.
   */
  lemma BackfillIsOracle(s: Scheme, authorities: map<CreateAuthorityId, CreateAuthorityRow>, generation: Identifier,
                         events: seq<Event>, call: VectorCall, secret: Authenticator)
    requires call.budget == METADATA_BYTE_LIMIT
    requires CanRead(s, Serve(s, Fresh(authorities, generation), events).db, call.context, secret)
    ensures
      var z := Serve(s, Fresh(authorities, generation), events);
      var id := call.context.documentId;
      var m := ModelOf(s, authorities, events);
      var metas := LogOf(z.db)(id);
      var outcome := Backfill(z.vectors, metas, call).outcome;
      var before := VectorBefore(z.vectorHanded, call.start, metas);
      outcome.ReadAuthorized? ==>
        var all := before.updates + outcome.response.page.updates;
        && (exists k: nat :: k <= before.window && all == Listed(Oracle.Wanted(call.version, Oracle.Window(m, id, 0, k))))
        && (outcome.response.nextCursor.None? ==>
             all == Listed(Oracle.Wanted(call.version, Oracle.Window(m, id, 0, before.window))))
  {
    hide Inv, Serve, Fresh, CanRead, Backfill, LogOf, Oracle.Corresponds, Oracle.Wanted, Oracle.Window, ModelOf,
      Relevant, Decodable, Metas, Listed;
    var z := Serve(s, Fresh(authorities, generation), events);
    var id := call.context.documentId;
    var m := ModelOf(s, authorities, events);
    BackfillExactInEveryRun(s, authorities, generation, events, call, secret);
    ServedCorresponds(s, authorities, generation, events);
    LogIsPublic(z.db, id);
    var metas := LogOf(z.db)(id);
    var outcome := Backfill(z.vectors, metas, call).outcome;
    if outcome.ReadAuthorized? {
      var before := VectorBefore(z.vectorHanded, call.start, metas);
      var all := before.updates + outcome.response.page.updates;
      var k: nat :| k <= before.window && all == Relevant(call.version, metas[..k]);
      WantedIsRelevant(s, m, z.db, id, call.version, k);
      WantedIsRelevant(s, m, z.db, id, call.version, before.window);
    }
  }

  /**
   * Enumeration equals the reference model: in every run, the pages handed out together are the
   * model's acceptance window from the origin, and the whole of it at the cursorless tail.
   */
  lemma EnumerationIsOracle(s: Scheme, authorities: map<CreateAuthorityId, CreateAuthorityRow>, generation: Identifier,
                            events: seq<Event>, call: EnumerationCall, secret: Authenticator)
    requires call.budget == METADATA_BYTE_LIMIT
    requires CanRead(s, Serve(s, Fresh(authorities, generation), events).db, call.context, secret)
    ensures
      var z := Serve(s, Fresh(authorities, generation), events);
      forall p, id :: p in z.enumerations && p.context.documentId == id ==> WithinLog(p, LogOf(z.db)(id))
    ensures
      var z := Serve(s, Fresh(authorities, generation), events);
      var id := call.context.documentId;
      var m := ModelOf(s, authorities, events);
      var outcome := Enumerate(z.enumerations, z.generation, LogOf(z.db)(id), call).outcome;
      outcome.ReadAuthorized? ==>
        var all := HandedBefore(z.handed, call.start) + outcome.response.page.updates;
        && |all| <= |LogOf(z.db)(id)|
        && all == Listed(Oracle.Window(m, id, 0, |all|))
        && (outcome.response.nextCursor.None? ==> |all| == |LogOf(z.db)(id)|)
  {
    hide Inv, Serve, Fresh, CanRead, Enumerate, LogOf, Oracle.Corresponds, Oracle.Window, ModelOf, Decodable, Metas;
    var z := Serve(s, Fresh(authorities, generation), events);
    var id := call.context.documentId;
    var m := ModelOf(s, authorities, events);
    EnumerationExactInEveryRun(s, authorities, generation, events, call, secret);
    ServedCorresponds(s, authorities, generation, events);
    LogIsPublic(z.db, id);
    var outcome := Enumerate(z.enumerations, z.generation, LogOf(z.db)(id), call).outcome;
    if outcome.ReadAuthorized? {
      var all := HandedBefore(z.handed, call.start) + outcome.response.page.updates;
      Oracle.WindowIsSlice(m, z.db, id, 0, |all|);
    }
  }
}
