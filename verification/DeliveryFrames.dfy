/** What each delivery step leaves alone: tables, subscription entries and joining lengths. */
module DeliveryFrames {
  import opened Prelude
  import opened Types
  import opened UpdateRecord
  import opened Tables
  import opened Control
  import opened UpdateLog
  import opened History
  import opened Subscriptions
  import opened Delivery
  import opened DeliveryProofs

  // ---- One task's step ---------------------------------------------------------------

  /** A step of one task moves things along: tables, entries and joining lengths stay. */
  ghost predicate Moves(x: System, y: System) {
    && y.db == x.db
    && y.links.Keys == x.links.Keys && (forall id :: id in x.links ==> y.links[id].since == x.links[id].since)
    && y.registry.cells.Keys == x.registry.cells.Keys
    && (forall id :: id in x.registry.cells ==> y.registry.cells[id].entry == x.registry.cells[id].entry)
  }

  lemma SameMoves(x: System, y: System)
    requires y.db == x.db && y.links == x.links && y.registry.cells == x.registry.cells
    ensures Moves(x, y)
  {
  }

  lemma MovesChain(x: System, y: System, z: System)
    requires Moves(x, y) && Moves(y, z)
    ensures Moves(x, z)
  {
  }

  lemma LinkMoves(x: System, id: nat, f: Forwarder)
    requires id in x.links
    ensures Moves(x, WithForwarder(x, id, f))
  {
  }

  lemma CellMoves(x: System, q: Registry, id: nat)
    requires id in x.registry.cells && id in q.cells && q.cells[id].entry == x.registry.cells[id].entry
    requires q.cells == x.registry.cells[id := q.cells[id]]
    ensures Moves(x, x.(registry := q))
  {
  }

  lemma GoneMoves(x: System, id: nat)
    requires id in x.links && id in x.registry.cells
    ensures Moves(x, Gone(x, id))
  {
    hide Moves;
    var y := x.(registry := CancelledIn(x.registry, id));
    CellMoves(x, CancelledIn(x.registry, id), id);
    LinkMoves(y, id, Finished);
    MovesChain(x, y, Gone(x, id));
  }

  lemma PollMoves(x: System, id: nat)
    requires id in x.links && id in x.registry.cells && id in x.received
    ensures Moves(x, AfterPoll(x, id))
  {
    hide Moves;
    var q := Polled(x.registry, id);
    var y := x.(registry := q);
    CellMoves(x, q, id);
    if q.cells[id].state.Some? {
      LinkMoves(y, id, Announcing);
      MovesChain(x, y, AfterPoll(x, id));
    } else if x.registry.cells[id].queue != [] {
      var taken := x.registry.cells[id].queue[0];
      var z := y.(received := y.received[id := y.received[id] + [taken]]);
      SameMoves(y, z);
      MovesChain(x, y, z);
      LinkMoves(z, id, Taken(taken));
      MovesChain(x, z, AfterPoll(x, id));
    }
  }

  lemma PushMoves(x: System, id: nat)
    requires id in x.links && id in x.registry.cells && x.links[id].forwarder.Holding?
    ensures Moves(x, AfterPush(x, id))
  {
    hide Moves, Gone;
    var channel := x.registry.cells[id].entry.channel;
    if channel !in x.connections {
      GoneMoves(x, id);
    } else if Full(x, channel) {
      OverflowMoves(x, id);
    } else {
      var y := WithEvent(x, channel, Wakeup(Notice(id, x.links[id].forwarder.updateId)));
      SameMoves(x, y);
      LinkMoves(y, id, Polling);
      MovesChain(x, y, AfterPush(x, id));
    }
  }

  lemma OverflowMoves(x: System, id: nat)
    requires id in x.links && id in x.registry.cells
    ensures Moves(x, WithForwarder(x.(registry := CancelledIn(x.registry, id)), id, Overflowing))
  {
    hide Moves;
    var y := x.(registry := CancelledIn(x.registry, id));
    CellMoves(x, CancelledIn(x.registry, id), id);
    LinkMoves(y, id, Overflowing);
    MovesChain(x, y, WithForwarder(y, id, Overflowing));
  }

  lemma AnnounceMoves(x: System, id: nat)
    requires id in x.links && id in x.registry.cells
    ensures Moves(x, AfterAnnounce(x, id))
  {
    hide Moves, Gone, WithEvent;
    var channel := x.registry.cells[id].entry.channel;
    var state := x.registry.cells[id].state;
    var waiting := x.links[id].forwarder == Overflowing;
    if channel !in x.connections || !(waiting || Announced(state)) {
      GoneMoves(x, id);
    } else if !Full(x, channel) {
      var e := Ending(id, waiting || state == Some(Overflowed));
      var y := WithEvent(x, channel, e);
      EventMoves(x, channel, e);
      GoneMoves(y, id);
      MovesChain(x, y, Gone(y, id));
    } else if waiting {
      SameMoves(x, x);
    } else {
      OverflowMoves(x, id);
    }
  }

  lemma EventMoves(x: System, channel: nat, e: ConnectionEvent)
    requires channel in x.connections
    ensures
      var y := WithEvent(x, channel, e);
      Moves(x, y) && y.links == x.links && y.registry == x.registry
  {
  }

  lemma RecheckMoves(x: System, id: nat)
    requires id in x.links && id in x.registry.cells
    ensures
      var q := x.registry.(cells := x.registry.cells[id := Invalidate(x.registry.cells[id], ChannelLost)]);
      Moves(x, WithForwarder(x.(registry := q), id, Announcing))
    ensures forall u :: Moves(x, WithForwarder(x, id, Holding(u)))
  {
    hide Moves;
    var q := x.registry.(cells := x.registry.cells[id := Invalidate(x.registry.cells[id], ChannelLost)]);
    var y := x.(registry := q);
    CellMoves(x, q, id);
    LinkMoves(y, id, Announcing);
    MovesChain(x, y, WithForwarder(y, id, Announcing));
    forall u ensures Moves(x, WithForwarder(x, id, Holding(u))) {
      LinkMoves(x, id, Holding(u));
    }
  }

  lemma DequeueMoves(s: Scheme, x: System, channel: nat)
    requires SystemInv(x)
    ensures Moves(x, Next(s, x, Dequeue(channel)))
  {
    hide SystemInv, Moves;
    SameMoves(x, Next(s, x, Dequeue(channel)));
  }

  lemma EnterMoves(s: Scheme, x: System, channel: nat)
    requires SystemInv(x)
    ensures Moves(x, Next(s, x, Enter(channel)))
  {
    hide SystemInv, WriteLocked, Moves;
    SameMoves(x, Next(s, x, Enter(channel)));
  }

  lemma CheckMoves(s: Scheme, x: System, channel: nat)
    requires SystemInv(x)
    ensures Moves(x, Next(s, x, Check(channel)))
  {
    hide SystemInv, MayEmit, Moves;
    SameMoves(x, Next(s, x, Check(channel)));
  }

  lemma OpenMoves(s: Scheme, x: System)
    requires SystemInv(x)
    ensures Moves(x, Next(s, x, OpenConnection))
  {
    hide SystemInv, Moves, AfterMutate, AfterSubscribe, AfterPoll, AfterPush, AfterWrite, AfterDequeue, AfterAnnounce,
      EmissionGate, Closed, Gone, MayEmit, WithForwarder, WithWriter, WriteLocked, ReadLocked, Occupants;
    SameMoves(x, Next(s, x, OpenConnection));
  }

  lemma CloseMoves(s: Scheme, x: System, channel: nat)
    requires SystemInv(x)
    ensures Moves(x, Next(s, x, CloseConnection(channel)))
  {
    hide SystemInv, Moves;
    SameMoves(x, Next(s, x, CloseConnection(channel)));
  }

  lemma WriteMoves(s: Scheme, x: System, channel: nat)
    requires SystemInv(x)
    ensures Moves(x, Next(s, x, Write(channel)))
  {
    hide SystemInv, Wired, Moves;
    SystemFacts(x);
    if channel in x.connections && x.connections[channel].writer.Cleared? {
      NoticeLinked(x, channel);
    }
    SameMoves(x, Next(s, x, Write(channel)));
  }

  lemma AskMoves(s: Scheme, x: System, revoker: nat, request: RevokeRequest)
    requires SystemInv(x)
    ensures Moves(x, Next(s, x, Ask(revoker, request)))
  {
    hide SystemInv, EmissionGate, Moves;
    GateLinks(x, request.documentId);
    SameMoves(x, Next(s, x, Ask(revoker, request)));
  }

  lemma AdmitMoves(s: Scheme, x: System, revoker: nat)
    requires SystemInv(x)
    ensures Moves(x, Next(s, x, Admit(revoker)))
  {
    hide SystemInv, Moves, AfterMutate, AfterSubscribe, AfterPoll, AfterPush, AfterWrite, AfterDequeue, AfterAnnounce,
      EmissionGate, Closed, Gone, MayEmit, WithForwarder, WithWriter, WriteLocked, ReadLocked, Occupants;
    SameMoves(x, Next(s, x, Admit(revoker)));
  }

  lemma ExcludeMoves(s: Scheme, x: System, revoker: nat)
    requires SystemInv(x)
    ensures Moves(x, Next(s, x, Exclude(revoker)))
  {
    hide SystemInv, WriteLocked, ReadLocked, Moves;
    SameMoves(x, Next(s, x, Exclude(revoker)));
  }

  lemma AbandonMoves(s: Scheme, x: System, revoker: nat)
    requires SystemInv(x)
    ensures Moves(x, Next(s, x, Abandon(revoker)))
  {
    hide SystemInv, Moves;
    SameMoves(x, Next(s, x, Abandon(revoker)));
  }

  lemma PollStepMoves(s: Scheme, x: System, id: nat)
    requires SystemInv(x)
    ensures Moves(x, Next(s, x, Poll(id)))
  {
    hide SystemInv, Wired, AfterPoll, Moves;
    SystemFacts(x);
    SameMoves(x, x);
    if id in x.links {
      LinkedCells(x, id);
      PollMoves(x, id);
    }
  }

  lemma RecheckStepMoves(s: Scheme, x: System, id: nat)
    requires SystemInv(x)
    ensures Moves(x, Next(s, x, Recheck(id)))
  {
    hide SystemInv, Wired, Moves, Invalidate, WithForwarder, MayEmit;
    SystemFacts(x);
    SameMoves(x, x);
    if id in x.links {
      LinkedCells(x, id);
      RecheckMoves(x, id);
    }
  }

  lemma PushStepMoves(s: Scheme, x: System, id: nat)
    requires SystemInv(x)
    ensures Moves(x, Next(s, x, Push(id)))
  {
    hide SystemInv, Wired, AfterPush, Moves;
    SystemFacts(x);
    SameMoves(x, x);
    if id in x.links && x.links[id].forwarder.Holding? {
      LinkedCells(x, id);
      PushMoves(x, id);
    }
  }

  lemma AnnounceStepMoves(s: Scheme, x: System, id: nat)
    requires SystemInv(x)
    ensures Moves(x, Next(s, x, Announce(id)))
  {
    hide SystemInv, Wired, AfterAnnounce, Moves;
    SystemFacts(x);
    SameMoves(x, x);
    if id in x.links {
      LinkedCells(x, id);
      AnnounceMoves(x, id);
    }
  }

  lemma DropStepMoves(s: Scheme, x: System, id: nat)
    requires SystemInv(x)
    ensures Moves(x, Next(s, x, Drop(id)))
  {
    hide SystemInv, Wired, Gone, Moves;
    SystemFacts(x);
    SameMoves(x, x);
    if id in x.links {
      LinkedCells(x, id);
      GoneMoves(x, id);
    }
  }

  /** Neither a command, nor a commit, nor a subscription, nor a closed lease. */
  predicate Plain(step: Step) {
    !step.Mutate? && !step.Commit? && !step.Subscribe? && !step.CloseChannel?
  }

  lemma PlainMoves(s: Scheme, x: System, step: Step)
    requires SystemInv(x) && Plain(step)
    ensures Moves(x, Next(s, x, step))
  {
    hide SystemInv, Next, Moves;
    match step
    case Poll(id) => PollStepMoves(s, x, id);
    case Recheck(id) => RecheckStepMoves(s, x, id);
    case Push(id) => PushStepMoves(s, x, id);
    case Announce(id) => AnnounceStepMoves(s, x, id);
    case Drop(id) => DropStepMoves(s, x, id);
    case Dequeue(channel) => DequeueMoves(s, x, channel);
    case Enter(channel) => EnterMoves(s, x, channel);
    case Check(channel) => CheckMoves(s, x, channel);
    case Write(channel) => WriteMoves(s, x, channel);
    case OpenConnection => OpenMoves(s, x);
    case CloseConnection(channel) => CloseMoves(s, x, channel);
    case Ask(revoker, request) => AskMoves(s, x, revoker, request);
    case Admit(revoker) => AdmitMoves(s, x, revoker);
    case Exclude(revoker) => ExcludeMoves(s, x, revoker);
    case Abandon(revoker) => AbandonMoves(s, x, revoker);
  }

  // ---- Tables ------------------------------------------------------------------------

  lemma SubscribeTables(s: Scheme, x: System, channel: nat, documentId: DocumentId, capability: CapabilityId,
                        secret: Authenticator)
    requires SystemInv(x)
    ensures AfterSubscribe(s, x, channel, documentId, capability, secret).db == x.db
  {
    hide SystemInv, Subscribed, Pruned, AccessTo, EmissionGate;
    SystemFacts(x);
    RegistryLinked(x.registry);
    GateLinks(x.(registry := Pruned(x.registry)), documentId);
  }

  lemma CloseTables(s: Scheme, x: System, channel: nat)
    requires SystemInv(x)
    ensures Next(s, x, CloseChannel(channel)).db == x.db
  {
    hide SystemInv, Closed;
  }

  lemma EchoMutate(s: Scheme, x: System, command: Command)
    requires SystemInv(x)
    ensures AfterMutate(s, x, command).db
         == if command.RevokeCapability? then x.db else Execute(s, x.db, command)
  {
    hide Inv, RegistryInv, Wired, GoodGates, OneGate, Exclusive, Complete,
      Serving, Fenced, AfterCreate, AfterGrant, AcceptDecision, DecodeUpdateRecord, AcceptCommit,
      Notified, Ended;
  }

  lemma EchoCommit(s: Scheme, x: System, revoker: nat)
    requires SystemInv(x) && revoker in x.revokers
    ensures AfterCommit(s, x, revoker).db == AfterRevoke(s, x.db, x.revokers[revoker].request)
  {
    hide Inv, RegistryInv, Wired, GoodGates, OneGate, Exclusive, Complete,
      Serving, Fenced, RevokeDecision, RevokeCommit, Ended, RevokedContexts;
    if RevokeDecision(s, x.db, x.revokers[revoker].request) == Inserted {
      RevokeFacts(s, x.db, x.revokers[revoker].request);
    }
  }

  /** Only commands and commits change the tables. */
  lemma OtherTables(s: Scheme, x: System, step: Step)
    requires SystemInv(x) && !step.Mutate? && !step.Commit?
    ensures Next(s, x, step).db == x.db
  {
    hide SystemInv, Next, Moves;
    if Plain(step) {
      PlainMoves(s, x, step);
      MovesTables(x, Next(s, x, step));
    } else if step.CloseChannel? {
      CloseTables(s, x, step.channel);
    } else {
      SubscribeTables(s, x, step.channel, step.documentId, step.capability, step.secret);
      NextSubscribe(s, x, step);
    }
  }

  lemma MovesTables(x: System, y: System)
    requires Moves(x, y)
    ensures y.db == x.db
  {
  }

  lemma NextSubscribe(s: Scheme, x: System, step: Step)
    requires SystemInv(x) && step.Subscribe?
    ensures Next(s, x, step)
         == AfterSubscribe(s, x, step.channel, step.documentId, step.capability, step.secret)
  {
    hide SystemInv, AfterSubscribe;
  }

  // ---- Subscriptions -----------------------------------------------------------------

  /** Subscriptions keep their entries and the length they joined at. */
  ghost predicate SameLinks(x: System, y: System) {
    forall id {:trigger id in x.links} {:trigger id in y.links} :: id in x.links ==>
      && id in y.links && y.links[id].since == x.links[id].since
      && id in x.registry.cells && id in y.registry.cells
      && y.registry.cells[id].entry == x.registry.cells[id].entry
  }

  /** A step adds at most one subscription, and that one is active. */
  ghost predicate AddsActive(x: System, y: System) {
    forall id {:trigger id in y.links} :: id in y.links && id !in x.links ==>
      id in y.registry.cells && y.registry.cells[id].state.None?
  }

  lemma MilderLinks(x: System, y: System)
    requires Wired(x) && Milder(x.registry, y.registry)
    requires y.links.Keys == x.links.Keys && forall id :: id in x.links ==> y.links[id].since == x.links[id].since
    ensures SameLinks(x, y) && AddsActive(x, y)
  {
    hide WiredConnection;
    forall id | id in x.links ensures y.registry.cells[id].entry == x.registry.cells[id].entry {
      assert id in x.registry.cells;
    }
  }

  lemma MutateLinks(s: Scheme, x: System, command: Command)
    requires SystemInv(x)
    ensures
      var y := AfterMutate(s, x, command);
      SameLinks(x, y) && AddsActive(x, y)
  {
    hide SystemInv, RegistryInv, Wired, Execute, AcceptDecision, DecodeUpdateRecord, Notified, Ended,
      Milder, Quiets, SameLinks, AddsActive;
    var y := AfterMutate(s, x, command);
    SystemFacts(x);
    RegistryLinked(x.registry);
    SameIsMilder(x.registry);
    match command {
      case AcceptUpdate(a) =>
        match DecodeUpdateRecord(a.record) {
          case Success(u) => NotifiedCells(x.registry, u.documentId, u.updateId);
          case Failure(_) =>
        }
      case RetireDocument(id) =>
        EndedQuiet(x.registry, ForDocument(id), Retired);
        QuietIsMilder(x.registry, Ended(x.registry, ForDocument(id), Retired));
      case _ =>
    }
    MilderLinks(x, y);
  }

  lemma SystemFacts(x: System)
    requires SystemInv(x)
    ensures RegistryInv(x.registry) && Wired(x)
  {
  }

  lemma SameIsMilder(r: Registry)
    ensures Milder(r, r)
  {
  }

  lemma QuietIsMilder(r: Registry, q: Registry)
    requires Quiets(r, q)
    ensures Milder(r, q)
  {
  }

  lemma SubscribeLinks(s: Scheme, x: System, channel: nat, documentId: DocumentId, capability: CapabilityId,
                       secret: Authenticator)
    requires SystemInv(x)
    ensures
      var y := AfterSubscribe(s, x, channel, documentId, capability, secret);
      SameLinks(x, y) && AddsActive(x, y)
  {
    hide SystemInv, RegistryInv, Wired, Subscribed, Pruned, AccessTo, Quiets,
      Milder, SameLinks, AddsActive, EmissionGate;
    SystemFacts(x);
    SameIsMilder(x.registry);
    var y := AfterSubscribe(s, x, channel, documentId, capability, secret);
    if channel in x.connections && AccessTo(s, x.db, documentId, capability, secret, Read) == Authorized {
      ConnectedIsLive(x, channel);
      RegistryLinked(x.registry);
      PruneQuiet(x.registry);
      QuietIsMilder(x.registry, Pruned(x.registry));
      SubscribedShape(x.registry, channel, documentId, capability);
      var (q, outcome) := Subscribed(x.registry, channel, documentId, capability);
      if outcome.Registered? {
        var p := x.(registry := Pruned(x.registry));
        MilderLinks(x, p);
        GateLinks(p, documentId);
        AddedLinks(x, p, y, Entry(outcome.id, documentId, capability, channel));
      } else {
        MilderLinks(x, y);
      }
    } else {
      MilderLinks(x, y);
    }
  }

  lemma ConnectedIsLive(x: System, channel: nat)
    requires Wired(x) && channel in x.connections
    ensures channel in x.registry.live
  {
  }

  lemma GateLinks(x: System, documentId: DocumentId)
    ensures
      var y := EmissionGate(x, documentId).0;
      y == x.(weak := y.weak, gates := y.gates)
  {
    hide Held;
  }

  /** One more subscription, active as registered, beside the old ones. */
  lemma AddedLinks(x: System, p: System, y: System, e: Entry)
    requires SameLinks(x, p) && p.links == x.links && e.id !in p.registry.cells
    requires y.registry.cells == p.registry.cells[e.id := Cell(e, None, [], false)]
    requires e.id in y.links && y.links == p.links[e.id := y.links[e.id]]
    ensures SameLinks(x, y) && AddsActive(x, y)
  {
  }

  lemma MovedLinks(x: System, y: System)
    requires Wired(x) && Moves(x, y)
    ensures SameLinks(x, y) && AddsActive(x, y)
  {
    hide WiredConnection;
  }

  lemma CommitLinks(s: Scheme, x: System, revoker: nat)
    requires SystemInv(x) && revoker in x.revokers
    ensures
      var y := AfterCommit(s, x, revoker);
      SameLinks(x, y) && AddsActive(x, y)
  {
    hide RegistryInv, Wired, RevokeDecision, AfterRevoke, Ended, RevokedContexts,
      Milder, Quiets, SameLinks, AddsActive, Inv, GoodGates, OneGate,
      Exclusive, Complete, Serving, Fenced;
    var r := x.revokers[revoker].request;
    SameIsMilder(x.registry);
    RegistryLinked(x.registry);
    if RevokeDecision(s, x.db, r) == Inserted && r.documentId in x.db.documents {
      EndedQuiet(x.registry, WithIds(RevokedContexts(x, r)), Revoked);
      QuietIsMilder(x.registry, Ended(x.registry, WithIds(RevokedContexts(x, r)), Revoked));
    }
    MilderLinks(x, AfterCommit(s, x, revoker));
  }

  lemma CloseLinks(s: Scheme, x: System, channel: nat)
    requires SystemInv(x)
    ensures
      var y := Next(s, x, CloseChannel(channel));
      SameLinks(x, y) && AddsActive(x, y)
  {
    hide Inv, RegistryInv, WiredConnection, GoodGates, OneGate, Exclusive,
      Complete, Serving, Fenced, Closed;
    if channel in x.registry.live && channel !in x.connections {
      ClosedQuiet(x.registry, channel);
    }
  }

  lemma NextLinks(s: Scheme, x: System, step: Step)
    requires SystemInv(x)
    ensures
      var y := Next(s, x, step);
      SameLinks(x, y) && AddsActive(x, y)
  {
    hide SystemInv, SameLinks, AddsActive, AfterMutate, AfterCommit, AfterSubscribe, Moves, Wired;
    SystemFacts(x);
    if Plain(step) {
      PlainLinks(s, x, step);
    } else {
      match step
      case Mutate(command) => MutateLinks(s, x, command);
      case Subscribe(channel, documentId, capability, secret) =>
        SubscribeLinks(s, x, channel, documentId, capability, secret);
      case Commit(revoker) =>
        if revoker in x.revokers { CommitLinks(s, x, revoker); }
        NothingLinks(x);
      case CloseChannel(channel) => CloseLinks(s, x, channel);
      case _ =>
    }
  }

  lemma PlainLinks(s: Scheme, x: System, step: Step)
    requires SystemInv(x) && Plain(step)
    ensures
      var y := Next(s, x, step);
      SameLinks(x, y) && AddsActive(x, y)
  {
    hide SystemInv, SameLinks, AddsActive, Next, Moves, Wired;
    SystemFacts(x);
    PlainMoves(s, x, step);
    MovedLinks(x, Next(s, x, step));
  }

  lemma NothingLinks(x: System)
    requires Wired(x)
    ensures SameLinks(x, x) && AddsActive(x, x)
  {
    hide WiredConnection;
  }
}
