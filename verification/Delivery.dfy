/**
 * Notification delivery as interleaved steps: accepts notify, forwarders move wakeups into bounded
 * connection queues, writers recheck authority under a shared per-document gate, and revocations
 * commit under the same gate held exclusively.
 */
module Delivery {
  import opened Prelude
  import opened Types
  import opened UpdateRecord
  import opened CapabilityTree
  import opened Tables
  import opened Control
  import opened UpdateLog
  import opened History
  import opened Subscriptions

  const CONNECTION_EVENT_QUEUE_CAPACITY: nat := 64
  const MAX_CONTROL_WAITERS_PER_DOCUMENT: nat := 8

  datatype Notice = Notice(subscription: nat, updateId: UpdateId)

  /** A queued event: a wakeup that must pass the gate, or a terminal event that need not. */
  datatype ConnectionEvent = Wakeup(notice: Notice) | Ending(subscription: nat, overflow: bool)

  /**
   * Where a forwarding task is: polling, holding what it took, announcing an end, waiting for room
   * to announce an overflow, or gone.
   */
  datatype Forwarder =
    | Polling | Taken(updateId: UpdateId) | Holding(updateId: UpdateId) | Announcing | Overflowing | Finished

  /** A subscription object: the gate it holds, its forwarder, and the log length at registration. */
  datatype Link = Link(gate: nat, since: nat, forwarder: Forwarder)

  /** A connection's writer: idle, past the queue, inside the gate, or cleared to write. */
  datatype Writer = Idle | Dequeued(notice: Notice) | Entered(notice: Notice) | Cleared(notice: Notice)

  datatype Connection = Connection(events: seq<ConnectionEvent>, writer: Writer)

  datatype Phase = Waiting | Admitted | Excluding

  datatype Revoker = Revoker(request: RevokeRequest, gate: nat, phase: Phase)

  datatype Happening =
    | Wrote(documentId: DocumentId, capability: CapabilityId, subscription: nat, updateId: UpdateId)
    | Committed(documentId: DocumentId, target: CapabilityId)

  datatype System = System(
    db: Db,
    registry: Registry,
    links: map<nat, Link>,
    connections: map<nat, Connection>,
    gates: map<nat, DocumentId>,
    weak: map<DocumentId, nat>,
    revokers: map<nat, Revoker>,
    received: map<nat, seq<UpdateId>>,
    written: map<nat, seq<UpdateId>>,
    trace: seq<Happening>)

  datatype Step =
    | Mutate(command: Command)
    | OpenConnection
    | CloseConnection(channel: nat)
    | CloseChannel(channel: nat)
    | Subscribe(channel: nat, documentId: DocumentId, capability: CapabilityId, secret: Authenticator)
    | Poll(id: nat)
    | Recheck(id: nat)
    | Push(id: nat)
    | Announce(id: nat)
    | Drop(id: nat)
    | Dequeue(channel: nat)
    | Enter(channel: nat)
    | Check(channel: nat)
    | Write(channel: nat)
    | Ask(revoker: nat, request: RevokeRequest)
    | Admit(revoker: nat)
    | Exclude(revoker: nat)
    | Commit(revoker: nat)
    | Abandon(revoker: nat)

  // ---- Gates ---------------------------------------------------------------------

  predicate Mentions(c: Connection, id: nat) {
    (exists e :: e in c.events && e.Wakeup? && e.notice.subscription == id)
    || (!c.writer.Idle? && c.writer.notice.subscription == id)
  }

  /** A gate lives while a subscription object, an event in flight or a revoker still holds it. */
  ghost predicate Held(x: System, gate: nat) {
    || (exists id :: HeldBy(x, id, gate))
    || (exists c, id :: HeldInFlight(x, c, id, gate))
    || (exists r :: HeldByRevoker(x, r, gate))
  }

  predicate HeldBy(x: System, id: nat, gate: nat) {
    id in x.links && x.links[id].gate == gate && x.links[id].forwarder != Finished
  }

  predicate HeldInFlight(x: System, channel: nat, id: nat, gate: nat) {
    channel in x.connections && id in x.links && x.links[id].gate == gate && Mentions(x.connections[channel], id)
  }

  predicate HeldByRevoker(x: System, revoker: nat, gate: nat) {
    revoker in x.revokers && x.revokers[revoker].gate == gate
  }

  /** The weakly held gate of a document if it still lives, else a new one. */
  ghost function EmissionGate(x: System, documentId: DocumentId): (System, nat) {
    var weak := map d | d in x.weak && Held(x, x.weak[d]) :: x.weak[d];
    if documentId in weak then (x.(weak := weak), weak[documentId])
    else
      var gate := |x.gates|;
      (x.(weak := weak[documentId := gate], gates := x.gates[gate := documentId]), gate)
  }

  predicate Reads(w: Writer) {
    w.Entered? || w.Cleared?
  }

  /** Some writer is inside the gate. */
  ghost predicate ReadLocked(x: System, gate: nat) {
    exists c :: ReadLocks(x, c, gate)
  }

  predicate ReadLocks(x: System, channel: nat, gate: nat) {
    && channel in x.connections
    && Reads(x.connections[channel].writer)
    && x.connections[channel].writer.notice.subscription in x.links
    && x.links[x.connections[channel].writer.notice.subscription].gate == gate
  }

  ghost predicate WriteLocked(x: System, gate: nat) {
    exists r :: WriteLocks(x, r, gate)
  }

  predicate WriteLocks(x: System, revoker: nat, gate: nat) {
    revoker in x.revokers && x.revokers[revoker].gate == gate && x.revokers[revoker].phase == Excluding
  }

  function Occupants(x: System, gate: nat): set<nat> {
    set r | r in x.revokers && x.revokers[r].gate == gate && x.revokers[r].phase != Waiting
  }

  // ---- Steps ----------------------------------------------------------------------

  function WithForwarder(x: System, id: nat, f: Forwarder): System
    requires id in x.links
  {
    x.(links := x.links[id := x.links[id].(forwarder := f)])
  }

  function WithWriter(x: System, channel: nat, w: Writer): System
    requires channel in x.connections
  {
    x.(connections := x.connections[channel := x.connections[channel].(writer := w)])
  }

  ghost function AfterMutate(s: Scheme, x: System, command: Command): System
    requires SystemInv(x)
  {
    var db := Execute(s, x.db, command);
    match command
    case RevokeCapability(_) => x
    case AcceptUpdate(a) =>
      (match DecodeUpdateRecord(a.record)
       case Failure(_) => x
       case Success(u) =>
         if AcceptDecision(s, x.db, u, a) != AcceptInserted then x
         else x.(db := db, registry := Notified(x.registry, u.documentId, u.updateId)))
    case RetireDocument(id) =>
      if id in x.db.documents then x.(db := db, registry := Ended(x.registry, ForDocument(id), Retired)) else x
    case _ => x.(db := db)
  }

  ghost function AfterSubscribe(s: Scheme, x: System, channel: nat, documentId: DocumentId, capability: CapabilityId,
                                secret: Authenticator): System
    requires SystemInv(x)
  {
    if channel !in x.connections || AccessTo(s, x.db, documentId, capability, secret, Read) != Authorized then x
    else
      var (registry, outcome) := Subscribed(x.registry, channel, documentId, capability);
      match outcome
      case RegisterBackpressure => x.(registry := registry)
      case Registered(id) =>
        var (y, gate) := EmissionGate(x.(registry := Pruned(x.registry)), documentId);
        y.(registry := registry,
           links := y.links[id := Link(gate, |x.db.documents[documentId].log|, Polling)],
           received := y.received[id := []],
           written := y.written[id := []])
  }

  function AfterPoll(x: System, id: nat): System
    requires id in x.links && id in x.registry.cells && id in x.received
  {
    var registry := Polled(x.registry, id);
    var y := x.(registry := registry);
    if registry.cells[id].state.Some? then WithForwarder(y, id, Announcing)
    else if x.registry.cells[id].queue == [] then y
    else
      var taken := x.registry.cells[id].queue[0];
      WithForwarder(y.(received := y.received[id := y.received[id] + [taken]]), id, Taken(taken))
  }

  /** A task that ends drops its subscription, which cancels it unless it already ended. */
  function Gone(x: System, id: nat): System
    requires id in x.links && id in x.registry.cells
  {
    WithForwarder(x.(registry := CancelledIn(x.registry, id)), id, Finished)
  }

  function WithEvent(x: System, channel: nat, e: ConnectionEvent): System
    requires channel in x.connections
  {
    var c := x.connections[channel];
    x.(connections := x.connections[channel := c.(events := c.events + [e])])
  }

  predicate Full(x: System, channel: nat)
    requires channel in x.connections
  {
    |x.connections[channel].events| >= CONNECTION_EVENT_QUEUE_CAPACITY
  }

  function AfterPush(x: System, id: nat): System
    requires id in x.links && id in x.registry.cells && x.links[id].forwarder.Holding?
  {
    var channel := x.registry.cells[id].entry.channel;
    if channel !in x.connections then Gone(x, id)
    else if Full(x, channel) then WithForwarder(x.(registry := CancelledIn(x.registry, id)), id, Overflowing)
    else WithForwarder(WithEvent(x, channel, Wakeup(Notice(id, x.links[id].forwarder.updateId))), id, Polling)
  }

  /** Only an overflow, a revocation and a retirement are announced. */
  predicate Announced(state: Option<End>) {
    state == Some(Overflowed) || state == Some(Revoked) || state == Some(Retired)
  }

  function AfterAnnounce(x: System, id: nat): System
    requires id in x.links && id in x.registry.cells
  {
    var channel := x.registry.cells[id].entry.channel;
    var state := x.registry.cells[id].state;
    var waiting := x.links[id].forwarder == Overflowing;
    if channel !in x.connections || !(waiting || Announced(state)) then Gone(x, id)
    else if !Full(x, channel) then Gone(WithEvent(x, channel, Ending(id, waiting || state == Some(Overflowed))), id)
    else if waiting then x
    else WithForwarder(x.(registry := CancelledIn(x.registry, id)), id, Overflowing)
  }

  function AfterDequeue(x: System, channel: nat): System
    requires channel in x.connections && x.connections[channel].events != []
  {
    var c := x.connections[channel];
    var writer := match c.events[0] case Ending(_, _) => Idle case Wakeup(n) => Dequeued(n);
    x.(connections := x.connections[channel := Connection(c.events[1..], writer)])
  }

  /** The writer asks again, inside the gate, whether the subscription may still emit. */
  predicate MayEmit(x: System, id: nat) {
    id in x.registry.cells && x.registry.cells[id].state.None? && x.registry.cells[id].entry.channel in x.registry.live
  }

  function AfterWrite(x: System, channel: nat): System
    requires channel in x.connections && x.connections[channel].writer.Cleared?
    requires x.connections[channel].writer.notice.subscription in x.registry.cells
    requires x.connections[channel].writer.notice.subscription in x.written
  {
    var n := x.connections[channel].writer.notice;
    var e := x.registry.cells[n.subscription].entry;
    WithWriter(x, channel, Idle).(
      written := x.written[n.subscription := x.written[n.subscription] + [n.updateId]],
      trace := x.trace + [Wrote(e.documentId, e.capability, n.subscription, n.updateId)])
  }

  ghost function RevokedContexts(x: System, r: RevokeRequest): set<nat>
    requires SystemInv(x) && r.documentId in x.db.documents
  {
    set id | id in Contexts(x.registry, r.documentId)
      && Ancestor(x.db.documents[r.documentId].capabilities, r.target, x.registry.cells[id].entry.capability)
  }

  ghost function AfterCommit(s: Scheme, x: System, revoker: nat): System
    requires SystemInv(x) && revoker in x.revokers
  {
    var r := x.revokers[revoker].request;
    var y := x.(revokers := x.revokers - {revoker});
    if RevokeDecision(s, x.db, r) != Inserted || r.documentId !in x.db.documents then y
    else
      y.(db := AfterRevoke(s, x.db, r),
         registry := Ended(x.registry, WithIds(RevokedContexts(x, r)), Revoked),
         trace := x.trace + [Committed(r.documentId, r.target)])
  }

  ghost function Next(s: Scheme, x: System, step: Step): System
    requires SystemInv(x)
  {
    match step
    case Mutate(command) => AfterMutate(s, x, command)
    case OpenConnection =>
      if x.registry.nextChannel >= U64_MAX then x
      else
        var channel := x.registry.nextChannel;
        x.(registry := x.registry.(live := x.registry.live + {channel}, nextChannel := channel + 1),
           connections := x.connections[channel := Connection([], Idle)])
    case CloseConnection(channel) =>
      if channel !in x.connections then x else x.(connections := x.connections - {channel})
    case CloseChannel(channel) =>
      if channel !in x.registry.live || channel in x.connections then x
      else x.(registry := Closed(x.registry, channel))
    case Subscribe(channel, documentId, capability, secret) =>
      AfterSubscribe(s, x, channel, documentId, capability, secret)
    case Poll(id) => if id in x.links && x.links[id].forwarder == Polling then AfterPoll(x, id) else x
    case Recheck(id) =>
      if !(id in x.links && x.links[id].forwarder.Taken?) then x
      else if !MayEmit(x, id) then
        WithForwarder(x.(registry := x.registry.(cells := x.registry.cells[id :=
          Invalidate(x.registry.cells[id], ChannelLost)])), id, Announcing)
      else WithForwarder(x, id, Holding(x.links[id].forwarder.updateId))
    case Push(id) => if id in x.links && x.links[id].forwarder.Holding? then AfterPush(x, id) else x
    case Announce(id) =>
      if id in x.links && (x.links[id].forwarder == Announcing || x.links[id].forwarder == Overflowing)
        then AfterAnnounce(x, id) else x
    case Drop(id) => if id in x.links then Gone(x, id) else x
    case Dequeue(channel) =>
      if channel in x.connections && x.connections[channel].writer.Idle? && x.connections[channel].events != []
        then AfterDequeue(x, channel) else x
    case Enter(channel) =>
      if channel in x.connections && x.connections[channel].writer.Dequeued?
        && !WriteLocked(x, x.links[x.connections[channel].writer.notice.subscription].gate)
        then WithWriter(x, channel, Entered(x.connections[channel].writer.notice)) else x
    case Check(channel) =>
      if !(channel in x.connections && x.connections[channel].writer.Entered?) then x
      else
        var n := x.connections[channel].writer.notice;
        WithWriter(x, channel, if MayEmit(x, n.subscription) then Cleared(n) else Idle)
    case Write(channel) =>
      if channel in x.connections && x.connections[channel].writer.Cleared? then AfterWrite(x, channel) else x
    case Ask(revoker, request) =>
      if revoker in x.revokers then x
      else
        var (y, gate) := EmissionGate(x, request.documentId);
        y.(revokers := y.revokers[revoker := Revoker(request, gate, Waiting)])
    case Admit(revoker) =>
      if !(revoker in x.revokers && x.revokers[revoker].phase == Waiting) then x
      else if |Occupants(x, x.revokers[revoker].gate)| >= MAX_CONTROL_WAITERS_PER_DOCUMENT
        then x.(revokers := x.revokers - {revoker})
      else x.(revokers := x.revokers[revoker := x.revokers[revoker].(phase := Admitted)])
    case Exclude(revoker) =>
      if revoker in x.revokers && x.revokers[revoker].phase == Admitted
        && !ReadLocked(x, x.revokers[revoker].gate) && !WriteLocked(x, x.revokers[revoker].gate)
        then x.(revokers := x.revokers[revoker := x.revokers[revoker].(phase := Excluding)]) else x
    case Commit(revoker) =>
      if revoker in x.revokers && x.revokers[revoker].phase == Excluding then AfterCommit(s, x, revoker) else x
    case Abandon(revoker) =>
      if revoker in x.revokers then x.(revokers := x.revokers - {revoker}) else x
  }

  // ---- Invariants -------------------------------------------------------------------

  /** Every notice in flight belongs to a subscription of the connection that carries it. */
  ghost predicate WiredConnection(x: System, channel: nat, c: Connection) {
    forall id :: Mentions(c, id) ==>
      id in x.links && id in x.registry.cells && x.registry.cells[id].entry.channel == channel
  }

  ghost predicate Wired(x: System) {
    && x.links.Keys == x.registry.cells.Keys == x.written.Keys == x.received.Keys
    && x.connections.Keys <= x.registry.live
    && (forall c {:trigger c in x.connections} :: c in x.connections ==> WiredConnection(x, c, x.connections[c]))
    && (forall id {:trigger id in x.registry.cells} :: id in x.registry.cells && x.registry.cells[id].state.None? ==>
         x.registry.cells[id].entry.channel in x.registry.live)
  }

  ghost predicate GoodGates(x: System) {
    && (forall g :: g in x.gates ==> g < |x.gates|)
    && (forall d {:trigger d in x.weak} :: d in x.weak ==> x.weak[d] in x.gates && x.gates[x.weak[d]] == d)
    && (forall id {:trigger id in x.links} :: id in x.links ==>
         && x.links[id].gate in x.gates && id in x.registry.cells
         && x.gates[x.links[id].gate] == x.registry.cells[id].entry.documentId)
    && (forall r {:trigger r in x.revokers} :: r in x.revokers ==>
         x.revokers[r].gate in x.gates && x.gates[x.revokers[r].gate] == x.revokers[r].request.documentId)
  }

  /** At most one live gate per document: a held gate is the one its document's weak entry names. */
  ghost predicate OneGate(x: System) {
    forall g :: g in x.gates && Held(x, g) ==> x.gates[g] in x.weak && x.weak[x.gates[g]] == g
  }

  /** Writers inside a gate and revokers excluding it never coexist. */
  ghost predicate Exclusive(x: System) {
    && (forall g :: !(ReadLocked(x, g) && WriteLocked(x, g)))
    && (forall r, q, g :: WriteLocks(x, r, g) && WriteLocks(x, q, g) ==> r == q)
    && (forall g :: |Occupants(x, g)| <= MAX_CONTROL_WAITERS_PER_DOCUMENT)
  }

  // What has reached each stage of one subscription's pipeline, oldest first.

  function Wakeups(events: seq<ConnectionEvent>, id: nat): seq<UpdateId> {
    if events == [] then []
    else
      (if events[0].Wakeup? && events[0].notice.subscription == id then [events[0].notice.updateId] else [])
      + Wakeups(events[1..], id)
  }

  function InWriter(w: Writer, id: nat): seq<UpdateId> {
    if !w.Idle? && w.notice.subscription == id then [w.notice.updateId] else []
  }

  function InForwarder(f: Forwarder): seq<UpdateId> {
    if f.Taken? || f.Holding? then [f.updateId] else []
  }

  function OnConnection(x: System, channel: nat, id: nat): seq<UpdateId> {
    if channel in x.connections
      then InWriter(x.connections[channel].writer, id) + Wakeups(x.connections[channel].events, id)
    else []
  }

  function Ids(log: seq<LogRow>): (ids: seq<UpdateId>)
    ensures |ids| == |log|
  {
    seq(|log|, i requires 0 <= i < |log| => log[i].updateId)
  }

  /** What has left the receiver, oldest first: written, on the connection, or in the forwarder's hands. */
  function Forwarded(x: System, id: nat): seq<UpdateId>
    requires id in x.links && id in x.registry.cells && id in x.written
  {
    x.written[id] + OnConnection(x, x.registry.cells[id].entry.channel, id) + InForwarder(x.links[id].forwarder)
  }

  /** Everything a subscription was sent that its client has or may still get. */
  function Pipeline(x: System, id: nat): seq<UpdateId>
    requires id in x.links && id in x.registry.cells && id in x.written
  {
    Forwarded(x, id) + x.registry.cells[id].queue
  }

  /**
   * An active subscription has received, or still has queued, everything since its registration in
   * order; and while its connection is open all it received is written or on its way.
   */
  ghost predicate CompleteFor(x: System, id: nat)
    requires id in x.links && id in x.registry.cells && id in x.written && id in x.received
  {
    var e := x.registry.cells[id].entry;
    x.registry.cells[id].state.None? ==>
      && e.documentId in x.db.documents
      && x.links[id].since <= |x.db.documents[e.documentId].log|
      && x.received[id] + x.registry.cells[id].queue == Ids(x.db.documents[e.documentId].log)[x.links[id].since..]
      && (e.channel in x.connections ==> Forwarded(x, id) == x.received[id])
  }

  ghost predicate Complete(x: System)
    requires Wired(x)
  {
    forall id {:trigger id in x.links} :: id in x.links ==> CompleteFor(x, id)
  }

  predicate RevokedIn(db: Db, documentId: DocumentId, capability: CapabilityId) {
    && documentId in db.documents
    && capability in db.documents[documentId].capabilities
    && db.documents[documentId].capabilities[capability].revoked
  }

  predicate ServingIn(db: Db, documentId: DocumentId, capability: CapabilityId) {
    && documentId in db.documents
    && capability in db.documents[documentId].capabilities
    && !db.documents[documentId].capabilities[capability].revoked
  }

  /** Active subscriptions, and writers cleared to write, stand on capabilities that are not revoked. */
  ghost predicate Serving(x: System)
    requires Wired(x)
  {
    && (forall id {:trigger id in x.registry.cells} :: id in x.registry.cells && x.registry.cells[id].state.None? ==>
         ServingIn(x.db, x.registry.cells[id].entry.documentId, x.registry.cells[id].entry.capability))
    && (forall c {:trigger c in x.connections} :: c in x.connections && x.connections[c].writer.Cleared? ==>
         var e := x.registry.cells[x.connections[c].writer.notice.subscription].entry;
         ServingIn(x.db, e.documentId, e.capability))
  }

  /** Committed revocations stay in force over the whole subtree, and no later write falls inside one. */
  ghost predicate Fenced(x: System) {
    && (forall i :: 0 <= i < |x.trace| && x.trace[i].Committed? ==>
         RevokedIn(x.db, x.trace[i].documentId, x.trace[i].target))
    && forall i, j :: 0 <= i < j < |x.trace| ==> Apart(x.db, x.trace[i], x.trace[j])
  }

  /** A write after a revocation is outside the revoked subtree. */
  ghost predicate Apart(db: Db, earlier: Happening, later: Happening) {
    earlier.Committed? && later.Wrote? && earlier.documentId == later.documentId ==>
      && later.documentId in db.documents
      && later.capability in db.documents[later.documentId].capabilities
      && !Ancestor(db.documents[later.documentId].capabilities, earlier.target, later.capability)
  }

  ghost predicate SystemInv(x: System) {
    && Inv(x.db)
    && RegistryInv(x.registry)
    && Wired(x)
    && GoodGates(x)
    && OneGate(x)
    && Exclusive(x)
    && Complete(x)
    && Serving(x)
    && Fenced(x)
  }
}
