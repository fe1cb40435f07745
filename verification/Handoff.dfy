/**
 * The handoff from a pass to notifications: paginated reads and delivery run side by side over the
 * same tables, and a clock tells which windows were opened after which subscriptions.
 */
module Handoff {
  import opened Prelude
  import opened Types
  import opened UpdateRecord
  import opened Tables
  import opened Control
  import opened History
  import opened Reads
  import opened PassRegistry
  import opened EnumerationPasses
  import opened VectorPasses
  import opened Subscriptions
  import Service
  import Delivery
  import DeliveryProofs
  import DeliveryFrames

  /** When a window was opened, over which log, and how much of that log it captured. */
  datatype Window = Window(documentId: DocumentId, at: nat, terminal: nat)

  /**
   * Both machines over the same tables, with histories: when each subscription joined, and in
   * which window each cursor stands.
   */
  datatype Joint = Joint(
    delivery: Delivery.System,
    service: Service.ServiceState,
    clock: nat,
    joined: map<nat, nat>,
    windows: map<seq<byte>, Window>,
    vectorWindows: map<seq<byte>, Window>)

  datatype Action =
    | Deliver(step: Delivery.Step)
    | EnumerateUpdates(enumeration: EnumerationCall, secret: Authenticator)
    | BackfillUpdates(backfill: VectorCall, secret: Authenticator)

  // ---- Steps ---------------------------------------------------------------------

  /** What a delivery step means to the pass registries. */
  function Echo(x: Delivery.System, step: Delivery.Step): Option<Service.Event> {
    match step
    case Mutate(command) => if command.RevokeCapability? then None else Some(Service.Event.Mutate(command))
    case CloseChannel(channel) =>
      if channel in x.registry.live && channel !in x.connections then Some(Service.Event.CloseChannel(channel)) else None
    case Commit(r) =>
      if r in x.revokers && x.revokers[r].phase == Delivery.Excluding
        then Some(Service.Event.Mutate(Command.RevokeCapability(x.revokers[r].request))) else None
    case _ => None
  }

  ghost function Echoed(s: Scheme, z: Service.ServiceState, e: Option<Service.Event>): Service.ServiceState
    requires Service.ServiceInv(z)
  {
    if e.None? then z else Service.Step(s, z, e.value)
  }

  /** A replay leaves its cursor's window alone, a continued cursor inherits one, anything else opens one. */
  ghost function Stamped(live: seq<EnumerationPass>, outcome: ReadOutcome<EnumerationResponse>, length: nat,
                         call: EnumerationCall, windows: map<seq<byte>, Window>, clock: nat): map<seq<byte>, Window>
  {
    if !(outcome.ReadAuthorized? && outcome.response.nextCursor.Some?) then windows
    else
      var token := outcome.response.nextCursor.value;
      if Repeats(live, call.start, token) then windows
      else if call.start.Resume? && call.start.mode == Continue && call.start.encoded in windows
        then windows[token := windows[call.start.encoded]]
      else windows[token := Window(call.context.documentId, clock, length)]
  }

  ghost function WindowsAfter(s: Scheme, j: Joint, call: EnumerationCall, secret: Authenticator): map<seq<byte>, Window>
    requires JointInv(j)
  {
    var outcome := Service.EnumerateOutcome(s, j.service, call, secret);
    Stamped(Retain(j.service.enumerations, Unexpired(call.clock.now)), outcome,
            |Service.LogOf(j.service.db)(call.context.documentId)|, call, j.windows, j.clock)
  }

  /** A backfill stays in the window its origin captured. */
  ghost function VectorStamped(outcome: ReadOutcome<VectorResponse>, length: nat, call: VectorCall,
                               windows: map<seq<byte>, Window>, clock: nat): map<seq<byte>, Window>
  {
    if !(outcome.ReadAuthorized? && outcome.response.nextCursor.Some?) then windows
    else if call.start.VectorContinue? && call.start.encoded in windows
      then windows[outcome.response.nextCursor.value := windows[call.start.encoded]]
    else windows[outcome.response.nextCursor.value := Window(call.context.documentId, clock, length)]
  }

  ghost function VectorWindowsAfter(s: Scheme, j: Joint, call: VectorCall, secret: Authenticator): map<seq<byte>, Window>
    requires JointInv(j)
  {
    VectorStamped(Service.BackfillOutcome(s, j.service, call, secret),
                  |Service.LogOf(j.service.db)(call.context.documentId)|, call, j.vectorWindows, j.clock)
  }

  ghost function Act(s: Scheme, j: Joint, a: Action): Joint
    requires JointInv(j)
  {
    hide Delivery.SystemInv, Service.ServiceInv, Framed, VectorFramed, Captured, Bounded, Remembered, Joined, Reaches;
    match a
    case Deliver(step) =>
      var x := Delivery.Next(s, j.delivery, step);
      Joint(x, Echoed(s, j.service, Echo(j.delivery, step)), j.clock + 1,
            map id | id in x.links :: if id in j.joined then j.joined[id] else j.clock, j.windows, j.vectorWindows)
    case EnumerateUpdates(call, secret) =>
      j.(service := Service.Step(s, j.service, Service.Event.EnumerateUpdates(call, secret)),
         clock := j.clock + 1, windows := WindowsAfter(s, j, call, secret))
    case BackfillUpdates(call, secret) =>
      j.(service := Service.Step(s, j.service, Service.Event.BackfillUpdates(call, secret)),
         clock := j.clock + 1, vectorWindows := VectorWindowsAfter(s, j, call, secret))
  }

  // ---- Invariants ----------------------------------------------------------------

  predicate StandsIn(w: Window, c: Context, terminal: nat) {
    w.documentId == c.documentId && w.terminal == terminal
  }

  /** Every live pass stands in the window recorded for its current cursor. */
  ghost predicate Framed(passes: seq<EnumerationPass>, windows: map<seq<byte>, Window>) {
    forall p {:trigger p in passes} :: p in passes ==>
      p.current.token in windows && StandsIn(windows[p.current.token], p.context, p.terminal)
  }

  predicate VectorStands(p: VectorPass, windows: map<seq<byte>, Window>) {
    && (p.current.Some? ==>
         p.current.value.token in windows && StandsIn(windows[p.current.value.token], p.context, p.terminal))
    && (p.retry.Some? ==>
         && p.retry.value.token in windows && StandsIn(windows[p.retry.value.token], p.context, p.terminal)
         && (p.current.Some? ==> windows[p.retry.value.token] == windows[p.current.value.token]))
  }

  /** A backfill's two tokens stand in the one window of its pass. */
  ghost predicate VectorFramed(passes: seq<VectorPass>, windows: map<seq<byte>, Window>) {
    forall p {:trigger p in passes} :: p in passes ==> VectorStands(p, windows)
  }

  /** Windows lie in the past and inside their logs. */
  ghost predicate Captured(db: Db, clock: nat, windows: map<seq<byte>, Window>) {
    forall c {:trigger c in windows} :: c in windows ==>
      && windows[c].at < clock
      && windows[c].documentId in db.documents
      && windows[c].terminal <= |Service.LogOf(db)(windows[c].documentId)|
  }

  /** Every cursor ever handed out stands for a prefix of its log that stays inside its window. */
  ghost predicate Bounded(db: Db, handed: Ledger, windows: map<seq<byte>, Window>) {
    forall c {:trigger c in windows} :: c in windows ==>
      && c in handed
      && handed[c] <= Service.LogOf(db)(windows[c].documentId)
      && |handed[c]| <= windows[c].terminal
  }

  /** Every backfill cursor's ledger remembers the window it stands in. */
  ghost predicate Remembered(handed: VectorLedger, windows: map<seq<byte>, Window>) {
    handed.Keys == windows.Keys && forall c {:trigger c in windows} :: c in windows ==> handed[c].window == windows[c].terminal
  }

  /** Every subscription joined at a length its log still has. */
  ghost predicate Joined(x: Delivery.System, clock: nat, joined: map<nat, nat>) {
    && joined.Keys == x.links.Keys
    && forall id {:trigger id in x.links} :: id in x.links ==>
      && joined[id] < clock
      && id in x.registry.cells
      && x.registry.cells[id].entry.documentId in x.db.documents
      && x.links[id].since <= |x.db.documents[x.registry.cells[id].entry.documentId].log|
  }

  /** A window opened after a subscription joined captures at least the log it joined at. */
  ghost predicate Reaches(x: Delivery.System, joined: map<nat, nat>, windows: map<seq<byte>, Window>) {
    forall id, c :: id in x.links && c in windows ==> ReachesBack(x, joined, id, windows[c])
  }

  ghost predicate ReachesBack(x: Delivery.System, joined: map<nat, nat>, id: nat, w: Window)
    requires id in x.links
  {
    id in joined && id in x.registry.cells
    && w.documentId == x.registry.cells[id].entry.documentId && w.at > joined[id]
    ==> x.links[id].since <= w.terminal
  }

  ghost predicate JointInv(j: Joint) {
    && Delivery.SystemInv(j.delivery)
    && Service.ServiceInv(j.service)
    && j.delivery.db == j.service.db
    && Framed(j.service.enumerations, j.windows)
    && VectorFramed(j.service.vectors, j.vectorWindows)
    && Captured(j.service.db, j.clock, j.windows) && Captured(j.service.db, j.clock, j.vectorWindows)
    && Bounded(j.service.db, j.service.handed, j.windows)
    && Remembered(j.service.vectorHanded, j.vectorWindows)
    && Joined(j.delivery, j.clock, j.joined)
    && Reaches(j.delivery, j.joined, j.windows) && Reaches(j.delivery, j.joined, j.vectorWindows)
  }

  // ---- The two machines stay over the same tables ------------------------------------

  lemma MutateTables(s: Scheme, x: Delivery.System, z: Service.ServiceState, command: Command)
    requires Delivery.SystemInv(x) && Service.ServiceInv(z) && x.db == z.db
    ensures Delivery.Next(s, x, Delivery.Mutate(command)).db == Echoed(s, z, Echo(x, Delivery.Mutate(command))).db
  {
    hide Delivery.SystemInv, Service.ServiceInv, Delivery.AfterMutate, Execute, Service.Step;
    DeliveryFrames.EchoMutate(s, x, command);
    EchoServiceMutate(s, z, command);
  }

  lemma CommitTables(s: Scheme, x: Delivery.System, z: Service.ServiceState, revoker: nat)
    requires Delivery.SystemInv(x) && Service.ServiceInv(z) && x.db == z.db
    ensures Delivery.Next(s, x, Delivery.Commit(revoker)).db == Echoed(s, z, Echo(x, Delivery.Commit(revoker))).db
  {
    hide Delivery.SystemInv, Service.ServiceInv, Delivery.AfterCommit, AfterRevoke, Service.Step;
    if revoker in x.revokers {
      DeliveryFrames.EchoCommit(s, x, revoker);
      EchoServiceMutate(s, z, Command.RevokeCapability(x.revokers[revoker].request));
    }
  }

  lemma OtherTables(s: Scheme, x: Delivery.System, z: Service.ServiceState, step: Delivery.Step)
    requires Delivery.SystemInv(x) && Service.ServiceInv(z) && x.db == z.db && !step.Mutate? && !step.Commit?
    ensures Delivery.Next(s, x, step).db == Echoed(s, z, Echo(x, step)).db
  {
    hide Delivery.SystemInv, Service.ServiceInv, Delivery.Next;
    DeliveryFrames.OtherTables(s, x, step);
  }

  lemma EchoTables(s: Scheme, x: Delivery.System, z: Service.ServiceState, step: Delivery.Step)
    requires Delivery.SystemInv(x) && Service.ServiceInv(z) && x.db == z.db
    ensures Delivery.Next(s, x, step).db == Echoed(s, z, Echo(x, step)).db
  {
    hide Delivery.SystemInv, Service.ServiceInv, Delivery.Next, Echoed, Echo;
    match step
    case Mutate(command) => MutateTables(s, x, z, command);
    case Commit(revoker) => CommitTables(s, x, z, revoker);
    case _ => OtherTables(s, x, z, step);
  }

  lemma EchoServiceMutate(s: Scheme, z: Service.ServiceState, command: Command)
    requires Service.ServiceInv(z)
    ensures Inv(z.db) && Service.Step(s, z, Service.Event.Mutate(command)).db == Execute(s, z.db, command)
  {
    hide Inv, Execute, Tracked, VectorTracked, Service.Outlives;
  }

  lemma NextExtends(s: Scheme, x: Delivery.System, z: Service.ServiceState, step: Delivery.Step)
    requires Delivery.SystemInv(x) && Service.ServiceInv(z) && x.db == z.db
    ensures Extends(x.db, Delivery.Next(s, x, step).db)
  {
    hide Inv, Delivery.SystemInv, Tracked, VectorTracked, Extends, Delivery.Next, Execute, Service.Outlives;
    EchoTables(s, x, z, step);
    ExtendsReflexive(x.db);
    var e := Echo(x, step);
    if e.Some? && e.value.Mutate? { ExecuteExtends(s, z.db, e.value.command); }
  }

  // ---- Delivery steps --------------------------------------------------------------------

  /** No delivery step adds a pass or touches what was handed out. */
  lemma EchoPasses(s: Scheme, z: Service.ServiceState, e: Option<Service.Event>)
    requires Service.ServiceInv(z) && (e.Some? ==> e.value.Mutate? || e.value.CloseChannel?)
    ensures
      var y := Echoed(s, z, e);
      && y.handed == z.handed && y.vectorHanded == z.vectorHanded
      && (forall p :: p in y.enumerations ==> p in z.enumerations)
      && (forall p :: p in y.vectors ==> p in z.vectors)
  {
    hide Inv, Tracked, VectorTracked, Execute, Service.Outlives;
    if e.Some? {
      match e.value
      case Mutate(command) =>
        RetainMembers(z.enumerations, Service.EnumerationsIn(Service.Outlives(s, z.db, command)));
        RetainMembers(z.vectors, Service.VectorsIn(Service.Outlives(s, z.db, command)));
      case CloseChannel(channel) =>
        RetainMembers(z.enumerations, Service.EnumerationsIn(Service.OffChannel(channel)));
        RetainMembers(z.vectors, Service.VectorsIn(Service.OffChannel(channel)));
    }
  }

  lemma EchoKind(x: Delivery.System, step: Delivery.Step)
    ensures Echo(x, step).Some? ==> Echo(x, step).value.Mutate? || Echo(x, step).value.CloseChannel?
  {
  }

  lemma FramedFewer(few: seq<EnumerationPass>, many: seq<EnumerationPass>, windows: map<seq<byte>, Window>)
    requires Framed(many, windows) && forall p :: p in few ==> p in many
    ensures Framed(few, windows)
  {
  }

  lemma VectorFramedFewer(few: seq<VectorPass>, many: seq<VectorPass>, windows: map<seq<byte>, Window>)
    requires VectorFramed(many, windows) && forall p :: p in few ==> p in many
    ensures VectorFramed(few, windows)
  {
    hide VectorStands;
  }

  lemma CapturedGrows(db: Db, after: Db, clock: nat, windows: map<seq<byte>, Window>)
    requires Inv(db) && Inv(after) && Extends(db, after) && Captured(db, clock, windows)
    ensures Captured(after, clock + 1, windows)
  {
    hide Inv, Extends, Service.LogOf;
    forall c | c in windows
      ensures windows[c].documentId in after.documents
      ensures windows[c].terminal <= |Service.LogOf(after)(windows[c].documentId)|
    {
      ExtendsKeepsDocument(db, after, windows[c].documentId);
      Service.LogsGrow(db, after, windows[c].documentId);
    }
  }

  lemma BoundedGrows(db: Db, after: Db, clock: nat, handed: Ledger, windows: map<seq<byte>, Window>)
    requires Inv(db) && Inv(after) && Extends(db, after) && Captured(db, clock, windows) && Bounded(db, handed, windows)
    ensures Bounded(after, handed, windows)
  {
    hide Inv, Extends, Service.LogOf;
    forall c | c in windows ensures handed[c] <= Service.LogOf(after)(windows[c].documentId) {
      Service.LogsGrow(db, after, windows[c].documentId);
    }
  }

  /** A new subscription joins now, at the length its log has now. */
  lemma JoinedAfter(s: Scheme, j: Joint, step: Delivery.Step)
    requires JointInv(j)
    ensures
      var k := Act(s, j, Deliver(step));
      Joined(k.delivery, k.clock, k.joined)
  {
    hide Service.ServiceInv, Delivery.SystemInv, Delivery.Next, Echoed, Extends, Framed, VectorFramed,
      Bounded, Remembered, Reaches, Captured;
    var x := j.delivery;
    var y := Delivery.Next(s, x, step);
    DeliveryProofs.NextKeeps(s, x, step);
    DeliveryFrames.NextLinks(s, x, step);
    NextExtends(s, x, j.service, step);
    var k := Act(s, j, Deliver(step));
    forall id | id in y.links
      ensures k.joined[id] < k.clock && id in y.registry.cells
      ensures y.registry.cells[id].entry.documentId in y.db.documents
      ensures y.links[id].since <= |y.db.documents[y.registry.cells[id].entry.documentId].log|
    {
      if id in x.links {
        ExtendsKeepsDocument(x.db, y.db, x.registry.cells[id].entry.documentId);
      } else {
        ActiveJoins(y, id);
      }
    }
  }

  lemma ActiveJoins(x: Delivery.System, id: nat)
    requires Delivery.SystemInv(x) && id in x.links && id in x.registry.cells && x.registry.cells[id].state.None?
    ensures x.registry.cells[id].entry.documentId in x.db.documents
    ensures x.links[id].since <= |x.db.documents[x.registry.cells[id].entry.documentId].log|
  {
    hide Inv, RegistryInv, Delivery.WiredConnection, Delivery.GoodGates, Delivery.OneGate, Delivery.Exclusive,
      Delivery.Serving, Delivery.Fenced, Delivery.Forwarded, Delivery.Ids;
    assert Delivery.CompleteFor(x, id);
  }

  lemma ReachesAfter(s: Scheme, j: Joint, step: Delivery.Step, windows: map<seq<byte>, Window>)
    requires JointInv(j) && Reaches(j.delivery, j.joined, windows) && Captured(j.service.db, j.clock, windows)
    ensures
      var k := Act(s, j, Deliver(step));
      Reaches(k.delivery, k.joined, windows)
  {
    hide Service.ServiceInv, Delivery.SystemInv, Delivery.Next, Echoed, Framed, VectorFramed, Bounded, Remembered;
    var x := j.delivery;
    var k := Act(s, j, Deliver(step));
    DeliveryFrames.NextLinks(s, x, step);
    forall id, c | id in k.delivery.links && c in windows ensures ReachesBack(k.delivery, k.joined, id, windows[c]) {
      if id in x.links { assert ReachesBack(x, j.joined, id, windows[c]); }
    }
  }

  lemma DeliverKeeps(s: Scheme, j: Joint, step: Delivery.Step)
    requires JointInv(j)
    ensures JointInv(Act(s, j, Deliver(step)))
  {
    hide Service.ServiceInv, Delivery.SystemInv, Delivery.Next, Echoed, Echo, Framed, VectorFramed, Bounded, Remembered,
      Captured, Reaches, Joined, Extends, Inv;
    var z := j.service;
    var e := Echo(j.delivery, step);
    DeliveryProofs.NextKeeps(s, j.delivery, step);
    EchoKeeps(s, z, e);
    EchoTables(s, j.delivery, z, step);
    NextExtends(s, j.delivery, z, step);
    EchoKind(j.delivery, step);
    EchoPasses(s, z, e);
    var y := Echoed(s, z, e);
    ServiceTables(z);
    ServiceTables(y);
    FramedFewer(y.enumerations, z.enumerations, j.windows);
    VectorFramedFewer(y.vectors, z.vectors, j.vectorWindows);
    CapturedGrows(z.db, y.db, j.clock, j.windows);
    CapturedGrows(z.db, y.db, j.clock, j.vectorWindows);
    BoundedGrows(z.db, y.db, j.clock, z.handed, j.windows);
    JoinedAfter(s, j, step);
    ReachesAfter(s, j, step, j.windows);
    ReachesAfter(s, j, step, j.vectorWindows);
  }

  lemma EchoKeeps(s: Scheme, z: Service.ServiceState, e: Option<Service.Event>)
    requires Service.ServiceInv(z)
    ensures Service.ServiceInv(Echoed(s, z, e))
  {
    hide Service.ServiceInv, Service.Step;
    if e.Some? { Service.StepKeeps(s, z, e.value); }
  }

  lemma ServiceTables(z: Service.ServiceState)
    requires Service.ServiceInv(z)
    ensures Inv(z.db)
  {
  }

  // ---- Enumerations ------------------------------------------------------------------------

  /** Two live passes never share a current token. */
  lemma DistinctCurrent(passes: seq<EnumerationPass>, logs: DocumentId -> seq<UpdateMetadata>, handed: Ledger,
                        p: EnumerationPass, q: EnumerationPass)
    requires Tracked(passes, logs, handed) && p in passes && q in passes && p.current.token == q.current.token
    ensures p == q
  {
    hide GoodPass, Quotas;
    var i :| 0 <= i < |passes| && passes[i] == p;
    var k :| 0 <= k < |passes| && passes[k] == q;
    assert p.current.token in TokensOf(p) * TokensOf(q);
  }

  /** The window of the cursor an answer hands out. */
  lemma NewWindowStands(live: seq<EnumerationPass>, windows: map<seq<byte>, Window>, p: EnumerationPass,
                        metas: seq<UpdateMetadata>, call: EnumerationCall, clock: nat)
    requires Framed(live, windows) && InWindow(live, p, metas, call) && p.context == call.context
    ensures call.start.Resume? && call.start.mode == Continue ==>
      call.start.encoded in windows && StandsIn(windows[call.start.encoded], p.context, p.terminal)
    ensures !(call.start.Resume? && call.start.mode == Continue) ==>
      StandsIn(Window(call.context.documentId, clock, |metas|), p.context, p.terminal)
  {
  }

  /** The registry and the windows after one authorized enumeration. */
  lemma EnumerateFramed(s: Scheme, j: Joint, call: EnumerationCall, secret: Authenticator)
    requires JointInv(j) && Service.CanRead(s, j.service.db, call.context, secret)
    ensures
      var k := Act(s, j, EnumerateUpdates(call, secret));
      Framed(k.service.enumerations, k.windows)
  {
    hide Delivery.SystemInv, Inv, Enumerate, VectorTracked, Tracked, Service.LiveContext, Bounded, Remembered, Captured,
      Reaches, Joined, VectorFramed, Windowed, Framed, Service.LogOf;
    var z := j.service;
    var metas := Service.LogOf(z.db)(call.context.documentId);
    Service.TrackedWithinAll(z);
    var answer := Enumerate(z.enumerations, z.generation, metas, call);
    var live := Retain(z.enumerations, Unexpired(call.clock.now));
    RetainMembers(z.enumerations, Unexpired(call.clock.now));
    FramedFewer(live, z.enumerations, j.windows);
    EnumerateWindowed(z.enumerations, z.generation, Service.LogOf(z.db), z.handed, call);
    EnumerateExact(z.enumerations, z.generation, Service.LogOf(z.db), z.handed, call);
    CursorlessKeeps(z.enumerations, z.generation, metas, call);
    AnswerFramed(live, answer, metas, call, j.windows, j.clock, Service.LogOf(z.db),
                 HandedAfter(z.handed, call.start, answer.outcome));
  }

  lemma AnswerFramed(live: seq<EnumerationPass>, answer: EnumerationAnswer, metas: seq<UpdateMetadata>,
                     call: EnumerationCall, windows: map<seq<byte>, Window>, clock: nat,
                     logs: DocumentId -> seq<UpdateMetadata>, handed: Ledger)
    requires Framed(live, windows) && Windowed(live, answer, metas, call) && OnlyOld(live, answer)
    requires Tracked(answer.passes, logs, handed)
    ensures Framed(answer.passes, Stamped(live, answer.outcome, |metas|, call, windows, clock))
  {
    hide Tracked, Repeats, InWindow;
    if answer.outcome.ReadAuthorized? && answer.outcome.response.nextCursor.Some? {
      var token := answer.outcome.response.nextCursor.value;
      if !Repeats(live, call.start, token) {
        var p :| p in answer.passes && Owns(p, call, answer.outcome.response) && InWindow(live, p, metas, call)
          && forall q :: q in answer.passes ==> q == p || q in live;
        NewWindowStands(live, windows, p, metas, call, clock);
        var after := Stamped(live, answer.outcome, |metas|, call, windows, clock);
        forall q | q in answer.passes ensures q.current.token in after && StandsIn(after[q.current.token], q.context, q.terminal) {
          if q.current.token == token {
            DistinctCurrent(answer.passes, logs, handed, p, q);
          }
        }
      }
    }
  }

  lemma CapturedOneMore(db: Db, clock: nat, windows: map<seq<byte>, Window>, token: seq<byte>, w: Window)
    requires Captured(db, clock, windows)
    requires w.at <= clock && w.documentId in db.documents && w.terminal <= |Service.LogOf(db)(w.documentId)|
    ensures Captured(db, clock + 1, windows[token := w])
  {
    hide Service.LogOf;
  }

  lemma CapturedLater(db: Db, clock: nat, windows: map<seq<byte>, Window>)
    requires Captured(db, clock, windows)
    ensures Captured(db, clock + 1, windows)
  {
    hide Service.LogOf;
  }

  lemma StampedCaptured(db: Db, live: seq<EnumerationPass>, outcome: ReadOutcome<EnumerationResponse>,
                        call: EnumerationCall, windows: map<seq<byte>, Window>, clock: nat)
    requires Captured(db, clock, windows) && call.context.documentId in db.documents
    ensures Captured(db, clock + 1,
      Stamped(live, outcome, |Service.LogOf(db)(call.context.documentId)|, call, windows, clock))
  {
    hide Service.LogOf, Repeats, Captured;
    CapturedLater(db, clock, windows);
    if outcome.ReadAuthorized? && outcome.response.nextCursor.Some? {
      var token := outcome.response.nextCursor.value;
      if call.start.Resume? && call.start.mode == Continue && call.start.encoded in windows {
        CapturedFacts(db, clock, windows, call.start.encoded);
        CapturedOneMore(db, clock, windows, token, windows[call.start.encoded]);
      } else {
        CapturedOneMore(db, clock, windows, token,
                        Window(call.context.documentId, clock, |Service.LogOf(db)(call.context.documentId)|));
      }
    }
  }

  lemma CapturedFacts(db: Db, clock: nat, windows: map<seq<byte>, Window>, c: seq<byte>)
    requires Captured(db, clock, windows) && c in windows
    ensures windows[c].at < clock && windows[c].documentId in db.documents
    ensures windows[c].terminal <= |Service.LogOf(db)(windows[c].documentId)|
  {
    hide Service.LogOf;
  }

  /** A window that captures the whole log now reaches back to every subscription there is. */
  lemma WholeLogReaches(j: Joint, id: nat, documentId: DocumentId)
    requires JointInv(j) && id in j.delivery.links
    ensures ReachesBack(j.delivery, j.joined, id, Window(documentId, j.clock, |Service.LogOf(j.service.db)(documentId)|))
  {
    hide Delivery.SystemInv, Inv, Tracked, VectorTracked, Framed, VectorFramed, Captured, Bounded, Remembered, Reaches,
      Service.LogOf, Decodable, Metas;
    if id in j.delivery.registry.cells && documentId == j.delivery.registry.cells[id].entry.documentId {
      Service.LogIsPublic(j.service.db, documentId);
    }
  }

  lemma ReachesOneMore(x: Delivery.System, joined: map<nat, nat>, windows: map<seq<byte>, Window>, token: seq<byte>,
                       w: Window)
    requires Reaches(x, joined, windows) && forall id :: id in x.links ==> ReachesBack(x, joined, id, w)
    ensures Reaches(x, joined, windows[token := w])
  {
    hide ReachesBack;
  }

  lemma StampedReaches(j: Joint, live: seq<EnumerationPass>, outcome: ReadOutcome<EnumerationResponse>,
                       call: EnumerationCall)
    requires JointInv(j)
    ensures Reaches(j.delivery, j.joined,
      Stamped(live, outcome, |Service.LogOf(j.service.db)(call.context.documentId)|, call, j.windows, j.clock))
  {
    hide Delivery.SystemInv, Service.ServiceInv, Framed, VectorFramed, Captured, Bounded, Remembered, Joined,
      Service.LogOf, Repeats, ReachesBack;
    if outcome.ReadAuthorized? && outcome.response.nextCursor.Some? {
      var token := outcome.response.nextCursor.value;
      if call.start.Resume? && call.start.mode == Continue && call.start.encoded in j.windows {
        ReachesOneMore(j.delivery, j.joined, j.windows, token, j.windows[call.start.encoded]);
      } else {
        var w := Window(call.context.documentId, j.clock, |Service.LogOf(j.service.db)(call.context.documentId)|);
        forall id | id in j.delivery.links ensures ReachesBack(j.delivery, j.joined, id, w) {
          WholeLogReaches(j, id, call.context.documentId);
        }
        ReachesOneMore(j.delivery, j.joined, j.windows, token, w);
      }
    }
  }

  /** What every cursor stands for stays inside its window when one more page is handed out. */
  lemma AnswerBounded(db: Db, live: seq<EnumerationPass>, answer: EnumerationAnswer, call: EnumerationCall,
                      windows: map<seq<byte>, Window>, clock: nat, handed: Ledger)
    requires Bounded(db, handed, windows)
    requires Windowed(live, answer, Service.LogOf(db)(call.context.documentId), call)
    requires Tracked(answer.passes, Service.LogOf(db), HandedAfter(handed, call.start, answer.outcome))
    requires
      var after := Stamped(live, answer.outcome, |Service.LogOf(db)(call.context.documentId)|, call, windows, clock);
      Framed(answer.passes, after)
    ensures
      var after := Stamped(live, answer.outcome, |Service.LogOf(db)(call.context.documentId)|, call, windows, clock);
      Bounded(db, HandedAfter(handed, call.start, answer.outcome), after)
  {
    hide Service.LogOf, Orderly, InWindow, GoodRetry, HandedBefore, Repeats;
    if answer.outcome.ReadAuthorized? && answer.outcome.response.nextCursor.Some? {
      var token := answer.outcome.response.nextCursor.value;
      var p :| p in answer.passes && Owns(p, call, answer.outcome.response);
      assert GoodPass(p, Service.LogOf(db)(p.context.documentId), HandedAfter(handed, call.start, answer.outcome));
    }
  }

  lemma EnumerateKeeps(s: Scheme, j: Joint, call: EnumerationCall, secret: Authenticator)
    requires JointInv(j)
    ensures JointInv(Act(s, j, EnumerateUpdates(call, secret)))
  {
    hide Delivery.SystemInv, Service.ServiceInv, Framed, VectorFramed, Captured, Bounded, Remembered, Reaches, Joined,
      Service.CanRead, Stamped, Service.Step, Service.EnumerateOutcome;
    var z := j.service;
    Service.StepKeeps(s, z, Service.Event.EnumerateUpdates(call, secret));
    JoinedLater(j.delivery, j.clock, j.joined);
    CapturedLater(z.db, j.clock, j.vectorWindows);
    CapturedLater(z.db, j.clock, j.windows);
    if Service.CanRead(s, z.db, call.context, secret) {
      EnumerateFramed(s, j, call, secret);
      EnumerateRest(s, j, call, secret);
    } else {
      UnreadEnumeration(s, z, call, secret);
      UnreadStamped(z, call, j.windows, j.clock, Service.EnumerateOutcome(s, z, call, secret));
    }
  }

  lemma JoinedLater(x: Delivery.System, clock: nat, joined: map<nat, nat>)
    requires Joined(x, clock, joined)
    ensures Joined(x, clock + 1, joined)
  {
  }

  lemma UnreadEnumeration(s: Scheme, z: Service.ServiceState, call: EnumerationCall, secret: Authenticator)
    requires Service.ServiceInv(z) && !Service.CanRead(s, z.db, call.context, secret)
    ensures Service.Step(s, z, Service.Event.EnumerateUpdates(call, secret)) == z
    ensures !Service.EnumerateOutcome(s, z, call, secret).ReadAuthorized?
  {
    hide Inv, Tracked, VectorTracked, AccessTo, Enumerate;
  }

  lemma UnreadStamped(z: Service.ServiceState, call: EnumerationCall, windows: map<seq<byte>, Window>, clock: nat,
                      outcome: ReadOutcome<EnumerationResponse>)
    requires !outcome.ReadAuthorized?
    ensures forall live, n :: Stamped(live, outcome, n, call, windows, clock) == windows
  {
  }

  lemma EnumerateRest(s: Scheme, j: Joint, call: EnumerationCall, secret: Authenticator)
    requires JointInv(j) && Service.CanRead(s, j.service.db, call.context, secret)
    requires
      var k := Act(s, j, EnumerateUpdates(call, secret));
      Framed(k.service.enumerations, k.windows)
    ensures
      var k := Act(s, j, EnumerateUpdates(call, secret));
      && k.service.db == j.service.db && k.service.vectors == j.service.vectors
      && k.service.vectorHanded == j.service.vectorHanded
      && Captured(k.service.db, k.clock, k.windows)
      && Bounded(k.service.db, k.service.handed, k.windows)
      && Reaches(k.delivery, k.joined, k.windows)
  {
    hide Delivery.SystemInv, Inv, Enumerate, VectorTracked, Tracked, Service.LiveContext, Bounded, Remembered, Captured,
      Reaches, Joined, VectorFramed, Windowed, Framed, Service.LogOf, Stamped;
    var z := j.service;
    Service.TrackedWithinAll(z);
    Service.ReadersAreLive(s, z.db, call.context, secret);
    Service.LiveHasDocument(z.db, call.context);
    var metas := Service.LogOf(z.db)(call.context.documentId);
    var answer := Enumerate(z.enumerations, z.generation, metas, call);
    var live := Retain(z.enumerations, Unexpired(call.clock.now));
    EnumerateWindowed(z.enumerations, z.generation, Service.LogOf(z.db), z.handed, call);
    EnumerateExact(z.enumerations, z.generation, Service.LogOf(z.db), z.handed, call);
    StampedCaptured(z.db, live, answer.outcome, call, j.windows, j.clock);
    StampedReaches(j, live, answer.outcome, call);
    AnswerBounded(z.db, live, answer, call, j.windows, j.clock, z.handed);
  }

  // ---- Backfills -----------------------------------------------------------------------------

  lemma VectorStampedCaptured(db: Db, outcome: ReadOutcome<VectorResponse>, call: VectorCall,
                              windows: map<seq<byte>, Window>, clock: nat)
    requires Captured(db, clock, windows) && call.context.documentId in db.documents
    ensures Captured(db, clock + 1,
      VectorStamped(outcome, |Service.LogOf(db)(call.context.documentId)|, call, windows, clock))
  {
    hide Service.LogOf, Captured;
    CapturedLater(db, clock, windows);
    if outcome.ReadAuthorized? && outcome.response.nextCursor.Some? {
      var token := outcome.response.nextCursor.value;
      if call.start.VectorContinue? && call.start.encoded in windows {
        CapturedFacts(db, clock, windows, call.start.encoded);
        CapturedOneMore(db, clock, windows, token, windows[call.start.encoded]);
      } else {
        CapturedOneMore(db, clock, windows, token,
                        Window(call.context.documentId, clock, |Service.LogOf(db)(call.context.documentId)|));
      }
    }
  }

  lemma VectorStampedReaches(j: Joint, outcome: ReadOutcome<VectorResponse>, call: VectorCall)
    requires JointInv(j)
    ensures Reaches(j.delivery, j.joined,
      VectorStamped(outcome, |Service.LogOf(j.service.db)(call.context.documentId)|, call, j.vectorWindows, j.clock))
  {
    hide Delivery.SystemInv, Service.ServiceInv, Framed, VectorFramed, Captured, Bounded, Remembered, Joined,
      Service.LogOf, ReachesBack;
    if outcome.ReadAuthorized? && outcome.response.nextCursor.Some? {
      var token := outcome.response.nextCursor.value;
      if call.start.VectorContinue? && call.start.encoded in j.vectorWindows {
        ReachesOneMore(j.delivery, j.joined, j.vectorWindows, token, j.vectorWindows[call.start.encoded]);
      } else {
        var w := Window(call.context.documentId, j.clock, |Service.LogOf(j.service.db)(call.context.documentId)|);
        forall id | id in j.delivery.links ensures ReachesBack(j.delivery, j.joined, id, w) {
          WholeLogReaches(j, id, call.context.documentId);
        }
        ReachesOneMore(j.delivery, j.joined, j.vectorWindows, token, w);
      }
    }
  }

  lemma AnswerRemembered(outcome: ReadOutcome<VectorResponse>, metas: seq<UpdateMetadata>, call: VectorCall,
                         windows: map<seq<byte>, Window>, clock: nat, handed: VectorLedger)
    requires Remembered(handed, windows)
    ensures Remembered(VectorAfter(handed, call.start, metas, outcome),
                       VectorStamped(outcome, |metas|, call, windows, clock))
  {
  }

  lemma DistinctTokens(passes: seq<VectorPass>, logs: DocumentId -> seq<UpdateMetadata>, handed: VectorLedger,
                       p: VectorPass, q: VectorPass, token: Token)
    requires VectorTracked(passes, logs, handed) && p in passes && q in passes
    requires token in VectorTokens(p) && token in VectorTokens(q)
    ensures p == q
  {
    hide GoodVectorPass, Quotas;
    var i :| 0 <= i < |passes| && passes[i] == p;
    var k :| 0 <= k < |passes| && passes[k] == q;
    assert token in VectorTokens(p) * VectorTokens(q);
  }

  /** The pass a page's cursor belongs to stands in the window the cursor is stamped with. */
  lemma NewVectorStands(live: seq<VectorPass>, windows: map<seq<byte>, Window>, p: VectorPass, answer: VectorAnswer,
                        metas: seq<UpdateMetadata>, call: VectorCall, clock: nat)
    requires VectorFramed(live, windows) && HandsToken(answer, p)
    requires Opens(p, metas, call) || exists q :: q in live && Continues(p, q, call)
    requires p.current.Some? && p.retry.Some? ==> p.current.value.token != p.retry.value.token
    ensures VectorStands(p, VectorStamped(answer.outcome, |metas|, call, windows, clock))
  {
    if q :| q in live && Continues(p, q, call) {
      assert VectorStands(q, windows);
    }
  }

  /** The owner of an answer's cursor stands in the window the cursor is stamped with. */
  lemma OwnerStands(live: seq<VectorPass>, windows: map<seq<byte>, Window>, p: VectorPass, answer: VectorAnswer,
                    metas: seq<UpdateMetadata>, call: VectorCall, clock: nat)
    requires VectorFramed(live, windows) && answer.outcome.ReadAuthorized?
    requires OwnsCursor(live, p, answer.outcome.response, metas, call)
    requires p.current.Some? && p.retry.Some? ==> p.current.value.token != p.retry.value.token
    ensures VectorStands(p, VectorStamped(answer.outcome, |metas|, call, windows, clock))
  {
    if Opens(p, metas, call) || exists q :: q in live && Continues(p, q, call) {
      NewVectorStands(live, windows, p, answer, metas, call, clock);
    } else {
      assert VectorStands(p, windows);
    }
  }

  lemma AnswerVectorFramed(live: seq<VectorPass>, answer: VectorAnswer, metas: seq<UpdateMetadata>, call: VectorCall,
                           windows: map<seq<byte>, Window>, clock: nat, logs: DocumentId -> seq<UpdateMetadata>,
                           handed: VectorLedger)
    requires VectorFramed(live, windows) && VectorWindowed(live, answer, metas, call)
    requires VectorTracked(answer.passes, logs, handed) && CursorOwned(live, answer, metas, call)
    ensures VectorFramed(answer.passes, VectorStamped(answer.outcome, |metas|, call, windows, clock))
  {
    hide VectorTracked, OwnsCursor;
    var after := VectorStamped(answer.outcome, |metas|, call, windows, clock);
    forall p | p in answer.passes ensures VectorStands(p, after) {
      TokensApart(answer.passes, logs, handed, p);
      if p !in live {
        NewVectorStands(live, windows, p, answer, metas, call, clock);
      } else {
        assert VectorStands(p, windows);
        if answer.outcome.ReadAuthorized? && answer.outcome.response.nextCursor.Some? {
          OldVectorStands(live, windows, p, answer, metas, call, clock, logs, handed);
        }
      }
    }
  }

  /** A pass that was there keeps its window unless the answer's cursor is its own. */
  lemma OldVectorStands(live: seq<VectorPass>, windows: map<seq<byte>, Window>, p: VectorPass, answer: VectorAnswer,
                        metas: seq<UpdateMetadata>, call: VectorCall, clock: nat,
                        logs: DocumentId -> seq<UpdateMetadata>, handed: VectorLedger)
    requires VectorFramed(live, windows) && VectorStands(p, windows) && p in answer.passes
    requires VectorTracked(answer.passes, logs, handed) && CursorOwned(live, answer, metas, call)
    requires answer.outcome.ReadAuthorized? && answer.outcome.response.nextCursor.Some?
    requires p.current.Some? && p.retry.Some? ==> p.current.value.token != p.retry.value.token
    ensures VectorStands(p, VectorStamped(answer.outcome, |metas|, call, windows, clock))
  {
    hide VectorTracked, Opens, Continues, VectorFramed;
    var token := answer.outcome.response.nextCursor.value;
    var q :| q in answer.passes && OwnsCursor(live, q, answer.outcome.response, metas, call);
    if token in VectorTokens(p) {
      DistinctTokens(answer.passes, logs, handed, p, q, token);
      OwnerStands(live, windows, p, answer, metas, call, clock);
    }
  }

  lemma TokensApart(passes: seq<VectorPass>, logs: DocumentId -> seq<UpdateMetadata>, handed: VectorLedger, p: VectorPass)
    requires VectorTracked(passes, logs, handed) && p in passes
    ensures p.current.Some? && p.retry.Some? ==> p.current.value.token != p.retry.value.token
  {
    hide Orderly;
    assert GoodVectorPass(p, logs(p.context.documentId), handed);
  }

  lemma BackfillKeeps(s: Scheme, j: Joint, call: VectorCall, secret: Authenticator)
    requires JointInv(j)
    ensures JointInv(Act(s, j, BackfillUpdates(call, secret)))
  {
    hide Delivery.SystemInv, Service.ServiceInv, Framed, VectorFramed, Captured, Bounded, Remembered, Reaches, Joined,
      Service.CanRead, VectorStamped, Service.Step, Service.BackfillOutcome;
    var z := j.service;
    Service.StepKeeps(s, z, Service.Event.BackfillUpdates(call, secret));
    JoinedLater(j.delivery, j.clock, j.joined);
    CapturedLater(z.db, j.clock, j.vectorWindows);
    CapturedLater(z.db, j.clock, j.windows);
    if Service.CanRead(s, z.db, call.context, secret) {
      BackfillFramed(s, j, call, secret);
      BackfillRest(s, j, call, secret);
    } else {
      UnreadBackfill(s, z, call, secret);
      UnreadVectorStamped(call, j.vectorWindows, j.clock, Service.BackfillOutcome(s, z, call, secret));
    }
  }

  lemma UnreadBackfill(s: Scheme, z: Service.ServiceState, call: VectorCall, secret: Authenticator)
    requires Service.ServiceInv(z) && !Service.CanRead(s, z.db, call.context, secret)
    ensures Service.Step(s, z, Service.Event.BackfillUpdates(call, secret)) == z
    ensures !Service.BackfillOutcome(s, z, call, secret).ReadAuthorized?
  {
    hide Inv, Tracked, VectorTracked, AccessTo, Backfill;
  }

  lemma UnreadVectorStamped(call: VectorCall, windows: map<seq<byte>, Window>, clock: nat,
                            outcome: ReadOutcome<VectorResponse>)
    requires !outcome.ReadAuthorized?
    ensures forall n :: VectorStamped(outcome, n, call, windows, clock) == windows
  {
  }

  lemma BackfillTracks(passes: seq<VectorPass>, logs: DocumentId -> seq<UpdateMetadata>, handed: VectorLedger,
                       call: VectorCall)
    requires VectorTracked(passes, logs, handed)
    ensures
      var answer := Backfill(passes, logs(call.context.documentId), call);
      VectorTracked(answer.passes, logs,
                    VectorAfter(handed, call.start, logs(call.context.documentId), answer.outcome))
  {
    hide VectorTracked, Backfill, VectorExact, VectorAfter;
    VectorBackfillExact(passes, logs, handed, call);
  }

  lemma BackfillFramed(s: Scheme, j: Joint, call: VectorCall, secret: Authenticator)
    requires JointInv(j) && Service.CanRead(s, j.service.db, call.context, secret)
    ensures
      var k := Act(s, j, BackfillUpdates(call, secret));
      VectorFramed(k.service.vectors, k.vectorWindows)
  {
    hide Delivery.SystemInv, Inv, Backfill, VectorTracked, Tracked, Service.LiveContext, Bounded, Remembered, Captured,
      Reaches, Joined, VectorFramed, VectorWindowed, CursorOwned, Framed, Service.LogOf, VectorStamped, VectorAfter;
    var z := j.service;
    var metas := Service.LogOf(z.db)(call.context.documentId);
    var answer := Backfill(z.vectors, metas, call);
    var live := Retain(z.vectors, VectorUnexpired(call.clock.now));
    RetainMembers(z.vectors, VectorUnexpired(call.clock.now));
    VectorFramedFewer(live, z.vectors, j.vectorWindows);
    BackfillWindowed(z.vectors, metas, call);
    BackfillOwned(z.vectors, Service.LogOf(z.db), z.vectorHanded, call);
    BackfillTracks(z.vectors, Service.LogOf(z.db), z.vectorHanded, call);
    AnswerVectorFramed(live, answer, metas, call, j.vectorWindows, j.clock, Service.LogOf(z.db),
                       VectorAfter(z.vectorHanded, call.start, metas, answer.outcome));
  }

  lemma BackfillRest(s: Scheme, j: Joint, call: VectorCall, secret: Authenticator)
    requires JointInv(j) && Service.CanRead(s, j.service.db, call.context, secret)
    ensures
      var k := Act(s, j, BackfillUpdates(call, secret));
      && k.service.db == j.service.db && k.service.enumerations == j.service.enumerations
      && k.service.handed == j.service.handed
      && Captured(k.service.db, k.clock, k.vectorWindows)
      && Remembered(k.service.vectorHanded, k.vectorWindows)
      && Reaches(k.delivery, k.joined, k.vectorWindows)
  {
    hide Delivery.SystemInv, Inv, Backfill, VectorTracked, Tracked, Service.LiveContext, Bounded, Remembered, Captured,
      Reaches, Joined, VectorFramed, Framed, Service.LogOf, VectorStamped, VectorAfter;
    var z := j.service;
    Service.ReadersAreLive(s, z.db, call.context, secret);
    Service.LiveHasDocument(z.db, call.context);
    var metas := Service.LogOf(z.db)(call.context.documentId);
    var answer := Backfill(z.vectors, metas, call);
    VectorStampedCaptured(z.db, answer.outcome, call, j.vectorWindows, j.clock);
    VectorStampedReaches(j, answer.outcome, call);
    AnswerRemembered(answer.outcome, metas, call, j.vectorWindows, j.clock, z.vectorHanded);
  }

  // ---- Every joint run -------------------------------------------------------------------------

  lemma ActKeeps(s: Scheme, j: Joint, a: Action)
    requires JointInv(j)
    ensures JointInv(Act(s, j, a))
  {
    hide JointInv, Act;
    match a
    case Deliver(step) => DeliverKeeps(s, j, step);
    case EnumerateUpdates(call, secret) => EnumerateKeeps(s, j, call, secret);
    case BackfillUpdates(call, secret) => BackfillKeeps(s, j, call, secret);
  }

  ghost function Interact(s: Scheme, j: Joint, actions: seq<Action>): Joint
    requires JointInv(j)
    decreases |actions|
  {
    if actions == [] then j
    else
      ActKeeps(s, j, actions[0]);
      Interact(s, Act(s, j, actions[0]), actions[1..])
  }

  lemma {:induction false} InteractKeeps(s: Scheme, j: Joint, actions: seq<Action>)
    requires JointInv(j)
    ensures JointInv(Interact(s, j, actions))
    decreases |actions|
  {
    hide JointInv, Act;
    if actions != [] {
      ActKeeps(s, j, actions[0]);
      InteractKeeps(s, Act(s, j, actions[0]), actions[1..]);
    }
  }

  /** A daemon over recovered tables, before any connection or read. */
  ghost function Started(db: Db, generation: Identifier): Joint {
    Joint(DeliveryProofs.Started(db), Service.ServiceState(db, generation, [], [], map[], map[]), 0, map[], map[], map[])
  }

  lemma StartedInv(db: Db, generation: Identifier)
    requires Inv(db)
    ensures JointInv(Started(db, generation))
  {
    hide Inv, Delivery.SystemInv;
    DeliveryProofs.StartedInv(db);
    Service.EmptyTracked(Service.LogOf(db), map[], map[]);
  }

  // ---- The handoff -------------------------------------------------------------------------------

  function UpdateIds(metas: seq<UpdateMetadata>): (ids: seq<UpdateId>)
    ensures |ids| == |metas|
  {
    seq(|metas|, i requires 0 <= i < |metas| => metas[i].updateId)
  }

  /** The public log names the stored updates in order. */
  lemma PublicIds(db: Db, id: DocumentId)
    requires Inv(db) && id in db.documents
    ensures UpdateIds(Service.LogOf(db)(id)) == Delivery.Ids(db.documents[id].log)
  {
    hide ValidControl, ValidCreation, DecodeUpdateRecord, ExactIndex, LogPeers;
    Service.LogIsPublic(db, id);
    var d := db.documents[id];
    forall i | 0 <= i < |d.log| ensures Metas(d.log)[i].updateId == d.log[i].updateId {
      assert GoodRow(id, d.log[i]);
    }
  }

  /** What an active subscription got, or still gets, since it joined. */
  function Due(x: Delivery.System, id: nat): seq<UpdateId>
    requires id in x.registry.cells && id in x.received
  {
    x.received[id] + x.registry.cells[id].queue
  }

  lemma SuffixJoins<T>(s: seq<T>, prefix: seq<T>, since: nat)
    requires prefix <= s && since <= |prefix|
    ensures prefix + s[since..][|prefix| - since..] == s
  {
  }

  /** A subscription that is active in a joint state. */
  ghost predicate Active(j: Joint, id: nat) {
    id in j.delivery.links && id in j.delivery.registry.cells && j.delivery.registry.cells[id].state.None?
  }

  /** What an active subscription is due, out of its log. */
  lemma ActiveDue(j: Joint, id: nat)
    requires JointInv(j) && Active(j, id)
    ensures id in j.delivery.received && id in j.delivery.written
    ensures
      var x := j.delivery;
      var e := x.registry.cells[id].entry;
      && e.documentId in x.db.documents
      && var ids := UpdateIds(Service.LogOf(x.db)(e.documentId));
      && x.links[id].since <= |ids| == |x.db.documents[e.documentId].log|
      && ids == Delivery.Ids(x.db.documents[e.documentId].log)
      && Due(x, id) == ids[x.links[id].since..]
      && (e.channel in x.connections ==> Delivery.Pipeline(x, id) == ids[x.links[id].since..])
  {
    hide Inv, RegistryInv, Delivery.WiredConnection, Delivery.GoodGates, Delivery.OneGate, Delivery.Exclusive,
      Delivery.Serving, Delivery.Fenced, Tracked, VectorTracked, Framed, VectorFramed, Captured, Bounded, Remembered,
      Joined, Reaches, Service.LogOf, Delivery.Forwarded;
    assert Delivery.CompleteFor(j.delivery, id);
    PublicIds(j.delivery.db, j.delivery.registry.cells[id].entry.documentId);
  }

  /**
   * Complete handoff, over every run of reads and delivery together. A window opened after a
   * subscription joined captures at least the log it joined at. So once a reader has been handed
   * that window, or any prefix that reaches back to the joining, what it was handed followed by
   * the rest of what the subscription got or still gets is the whole log, in order and without
   * repetition; and while the connection is open that rest is written or on its way.
   */
  lemma HandoffCovers(s: Scheme, db: Db, generation: Identifier, actions: seq<Action>, id: nat, c: seq<byte>)
    requires Inv(db)
    ensures JointInv(Started(db, generation))
    ensures
      var j := Interact(s, Started(db, generation), actions);
      Active(j, id) && c in j.windows
      && j.windows[c].documentId == j.delivery.registry.cells[id].entry.documentId ==>
        && id in j.joined && id in j.delivery.received && id in j.delivery.written && c in j.service.handed
        && var x, since, n := j.delivery, j.delivery.links[id].since, |j.service.handed[c]|;
        && x.registry.cells[id].entry.documentId in x.db.documents
        && var log := Delivery.Ids(x.db.documents[x.registry.cells[id].entry.documentId].log);
        && n <= j.windows[c].terminal <= |log|
        && (j.windows[c].at > j.joined[id] ==> since <= j.windows[c].terminal)
        && (j.windows[c].at > j.joined[id] && n == j.windows[c].terminal ==> since <= n)
        && (since <= n ==> n - since <= |Due(x, id)| && UpdateIds(j.service.handed[c]) + Due(x, id)[n - since..] == log)
        && (since <= n && x.registry.cells[id].entry.channel in x.connections ==>
             n - since <= |Delivery.Pipeline(x, id)|
             && UpdateIds(j.service.handed[c]) + Delivery.Pipeline(x, id)[n - since..] == log)
  {
    hide Inv, JointInv, Interact, Delivery.Ids, Due, Delivery.Pipeline;
    StartedInv(db, generation);
    InteractKeeps(s, Started(db, generation), actions);
    var j := Interact(s, Started(db, generation), actions);
    if Active(j, id) && c in j.windows && j.windows[c].documentId == j.delivery.registry.cells[id].entry.documentId {
      CursorFacts(j, id, c);
      ActiveDue(j, id);
      var metas := Service.LogOf(j.service.db)(j.windows[c].documentId);
      var ids := UpdateIds(metas);
      var prefix := UpdateIds(j.service.handed[c]);
      assert prefix <= ids;
      if j.delivery.links[id].since <= |prefix| { SuffixJoins(ids, prefix, j.delivery.links[id].since); }
    }
  }

  /** What the invariant says of one cursor and one subscription of its document. */
  lemma CursorFacts(j: Joint, id: nat, c: seq<byte>)
    requires JointInv(j) && Active(j, id) && c in j.windows
    requires j.windows[c].documentId == j.delivery.registry.cells[id].entry.documentId
    ensures id in j.joined && c in j.service.handed && j.delivery.db == j.service.db
    ensures j.service.handed[c] <= Service.LogOf(j.service.db)(j.windows[c].documentId)
    ensures |j.service.handed[c]| <= j.windows[c].terminal <= |Service.LogOf(j.service.db)(j.windows[c].documentId)|
    ensures j.windows[c].at > j.joined[id] ==> j.delivery.links[id].since <= j.windows[c].terminal
  {
    hide Delivery.SystemInv, Service.ServiceInv, Framed, VectorFramed, Remembered, Service.LogOf;
    assert ReachesBack(j.delivery, j.joined, id, j.windows[c]);
  }

  /**
   * How an answer's cursor is stamped: an origin and an advance past the tail capture the log as it
   * is, later than every subscription there is; a continuation stays in its predecessor's window;
   * and once no more follows, the cursor stands for all of its window.
   */
  ghost predicate WellStamped(j: Joint, k: Joint, call: EnumerationCall, response: EnumerationResponse) {
    response.nextCursor.Some? ==>
      var token := response.nextCursor.value;
      var repeated := Repeats(Retain(j.service.enumerations, Unexpired(call.clock.now)), call.start, token);
      && token in k.windows && token in k.service.handed
      && (!repeated && (call.start == Origin || call.start.mode == AfterTail) ==>
           && k.windows[token] == Window(call.context.documentId, j.clock,
                                         |Service.LogOf(j.service.db)(call.context.documentId)|)
           && forall id :: id in j.joined ==> k.windows[token].at > j.joined[id])
      && (!repeated && call.start.Resume? && call.start.mode == Continue ==>
           call.start.encoded in j.windows && k.windows[token] == j.windows[call.start.encoded])
      && (!response.page.hasMore ==> |k.service.handed[token]| == k.windows[token].terminal)
  }

  /** Every cursor handed out in any joint run is stamped so. */
  lemma PagesAreStamped(s: Scheme, db: Db, generation: Identifier, actions: seq<Action>, call: EnumerationCall,
                        secret: Authenticator)
    requires Inv(db)
    ensures JointInv(Started(db, generation))
    ensures
      var j := Interact(s, Started(db, generation), actions);
      && JointInv(j)
      && var outcome := Service.EnumerateOutcome(s, j.service, call, secret);
      outcome.ReadAuthorized? ==> WellStamped(j, Act(s, j, EnumerateUpdates(call, secret)), call, outcome.response)
  {
    hide Inv, JointInv, Interact, Act, WellStamped, Service.EnumerateOutcome;
    StartedInv(db, generation);
    InteractKeeps(s, Started(db, generation), actions);
    PageStamped(s, Interact(s, Started(db, generation), actions), call, secret);
  }

  lemma PageStamped(s: Scheme, j: Joint, call: EnumerationCall, secret: Authenticator)
    requires JointInv(j)
    ensures
      var outcome := Service.EnumerateOutcome(s, j.service, call, secret);
      outcome.ReadAuthorized? ==> WellStamped(j, Act(s, j, EnumerateUpdates(call, secret)), call, outcome.response)
  {
    hide Delivery.SystemInv, Inv, Enumerate, VectorTracked, Tracked, Service.LiveContext, Bounded, Remembered, Captured,
      Reaches, VectorFramed, Framed, Service.LogOf, Repeats, InWindow, Owns, AccessTo, Stamped, Joined, Windowed, OnlyOld;
    var z := j.service;
    Service.TrackedWithinAll(z);
    var outcome := Service.EnumerateOutcome(s, z, call, secret);
    if outcome.ReadAuthorized? && outcome.response.nextCursor.Some? {
      var metas := Service.LogOf(z.db)(call.context.documentId);
      EnumerateFramed(s, j, call, secret);
      EnumerateWindowed(z.enumerations, z.generation, Service.LogOf(z.db), z.handed, call);
      EnumerateExact(z.enumerations, z.generation, Service.LogOf(z.db), z.handed, call);
      var live := Retain(z.enumerations, Unexpired(call.clock.now));
      RetainMembers(z.enumerations, Unexpired(call.clock.now));
      FramedFewer(live, z.enumerations, j.windows);
      JoinedBefore(j);
      AnswerStamped(live, Enumerate(z.enumerations, z.generation, metas, call), metas, call, j.windows, j.clock,
                    Service.LogOf(z.db), HandedAfter(z.handed, call.start, outcome));
    }
  }

  lemma JoinedBefore(j: Joint)
    requires JointInv(j)
    ensures forall id :: id in j.joined ==> j.joined[id] < j.clock
  {
    hide Delivery.SystemInv, Service.ServiceInv, Framed, VectorFramed, Captured, Bounded, Remembered, Reaches;
  }

  lemma AnswerStamped(live: seq<EnumerationPass>, answer: EnumerationAnswer, metas: seq<UpdateMetadata>,
                      call: EnumerationCall, windows: map<seq<byte>, Window>, clock: nat,
                      logs: DocumentId -> seq<UpdateMetadata>, handed: Ledger)
    requires Framed(live, windows) && Windowed(live, answer, metas, call)
    requires answer.outcome.ReadAuthorized? && answer.outcome.response.nextCursor.Some?
    requires Tracked(answer.passes, logs, handed)
    requires Framed(answer.passes, Stamped(live, answer.outcome, |metas|, call, windows, clock))
    ensures
      var token := answer.outcome.response.nextCursor.value;
      var after := Stamped(live, answer.outcome, |metas|, call, windows, clock);
      && token in after && token in handed
      && (!Repeats(live, call.start, token) && (call.start == Origin || call.start.mode == AfterTail) ==>
           after[token] == Window(call.context.documentId, clock, |metas|))
      && (!Repeats(live, call.start, token) && call.start.Resume? && call.start.mode == Continue ==>
           call.start.encoded in windows && after[token] == windows[call.start.encoded])
      && (!answer.outcome.response.page.hasMore ==> |handed[token]| == after[token].terminal)
  {
    hide Tracked, Repeats, Framed;
    var token := answer.outcome.response.nextCursor.value;
    var p :| p in answer.passes && Owns(p, call, answer.outcome.response)
      && (!Repeats(live, call.start, token) ==> InWindow(live, p, metas, call));
    PassStands(answer.passes, logs, handed, Stamped(live, answer.outcome, |metas|, call, windows, clock), p);
    if !Repeats(live, call.start, token) { NewWindowStands(live, windows, p, metas, call, clock); }
  }

  /** A live pass at the end of its window stands for all of it. */
  lemma PassStands(passes: seq<EnumerationPass>, logs: DocumentId -> seq<UpdateMetadata>, handed: Ledger,
                   windows: map<seq<byte>, Window>, p: EnumerationPass)
    requires Tracked(passes, logs, handed) && Framed(passes, windows) && p in passes
    ensures p.current.token in windows && p.current.token in handed
    ensures p.current.mode == AfterTail ==> |handed[p.current.token]| == windows[p.current.token].terminal
  {
    hide Orderly, GoodRetry;
    assert GoodPass(p, logs(p.context.documentId), handed);
  }

  // ---- At every later state ------------------------------------------------------------------------

  lemma ActExtends(s: Scheme, j: Joint, a: Action)
    requires JointInv(j)
    ensures
      var k := Act(s, j, a);
      Extends(j.delivery.db, k.delivery.db) && DeliveryFrames.SameLinks(j.delivery, k.delivery)
  {
    hide Delivery.SystemInv, Service.ServiceInv, Framed, VectorFramed, Captured, Bounded, Remembered, Reaches, Joined,
      Extends, DeliveryFrames.SameLinks, Delivery.Next, Echoed, Stamped, VectorStamped, Service.Step;
    ExtendsReflexive(j.delivery.db);
    DeliveryFrames.SystemFacts(j.delivery);
    DeliveryFrames.NothingLinks(j.delivery);
    if a.Deliver? {
      NextExtends(s, j.delivery, j.service, a.step);
      DeliveryFrames.NextLinks(s, j.delivery, a.step);
    }
  }

  lemma SameLinksChain(x: Delivery.System, y: Delivery.System, z: Delivery.System)
    requires DeliveryFrames.SameLinks(x, y) && DeliveryFrames.SameLinks(y, z)
    ensures DeliveryFrames.SameLinks(x, z)
  {
  }

  lemma {:induction false} InteractExtends(s: Scheme, j: Joint, actions: seq<Action>)
    requires JointInv(j)
    ensures
      var k := Interact(s, j, actions);
      Extends(j.delivery.db, k.delivery.db) && DeliveryFrames.SameLinks(j.delivery, k.delivery)
    decreases |actions|
  {
    hide JointInv, Act, Extends, DeliveryFrames.SameLinks;
    JointLinks(j);
    ExtendsReflexive(j.delivery.db);
    if actions != [] {
      ActKeeps(s, j, actions[0]);
      ActExtends(s, j, actions[0]);
      var next := Act(s, j, actions[0]);
      InteractExtends(s, next, actions[1..]);
      var k := Interact(s, next, actions[1..]);
      ExtendsTransitive(j.delivery.db, next.delivery.db, k.delivery.db);
      SameLinksChain(j.delivery, next.delivery, k.delivery);
    }
  }

  lemma JointLinks(j: Joint)
    requires JointInv(j)
    ensures DeliveryFrames.SameLinks(j.delivery, j.delivery)
    ensures Inv(j.delivery.db) && j.delivery.db == j.service.db
    ensures forall id :: id in j.delivery.links ==>
      id in j.delivery.registry.cells && j.delivery.registry.cells[id].entry.documentId in j.delivery.db.documents
    ensures forall id :: id in j.delivery.links ==>
      j.delivery.links[id].since <= |j.delivery.db.documents[j.delivery.registry.cells[id].entry.documentId].log|
    ensures Service.ServiceInv(j.service)
  {
    hide RegistryInv, Inv, Delivery.WiredConnection, Delivery.GoodGates, Delivery.OneGate, Delivery.Exclusive,
      Delivery.Complete, Delivery.Serving, Delivery.Fenced, Service.ServiceInv, Framed, VectorFramed, Captured, Bounded,
      Remembered, Reaches;
  }

  /** A prefix of the log that reaches back to a subscription's joining is complete with it ever after. */
  lemma PrefixCovers(s: Scheme, j: Joint, later: seq<Action>, id: nat, got: seq<UpdateMetadata>)
    requires JointInv(j) && id in j.delivery.links && id in j.delivery.registry.cells
    requires got <= Service.LogOf(j.service.db)(j.delivery.registry.cells[id].entry.documentId)
    requires j.delivery.links[id].since <= |got|
    ensures
      var k := Interact(s, j, later);
      && JointInv(k)
      && var documentId := j.delivery.registry.cells[id].entry.documentId;
      && (Active(k, id) ==>
           && k.delivery.links[id].since == j.delivery.links[id].since
           && k.delivery.registry.cells[id].entry == j.delivery.registry.cells[id].entry
           && id in k.delivery.received && documentId in k.delivery.db.documents
           && |got| <= |k.delivery.db.documents[documentId].log|
           && got <= Service.LogOf(k.service.db)(documentId)
           && |got| - k.delivery.links[id].since <= |Due(k.delivery, id)|
           && UpdateIds(got) + Due(k.delivery, id)[|got| - k.delivery.links[id].since..]
              == Delivery.Ids(k.delivery.db.documents[documentId].log))
  {
    hide JointInv, Interact, Extends, Service.LogOf, Delivery.Ids, Due, Delivery.Pipeline, Inv;
    InteractKeeps(s, j, later);
    InteractExtends(s, j, later);
    var k := Interact(s, j, later);
    if Active(k, id) {
      JointLinks(j);
      JointLinks(k);
      ActiveDue(k, id);
      var documentId := j.delivery.registry.cells[id].entry.documentId;
      Service.LogsGrow(j.service.db, k.service.db, documentId);
      var ids := UpdateIds(Service.LogOf(k.service.db)(documentId));
      assert UpdateIds(got) <= ids;
      SuffixJoins(ids, UpdateIds(got), k.delivery.links[id].since);
    }
  }

  /**
   * The tail closes the handoff: when a read that follows its cursors is answered without one, what
   * the reader has been handed, followed at every later state by the rest of what a subscription
   * that had already joined got or still gets, is the whole log.
   */
  lemma TailCovers(s: Scheme, db: Db, generation: Identifier, before: seq<Action>, call: EnumerationCall,
                   secret: Authenticator, later: seq<Action>, id: nat)
    requires Inv(db)
    ensures JointInv(Started(db, generation))
    ensures
      var j := Interact(s, Started(db, generation), before);
      && JointInv(j)
      && var k := Interact(s, j, later);
      var outcome := Service.EnumerateOutcome(s, j.service, call, secret);
      var got := HandedBefore(j.service.handed, call.start);
      outcome.ReadAuthorized? && outcome.response.nextCursor.None? && id in j.delivery.links && Active(k, id)
      && k.delivery.registry.cells[id].entry.documentId == call.context.documentId ==>
        && id in k.delivery.received && call.context.documentId in k.delivery.db.documents
        && k.delivery.links[id].since <= |got|
        && |got| - k.delivery.links[id].since <= |Due(k.delivery, id)|
        && UpdateIds(got) + Due(k.delivery, id)[|got| - k.delivery.links[id].since..]
           == Delivery.Ids(k.delivery.db.documents[call.context.documentId].log)
  {
    hide Inv, JointInv, Interact, Service.LogOf, Service.ServiceInv, Delivery.Ids, Due, Extends, Service.EnumerateOutcome;
    StartedInv(db, generation);
    InteractKeeps(s, Started(db, generation), before);
    var j := Interact(s, Started(db, generation), before);
    InteractExtends(s, j, later);
    var k := Interact(s, j, later);
    JointLinks(j);
    var outcome := Service.EnumerateOutcome(s, j.service, call, secret);
    var got := HandedBefore(j.service.handed, call.start);
    if outcome.ReadAuthorized? && outcome.response.nextCursor.None? && id in j.delivery.links && Active(k, id)
      && k.delivery.registry.cells[id].entry.documentId == call.context.documentId
    {
      TailIsWhole(s, j, call, secret);
      PublicIds(j.delivery.db, call.context.documentId);
      PrefixCovers(s, j, later, id, got);
    }
  }

  lemma TailIsWhole(s: Scheme, j: Joint, call: EnumerationCall, secret: Authenticator)
    requires JointInv(j)
    ensures
      var outcome := Service.EnumerateOutcome(s, j.service, call, secret);
      outcome.ReadAuthorized? && outcome.response.nextCursor.None? ==>
        HandedBefore(j.service.handed, call.start) == Service.LogOf(j.service.db)(call.context.documentId)
  {
    hide Delivery.SystemInv, Inv, Enumerate, VectorTracked, Tracked, Framed, VectorFramed, Captured, Bounded, Remembered,
      Reaches, Joined, Service.LogOf, AccessTo, HandedBefore;
    Service.TrackedWithinAll(j.service);
    EnumerateExact(j.service.enumerations, j.service.generation, Service.LogOf(j.service.db), j.service.handed, call);
  }

  /**
   * Complete handoff for backfills: when the last page of a backfill opened after a subscription
   * joined comes, its window reaches back to the joining; its pages together are what the version
   * misses of the window; and at every later state the subscription got or still gets, in order,
   * everything past the window.
   */
  lemma BackfillCovers(s: Scheme, db: Db, generation: Identifier, before: seq<Action>, call: VectorCall,
                       secret: Authenticator, later: seq<Action>, id: nat)
    requires Inv(db)
    ensures JointInv(Started(db, generation))
    ensures
      var j := Interact(s, Started(db, generation), before);
      && JointInv(j)
      && var k := Interact(s, j, later);
      var metas := Service.LogOf(j.service.db)(call.context.documentId);
      var outcome := Service.BackfillOutcome(s, j.service, call, secret);
      var past := VectorBefore(j.service.vectorHanded, call.start, metas);
      outcome.ReadAuthorized? && outcome.response.nextCursor.None? && id in j.delivery.links && Active(k, id)
      && k.delivery.registry.cells[id].entry.documentId == call.context.documentId
      && OpenedAfter(j, call, id) ==>
        && id in k.delivery.received && call.context.documentId in k.delivery.db.documents
        && k.delivery.links[id].since <= past.window <= |Service.LogOf(k.service.db)(call.context.documentId)|
        && past.updates + outcome.response.page.updates
           == Relevant(call.version, Service.LogOf(k.service.db)(call.context.documentId)[..past.window])
        && past.window - k.delivery.links[id].since <= |Due(k.delivery, id)|
        && UpdateIds(Service.LogOf(k.service.db)(call.context.documentId)[..past.window])
           + Due(k.delivery, id)[past.window - k.delivery.links[id].since..]
           == Delivery.Ids(k.delivery.db.documents[call.context.documentId].log)
  {
    hide Inv, JointInv, Interact, Service.LogOf, Service.ServiceInv, Delivery.Ids, Due, Extends, Service.BackfillOutcome,
      Relevant, OpenedAfter;
    StartedInv(db, generation);
    InteractKeeps(s, Started(db, generation), before);
    var j := Interact(s, Started(db, generation), before);
    InteractExtends(s, j, later);
    var k := Interact(s, j, later);
    JointLinks(j);
    var metas := Service.LogOf(j.service.db)(call.context.documentId);
    var outcome := Service.BackfillOutcome(s, j.service, call, secret);
    var past := VectorBefore(j.service.vectorHanded, call.start, metas);
    if outcome.ReadAuthorized? && outcome.response.nextCursor.None? && id in j.delivery.links && Active(k, id)
      && k.delivery.registry.cells[id].entry.documentId == call.context.documentId && OpenedAfter(j, call, id)
    {
      LastPage(s, j, call, secret);
      OpenedReaches(j, call, id);
      PrefixCovers(s, j, later, id, metas[..past.window]);
      assert Service.LogOf(k.service.db)(call.context.documentId)[..past.window] == metas[..past.window];
    }
  }

  /** A backfill whose origin, now or recorded, came after the subscription joined. */
  ghost predicate OpenedAfter(j: Joint, call: VectorCall, id: nat) {
    && call.start.VectorContinue? ==>
      && call.start.encoded in j.vectorWindows && id in j.joined
      && j.vectorWindows[call.start.encoded].documentId == call.context.documentId
      && j.vectorWindows[call.start.encoded].at > j.joined[id]
  }

  lemma OpenedReaches(j: Joint, call: VectorCall, id: nat)
    requires JointInv(j) && id in j.delivery.links && OpenedAfter(j, call, id)
    requires id in j.delivery.registry.cells
    requires j.delivery.registry.cells[id].entry.documentId == call.context.documentId
    ensures j.delivery.links[id].since
         <= VectorBefore(j.service.vectorHanded, call.start,
                         Service.LogOf(j.service.db)(call.context.documentId)).window
  {
    hide Delivery.SystemInv, Service.ServiceInv, Framed, VectorFramed, Captured, Bounded, Service.LogOf;
    if call.start.VectorContinue? {
      assert ReachesBack(j.delivery, j.joined, id, j.vectorWindows[call.start.encoded]);
    } else {
      WholeLogReaches(j, id, call.context.documentId);
      JoinedBefore(j);
      assert ReachesBack(j.delivery, j.joined, id,
        Window(call.context.documentId, j.clock, |Service.LogOf(j.service.db)(call.context.documentId)|));
    }
  }

  lemma LastPage(s: Scheme, j: Joint, call: VectorCall, secret: Authenticator)
    requires JointInv(j)
    ensures
      var metas := Service.LogOf(j.service.db)(call.context.documentId);
      var outcome := Service.BackfillOutcome(s, j.service, call, secret);
      var past := VectorBefore(j.service.vectorHanded, call.start, metas);
      outcome.ReadAuthorized? && outcome.response.nextCursor.None? ==>
        && past.window <= |metas|
        && past.updates + outcome.response.page.updates == Relevant(call.version, metas[..past.window])
  {
    hide Delivery.SystemInv, Inv, Backfill, VectorTracked, Tracked, Framed, VectorFramed, Captured, Bounded, Remembered,
      Reaches, Joined, Service.LogOf, AccessTo, VectorBefore, Relevant;
    VectorBackfillExact(j.service.vectors, Service.LogOf(j.service.db), j.service.vectorHanded, call);
  }
}
