/** Replays over whole runs: an answered cursor keeps its answer until its pass moves on. */
module Replays {
  import opened Types
  import opened Tables
  import opened Control
  import opened History
  import opened PassRegistry
  import opened EnumerationPasses
  import opened VectorPasses
  import opened Service

  // ---- What may move a pass ---------------------------------------------------------

  /** An event that ends an enumeration pass or takes it further. */
  ghost predicate Disturbs(s: Scheme, z: ServiceState, e: Event, p: EnumerationPass)
    requires ServiceInv(z)
  {
    match e
    case Mutate(command) => !Outlives(s, z.db, command)(p.context)
    case EnumerateUpdates(call, secret) =>
      CanRead(s, z.db, call.context, secret) && Touches(call, p, EnumerateOutcome(s, z, call, secret))
    case BackfillUpdates(_, _) => false
    case CloseChannel(channel) => p.context.channel == channel
    case Restart(_) => true
  }

  /** An event that ends a backfill pass or takes it further. */
  ghost predicate DisturbsVector(s: Scheme, z: ServiceState, e: Event, p: VectorPass)
    requires ServiceInv(z)
  {
    match e
    case Mutate(command) => !Outlives(s, z.db, command)(p.context)
    case EnumerateUpdates(_, _) => false
    case BackfillUpdates(call, secret) =>
      CanRead(s, z.db, call.context, secret) && TouchesVector(call, p, BackfillOutcome(s, z, call, secret))
    case CloseChannel(channel) => p.context.channel == channel
    case Restart(_) => true
  }

  ghost predicate Undisturbed(s: Scheme, z: ServiceState, events: seq<Event>, p: EnumerationPass)
    requires ServiceInv(z)
    decreases |events|
  {
    events == [] ||
    (StepKeeps(s, z, events[0]);
     !Disturbs(s, z, events[0], p) && Undisturbed(s, Step(s, z, events[0]), events[1..], p))
  }

  ghost predicate UndisturbedVector(s: Scheme, z: ServiceState, events: seq<Event>, p: VectorPass)
    requires ServiceInv(z)
    decreases |events|
  {
    events == [] ||
    (StepKeeps(s, z, events[0]);
     !DisturbsVector(s, z, events[0], p) && UndisturbedVector(s, Step(s, z, events[0]), events[1..], p))
  }

  lemma StepInPlace(s: Scheme, z: ServiceState, e: Event, p: EnumerationPass)
    requires ServiceInv(z) && p in z.enumerations && !Disturbs(s, z, e, p)
    ensures p in Step(s, z, e).enumerations && Step(s, z, e).generation == z.generation
  {
    hide Inv, Tracked, VectorTracked, LiveContext, Outlives, AccessTo, Enumerate, Backfill, LogOf, Touches, Execute;
    match e
    case Mutate(command) => RetainMembers(z.enumerations, EnumerationsIn(Outlives(s, z.db, command)));
    case EnumerateUpdates(call, secret) =>
      if CanRead(s, z.db, call.context, secret) {
        EnumerateInPlace(z.enumerations, z.generation, LogOf(z.db), z.handed, call);
      }
    case BackfillUpdates(_, _) =>
    case CloseChannel(channel) => RetainMembers(z.enumerations, EnumerationsIn(OffChannel(channel)));
  }

  lemma StepVectorInPlace(s: Scheme, z: ServiceState, e: Event, p: VectorPass)
    requires ServiceInv(z) && p in z.vectors && !DisturbsVector(s, z, e, p)
    ensures p in Step(s, z, e).vectors
  {
    hide Inv, Tracked, VectorTracked, LiveContext, Outlives, AccessTo, Enumerate, Backfill, LogOf, TouchesVector, Execute;
    match e
    case Mutate(command) => RetainMembers(z.vectors, VectorsIn(Outlives(s, z.db, command)));
    case EnumerateUpdates(_, _) =>
    case BackfillUpdates(call, secret) =>
      if CanRead(s, z.db, call.context, secret) {
        BackfillInPlace(z.vectors, LogOf(z.db), z.vectorHanded, call);
      }
    case CloseChannel(channel) => RetainMembers(z.vectors, VectorsIn(OffChannel(channel)));
  }

  lemma {:induction false} ServeInPlace(s: Scheme, z: ServiceState, events: seq<Event>, p: EnumerationPass)
    requires ServiceInv(z) && p in z.enumerations && Undisturbed(s, z, events, p)
    ensures ServiceInv(Serve(s, z, events))
    ensures p in Serve(s, z, events).enumerations && Serve(s, z, events).generation == z.generation
    decreases |events|
  {
    hide ServiceInv, Step, Disturbs;
    if events != [] {
      StepKeeps(s, z, events[0]);
      StepInPlace(s, z, events[0], p);
      ServeInPlace(s, Step(s, z, events[0]), events[1..], p);
    }
  }

  lemma {:induction false} ServeVectorInPlace(s: Scheme, z: ServiceState, events: seq<Event>, p: VectorPass)
    requires ServiceInv(z) && p in z.vectors && UndisturbedVector(s, z, events, p)
    ensures ServiceInv(Serve(s, z, events)) && p in Serve(s, z, events).vectors
    decreases |events|
  {
    hide ServiceInv, Step, DisturbsVector;
    if events != [] {
      StepKeeps(s, z, events[0]);
      StepVectorInPlace(s, z, events[0], p);
      ServeVectorInPlace(s, Step(s, z, events[0]), events[1..], p);
    }
  }

  // ---- Enumerations ------------------------------------------------------------------

  /** An authorized read answers what its registry step answers. */
  lemma ReadOutcomes(s: Scheme, z: ServiceState, call: EnumerationCall, secret: Authenticator)
    requires ServiceInv(z)
    ensures forall p, id :: p in z.enumerations && p.context.documentId == id ==> WithinLog(p, LogOf(z.db)(id))
    ensures EnumerateOutcome(s, z, call, secret).ReadAuthorized? ==> CanRead(s, z.db, call.context, secret)
    ensures CanRead(s, z.db, call.context, secret) ==>
      EnumerateOutcome(s, z, call, secret)
      == Enumerate(z.enumerations, z.generation, LogOf(z.db)(call.context.documentId), call).outcome
  {
    hide Inv, Tracked, VectorTracked, LiveContext, AccessTo, Enumerate, LogOf;
    TrackedWithinAll(z);
  }

  /** The page a presented cursor is answered with stays with the pass that the answer leaves behind. */
  lemma AnswerRetained(s: Scheme, z: ServiceState, call: EnumerationCall, secret: Authenticator)
    requires ServiceInv(z) && call.start.Resume?
    ensures
      var outcome := EnumerateOutcome(s, z, call, secret);
      outcome.ReadAuthorized? && outcome.response.nextCursor.Some? ==>
        exists p :: p in Step(s, z, Event.EnumerateUpdates(call, secret)).enumerations
                    && Retains(p, z.generation, call, outcome.response)
  {
    hide Inv, VectorTracked, LiveContext, CanRead, Enumerate, LogOf, Tracked, Retains;
    ReadOutcomes(s, z, call, secret);
    EnumerateRetained(z.enumerations, z.generation, LogOf(z.db), z.handed, call);
  }

  /** A retained answer is given again, unchanged, to whoever may present its cursor. */
  lemma RetainedAnswers(s: Scheme, z: ServiceState, p: EnumerationPass, call: EnumerationCall, secret: Authenticator)
    requires ServiceInv(z) && p in z.enumerations && Presents(p, z.generation, call) && Replays(p, call.start)
    requires CanRead(s, z.db, call.context, secret)
    ensures EnumerateOutcome(s, z, call, secret) == ReadAuthorized(p.retry.value.response)
    ensures Step(s, z, Event.EnumerateUpdates(call, secret)).enumerations
         == Retain(z.enumerations, EnumerationPasses.Unexpired(call.clock.now))
  {
    hide Inv, VectorTracked, LiveContext, CanRead, Enumerate, LogOf, Tracked;
    ReadOutcomes(s, z, call, secret);
    ReplayIdentical(z.enumerations, p, z.generation, LogOf(z.db), z.handed, call);
  }

  /**
   * Replay over whole runs. Once any run has answered a presented cursor with a page, some pass
   * retains that page; and through any later events that leave this pass in place, presenting the
   * same cursor with authority is answered with exactly that page, whatever was accepted meanwhile,
   * and moves no pass.
   */
  lemma ReplayInEveryRun(s: Scheme, authorities: map<CreateAuthorityId, CreateAuthorityRow>, generation: Identifier,
                         events: seq<Event>, call: EnumerationCall, secret: Authenticator, p: EnumerationPass,
                         later: seq<Event>, again: EnumerationCall, other: Authenticator)
    requires call.start.Resume? && again.start == call.start && again.context == call.context
    ensures
      var z := Serve(s, Fresh(authorities, generation), events);
      && ServiceInv(z) && ServiceInv(Step(s, z, Event.EnumerateUpdates(call, secret)))
      && var outcome := EnumerateOutcome(s, z, call, secret);
      var y := Step(s, z, Event.EnumerateUpdates(call, secret));
      outcome.ReadAuthorized? && outcome.response.nextCursor.Some? ==>
        && (exists q :: q in y.enumerations && Retains(q, z.generation, call, outcome.response))
        && (p in y.enumerations && Retains(p, z.generation, call, outcome.response) && Undisturbed(s, y, later, p) ==>
             var k := Serve(s, y, later);
             && ServiceInv(k) && p in k.enumerations
             && (again.clock.now < p.expires && CanRead(s, k.db, again.context, other) ==>
                  && EnumerateOutcome(s, k, again, other) == outcome
                  && Step(s, k, Event.EnumerateUpdates(again, other)).enumerations
                     == Retain(k.enumerations, EnumerationPasses.Unexpired(again.clock.now))))
  {
    hide ServiceInv, Serve, Step, Fresh, EnumerateOutcome, Undisturbed, CanRead;
    ServeKeeps(s, Fresh(authorities, generation), events);
    var z := Serve(s, Fresh(authorities, generation), events);
    StepKeeps(s, z, Event.EnumerateUpdates(call, secret));
    StepGeneration(s, z, call, secret);
    var y := Step(s, z, Event.EnumerateUpdates(call, secret));
    var outcome := EnumerateOutcome(s, z, call, secret);
    if outcome.ReadAuthorized? && outcome.response.nextCursor.Some? {
      AnswerRetained(s, z, call, secret);
      if p in y.enumerations && Retains(p, z.generation, call, outcome.response) && Undisturbed(s, y, later, p) {
        ServeInPlace(s, y, later, p);
        var k := Serve(s, y, later);
        if again.clock.now < p.expires && CanRead(s, k.db, again.context, other) {
          RetainedAnswers(s, k, p, again, other);
        }
      }
    }
  }

  lemma StepGeneration(s: Scheme, z: ServiceState, call: EnumerationCall, secret: Authenticator)
    requires ServiceInv(z)
    ensures Step(s, z, Event.EnumerateUpdates(call, secret)).generation == z.generation
  {
    hide Inv, Tracked, VectorTracked, LiveContext, CanRead, Enumerate, LogOf;
  }

  // ---- Backfills ---------------------------------------------------------------------

  lemma BackfillOutcomes(s: Scheme, z: ServiceState, call: VectorCall, secret: Authenticator)
    requires ServiceInv(z)
    ensures BackfillOutcome(s, z, call, secret).ReadAuthorized? ==> CanRead(s, z.db, call.context, secret)
    ensures CanRead(s, z.db, call.context, secret) ==>
      BackfillOutcome(s, z, call, secret) == Backfill(z.vectors, LogOf(z.db)(call.context.documentId), call).outcome
  {
    hide Inv, Tracked, VectorTracked, LiveContext, AccessTo, Backfill, LogOf;
  }

  lemma VectorAnswerRetained(s: Scheme, z: ServiceState, call: VectorCall, secret: Authenticator)
    requires ServiceInv(z) && call.start.VectorContinue?
    ensures
      var outcome := BackfillOutcome(s, z, call, secret);
      outcome.ReadAuthorized? ==>
        exists p :: p in Step(s, z, Event.BackfillUpdates(call, secret)).vectors && VectorRetains(p, call, outcome.response)
  {
    hide Inv, VectorTracked, LiveContext, CanRead, Backfill, LogOf, Tracked, VectorRetains;
    BackfillOutcomes(s, z, call, secret);
    BackfillRetained(z.vectors, LogOf(z.db)(call.context.documentId), call);
  }

  lemma VectorRetainedAnswers(s: Scheme, z: ServiceState, p: VectorPass, call: VectorCall, secret: Authenticator)
    requires ServiceInv(z) && p in z.vectors && PresentsVector(p, call)
    requires p.retry.Some? && call.start == VectorContinue(p.retry.value.token)
    requires CanRead(s, z.db, call.context, secret)
    ensures BackfillOutcome(s, z, call, secret) == ReadAuthorized(p.retry.value.response)
    ensures Step(s, z, Event.BackfillUpdates(call, secret)).vectors
         == Retain(z.vectors, VectorUnexpired(call.clock.now))
  {
    hide Inv, VectorTracked, LiveContext, CanRead, Backfill, LogOf, Tracked;
    BackfillOutcomes(s, z, call, secret);
    VectorReplayIdentical(z.vectors, p, LogOf(z.db), z.vectorHanded, call);
  }

  /** The same for backfills, the page after which no cursor follows included. */
  lemma BackfillReplayInEveryRun(s: Scheme, authorities: map<CreateAuthorityId, CreateAuthorityRow>,
                                 generation: Identifier, events: seq<Event>, call: VectorCall, secret: Authenticator,
                                 p: VectorPass, later: seq<Event>, again: VectorCall, other: Authenticator)
    requires call.start.VectorContinue? && again.start == call.start
    requires again.context == call.context && again.version == call.version
    ensures
      var z := Serve(s, Fresh(authorities, generation), events);
      && ServiceInv(z) && ServiceInv(Step(s, z, Event.BackfillUpdates(call, secret)))
      && var outcome := BackfillOutcome(s, z, call, secret);
      var y := Step(s, z, Event.BackfillUpdates(call, secret));
      outcome.ReadAuthorized? ==>
        && (exists q :: q in y.vectors && VectorRetains(q, call, outcome.response))
        && (p in y.vectors && VectorRetains(p, call, outcome.response) && UndisturbedVector(s, y, later, p) ==>
             var k := Serve(s, y, later);
             && ServiceInv(k) && p in k.vectors
             && (again.clock.now < p.expires && CanRead(s, k.db, again.context, other) ==>
                  && BackfillOutcome(s, k, again, other) == outcome
                  && Step(s, k, Event.BackfillUpdates(again, other)).vectors
                     == Retain(k.vectors, VectorUnexpired(again.clock.now))))
  {
    hide ServiceInv, Serve, Step, Fresh, BackfillOutcome, UndisturbedVector, CanRead;
    ServeKeeps(s, Fresh(authorities, generation), events);
    var z := Serve(s, Fresh(authorities, generation), events);
    StepKeeps(s, z, Event.BackfillUpdates(call, secret));
    var y := Step(s, z, Event.BackfillUpdates(call, secret));
    var outcome := BackfillOutcome(s, z, call, secret);
    if outcome.ReadAuthorized? {
      VectorAnswerRetained(s, z, call, secret);
      if p in y.vectors && VectorRetains(p, call, outcome.response) && UndisturbedVector(s, y, later, p) {
        ServeVectorInPlace(s, y, later, p);
        var k := Serve(s, y, later);
        if again.clock.now < p.expires && CanRead(s, k.db, again.context, other) {
          VectorRetainedAnswers(s, k, p, again, other);
        }
      }
    }
  }
}
