/** Every step of delivery keeps the system invariant. */
module DeliveryProofs {
  import opened Prelude
  import opened Types
  import opened UpdateRecord
  import opened CapabilityTree
  import opened Tables
  import opened Control
  import opened UpdateLog
  import opened History
  import opened Subscriptions
  import opened Delivery

  // ---- Frames ----------------------------------------------------------------------

  /** Every holder of a gate after a step held it before. */
  ghost predicate HoldsLess(x: System, y: System) {
    && (forall id, g :: HeldBy(y, id, g) ==> HeldBy(x, id, g))
    && (forall c, id, g :: HeldInFlight(y, c, id, g) ==> HeldInFlight(x, c, id, g) || HeldBy(x, id, g))
    && (forall r, g :: HeldByRevoker(y, r, g) ==> HeldByRevoker(x, r, g))
  }

  lemma OneGateFrame(x: System, y: System)
    requires OneGate(x) && y.gates == x.gates && y.weak == x.weak && HoldsLess(x, y)
    ensures OneGate(y)
  {
    hide HeldBy, HeldInFlight, HeldByRevoker;
    forall g | g in y.gates && Held(y, g) ensures Held(x, g) {
      if id :| HeldBy(y, id, g) {
        assert HeldBy(x, id, g);
      } else if c, id :| HeldInFlight(y, c, id, g) {
        assert HeldInFlight(x, c, id, g) || HeldBy(x, id, g);
      } else {
        var r :| HeldByRevoker(y, r, g);
        assert HeldByRevoker(x, r, g);
      }
    }
  }

  lemma ExclusiveFrame(x: System, y: System)
    requires Exclusive(x) && y.revokers == x.revokers
    requires forall c, g :: ReadLocks(y, c, g) ==> ReadLocks(x, c, g)
    ensures Exclusive(y)
  {
    hide ReadLocks;
    forall g ensures ReadLocked(y, g) ==> ReadLocked(x, g) {
      if ReadLocked(y, g) {
        var c :| ReadLocks(y, c, g);
        assert ReadLocks(x, c, g);
      }
    }
    forall g ensures WriteLocked(y, g) ==> WriteLocked(x, g) {
      if WriteLocked(y, g) {
        var r :| WriteLocks(y, r, g);
        assert WriteLocks(x, r, g);
      }
    }
    forall r, q, g | WriteLocks(y, r, g) && WriteLocks(y, q, g) ensures r == q {
      assert WriteLocks(x, r, g) && WriteLocks(x, q, g);
    }
    forall g ensures Occupants(y, g) == Occupants(x, g) {}
  }

  /** Everything but what the pipelines hold. */
  ghost predicate Sound(x: System) {
    && Inv(x.db)
    && RegistryInv(x.registry)
    && Wired(x)
    && GoodGates(x)
    && OneGate(x)
    && Exclusive(x)
    && Serving(x)
    && Fenced(x)
  }

  lemma FencedFrame(x: System, y: System)
    requires Fenced(x) && y.db == x.db && y.trace == x.trace
    ensures Fenced(y)
  {
  }

  lemma OnConnectionFrame(x: System, y: System, channel: nat, id: nat)
    requires channel in x.connections <==> channel in y.connections
    requires channel in x.connections ==> x.connections[channel] == y.connections[channel]
    ensures OnConnection(y, channel, id) == OnConnection(x, channel, id)
  {
  }

  // ---- The registry ------------------------------------------------------------------

  /** Cells keep their entry, and none comes back to life. */
  ghost predicate Milder(r: Registry, q: Registry) {
    && q.live == r.live
    && q.cells.Keys == r.cells.Keys
    && forall id {:trigger q.cells[id]} {:trigger r.cells[id]} :: id in r.cells ==>
      && q.cells[id].entry == r.cells[id].entry
      && (q.cells[id].state.None? ==> r.cells[id].state.None?)
  }

  /** Cells end or stay as they are. */
  ghost predicate Quiets(r: Registry, q: Registry) {
    && Milder(r, q)
    && forall id {:trigger q.cells[id]} {:trigger r.cells[id]} :: id in r.cells && q.cells[id].state.None? ==>
      q.cells[id] == r.cells[id]
  }

  lemma SweptQuiets(r: Registry, judge: (Entry, Cell) -> Verdict)
    requires RegistryInv(r)
    requires forall e, c :: judge(e, c).cell == c || (judge(e, c).cell.state.Some? && judge(e, c).cell.entry == c.entry)
    ensures Quiets(r, Swept(r, judge))
  {
    hide WithinQuotas;
    SweepEffect(r.entries, r.cells, judge);
    var q := Swept(r, judge);
    forall id | id in r.cells
      ensures q.cells[id].entry == r.cells[id].entry && (q.cells[id].state.None? ==> q.cells[id] == r.cells[id])
    {
      if e :| e in r.entries && e.id == id {
        assert q.cells[id] == judge(e, r.cells[id]).cell;
      }
    }
  }

  lemma MilderSound(x: System, q: Registry)
    requires Sound(x) && RegistryInv(q) && Milder(x.registry, q)
    ensures Sound(x.(registry := q))
  {
    hide Inv, RegistryInv, Fenced, Mentions, ServingIn, GoodGates, OneGate, Exclusive, Serving;
    var y := x.(registry := q);
    assert Wired(y) by {
      forall c | c in y.connections ensures WiredConnection(y, c, y.connections[c]) {
        assert WiredConnection(x, c, x.connections[c]);
      }
      forall id | id in q.cells && q.cells[id].state.None? ensures q.cells[id].entry.channel in q.live {
        assert x.registry.cells[id].state.None?;
      }
    }
    OneGateFrame(x, y);
    ExclusiveFrame(x, y);
    MilderGates(x, q);
    MilderServing(x, q);
    FencedFrame(x, y);
  }

  lemma MilderGates(x: System, q: Registry)
    requires GoodGates(x) && Milder(x.registry, q)
    ensures GoodGates(x.(registry := q))
  {
    var y := x.(registry := q);
    forall id | id in y.links
      ensures y.links[id].gate in y.gates && id in q.cells && y.gates[y.links[id].gate] == q.cells[id].entry.documentId
    {
      assert id in x.links;
      assert q.cells[id].entry == x.registry.cells[id].entry;
    }
  }

  lemma MilderServing(x: System, q: Registry)
    requires Wired(x) && Wired(x.(registry := q)) && Serving(x) && Milder(x.registry, q)
    ensures Serving(x.(registry := q))
  {
    hide ServingIn;
    var y := x.(registry := q);
    forall id | id in q.cells && q.cells[id].state.None?
      ensures ServingIn(y.db, q.cells[id].entry.documentId, q.cells[id].entry.capability)
    {
      assert x.registry.cells[id].state.None? && q.cells[id].entry == x.registry.cells[id].entry;
    }
    forall c | c in y.connections && y.connections[c].writer.Cleared?
      ensures
        var e := q.cells[y.connections[c].writer.notice.subscription].entry;
        ServingIn(y.db, e.documentId, e.capability)
    {
      var n := x.connections[c].writer.notice;
      assert WiredConnection(x, c, x.connections[c]);
      assert Mentions(x.connections[c], n.subscription);
      assert q.cells[n.subscription].entry == x.registry.cells[n.subscription].entry;
    }
  }

  lemma QuietComplete(x: System, q: Registry)
    requires Wired(x) && Wired(x.(registry := q)) && Complete(x) && Quiets(x.registry, q)
    ensures Complete(x.(registry := q))
  {
    hide WiredConnection, OnConnection;
    var y := x.(registry := q);
    forall id | id in y.links ensures CompleteFor(y, id) {
      assert CompleteFor(x, id);
      assert q.cells[id].entry == x.registry.cells[id].entry;
      if q.cells[id].state.None? { OnConnectionFrame(x, y, x.registry.cells[id].entry.channel, id); }
    }
  }

  /** Ending subscriptions disturbs nothing else. */
  lemma QuietKeeps(x: System, q: Registry)
    requires SystemInv(x) && RegistryInv(q) && Quiets(x.registry, q)
    ensures SystemInv(x.(registry := q))
  {
    hide Inv, RegistryInv, Wired, Fenced, GoodGates, OneGate, Exclusive, Complete, Serving;
    MilderSound(x, q);
    QuietComplete(x, q);
  }

  // ---- Forwarders ------------------------------------------------------------------------

  lemma ForwarderSound(x: System, id: nat, f: Forwarder)
    requires Sound(x) && id in x.links && (x.links[id].forwarder == Finished ==> f == Finished)
    ensures Sound(WithForwarder(x, id, f))
  {
    hide Inv, RegistryInv, Fenced, OneGate, Exclusive, Serving, GoodGates, Mentions;
    var y := WithForwarder(x, id, f);
    forall c | c in y.connections ensures WiredConnection(y, c, y.connections[c]) {
      assert WiredConnection(x, c, x.connections[c]);
    }
    ForwarderHolds(x, id, f);
    OneGateFrame(x, y);
    ForwarderLocks(x, id, f);
    ExclusiveFrame(x, y);
    ForwarderGood(x, id, f);
    ForwarderServing(x, id, f);
    FencedFrame(x, y);
  }

  lemma ForwarderHolds(x: System, id: nat, f: Forwarder)
    requires id in x.links && (x.links[id].forwarder == Finished ==> f == Finished)
    ensures HoldsLess(x, WithForwarder(x, id, f))
  {
    hide Mentions;
  }

  lemma ForwarderLocks(x: System, id: nat, f: Forwarder)
    requires id in x.links
    ensures forall c, g :: ReadLocks(WithForwarder(x, id, f), c, g) ==> ReadLocks(x, c, g)
  {
  }

  lemma ForwarderGood(x: System, id: nat, f: Forwarder)
    requires id in x.links && GoodGates(x)
    ensures GoodGates(WithForwarder(x, id, f))
  {
  }

  lemma ForwarderServing(x: System, id: nat, f: Forwarder)
    requires id in x.links && Wired(x) && Wired(WithForwarder(x, id, f)) && Serving(x)
    ensures Serving(WithForwarder(x, id, f))
  {
    hide WiredConnection, ServingIn;
  }

  lemma ForwarderComplete(x: System, id: nat, f: Forwarder)
    requires id in x.links && Wired(x) && Wired(WithForwarder(x, id, f)) && Complete(x)
    requires x.registry.cells[id].state.None? ==> InForwarder(f) == InForwarder(x.links[id].forwarder)
    ensures Complete(WithForwarder(x, id, f))
  {
    hide WiredConnection, OnConnection, InForwarder;
    var y := WithForwarder(x, id, f);
    forall k | k in y.links ensures CompleteFor(y, k) {
      assert k in x.links && CompleteFor(x, k);
      OnConnectionFrame(x, y, x.registry.cells[k].entry.channel, k);
    }
  }

  lemma ForwarderKeeps(x: System, id: nat, f: Forwarder)
    requires SystemInv(x) && id in x.links && (x.links[id].forwarder == Finished ==> f == Finished)
    requires x.registry.cells[id].state.None? ==> InForwarder(f) == InForwarder(x.links[id].forwarder)
    ensures SystemInv(WithForwarder(x, id, f))
  {
    hide Inv, RegistryInv, Fenced, Wired, GoodGates, OneGate, Exclusive, Complete, Serving, InForwarder;
    ForwarderSound(x, id, f);
    ForwarderComplete(x, id, f);
  }

  lemma CancelQuiet(x: System, id: nat)
    requires SystemInv(x) && id in x.links
    ensures id in x.registry.cells
    ensures SystemInv(x.(registry := CancelledIn(x.registry, id)))
    ensures CancelledIn(x.registry, id).cells[id].state.Some?
  {
    hide Inv, RegistryInv, Fenced, Wired, GoodGates, OneGate, Exclusive, Complete, Serving;
    LinkedCells(x, id);
    CancelledKeepsInv(x.registry, id);
    QuietKeeps(x, CancelledIn(x.registry, id));
  }

  lemma GoneKeeps(x: System, id: nat)
    requires SystemInv(x) && id in x.links
    ensures id in x.registry.cells && SystemInv(Gone(x, id))
  {
    hide Inv, RegistryInv, Fenced, Wired, GoodGates, OneGate, Exclusive, Complete, Serving;
    CancelQuiet(x, id);
    ForwarderKeeps(x.(registry := CancelledIn(x.registry, id)), id, Finished);
  }

  lemma DropKeeps(s: Scheme, x: System, id: nat)
    requires SystemInv(x)
    ensures SystemInv(Next(s, x, Drop(id)))
  {
    hide SystemInv, Gone;
    if id in x.links { GoneKeeps(x, id); }
  }

  lemma PollKeeps(s: Scheme, x: System, id: nat)
    requires SystemInv(x)
    ensures SystemInv(Next(s, x, Poll(id)))
  {
    hide Inv, RegistryInv, Fenced, Wired, GoodGates, OneGate, Exclusive, Complete, Serving;
    if id in x.links && x.links[id].forwarder == Polling {
      LinkedCells(x, id);
      var q := Polled(x.registry, id);
      PolledKeepsInv(x.registry, id);
      MilderSound(x, q);
      var y := x.(registry := q);
      if q.cells[id].state.Some? || x.registry.cells[id].queue == [] {
        QuietComplete(x, q);
        if q.cells[id].state.Some? { ForwarderKeeps(y, id, Announcing); }
      } else {
        var f := Taken(x.registry.cells[id].queue[0]);
        ForwarderSound(y, id, f);
        var z := WithForwarder(y, id, f);
        FencedFrame(z, AfterPoll(x, id));
        HistoryFrame(z, AfterPoll(x, id));
        TakeComplete(x, id);
      }
    }
  }

  lemma LinkedCells(x: System, id: nat)
    requires Wired(x) && id in x.links
    ensures id in x.registry.cells && id in x.written && id in x.received
  {
  }

  /** Taking a wakeup moves it from the queue to the forwarder. */
  lemma TakeComplete(x: System, id: nat)
    requires Wired(x) && Complete(x) && id in x.links && x.links[id].forwarder == Polling
    requires id in x.registry.cells && id in x.received
    requires Polled(x.registry, id).cells[id].state.None? && x.registry.cells[id].queue != []
    requires Wired(AfterPoll(x, id))
    ensures Complete(AfterPoll(x, id))
  {
    hide WiredConnection, CompleteFor;
    var y := AfterPoll(x, id);
    forall k | k in y.links ensures CompleteFor(y, k) {
      assert k in x.links && CompleteFor(x, k);
      if k == id {
        TakeCompleteFor(x, id);
      } else {
        TakenFrame(x, id, k);
        UntakenCompleteFor(x, y, k);
      }
    }
  }

  /** Taking from one queue touches no other subscription. */
  lemma TakenFrame(x: System, id: nat, k: nat)
    requires id in x.links && id in x.registry.cells && id in x.received && id in x.written
    requires k != id && k in x.links && k in x.registry.cells && k in x.received
    ensures
      var y := AfterPoll(x, id);
      && y.db == x.db && y.connections == x.connections && y.written == x.written
      && k in y.links && y.links[k] == x.links[k]
      && k in y.registry.cells && y.registry.cells[k] == x.registry.cells[k]
      && k in y.received && y.received[k] == x.received[k]
  {
    PolledFrame(x.registry, id, k);
    hide Polled;
  }

  lemma PolledFrame(r: Registry, id: nat, k: nat)
    requires id in r.cells && k in r.cells && k != id
    ensures id in Polled(r, id).cells && k in Polled(r, id).cells && Polled(r, id).cells[k] == r.cells[k]
  {
  }

  lemma UntakenCompleteFor(x: System, y: System, k: nat)
    requires k in x.links && k in x.registry.cells && k in x.written && k in x.received && CompleteFor(x, k)
    requires k in y.links && k in y.registry.cells && k in y.received
    requires y.db == x.db && y.connections == x.connections && y.written == x.written
    requires y.links[k] == x.links[k] && y.registry.cells[k] == x.registry.cells[k] && y.received[k] == x.received[k]
    ensures CompleteFor(y, k)
  {
    hide OnConnection, InForwarder, Ids;
    OnConnectionFrame(x, y, x.registry.cells[k].entry.channel, k);
  }

  lemma TakeCompleteFor(x: System, id: nat)
    requires id in x.links && id in x.registry.cells && id in x.written && id in x.received && CompleteFor(x, id)
    requires x.links[id].forwarder == Polling
    requires Polled(x.registry, id).cells[id].state.None? && x.registry.cells[id].queue != []
    ensures CompleteFor(AfterPoll(x, id), id)
  {
    hide OnConnection, Ids;
    var y := AfterPoll(x, id);
    OnConnectionFrame(x, y, x.registry.cells[id].entry.channel, id);
    var queue, received := x.registry.cells[id].queue, x.received[id];
    assert (received + [queue[0]]) + queue[1..] == received + queue;
    assert received + [] == received;
  }

  lemma RecheckKeeps(s: Scheme, x: System, id: nat)
    requires SystemInv(x)
    ensures SystemInv(Next(s, x, Recheck(id)))
  {
    hide Inv, RegistryInv, Fenced, Wired, GoodGates, OneGate, Exclusive, Complete, Serving;
    if id in x.links && x.links[id].forwarder.Taken? {
      LinkedCells(x, id);
      if MayEmit(x, id) {
        ForwarderKeeps(x, id, Holding(x.links[id].forwarder.updateId));
      } else {
        ActiveIsLive(x, id);
        assert x.registry.cells == x.registry.cells[id := Invalidate(x.registry.cells[id], ChannelLost)];
        ForwarderKeeps(x, id, Announcing);
      }
    }
  }

  lemma ActiveIsLive(x: System, id: nat)
    requires Wired(x) && id in x.registry.cells
    ensures x.registry.cells[id].state.None? ==> x.registry.cells[id].entry.channel in x.registry.live
  {
  }

  // ---- Connections -----------------------------------------------------------------------

  function WithConnection(x: System, channel: nat, c: Connection): System {
    x.(connections := x.connections[channel := c])
  }

  /** Notices a connection may carry after a step: those it carried, or one handed over by its own forwarder. */
  ghost predicate Carries(x: System, channel: nat, c: Connection) {
    forall id :: Mentions(c, id) ==>
      || (channel in x.connections && Mentions(x.connections[channel], id))
      || (id in x.links && id in x.registry.cells && x.registry.cells[id].entry.channel == channel
          && x.links[id].forwarder != Finished)
  }

  lemma CarriesHolds(x: System, channel: nat, c: Connection)
    requires channel in x.connections && Carries(x, channel, c)
    ensures HoldsLess(x, WithConnection(x, channel, c))
  {
    hide Mentions;
  }

  lemma CarriesWired(x: System, channel: nat, c: Connection)
    requires Wired(x) && channel in x.connections && Carries(x, channel, c)
    ensures Wired(WithConnection(x, channel, c))
  {
    hide Mentions;
    var y := WithConnection(x, channel, c);
    assert WiredConnection(x, channel, x.connections[channel]);
    forall k | k in y.connections ensures WiredConnection(y, k, y.connections[k]) {
      if k != channel { assert WiredConnection(x, k, x.connections[k]); }
    }
  }

  /** A writer may be inside a gate if it was already, or if nothing excludes the gate. */
  ghost predicate MayRead(x: System, channel: nat, w: Writer)
    requires channel in x.connections
  {
    Reads(w) ==>
      || x.connections[channel].writer == w
      || (Reads(x.connections[channel].writer) && x.connections[channel].writer.notice == w.notice)
      || (w.notice.subscription in x.links && !WriteLocked(x, x.links[w.notice.subscription].gate))
  }

  lemma ConnectionExclusive(x: System, channel: nat, c: Connection)
    requires Exclusive(x) && channel in x.connections && MayRead(x, channel, c.writer)
    ensures Exclusive(WithConnection(x, channel, c))
  {
    var y := WithConnection(x, channel, c);
    forall g ensures WriteLocked(y, g) ==> WriteLocked(x, g) {
      if WriteLocked(y, g) {
        var r :| WriteLocks(y, r, g);
        assert WriteLocks(x, r, g);
      }
    }
    forall g ensures !(ReadLocked(y, g) && WriteLocked(x, g)) {
      if ReadLocked(y, g) {
        var k :| ReadLocks(y, k, g);
        assert ReadLocks(x, k, g) || !WriteLocked(x, g);
      }
    }
    forall r, q, g | WriteLocks(y, r, g) && WriteLocks(y, q, g) ensures r == q {
      assert WriteLocks(x, r, g) && WriteLocks(x, q, g);
    }
    forall g ensures Occupants(y, g) == Occupants(x, g) {}
  }

  lemma ConnectionServing(x: System, channel: nat, c: Connection)
    requires Wired(x) && Serving(x) && channel in x.connections && Wired(WithConnection(x, channel, c))
    requires c.writer.Cleared? ==> x.connections[channel].writer == c.writer || MayEmit(x, c.writer.notice.subscription)
    ensures Serving(WithConnection(x, channel, c))
  {
    hide WiredConnection, ServingIn;
  }

  lemma ConnectionGood(x: System, channel: nat, c: Connection)
    requires GoodGates(x)
    ensures GoodGates(WithConnection(x, channel, c))
  {
  }

  lemma ConnectionSound(x: System, channel: nat, c: Connection)
    requires Sound(x) && channel in x.connections && Carries(x, channel, c) && MayRead(x, channel, c.writer)
    requires c.writer.Cleared? ==> x.connections[channel].writer == c.writer || MayEmit(x, c.writer.notice.subscription)
    ensures Sound(WithConnection(x, channel, c))
  {
    hide Inv, RegistryInv, Wired, GoodGates, OneGate, Exclusive, Serving, Fenced, Carries, MayRead, HoldsLess;
    CarriesHolds(x, channel, c);
    CarriesWired(x, channel, c);
    OneGateFrame(x, WithConnection(x, channel, c));
    ConnectionExclusive(x, channel, c);
    ConnectionServing(x, channel, c);
    ConnectionGood(x, channel, c);
    FencedFrame(x, WithConnection(x, channel, c));
  }

  /** A connection step that leaves every active subscription's part in place. */
  lemma ConnectionComplete(x: System, channel: nat, c: Connection)
    requires Wired(x) && Complete(x) && channel in x.connections && Wired(WithConnection(x, channel, c))
    requires forall id :: id in x.registry.cells && x.registry.cells[id].state.None? ==>
      InWriter(c.writer, id) + Wakeups(c.events, id)
      == InWriter(x.connections[channel].writer, id) + Wakeups(x.connections[channel].events, id)
    ensures Complete(WithConnection(x, channel, c))
  {
    hide WiredConnection, InWriter, Wakeups;
    var y := WithConnection(x, channel, c);
    forall id | id in y.links ensures CompleteFor(y, id) {
      assert id in x.links && CompleteFor(x, id);
    }
  }

  lemma MentionsTail(c: Connection, w: Writer)
    requires c.events != [] && c.writer.Idle?
    requires w.Idle? || (c.events[0].Wakeup? && w.notice == c.events[0].notice)
    ensures forall id :: Mentions(Connection(c.events[1..], w), id) ==> Mentions(c, id)
  {
    forall id | Mentions(Connection(c.events[1..], w), id) ensures Mentions(c, id) {
      if e :| e in c.events[1..] && e.Wakeup? && e.notice.subscription == id {
        assert e in c.events;
      } else {
        assert c.events[0] in c.events;
      }
    }
  }

  lemma DequeueKeeps(s: Scheme, x: System, channel: nat)
    requires SystemInv(x)
    ensures SystemInv(Next(s, x, Dequeue(channel)))
  {
    hide Inv, RegistryInv, Wired, GoodGates, OneGate, Exclusive, Serving, Fenced, Complete;
    if channel in x.connections && x.connections[channel].writer.Idle? && x.connections[channel].events != [] {
      var c := x.connections[channel];
      var after := AfterDequeue(x, channel).connections[channel];
      MentionsTail(c, after.writer);
      assert Carries(x, channel, after);
      ConnectionSound(x, channel, after);
      forall id ensures InWriter(after.writer, id) + Wakeups(after.events, id) == InWriter(c.writer, id) + Wakeups(c.events, id) {
        assert [] + Wakeups(c.events, id) == Wakeups(c.events, id);
      }
      ConnectionComplete(x, channel, after);
    }
  }

  lemma SameNoticeCarries(x: System, channel: nat, w: Writer)
    requires channel in x.connections && !x.connections[channel].writer.Idle?
    requires w.Idle? || w.notice == x.connections[channel].writer.notice
    ensures Carries(x, channel, x.connections[channel].(writer := w))
  {
  }

  lemma EnterKeeps(s: Scheme, x: System, channel: nat)
    requires SystemInv(x)
    ensures SystemInv(Next(s, x, Enter(channel)))
  {
    hide Inv, RegistryInv, GoodGates, OneGate, Exclusive, Serving, Fenced, Complete, Mentions;
    if channel in x.connections && x.connections[channel].writer.Dequeued? {
      var c := x.connections[channel];
      assert WiredConnection(x, channel, c);
      NoticeLinked(x, channel);
      if !WriteLocked(x, x.links[c.writer.notice.subscription].gate) {
        var after := c.(writer := Entered(c.writer.notice));
        SameNoticeCarries(x, channel, after.writer);
        ConnectionSound(x, channel, after);
        ConnectionComplete(x, channel, after);
      }
    }
  }

  /** The notice a writer holds belongs to a subscription of its own connection. */
  lemma NoticeLinked(x: System, channel: nat)
    requires Wired(x) && channel in x.connections && !x.connections[channel].writer.Idle?
    ensures
      var id := x.connections[channel].writer.notice.subscription;
      id in x.links && id in x.registry.cells && id in x.written && x.registry.cells[id].entry.channel == channel
  {
    assert WiredConnection(x, channel, x.connections[channel]);
    assert Mentions(x.connections[channel], x.connections[channel].writer.notice.subscription);
  }

  lemma CheckKeeps(s: Scheme, x: System, channel: nat)
    requires SystemInv(x)
    ensures SystemInv(Next(s, x, Check(channel)))
  {
    hide Inv, RegistryInv, Wired, GoodGates, OneGate, Exclusive, Serving, Fenced, Complete;
    if channel in x.connections && x.connections[channel].writer.Entered? {
      var c := x.connections[channel];
      var n := c.writer.notice;
      NoticeLinked(x, channel);
      ActiveIsLive(x, n.subscription);
      var after := c.(writer := if MayEmit(x, n.subscription) then Cleared(n) else Idle);
      SameNoticeCarries(x, channel, after.writer);
      ConnectionSound(x, channel, after);
      ConnectionComplete(x, channel, after);
    }
  }

  /** A capability that is not revoked has no revoked ancestor. */
  lemma ServingOutside(db: Db, documentId: DocumentId, capability: CapabilityId, target: CapabilityId)
    requires Inv(db) && ServingIn(db, documentId, capability) && RevokedIn(db, documentId, target)
    ensures !Ancestor(db.documents[documentId].capabilities, target, capability)
  {
    hide ValidTree, ValidCreation, GoodReceipt, ValidLog, DocumentBytes, Sum;
    var d := db.documents[documentId];
    EffectiveIsActive(d.capabilities, d.root, d.revision, capability);
  }

  lemma WroteFenced(x: System, documentId: DocumentId, capability: CapabilityId, id: nat, updateId: UpdateId)
    requires Inv(x.db) && Fenced(x) && ServingIn(x.db, documentId, capability)
    ensures Fenced(x.(trace := x.trace + [Wrote(documentId, capability, id, updateId)]))
  {
    hide Inv, RevokedIn, Ancestor;
    var happening := Wrote(documentId, capability, id, updateId);
    var y := x.(trace := x.trace + [happening]);
    forall i, j | 0 <= i < j < |y.trace| ensures Apart(y.db, y.trace[i], y.trace[j]) {
      if j < |x.trace| {
        assert Apart(x.db, x.trace[i], x.trace[j]);
      } else if y.trace[i].Committed? && y.trace[i].documentId == documentId {
        ServingOutside(x.db, documentId, capability, y.trace[i].target);
        assert documentId in x.db.documents && capability in x.db.documents[documentId].capabilities by {
          ServingPresent(x.db, documentId, capability);
        }
      }
    }
  }

  lemma ServingPresent(db: Db, documentId: DocumentId, capability: CapabilityId)
    requires ServingIn(db, documentId, capability)
    ensures documentId in db.documents && capability in db.documents[documentId].capabilities
  {
  }

  lemma ClearedServes(x: System, channel: nat)
    requires Wired(x) && Serving(x) && channel in x.connections && x.connections[channel].writer.Cleared?
    ensures x.connections[channel].writer.notice.subscription in x.registry.cells
    ensures
      var e := x.registry.cells[x.connections[channel].writer.notice.subscription].entry;
      ServingIn(x.db, e.documentId, e.capability)
  {
    NoticeLinked(x, channel);
  }

  /** Writing moves a notice from the writer to what the client has. */
  lemma WriteComplete(x: System, channel: nat)
    requires Wired(x) && Complete(x) && channel in x.connections && x.connections[channel].writer.Cleared?
    requires x.connections[channel].writer.notice.subscription in x.registry.cells
    requires x.connections[channel].writer.notice.subscription in x.written
    requires x.registry.cells[x.connections[channel].writer.notice.subscription].entry.channel == channel
    requires Wired(AfterWrite(x, channel))
    ensures Complete(AfterWrite(x, channel))
  {
    hide WiredConnection, CompleteFor;
    forall id | id in AfterWrite(x, channel).links ensures CompleteFor(AfterWrite(x, channel), id) {
      assert id in x.links && CompleteFor(x, id);
      WriteCompleteFor(x, channel, id);
    }
  }

  lemma WriteCompleteFor(x: System, channel: nat, id: nat)
    requires channel in x.connections && x.connections[channel].writer.Cleared?
    requires x.connections[channel].writer.notice.subscription in x.registry.cells
    requires x.connections[channel].writer.notice.subscription in x.written
    requires x.registry.cells[x.connections[channel].writer.notice.subscription].entry.channel == channel
    requires id in x.links && id in x.registry.cells && id in x.written && id in x.received && CompleteFor(x, id)
    ensures CompleteFor(AfterWrite(x, channel), id)
  {
    hide Wakeups, InForwarder, Ids;
    var y := AfterWrite(x, channel);
    var n := x.connections[channel].writer.notice;
    var here := x.registry.cells[id].entry.channel;
    if here == channel {
      var events := Wakeups(x.connections[channel].events, id);
      assert [] + events == events;
      if id == n.subscription {
        assert x.written[id] + ([n.updateId] + events) == (x.written[id] + [n.updateId]) + events;
      }
    } else {
      OnConnectionFrame(x, y, here, id);
    }
  }

  lemma WriteKeeps(s: Scheme, x: System, channel: nat)
    requires SystemInv(x)
    ensures SystemInv(Next(s, x, Write(channel)))
  {
    hide Inv, RegistryInv, GoodGates, OneGate, Exclusive, Serving, Fenced, Complete, WiredConnection;
    if channel in x.connections && x.connections[channel].writer.Cleared? {
      NoticeLinked(x, channel);
      ClearedServes(x, channel);
      SameNoticeCarries(x, channel, Idle);
      var z := WithWriter(x, channel, Idle);
      ConnectionSound(x, channel, z.connections[channel]);
      var y := AfterWrite(x, channel);
      var n := x.connections[channel].writer.notice;
      var e := x.registry.cells[n.subscription].entry;
      WroteFenced(z, e.documentId, e.capability, n.subscription, n.updateId);
      FencedFrame(z.(trace := y.trace), y);
      HistoryFrame(z, y);
      WriteComplete(x, channel);
    }
  }

  /** The written and trace histories constrain nothing but themselves. */
  lemma HistoryFrame(x: System, y: System)
    requires Sound(x) && y == x.(received := y.received, written := y.written, trace := y.trace)
    requires y.written.Keys == x.written.Keys && y.received.Keys == x.received.Keys && Fenced(y)
    ensures Sound(y)
  {
    hide Inv, RegistryInv, Fenced, Wired, GoodGates, OneGate, Exclusive, Serving;
    HistoryWired(x, y);
    HistoryHolds(x, y);
    OneGateFrame(x, y);
    HistoryLocks(x, y);
    ExclusiveFrame(x, y);
    SameCellsGood(x, y);
    HistoryServing(x, y);
  }

  lemma HistoryWired(x: System, y: System)
    requires Wired(x) && y == x.(received := y.received, written := y.written, trace := y.trace)
    requires y.written.Keys == x.written.Keys && y.received.Keys == x.received.Keys
    ensures Wired(y)
  {
    hide Mentions;
    forall c | c in y.connections ensures WiredConnection(y, c, y.connections[c]) {
      assert WiredConnection(x, c, x.connections[c]);
    }
  }

  lemma HistoryHolds(x: System, y: System)
    requires y == x.(received := y.received, written := y.written, trace := y.trace)
    ensures HoldsLess(x, y)
  {
    hide Mentions;
  }

  lemma HistoryLocks(x: System, y: System)
    requires y == x.(received := y.received, written := y.written, trace := y.trace)
    ensures forall c, g :: ReadLocks(y, c, g) ==> ReadLocks(x, c, g)
  {
  }

  lemma HistoryServing(x: System, y: System)
    requires Wired(x) && Wired(y) && Serving(x) && y == x.(received := y.received, written := y.written, trace := y.trace)
    ensures Serving(y)
  {
    hide WiredConnection, ServingIn;
  }

  // ---- Handing over to the connection -------------------------------------------------------

  lemma {:induction false} WakeupsSnoc(events: seq<ConnectionEvent>, e: ConnectionEvent, id: nat)
    ensures Wakeups(events + [e], id)
         == Wakeups(events, id) + if e.Wakeup? && e.notice.subscription == id then [e.notice.updateId] else []
  {
    if events == [] {
      assert ([] + [e])[1..] == [];
    } else {
      assert (events + [e])[1..] == events[1..] + [e];
      WakeupsSnoc(events[1..], e, id);
    }
  }

  lemma AppendCarries(x: System, channel: nat, e: ConnectionEvent)
    requires channel in x.connections
    requires e.Wakeup? ==>
      && e.notice.subscription in x.links && e.notice.subscription in x.registry.cells
      && x.registry.cells[e.notice.subscription].entry.channel == channel
      && x.links[e.notice.subscription].forwarder != Finished
    ensures Carries(x, channel, x.connections[channel].(events := x.connections[channel].events + [e]))
  {
    var c := x.connections[channel];
    var after := c.(events := c.events + [e]);
    forall id | Mentions(after, id)
      ensures Mentions(c, id) || (e.Wakeup? && e.notice.subscription == id)
    {
      if m :| m in after.events && m.Wakeup? && m.notice.subscription == id {
        assert m in c.events || m == e;
      }
    }
  }

  lemma PushComplete(x: System, id: nat, channel: nat)
    requires Wired(x) && Complete(x) && id in x.links && id in x.registry.cells && x.links[id].forwarder.Holding?
    requires channel == x.registry.cells[id].entry.channel && channel in x.connections
    requires |x.connections[channel].events| < CONNECTION_EVENT_QUEUE_CAPACITY
    requires Wired(AfterPush(x, id))
    ensures Complete(AfterPush(x, id))
  {
    hide WiredConnection, Wakeups, InWriter;
    var y := AfterPush(x, id);
    var u := x.links[id].forwarder.updateId;
    var events := x.connections[channel].events;
    forall k | k in y.links ensures CompleteFor(y, k) {
      assert k in x.links && CompleteFor(x, k);
      var here := x.registry.cells[k].entry.channel;
      if here == channel {
        WakeupsSnoc(events, Wakeup(Notice(id, u)), k);
        var w := InWriter(x.connections[channel].writer, k);
        if k == id {
          assert x.written[k] + (w + (Wakeups(events, k) + [u])) + [] == x.written[k] + (w + Wakeups(events, k)) + [u];
        } else {
          assert Wakeups(events, k) + [] == Wakeups(events, k);
        }
      } else {
        OnConnectionFrame(x, y, here, k);
      }
    }
  }

  lemma PushKeeps(s: Scheme, x: System, id: nat)
    requires SystemInv(x)
    ensures SystemInv(Next(s, x, Push(id)))
  {
    hide Inv, RegistryInv, Wired, GoodGates, OneGate, Exclusive, Serving, Fenced, Complete, Carries, Gone;
    if id in x.links && x.links[id].forwarder.Holding? {
      LinkedCells(x, id);
      var channel := x.registry.cells[id].entry.channel;
      if channel !in x.connections {
        GoneKeeps(x, id);
      } else if Full(x, channel) {
        CancelQuiet(x, id);
        ForwarderKeeps(x.(registry := CancelledIn(x.registry, id)), id, Overflowing);
      } else {
        var e := Wakeup(Notice(id, x.links[id].forwarder.updateId));
        var c := x.connections[channel];
        AppendCarries(x, channel, e);
        ConnectionSound(x, channel, c.(events := c.events + [e]));
        ForwarderSound(WithConnection(x, channel, c.(events := c.events + [e])), id, Polling);
        PushComplete(x, id, channel);
      }
    }
  }

  /** A terminal event takes a place in the queue and nothing else. */
  lemma EndingKeeps(x: System, channel: nat, id: nat, overflow: bool)
    requires SystemInv(x) && channel in x.connections
    ensures SystemInv(WithEvent(x, channel, Ending(id, overflow)))
  {
    hide Inv, RegistryInv, Wired, GoodGates, OneGate, Exclusive, Serving, Fenced, Complete, Carries;
    var c := x.connections[channel];
    var e := Ending(id, overflow);
    var after := c.(events := c.events + [e]);
    AppendCarries(x, channel, e);
    ConnectionSound(x, channel, after);
    forall k ensures InWriter(after.writer, k) + Wakeups(after.events, k) == InWriter(c.writer, k) + Wakeups(c.events, k) {
      WakeupsSnoc(c.events, e, k);
      assert Wakeups(c.events, k) + [] == Wakeups(c.events, k);
    }
    ConnectionComplete(x, channel, after);
  }

  lemma AnnounceKeeps(s: Scheme, x: System, id: nat)
    requires SystemInv(x)
    ensures SystemInv(Next(s, x, Announce(id)))
  {
    hide SystemInv, Gone, WithEvent, Wired;
    if id in x.links && (x.links[id].forwarder == Announcing || x.links[id].forwarder == Overflowing) {
      SystemWired(x);
      LinkedCells(x, id);
      var channel := x.registry.cells[id].entry.channel;
      var state := x.registry.cells[id].state;
      var waiting := x.links[id].forwarder == Overflowing;
      if channel !in x.connections || !(waiting || Announced(state)) {
        GoneKeeps(x, id);
      } else if !Full(x, channel) {
        EndingKeeps(x, channel, id, waiting || state == Some(Overflowed));
        EventLinks(x, channel, Ending(id, waiting || state == Some(Overflowed)));
        GoneKeeps(WithEvent(x, channel, Ending(id, waiting || state == Some(Overflowed))), id);
      } else if !waiting {
        CancelQuiet(x, id);
        ForwarderKeeps(x.(registry := CancelledIn(x.registry, id)), id, Overflowing);
      }
    }
  }

  lemma SystemWired(x: System)
    requires SystemInv(x)
    ensures Wired(x)
  {
  }

  lemma EventLinks(x: System, channel: nat, e: ConnectionEvent)
    requires channel in x.connections
    ensures WithEvent(x, channel, e).links == x.links
  {
  }

  // ---- Mutations of the tables -----------------------------------------------------------

  lemma ExtendedRevoked(db: Db, after: Db, documentId: DocumentId, capability: CapabilityId)
    requires Extends(db, after) && RevokedIn(db, documentId, capability)
    ensures RevokedIn(after, documentId, capability)
  {
    assert DocumentExtends(db.documents[documentId], after.documents[documentId]);
  }

  lemma ExtendedApart(db: Db, after: Db, earlier: Happening, later: Happening)
    requires Inv(db) && Inv(after) && Extends(db, after) && Apart(db, earlier, later)
    ensures Apart(after, earlier, later)
  {
    hide ValidTree, ValidCreation, GoodReceipt, ValidLog, DocumentBytes, Sum;
    if earlier.Committed? && later.Wrote? && earlier.documentId == later.documentId {
      var d, e := db.documents[later.documentId], after.documents[later.documentId];
      assert DocumentExtends(d, e);
      ValidTreeLinked(d.capabilities, d.root, d.revision);
      ValidTreeLinked(e.capabilities, e.root, e.revision);
      AncestryFrame(d.capabilities, e.capabilities, earlier.target, later.capability);
    }
  }

  lemma ExtendedFenced(x: System, y: System)
    requires Fenced(x) && Inv(x.db) && Inv(y.db) && Extends(x.db, y.db) && y.trace == x.trace
    ensures Fenced(y)
  {
    hide Inv, Extends, Apart, RevokedIn;
    forall i | 0 <= i < |y.trace| && y.trace[i].Committed? ensures RevokedIn(y.db, y.trace[i].documentId, y.trace[i].target) {
      ExtendedRevoked(x.db, y.db, y.trace[i].documentId, y.trace[i].target);
    }
    forall i, j | 0 <= i < j < |y.trace| ensures Apart(y.db, y.trace[i], y.trace[j]) {
      ExtendedApart(x.db, y.db, y.trace[i], y.trace[j]);
    }
  }

  /** The capabilities of active subscriptions and cleared writers still serve in other tables. */
  ghost predicate StillServing(x: System, db: Db)
    requires Wired(x)
  {
    && (forall id {:trigger id in x.registry.cells} :: id in x.registry.cells && x.registry.cells[id].state.None? ==>
         ServingIn(db, x.registry.cells[id].entry.documentId, x.registry.cells[id].entry.capability))
    && (forall c {:trigger c in x.connections} :: c in x.connections && x.connections[c].writer.Cleared? ==>
         var e := x.registry.cells[x.connections[c].writer.notice.subscription].entry;
         ServingIn(db, e.documentId, e.capability))
  }

  lemma TablesSound(x: System, db: Db)
    requires Sound(x) && Inv(db) && Extends(x.db, db) && StillServing(x, db)
    ensures Sound(x.(db := db))
  {
    hide Inv, RegistryInv, Mentions, ServingIn, Fenced, Extends, OneGate, Exclusive, GoodGates;
    var y := x.(db := db);
    forall c | c in y.connections ensures WiredConnection(y, c, y.connections[c]) {
      assert WiredConnection(x, c, x.connections[c]);
    }
    OneGateFrame(x, y);
    ExclusiveFrame(x, y);
    TablesGates(x, db);
    ExtendedFenced(x, y);
  }

  lemma TablesGates(x: System, db: Db)
    requires GoodGates(x)
    ensures GoodGates(x.(db := db))
  {
  }

  /** Commands other than revocation revoke nothing. */
  lemma ServesOn(s: Scheme, db: Db, command: Command, documentId: DocumentId, capability: CapabilityId)
    requires Inv(db) && !command.RevokeCapability? && ServingIn(db, documentId, capability)
    ensures ServingIn(Execute(s, db, command), documentId, capability)
  {
    hide Inv, CreateDecision, GrantDecision, AcceptDecision, DecodeUpdateRecord, GrantReceipt, GrantedRow, PeersOf,
      NewDocument, NewCreateReceipt;
    match command
    case CreateDocument(create) =>
      if CreateDecision(s, db, create) == CreateInserted { CreateFacts(s, db, create); }
    case GrantCapability(grant) =>
      if GrantDecision(s, db, grant) == Inserted { GrantFacts(s, db, grant); }
    case AcceptUpdate(accept) =>
      match DecodeUpdateRecord(accept.record) {
        case Failure(_) =>
        case Success(u) =>
          if AcceptDecision(s, db, u, accept) == AcceptInserted { AcceptFacts(s, db, u, accept); }
      }
    case RetireDocument(_) =>
  }

  lemma CommandSound(s: Scheme, x: System, command: Command)
    requires Sound(x) && !command.RevokeCapability?
    ensures Sound(x.(db := Execute(s, x.db, command)))
  {
    hide Inv, RegistryInv, Fenced, OneGate, Exclusive, GoodGates, ServingIn, Execute, Extends, WiredConnection;
    ExecuteKeepsInv(s, x.db, command);
    ExecuteExtends(s, x.db, command);
    var db := Execute(s, x.db, command);
    forall id | id in x.registry.cells && x.registry.cells[id].state.None?
      ensures ServingIn(db, x.registry.cells[id].entry.documentId, x.registry.cells[id].entry.capability)
    {
      ServesOn(s, x.db, command, x.registry.cells[id].entry.documentId, x.registry.cells[id].entry.capability);
    }
    forall c | c in x.connections && x.connections[c].writer.Cleared?
      ensures
        var n := x.connections[c].writer.notice.subscription;
        n in x.registry.cells && ServingIn(db, x.registry.cells[n].entry.documentId, x.registry.cells[n].entry.capability)
    {
      ClearedServes(x, c);
      var e := x.registry.cells[x.connections[c].writer.notice.subscription].entry;
      ServesOn(s, x.db, command, e.documentId, e.capability);
    }
    TablesSound(x, db);
  }

  /** Tables whose logs are unchanged leave every pipeline complete. */
  lemma SameLogsComplete(x: System, db: Db)
    requires Wired(x) && Wired(x.(db := db)) && Complete(x)
    requires forall d :: d in x.db.documents ==> d in db.documents && db.documents[d].log == x.db.documents[d].log
    ensures Complete(x.(db := db))
  {
    hide WiredConnection, OnConnection, InForwarder;
    var y := x.(db := db);
    forall id | id in y.links ensures CompleteFor(y, id) {
      assert id in x.links && CompleteFor(x, id);
      OnConnectionFrame(x, y, x.registry.cells[id].entry.channel, id);
    }
  }

  lemma ControlKeepsLogs(s: Scheme, db: Db, command: Command)
    requires Inv(db) && !command.AcceptUpdate?
    ensures forall d :: d in db.documents ==>
      d in Execute(s, db, command).documents && Execute(s, db, command).documents[d].log == db.documents[d].log
  {
    hide Inv, CreateDecision, GrantDecision, RevokeDecision, GrantReceipt, GrantedRow, Marked, NewDocument, NewCreateReceipt;
    match command
    case CreateDocument(create) =>
      if CreateDecision(s, db, create) == CreateInserted { CreateFacts(s, db, create); }
    case GrantCapability(grant) =>
      if GrantDecision(s, db, grant) == Inserted { GrantFacts(s, db, grant); }
    case RevokeCapability(revoke) =>
      if RevokeDecision(s, db, revoke) == Inserted { RevokeFacts(s, db, revoke); }
    case RetireDocument(_) =>
  }

  lemma ControlKeeps(s: Scheme, x: System, command: Command)
    requires SystemInv(x) && !command.RevokeCapability? && !command.AcceptUpdate?
    ensures SystemInv(x.(db := Execute(s, x.db, command)))
  {
    hide Inv, RegistryInv, Wired, GoodGates, OneGate, Exclusive, Serving, Fenced, Complete, Execute;
    CommandSound(s, x, command);
    ControlKeepsLogs(s, x.db, command);
    SameLogsComplete(x, Execute(s, x.db, command));
  }

  lemma EndedQuiet(r: Registry, ends: Entry -> bool, reason: End)
    requires RegistryInv(r)
    ensures RegistryInv(Ended(r, ends, reason)) && Quiets(r, Ended(r, ends, reason))
  {
    hide WithinQuotas, DistinctEntries, Sweep;
    EndedKeepsInv(r, ends, reason);
    var judge := EndVerdict(ends, reason);
    forall e, c ensures judge(e, c).cell == c || (judge(e, c).cell.state.Some? && judge(e, c).cell.entry == c.entry) {
      assert judge(e, c).cell == if ends(e) then Invalidate(c, reason) else c;
    }
    SweptQuiets(r, EndVerdict(ends, reason));
  }

  lemma RegistryLinked(r: Registry)
    requires RegistryInv(r)
    ensures EntriesLinked(r)
  {
  }

  lemma RetireKeeps(s: Scheme, x: System, documentId: DocumentId)
    requires SystemInv(x)
    ensures SystemInv(Next(s, x, Step.Mutate(RetireDocument(documentId))))
  {
    hide Inv, RegistryInv, Wired, GoodGates, OneGate, Exclusive, Serving, Fenced, Complete, Ended, Quiets, AfterRetire;
    if documentId in x.db.documents {
      RegistryLinked(x.registry);
      ControlKeeps(s, x, RetireDocument(documentId));
      EndedQuiet(x.registry, ForDocument(documentId), Retired);
      QuietKeeps(x.(db := Execute(s, x.db, RetireDocument(documentId))), Ended(x.registry, ForDocument(documentId), Retired));
    }
  }

  // ---- Accepts -----------------------------------------------------------------------------

  /** A notification reaches every active subscription of the document, or ends it. */
  lemma NotifiedCells(r: Registry, documentId: DocumentId, updateId: UpdateId)
    requires RegistryInv(r)
    ensures EntriesLinked(r)
    ensures
      var q := Notified(r, documentId, updateId);
      && Milder(r, q)
      && forall id {:trigger q.cells[id]} :: id in r.cells && q.cells[id].state.None? && r.cells[id].entry.channel in r.live ==>
        q.cells[id] == if r.cells[id].entry.documentId == documentId
          then r.cells[id].(queue := r.cells[id].queue + [updateId]) else r.cells[id]
  {
    hide WithinQuotas, Notified;
    var q := Notified(r, documentId, updateId);
    RegistryLinked(r);
    forall id | id in r.cells
      ensures id in q.cells
      ensures q.cells[id].entry == r.cells[id].entry && (q.cells[id].state.None? ==> r.cells[id].state.None?)
      ensures q.cells[id].state.None? && r.cells[id].entry.channel in r.live ==>
        q.cells[id] == if r.cells[id].entry.documentId == documentId
          then r.cells[id].(queue := r.cells[id].queue + [updateId]) else r.cells[id]
    {
      NotifiedCell(r, documentId, updateId, id);
    }
    NotifiedFrame(r, documentId, updateId);
  }

  lemma NotifiedFrame(r: Registry, documentId: DocumentId, updateId: UpdateId)
    requires EntriesLinked(r)
    ensures
      var q := Notified(r, documentId, updateId);
      q.live == r.live && q.cells.Keys == r.cells.Keys
  {
  }

  lemma NotifiedCell(r: Registry, documentId: DocumentId, updateId: UpdateId, id: nat)
    requires RegistryInv(r) && EntriesLinked(r) && id in r.cells
    ensures
      var q := Notified(r, documentId, updateId);
      && id in q.cells && q.cells[id].entry == r.cells[id].entry
      && (q.cells[id].state.None? ==> r.cells[id].state.None?)
      && (q.cells[id].state.None? && r.cells[id].entry.channel in r.live ==>
           q.cells[id] == if r.cells[id].entry.documentId == documentId
             then r.cells[id].(queue := r.cells[id].queue + [updateId]) else r.cells[id])
  {
    hide WithinQuotas, Sweep;
    var judge := NotifyVerdict(r.live, documentId, updateId);
    SweepEffect(r.entries, r.cells, judge);
    assert GoodCell(r, id, r.cells[id]);
    if e :| e in r.entries && e.id == id {
      assert Notified(r, documentId, updateId).cells[id] == judge(e, r.cells[id]).cell;
    }
  }

  lemma AcceptedLogs(s: Scheme, db: Db, a: AcceptRequest, u: ImmutableUpdate)
    requires Inv(db) && DecodeUpdateRecord(a.record) == Success(u) && AcceptDecision(s, db, u, a) == AcceptInserted
    ensures
      var after := AfterAccept(s, db, a);
      && u.documentId in db.documents
      && after.documents.Keys == db.documents.Keys
      && (forall d :: d in db.documents && d != u.documentId ==> after.documents[d].log == db.documents[d].log)
      && |after.documents[u.documentId].log| == |db.documents[u.documentId].log| + 1
      && Ids(after.documents[u.documentId].log) == Ids(db.documents[u.documentId].log) + [u.updateId]
  {
    hide Inv, AcceptDecision, DecodeUpdateRecord, PeersOf;
    AcceptFacts(s, db, u, a);
  }

  lemma AcceptComplete(s: Scheme, x: System, a: AcceptRequest, u: ImmutableUpdate)
    requires SystemInv(x) && DecodeUpdateRecord(a.record) == Success(u)
    requires AcceptDecision(s, x.db, u, a) == AcceptInserted
    requires EntriesLinked(x.registry)
    requires Wired(x.(db := AfterAccept(s, x.db, a), registry := Notified(x.registry, u.documentId, u.updateId)))
    ensures Complete(x.(db := AfterAccept(s, x.db, a), registry := Notified(x.registry, u.documentId, u.updateId)))
  {
    hide Inv, RegistryInv, WiredConnection, OnConnection, InForwarder, GoodGates, OneGate, Exclusive, Serving, Fenced,
      AcceptDecision, DecodeUpdateRecord, AfterAccept, Notified;
    var y := x.(db := AfterAccept(s, x.db, a), registry := Notified(x.registry, u.documentId, u.updateId));
    NotifiedCells(x.registry, u.documentId, u.updateId);
    AcceptedLogs(s, x.db, a, u);
    forall id | id in y.links ensures CompleteFor(y, id) {
      assert id in x.links && CompleteFor(x, id);
      ActiveIsLive(x, id);
      AcceptCompleteFor(x, y, u.documentId, u.updateId, id);
    }
  }

  /** One subscription's pipeline and log grow by the same update, or neither grows. */
  lemma AcceptCompleteFor(x: System, y: System, documentId: DocumentId, updateId: UpdateId, id: nat)
    requires id in x.links && id in x.registry.cells && id in x.written && id in x.received && CompleteFor(x, id)
    requires y == x.(db := y.db, registry := y.registry) && id in y.registry.cells
    requires y.registry.cells[id].entry == x.registry.cells[id].entry
    requires y.registry.cells[id].state.None? ==>
      && x.registry.cells[id].state.None?
      && y.registry.cells[id].queue == x.registry.cells[id].queue
           + (if x.registry.cells[id].entry.documentId == documentId then [updateId] else [])
    requires documentId in x.db.documents && y.db.documents.Keys == x.db.documents.Keys
    requires forall d :: d in x.db.documents && d != documentId ==> y.db.documents[d].log == x.db.documents[d].log
    requires |y.db.documents[documentId].log| == |x.db.documents[documentId].log| + 1
    requires Ids(y.db.documents[documentId].log) == Ids(x.db.documents[documentId].log) + [updateId]
    ensures CompleteFor(y, id)
  {
    hide OnConnection, InForwarder, Ids;
    var c := x.registry.cells[id];
    OnConnectionFrame(x, y, c.entry.channel, id);
    assert c.queue + [] == c.queue;
    assert x.received[id] + (c.queue + [updateId]) == (x.received[id] + c.queue) + [updateId];
    if c.state.None? && c.entry.documentId == documentId {
      SuffixSnoc(Ids(x.db.documents[documentId].log), updateId, x.links[id].since);
    }
  }

  lemma SuffixSnoc<T>(s: seq<T>, t: T, since: nat)
    requires since <= |s|
    ensures (s + [t])[since..] == s[since..] + [t]
  {
  }

  lemma AcceptKeeps(s: Scheme, x: System, a: AcceptRequest)
    requires SystemInv(x)
    ensures SystemInv(Next(s, x, Step.Mutate(AcceptUpdate(a))))
  {
    hide Inv, RegistryInv, Wired, GoodGates, OneGate, Exclusive, Serving, Fenced, Complete, DecodeUpdateRecord,
      AcceptDecision, AfterAccept, Notified;
    match DecodeUpdateRecord(a.record)
    case Failure(_) =>
    case Success(u) =>
      if AcceptDecision(s, x.db, u, a) == AcceptInserted {
        RegistryLinked(x.registry);
        CommandSound(s, x, AcceptUpdate(a));
        NotifiedCells(x.registry, u.documentId, u.updateId);
        NotifiedKeepsInv(x.registry, u.documentId, u.updateId);
        MilderSound(x.(db := AfterAccept(s, x.db, a)), Notified(x.registry, u.documentId, u.updateId));
        AcceptComplete(s, x, a, u);
      }
  }

  // ---- Connections come and go ---------------------------------------------------------------

  lemma OpenKeeps(s: Scheme, x: System)
    requires SystemInv(x)
    ensures SystemInv(Next(s, x, OpenConnection))
  {
    hide Inv, Fenced, Serving, OneGate, Exclusive, GoodGates, Complete, ServingIn, WiredConnection;
    if x.registry.nextChannel < U64_MAX {
      var channel := x.registry.nextChannel;
      var q := x.registry.(live := x.registry.live + {channel}, nextChannel := channel + 1);
      var y := x.(registry := q, connections := x.connections[channel := Connection([], Idle)]);
      OpenRegistry(x, q);
      OpenWired(x, y);
      OpenGates(x, y);
      OpenComplete(x, y);
      OpenServing(x, y);
      FencedFrame(x, y);
    }
  }

  predicate Opened(x: System, y: System) {
    var channel := x.registry.nextChannel;
    && y.registry == x.registry.(live := x.registry.live + {channel}, nextChannel := channel + 1)
    && y == x.(registry := y.registry, connections := x.connections[channel := Connection([], Idle)])
  }

  lemma OpenRegistry(x: System, q: Registry)
    requires RegistryInv(x.registry) && Wired(x)
    requires q == x.registry.(live := x.registry.live + {x.registry.nextChannel}, nextChannel := x.registry.nextChannel + 1)
    ensures RegistryInv(q)
  {
    hide DistinctEntries, WiredConnection;
    WithinQuotasFrame(x.registry, q);
    forall id | id in q.cells ensures GoodCell(q, id, q.cells[id]) {
      assert GoodCell(x.registry, id, x.registry.cells[id]);
    }
  }

  lemma OpenWired(x: System, y: System)
    requires RegistryInv(x.registry) && Wired(x) && Opened(x, y)
    ensures Wired(y)
  {
    hide DistinctEntries, WithinQuotas;
    var channel := x.registry.nextChannel;
    assert channel !in x.connections;
    forall c | c in y.connections ensures WiredConnection(y, c, y.connections[c]) {
      if c != channel { assert WiredConnection(x, c, x.connections[c]); }
    }
  }

  lemma OpenGates(x: System, y: System)
    requires RegistryInv(x.registry) && Wired(x) && Opened(x, y) && GoodGates(x) && OneGate(x) && Exclusive(x)
    ensures GoodGates(y) && OneGate(y) && Exclusive(y)
  {
    hide RegistryInv, Wired, OneGate, Exclusive, GoodGates;
    assert GoodGates(y) by { SameCellsGood(x, y); }
    OpenHolds(x, y);
    OneGateFrame(x, y);
    OpenLocks(x, y);
    ExclusiveFrame(x, y);
  }

  lemma SameCellsGood(x: System, y: System)
    requires GoodGates(x) && y.gates == x.gates && y.weak == x.weak && y.links == x.links && y.revokers == x.revokers
    requires x.registry.cells.Keys == y.registry.cells.Keys
    requires forall id :: id in x.registry.cells ==> y.registry.cells[id].entry == x.registry.cells[id].entry
    ensures GoodGates(y)
  {
  }

  lemma OpenHolds(x: System, y: System)
    requires Opened(x, y)
    ensures HoldsLess(x, y)
  {
    forall id ensures !Mentions(Connection([], Idle), id) {}
    hide Mentions;
  }

  lemma OpenLocks(x: System, y: System)
    requires Opened(x, y)
    ensures forall c, g :: ReadLocks(y, c, g) ==> ReadLocks(x, c, g)
  {
  }

  lemma OpenComplete(x: System, y: System)
    requires RegistryInv(x.registry) && Wired(x) && Wired(y) && Complete(x) && Opened(x, y)
    ensures Complete(y)
  {
    hide DistinctEntries, WithinQuotas, WiredConnection, OnConnection;
    forall id | id in y.links ensures CompleteFor(y, id) {
      assert id in x.links && CompleteFor(x, id);
      if y.registry.cells[id].state.None? {
        OnConnectionFrame(x, y, x.registry.cells[id].entry.channel, id);
      }
    }
  }

  lemma OpenServing(x: System, y: System)
    requires Wired(x) && Wired(y) && Serving(x) && Opened(x, y)
    ensures Serving(y)
  {
    hide ServingIn, WiredConnection;
  }

  lemma ClosedQuiet(r: Registry, channel: nat)
    requires RegistryInv(r) && channel in r.live
    ensures EntriesLinked(r)
    ensures
      var q := Closed(r, channel);
      && q.cells.Keys == r.cells.Keys && q.live == r.live - {channel}
      && forall id {:trigger q.cells[id]} :: id in r.cells ==>
        && q.cells[id].entry == r.cells[id].entry
        && (q.cells[id].state.None? ==> q.cells[id] == r.cells[id] && q.cells[id].entry.channel != channel)
  {
    hide WithinQuotas, Sweep;
    var judge := EndVerdict(ViaChannel(r.live, channel), ChannelLost);
    SweepEffect(r.entries, r.cells, judge);
    var q := Closed(r, channel);
    forall id | id in r.cells
      ensures q.cells[id].entry == r.cells[id].entry
      ensures q.cells[id].state.None? ==> q.cells[id] == r.cells[id] && q.cells[id].entry.channel != channel
    {
      assert GoodCell(r, id, r.cells[id]);
      if e :| e in r.entries && e.id == id {
        assert q.cells[id] == judge(e, r.cells[id]).cell;
      }
    }
  }

  /** The registry after the lease of a channel without a connection is closed. */
  predicate ClosedSystem(x: System, y: System, channel: nat) {
    && EntriesLinked(x.registry)
    && channel !in x.connections
    && y == x.(registry := Closed(x.registry, channel))
    && y.registry.cells.Keys == x.registry.cells.Keys && y.registry.live == x.registry.live - {channel}
    && forall id {:trigger y.registry.cells[id]} :: id in x.registry.cells ==>
      && y.registry.cells[id].entry == x.registry.cells[id].entry
      && (y.registry.cells[id].state.None? ==>
           y.registry.cells[id] == x.registry.cells[id] && y.registry.cells[id].entry.channel != channel)
  }

  lemma CloseWired(x: System, y: System, channel: nat)
    requires Wired(x) && ClosedSystem(x, y, channel)
    ensures Wired(y)
  {
    hide Closed, Mentions;
    forall c | c in y.connections ensures WiredConnection(y, c, y.connections[c]) {
      assert WiredConnection(x, c, x.connections[c]);
    }
    forall id | id in y.registry.cells && y.registry.cells[id].state.None?
      ensures y.registry.cells[id].entry.channel in y.registry.live
    {
      assert x.registry.cells[id].state.None?;
    }
  }

  lemma CloseGates(x: System, y: System, channel: nat)
    requires ClosedSystem(x, y, channel) && GoodGates(x) && OneGate(x) && Exclusive(x)
    ensures GoodGates(y) && OneGate(y) && Exclusive(y)
  {
    hide Closed, OneGate, Exclusive, GoodGates;
    SameCellsGood(x, y);
    CloseHolds(x, y);
    OneGateFrame(x, y);
    CloseLocks(x, y);
    ExclusiveFrame(x, y);
  }

  lemma CloseHolds(x: System, y: System)
    requires y == x.(registry := y.registry)
    ensures HoldsLess(x, y)
  {
    hide Mentions;
  }

  lemma CloseLocks(x: System, y: System)
    requires y == x.(registry := y.registry)
    ensures forall c, g :: ReadLocks(y, c, g) ==> ReadLocks(x, c, g)
  {
  }

  lemma CloseComplete(x: System, y: System, channel: nat)
    requires ClosedSystem(x, y, channel) && Wired(x) && Wired(y) && Complete(x)
    ensures Complete(y)
  {
    hide Closed, WiredConnection, OnConnection;
    forall id | id in y.links ensures CompleteFor(y, id) {
      assert id in x.links && CompleteFor(x, id);
      if y.registry.cells[id].state.None? {
        OnConnectionFrame(x, y, x.registry.cells[id].entry.channel, id);
      }
    }
  }

  lemma CloseServing(x: System, y: System, channel: nat)
    requires ClosedSystem(x, y, channel) && Wired(x) && Wired(y) && Serving(x)
    ensures Serving(y)
  {
    hide Closed, WiredConnection, ServingIn;
    forall c | c in y.connections && y.connections[c].writer.Cleared?
      ensures
        var n := y.connections[c].writer.notice.subscription;
        n in y.registry.cells && ServingIn(y.db, y.registry.cells[n].entry.documentId, y.registry.cells[n].entry.capability)
    {
      ClearedServes(x, c);
      NoticeLinked(x, c);
    }
  }

  lemma CloseChannelKeeps(s: Scheme, x: System, channel: nat)
    requires SystemInv(x)
    ensures SystemInv(Next(s, x, CloseChannel(channel)))
  {
    hide Inv, RegistryInv, GoodGates, OneGate, Exclusive, Serving, Fenced, Complete, WiredConnection, Closed;
    if channel in x.registry.live && channel !in x.connections {
      ClosedQuiet(x.registry, channel);
      ClosedKeepsInv(x.registry, channel);
      var y := x.(registry := Closed(x.registry, channel));
      assert ClosedSystem(x, y, channel);
      CloseWired(x, y, channel);
      CloseGates(x, y, channel);
      CloseComplete(x, y, channel);
      CloseServing(x, y, channel);
      FencedFrame(x, y);
    }
  }

  /** The system after a connection's tasks have ended, before its lease is closed. */
  function WithoutConnection(x: System, channel: nat): System {
    x.(connections := x.connections - {channel})
  }

  lemma GoneConnectionWired(x: System, channel: nat)
    requires Wired(x)
    ensures Wired(WithoutConnection(x, channel))
  {
    hide Mentions;
    var y := WithoutConnection(x, channel);
    forall c | c in y.connections ensures WiredConnection(y, c, y.connections[c]) {
      assert WiredConnection(x, c, x.connections[c]);
    }
  }

  lemma GoneConnectionHolds(x: System, channel: nat)
    ensures HoldsLess(x, WithoutConnection(x, channel))
    ensures forall c, g :: ReadLocks(WithoutConnection(x, channel), c, g) ==> ReadLocks(x, c, g)
  {
    hide Mentions;
  }

  /** What was on the connection is lost, but its subscriptions still have it in what they received. */
  lemma GoneConnectionComplete(x: System, channel: nat)
    requires Wired(x) && Wired(WithoutConnection(x, channel)) && Complete(x)
    ensures Complete(WithoutConnection(x, channel))
  {
    hide WiredConnection, OnConnection, InForwarder;
    var y := WithoutConnection(x, channel);
    forall id | id in y.links ensures CompleteFor(y, id) {
      assert id in x.links && CompleteFor(x, id);
      if x.registry.cells[id].entry.channel != channel {
        OnConnectionFrame(x, y, x.registry.cells[id].entry.channel, id);
      }
    }
  }

  lemma GoneConnectionServing(x: System, channel: nat)
    requires Wired(x) && Wired(WithoutConnection(x, channel)) && Serving(x)
    ensures Serving(WithoutConnection(x, channel))
  {
    hide WiredConnection, ServingIn;
  }

  lemma CloseKeeps(s: Scheme, x: System, channel: nat)
    requires SystemInv(x)
    ensures SystemInv(Next(s, x, CloseConnection(channel)))
  {
    hide Inv, RegistryInv, Wired, GoodGates, OneGate, Exclusive, Serving, Fenced, Complete, HoldsLess;
    if channel in x.connections {
      var y := WithoutConnection(x, channel);
      GoneConnectionWired(x, channel);
      GoneConnectionHolds(x, channel);
      OneGateFrame(x, y);
      ExclusiveFrame(x, y);
      SameCellsGood(x, y);
      GoneConnectionComplete(x, channel);
      GoneConnectionServing(x, channel);
      FencedFrame(x, y);
    }
  }

  // ---- Gates -----------------------------------------------------------------------------

  /** Obtaining a document's gate reuses the live one and never leaves two. */
  lemma EmissionGateKeeps(x: System, documentId: DocumentId)
    requires GoodGates(x) && OneGate(x)
    ensures
      var (y, gate) := EmissionGate(x, documentId);
      && y == x.(weak := y.weak, gates := y.gates)
      && GoodGates(y) && OneGate(y)
      && gate in y.gates && y.gates[gate] == documentId
      && documentId in y.weak && y.weak[documentId] == gate
  {
    hide HeldBy, HeldInFlight, HeldByRevoker;
    var (y, gate) := EmissionGate(x, documentId);
    forall g ensures Held(y, g) == Held(x, g) {
      SameHolders(x, y, g);
    }
    forall g | g in y.gates && Held(y, g) ensures y.gates[g] in y.weak && y.weak[y.gates[g]] == g {
      HeldIsKnown(x, g);
    }
    EmissionGateGood(x, documentId);
  }

  lemma EmissionGateGood(x: System, documentId: DocumentId)
    requires GoodGates(x)
    ensures GoodGates(EmissionGate(x, documentId).0)
  {
    hide Held;
    var y := EmissionGate(x, documentId).0;
    if y.gates != x.gates {
      assert |x.gates| !in x.gates;
      NewGateGood(x, y.weak, documentId);
    } else {
      FewerWeakGood(x, y.weak);
    }
  }

  lemma FewerWeakGood(x: System, weak: map<DocumentId, nat>)
    requires GoodGates(x) && forall d :: d in weak ==> d in x.weak && weak[d] == x.weak[d]
    ensures GoodGates(x.(weak := weak))
  {
  }

  lemma NewGateGood(x: System, weak: map<DocumentId, nat>, documentId: DocumentId)
    requires GoodGates(x) && documentId in weak && weak[documentId] == |x.gates| && |x.gates| !in x.gates
    requires forall d :: d in weak && d != documentId ==> d in x.weak && weak[d] == x.weak[d]
    ensures GoodGates(x.(weak := weak, gates := x.gates[|x.gates| := documentId]))
  {
    assert |x.gates[|x.gates| := documentId]| == |x.gates| + 1;
  }

  lemma SameHolders(x: System, y: System, g: nat)
    requires y == x.(weak := y.weak, gates := y.gates)
    ensures Held(y, g) == Held(x, g)
  {
    hide Mentions;
    if Held(x, g) {
      if id :| HeldBy(x, id, g) { assert HeldBy(y, id, g); }
      else if c, id :| HeldInFlight(x, c, id, g) { assert HeldInFlight(y, c, id, g); }
      else { var r :| HeldByRevoker(x, r, g); assert HeldByRevoker(y, r, g); }
    }
    if Held(y, g) {
      if id :| HeldBy(y, id, g) { assert HeldBy(x, id, g); }
      else if c, id :| HeldInFlight(y, c, id, g) { assert HeldInFlight(x, c, id, g); }
      else { var r :| HeldByRevoker(y, r, g); assert HeldByRevoker(x, r, g); }
    }
  }

  /** Only gates that were handed out are held. */
  lemma HeldIsKnown(x: System, g: nat)
    requires GoodGates(x) && Held(x, g)
    ensures g in x.gates
  {
  }

  /** A document's gate in hand, everything else as it was. */
  lemma EmissionGateSystem(x: System, documentId: DocumentId)
    requires SystemInv(x)
    ensures SystemInv(EmissionGate(x, documentId).0)
  {
    hide Inv, RegistryInv, Serving, Fenced, WiredConnection, GoodGates, OneGate, Exclusive, Complete, EmissionGate;
    EmissionGateKeeps(x, documentId);
    var y := EmissionGate(x, documentId).0;
    GateFrame(x, y);
  }

  lemma GateFrame(x: System, y: System)
    requires SystemInv(x) && y == x.(weak := y.weak, gates := y.gates)
    ensures Wired(y) && Exclusive(y) && Complete(y) && Serving(y) && Fenced(y)
  {
    hide Inv, RegistryInv, Fenced, GoodGates, OneGate, Exclusive, ServingIn, Mentions, Complete;
    forall c | c in y.connections ensures WiredConnection(y, c, y.connections[c]) {
      assert WiredConnection(x, c, x.connections[c]);
    }
    ExclusiveFrame(x, y);
    GateComplete(x, y);
    FencedFrame(x, y);
  }

  lemma GateComplete(x: System, y: System)
    requires Wired(x) && Wired(y) && Complete(x) && y == x.(weak := y.weak, gates := y.gates)
    ensures Complete(y)
  {
    hide WiredConnection, OnConnection;
    forall id | id in y.links ensures CompleteFor(y, id) {
      assert id in x.links && CompleteFor(x, id);
      OnConnectionFrame(x, y, x.registry.cells[id].entry.channel, id);
    }
  }

  // ---- Subscribing ---------------------------------------------------------------------------

  /** The system after one subscription object has been added to it. */
  predicate Joined(x: System, y: System, e: Entry, gate: nat, since: nat) {
    && e.id !in x.registry.cells && e.id !in x.links
    && y.registry.cells == x.registry.cells[e.id := Cell(e, None, [], false)]
    && y.registry.live == x.registry.live
    && y == x.(registry := y.registry, links := x.links[e.id := Link(gate, since, Polling)],
               received := x.received[e.id := []], written := x.written[e.id := []])
  }

  lemma JoinedWired(x: System, y: System, e: Entry, gate: nat, since: nat)
    requires Wired(x) && Joined(x, y, e, gate, since) && e.channel in x.registry.live
    ensures Wired(y)
  {
    hide Mentions;
    forall c | c in y.connections ensures WiredConnection(y, c, y.connections[c]) {
      assert WiredConnection(x, c, x.connections[c]);
    }
  }

  /** Nothing in flight mentions a subscription that did not exist. */
  lemma Unmentioned(x: System, c: nat, id: nat)
    requires Wired(x) && c in x.connections && id !in x.registry.cells
    ensures !Mentions(x.connections[c], id)
  {
    assert WiredConnection(x, c, x.connections[c]);
  }

  lemma JoinedGates(x: System, y: System, e: Entry, gate: nat, since: nat)
    requires Wired(x) && Joined(x, y, e, gate, since) && GoodGates(x) && OneGate(x)
    requires gate in x.gates && x.gates[gate] == e.documentId && e.documentId in x.weak && x.weak[e.documentId] == gate
    ensures GoodGates(y) && OneGate(y)
  {
    hide Mentions, WiredConnection;
    forall g | g in y.gates && Held(y, g) ensures y.gates[g] in y.weak && y.weak[y.gates[g]] == g {
      if g != gate { JoinedHolds(x, y, e, gate, since, g); }
    }
  }

  lemma JoinedHolds(x: System, y: System, e: Entry, gate: nat, since: nat, g: nat)
    requires Wired(x) && Joined(x, y, e, gate, since) && Held(y, g) && g != gate
    ensures Held(x, g)
  {
    hide Mentions, Wired;
    if id :| HeldBy(y, id, g) { assert HeldBy(x, id, g); }
    else if c, id :| HeldInFlight(y, c, id, g) {
      assert HeldInFlight(x, c, id, g);
    } else { var r :| HeldByRevoker(y, r, g); assert HeldByRevoker(x, r, g); }
  }

  lemma JoinedExclusive(x: System, y: System, e: Entry, gate: nat, since: nat)
    requires Wired(x) && Joined(x, y, e, gate, since) && Exclusive(x)
    ensures Exclusive(y)
  {
    hide WiredConnection, Exclusive;
    forall c, g | ReadLocks(y, c, g) ensures ReadLocks(x, c, g) {
      NoticeLinked(x, c);
    }
    ExclusiveFrame(x, y);
  }

  lemma {:induction false} NoWakeups(events: seq<ConnectionEvent>, id: nat)
    requires forall e :: e in events && e.Wakeup? ==> e.notice.subscription != id
    ensures Wakeups(events, id) == []
  {
    if events != [] { NoWakeups(events[1..], id); }
  }

  lemma JoinedComplete(x: System, y: System, e: Entry, gate: nat, since: nat)
    requires Wired(x) && Wired(y) && Complete(x) && Joined(x, y, e, gate, since)
    requires e.documentId in x.db.documents && since == |x.db.documents[e.documentId].log|
    ensures Complete(y)
  {
    hide WiredConnection, OnConnection, Mentions;
    forall id | id in y.links ensures CompleteFor(y, id) {
      if id == e.id {
        NothingInFlight(x, y, e);
      } else {
        assert id in x.links && CompleteFor(x, id);
        OnConnectionFrame(x, y, x.registry.cells[id].entry.channel, id);
      }
    }
  }

  lemma NothingInFlight(x: System, y: System, e: Entry)
    requires Wired(x) && e.id !in x.registry.cells && y.connections == x.connections
    ensures OnConnection(y, e.channel, e.id) == []
  {
    if e.channel in x.connections {
      Unmentioned(x, e.channel, e.id);
      NoWakeups(x.connections[e.channel].events, e.id);
    }
  }

  lemma JoinedServing(x: System, y: System, e: Entry, gate: nat, since: nat)
    requires Wired(x) && Wired(y) && Serving(x) && Joined(x, y, e, gate, since)
    requires ServingIn(x.db, e.documentId, e.capability)
    ensures Serving(y)
  {
    hide WiredConnection, ServingIn;
    forall c | c in y.connections && y.connections[c].writer.Cleared?
      ensures
        var n := y.connections[c].writer.notice.subscription;
        n in y.registry.cells && ServingIn(y.db, y.registry.cells[n].entry.documentId, y.registry.cells[n].entry.capability)
    {
      ClearedServes(x, c);
      NoticeLinked(x, c);
    }
  }

  lemma ReadersServe(s: Scheme, db: Db, documentId: DocumentId, capability: CapabilityId, secret: Authenticator)
    requires Inv(db) && AccessTo(s, db, documentId, capability, secret, Read) == Authorized
    ensures documentId in db.documents && ServingIn(db, documentId, capability)
  {
    hide Inv;
    AccessCollapses(s, db, documentId, capability, secret, Read);
  }

  lemma PruneQuiet(r: Registry)
    requires RegistryInv(r)
    ensures EntriesLinked(r) && RegistryInv(Pruned(r)) && Quiets(r, Pruned(r))
  {
    hide WithinQuotas, DistinctEntries, Sweep;
    PrunedKeepsInv(r);
    var judge := PruneVerdict(r.live);
    forall e, c ensures judge(e, c).cell == c || (judge(e, c).cell.state.Some? && judge(e, c).cell.entry == c.entry) {
      assert judge(e, c).cell == c || judge(e, c).cell == Invalidate(c, ChannelLost);
    }
    SweptQuiets(r, judge);
  }

  /** What a successful registration adds to the pruned registry. */
  lemma SubscribedShape(r: Registry, channel: nat, documentId: DocumentId, capability: CapabilityId)
    requires RegistryInv(r) && channel in r.live
    ensures EntriesLinked(r)
    ensures
      var (q, outcome) := Subscribed(r, channel, documentId, capability);
      && RegistryInv(q)
      && (outcome.RegisterBackpressure? ==> q == Pruned(r))
      && (outcome.Registered? ==>
           var e := Entry(outcome.id, documentId, capability, channel);
           && e.id !in Pruned(r).cells
           && q.live == Pruned(r).live
           && q.cells == Pruned(r).cells[e.id := Cell(e, None, [], false)])
  {
    hide WithinQuotas, DistinctEntries, Sweep, CanRegister, Pruned;
    RegistryLinked(r);
    PruneQuiet(r);
    RegisterKeepsInv(r, channel, documentId, capability);
    IdsBelow(Pruned(r));
  }

  lemma IdsBelow(r: Registry)
    requires RegistryInv(r)
    ensures r.nextSubscription !in r.cells
  {
    assert forall id :: id in r.cells ==> GoodCell(r, id, r.cells[id]);
  }

  lemma SubscribeKeeps(s: Scheme, x: System, channel: nat, documentId: DocumentId, capability: CapabilityId,
                       secret: Authenticator)
    requires SystemInv(x)
    ensures SystemInv(Next(s, x, Subscribe(channel, documentId, capability, secret)))
  {
    hide Inv, RegistryInv, GoodGates, OneGate, Exclusive, Serving, Fenced, Complete, WiredConnection, AccessTo,
      Subscribed, Pruned, EmissionGate, Quiets;
    if channel in x.connections && AccessTo(s, x.db, documentId, capability, secret, Read) == Authorized {
      RegistryLinked(x.registry);
      PruneQuiet(x.registry);
      SubscribedShape(x.registry, channel, documentId, capability);
      var p := x.(registry := Pruned(x.registry));
      QuietKeeps(x, Pruned(x.registry));
      var (q, outcome) := Subscribed(x.registry, channel, documentId, capability);
      if outcome.Registered? {
        EmissionGateSystem(p, documentId);
        EmissionGateKeeps(p, documentId);
        ReadersServe(s, x.db, documentId, capability, secret);
        var (g, gate) := EmissionGate(p, documentId);
        JoinKeeps(g, AfterSubscribe(s, x, channel, documentId, capability, secret),
                  Entry(outcome.id, documentId, capability, channel), gate, |x.db.documents[documentId].log|);
      }
    }
  }

  lemma JoinKeeps(x: System, y: System, e: Entry, gate: nat, since: nat)
    requires SystemInv(x) && RegistryInv(y.registry) && Joined(x, y, e, gate, since) && e.channel in x.registry.live
    requires gate in x.gates && x.gates[gate] == e.documentId && e.documentId in x.weak && x.weak[e.documentId] == gate
    requires e.documentId in x.db.documents && since == |x.db.documents[e.documentId].log|
    requires ServingIn(x.db, e.documentId, e.capability)
    ensures SystemInv(y)
  {
    hide Inv, RegistryInv, Wired, GoodGates, OneGate, Exclusive, Serving, Fenced, Complete, ServingIn;
    JoinedWired(x, y, e, gate, since);
    JoinedGates(x, y, e, gate, since);
    JoinedExclusive(x, y, e, gate, since);
    JoinedComplete(x, y, e, gate, since);
    JoinedServing(x, y, e, gate, since);
    FencedFrame(x, y);
  }

  // ---- Revocation ------------------------------------------------------------------------------

  function WithRevokers(x: System, revokers: map<nat, Revoker>): System {
    x.(revokers := revokers)
  }

  /** Changing only who revokes leaves everything but the gates' holders alone. */
  lemma RevokersFrame(x: System, revokers: map<nat, Revoker>)
    requires SystemInv(x)
    ensures Wired(WithRevokers(x, revokers)) && Complete(WithRevokers(x, revokers))
    ensures Serving(WithRevokers(x, revokers)) && Fenced(WithRevokers(x, revokers))
  {
    hide Inv, RegistryInv, Fenced, GoodGates, OneGate, Exclusive, ServingIn, Mentions, Complete;
    var y := WithRevokers(x, revokers);
    forall c | c in y.connections ensures WiredConnection(y, c, y.connections[c]) {
      assert WiredConnection(x, c, x.connections[c]);
    }
    FencedFrame(x, y);
    RevokersComplete(x, revokers);
  }

  lemma RevokersComplete(x: System, revokers: map<nat, Revoker>)
    requires Wired(x) && Wired(WithRevokers(x, revokers)) && Complete(x)
    ensures Complete(WithRevokers(x, revokers))
  {
    hide WiredConnection, OnConnection;
    var y := WithRevokers(x, revokers);
    forall id | id in y.links ensures CompleteFor(y, id) {
      assert id in x.links && CompleteFor(x, id);
      OnConnectionFrame(x, y, x.registry.cells[id].entry.channel, id);
    }
  }

  /** A revoker joins with the document's gate in hand, or changes its phase, or leaves. */
  lemma RevokersGates(x: System, revokers: map<nat, Revoker>, gate: nat)
    requires GoodGates(x) && OneGate(x)
    requires gate in x.gates && x.gates[gate] in x.weak && x.weak[x.gates[gate]] == gate
    requires forall r :: r in revokers ==>
      (r in x.revokers && revokers[r].gate == x.revokers[r].gate && revokers[r].request == x.revokers[r].request)
      || (revokers[r].gate == gate && revokers[r].request.documentId == x.gates[gate])
    ensures GoodGates(WithRevokers(x, revokers)) && OneGate(WithRevokers(x, revokers))
  {
    hide Mentions;
    var y := WithRevokers(x, revokers);
    forall g | g in y.gates && Held(y, g) ensures y.gates[g] in y.weak && y.weak[y.gates[g]] == g {
      if id :| HeldBy(y, id, g) { assert HeldBy(x, id, g); }
      else if c, id :| HeldInFlight(y, c, id, g) { assert HeldInFlight(x, c, id, g); }
      else {
        var r :| HeldByRevoker(y, r, g);
        if g != gate { assert HeldByRevoker(x, r, g); }
      }
    }
  }

  lemma SameReaders(x: System, revokers: map<nat, Revoker>, g: nat)
    ensures ReadLocked(WithRevokers(x, revokers), g) == ReadLocked(x, g)
  {
    var y := WithRevokers(x, revokers);
    if ReadLocked(x, g) {
      var c :| ReadLocks(x, c, g);
      assert ReadLocks(y, c, g);
    }
    if ReadLocked(y, g) {
      var c :| ReadLocks(y, c, g);
      assert ReadLocks(x, c, g);
    }
  }

  lemma RevokersExclusive(x: System, revokers: map<nat, Revoker>)
    requires Exclusive(x)
    requires forall r, g :: WriteLocks(WithRevokers(x, revokers), r, g) ==>
      WriteLocks(x, r, g) || (!ReadLocked(x, g) && !WriteLocked(x, g))
    requires forall r, q, g ::
      WriteLocks(WithRevokers(x, revokers), r, g) && WriteLocks(WithRevokers(x, revokers), q, g) ==> r == q
    requires forall g :: |Occupants(WithRevokers(x, revokers), g)| <= MAX_CONTROL_WAITERS_PER_DOCUMENT
    ensures Exclusive(WithRevokers(x, revokers))
  {
    hide ReadLocks, Occupants;
    var y := WithRevokers(x, revokers);
    forall g ensures !(ReadLocked(y, g) && WriteLocked(y, g)) {
      SameReaders(x, revokers, g);
      if WriteLocked(y, g) {
        var r :| WriteLocks(y, r, g);
        assert WriteLocks(x, r, g) ==> WriteLocked(x, g);
      }
    }
  }

  lemma AskKeeps(s: Scheme, x: System, revoker: nat, request: RevokeRequest)
    requires SystemInv(x)
    ensures SystemInv(Next(s, x, Ask(revoker, request)))
  {
    hide Inv, RegistryInv, Wired, GoodGates, OneGate, Exclusive, Serving, Fenced, Complete, EmissionGate;
    if revoker !in x.revokers {
      EmissionGateSystem(x, request.documentId);
      EmissionGateKeeps(x, request.documentId);
      var (y, gate) := EmissionGate(x, request.documentId);
      var revokers := y.revokers[revoker := Revoker(request, gate, Waiting)];
      RevokersFrame(y, revokers);
      RevokersGates(y, revokers, gate);
      WaitingExclusive(y, revokers, revoker);
    }
  }

  lemma WaitingExclusive(x: System, revokers: map<nat, Revoker>, revoker: nat)
    requires Exclusive(x) && revoker !in x.revokers && revoker in revokers && revokers[revoker].phase == Waiting
    requires revokers == x.revokers[revoker := revokers[revoker]]
    ensures Exclusive(WithRevokers(x, revokers))
  {
    hide ReadLocked;
    var y := WithRevokers(x, revokers);
    forall r, g | WriteLocks(y, r, g) ensures WriteLocks(x, r, g) {}
    forall g ensures Occupants(y, g) == Occupants(x, g) {}
    RevokersExclusive(x, revokers);
  }

  /** A revoker that leaves frees its place and its lock. */
  lemma LeaveKeeps(x: System, revoker: nat)
    requires SystemInv(x) && revoker in x.revokers
    ensures SystemInv(WithRevokers(x, x.revokers - {revoker}))
  {
    hide Inv, RegistryInv, Wired, GoodGates, OneGate, Exclusive, Serving, Fenced, Complete;
    RevokersFrame(x, x.revokers - {revoker});
    RevokerGate(x, revoker);
    RevokersGates(x, x.revokers - {revoker}, x.revokers[revoker].gate);
    LeaveExclusive(x, revoker);
  }

  lemma RevokerGate(x: System, revoker: nat)
    requires GoodGates(x) && OneGate(x) && revoker in x.revokers
    ensures
      var gate := x.revokers[revoker].gate;
      && gate in x.gates && x.gates[gate] == x.revokers[revoker].request.documentId
      && x.gates[gate] in x.weak && x.weak[x.gates[gate]] == gate
  {
    assert HeldByRevoker(x, revoker, x.revokers[revoker].gate);
  }

  lemma LeaveExclusive(x: System, revoker: nat)
    requires Exclusive(x) && revoker in x.revokers
    ensures Exclusive(WithRevokers(x, x.revokers - {revoker}))
  {
    hide ReadLocked;
    var y := WithRevokers(x, x.revokers - {revoker});
    forall r, g | WriteLocks(y, r, g) ensures WriteLocks(x, r, g) {}
    forall g ensures |Occupants(y, g)| <= |Occupants(x, g)| {
      SubsetCard(Occupants(y, g), Occupants(x, g));
    }
    RevokersExclusive(x, x.revokers - {revoker});
  }

  /** A revoke whose connection goes away gives up its place, its lock and its hold on the gate. */
  lemma AbandonKeeps(s: Scheme, x: System, revoker: nat)
    requires SystemInv(x)
    ensures SystemInv(Next(s, x, Abandon(revoker)))
  {
    hide SystemInv;
    if revoker in x.revokers { LeaveKeeps(x, revoker); }
  }

  lemma AdmitKeeps(s: Scheme, x: System, revoker: nat)
    requires SystemInv(x)
    ensures SystemInv(Next(s, x, Admit(revoker)))
  {
    hide Inv, RegistryInv, Wired, GoodGates, OneGate, Exclusive, Serving, Fenced, Complete, Occupants;
    if revoker in x.revokers && x.revokers[revoker].phase == Waiting {
      if |Occupants(x, x.revokers[revoker].gate)| >= MAX_CONTROL_WAITERS_PER_DOCUMENT {
        LeaveKeeps(x, revoker);
      } else {
        var revokers := x.revokers[revoker := x.revokers[revoker].(phase := Admitted)];
        RevokersFrame(x, revokers);
        RevokerGate(x, revoker);
        RevokersGates(x, revokers, x.revokers[revoker].gate);
        AdmitExclusive(x, revoker);
      }
    }
  }

  lemma AdmitExclusive(x: System, revoker: nat)
    requires Exclusive(x) && revoker in x.revokers && x.revokers[revoker].phase == Waiting
    requires |Occupants(x, x.revokers[revoker].gate)| < MAX_CONTROL_WAITERS_PER_DOCUMENT
    ensures Exclusive(WithRevokers(x, x.revokers[revoker := x.revokers[revoker].(phase := Admitted)]))
  {
    hide ReadLocked;
    var revokers := x.revokers[revoker := x.revokers[revoker].(phase := Admitted)];
    var y := WithRevokers(x, revokers);
    forall r, g | WriteLocks(y, r, g) ensures WriteLocks(x, r, g) {}
    forall g ensures |Occupants(y, g)| <= MAX_CONTROL_WAITERS_PER_DOCUMENT {
      if g == x.revokers[revoker].gate {
        assert Occupants(y, g) == Occupants(x, g) + {revoker};
      } else {
        assert Occupants(y, g) == Occupants(x, g);
      }
    }
    RevokersExclusive(x, revokers);
  }

  lemma ExcludeKeeps(s: Scheme, x: System, revoker: nat)
    requires SystemInv(x)
    ensures SystemInv(Next(s, x, Exclude(revoker)))
  {
    hide Inv, RegistryInv, Wired, GoodGates, OneGate, Exclusive, Serving, Fenced, Complete, ReadLocked, WriteLocked;
    if revoker in x.revokers && x.revokers[revoker].phase == Admitted
      && !ReadLocked(x, x.revokers[revoker].gate) && !WriteLocked(x, x.revokers[revoker].gate)
    {
      var revokers := x.revokers[revoker := x.revokers[revoker].(phase := Excluding)];
      RevokersFrame(x, revokers);
      RevokerGate(x, revoker);
      RevokersGates(x, revokers, x.revokers[revoker].gate);
      ExcludeExclusive(x, revoker);
    }
  }

  lemma ExcludeExclusive(x: System, revoker: nat)
    requires Exclusive(x) && revoker in x.revokers && x.revokers[revoker].phase == Admitted
    requires !ReadLocked(x, x.revokers[revoker].gate) && !WriteLocked(x, x.revokers[revoker].gate)
    ensures Exclusive(WithRevokers(x, x.revokers[revoker := x.revokers[revoker].(phase := Excluding)]))
  {
    hide ReadLocked;
    var revokers := x.revokers[revoker := x.revokers[revoker].(phase := Excluding)];
    var y := WithRevokers(x, revokers);
    var gate := x.revokers[revoker].gate;
    forall r, g | WriteLocks(y, r, g) ensures WriteLocks(x, r, g) || (r == revoker && g == gate) {}
    forall r ensures !WriteLocks(x, r, gate) {}
    forall g ensures Occupants(y, g) == Occupants(x, g) {}
    RevokersExclusive(x, revokers);
  }

  /** Outside the revoked subtree a capability goes on serving. */
  lemma RevokeServes(s: Scheme, db: Db, r: RevokeRequest, documentId: DocumentId, capability: CapabilityId)
    requires Inv(db) && RevokeDecision(s, db, r) == Inserted && ServingIn(db, documentId, capability)
    requires r.documentId in db.documents
    requires documentId != r.documentId || !Ancestor(db.documents[r.documentId].capabilities, r.target, capability)
    ensures ServingIn(AfterRevoke(s, db, r), documentId, capability)
  {
    hide ValidTree, ValidLog, ValidCreation, RevokeDecision, GoodReceipt, DocumentBytes, Sum;
    RevokeFacts(s, db, r);
    var d := db.documents[r.documentId];
    ValidTreeLinked(d.capabilities, d.root, d.revision);
    if documentId == r.documentId { ChainIsAncestry(d.capabilities, r.target, capability); }
  }

  /** Whatever is still active after the invalidation lies outside the revoked subtree. */
  lemma StillActiveOutside(x: System, r: RevokeRequest, id: nat)
    requires SystemInv(x) && r.documentId in x.db.documents && id in x.registry.cells
    requires EntriesLinked(x.registry)
    requires var q := Ended(x.registry, WithIds(RevokedContexts(x, r)), Revoked);
      id in q.cells && q.cells[id].state.None?
    ensures
      var e := x.registry.cells[id].entry;
      e.documentId != r.documentId || !Ancestor(x.db.documents[r.documentId].capabilities, r.target, e.capability)
  {
    hide Inv, WithinQuotas, GoodGates, OneGate, Exclusive, Serving, Fenced, Complete, WiredConnection, Ancestor;
    var ends := WithIds(RevokedContexts(x, r));
    SweepEffect(x.registry.entries, x.registry.cells, EndVerdict(ends, Revoked));
    var c := x.registry.cells[id];
    assert GoodCell(x.registry, id, c);
    EndedQuiet(x.registry, ends, Revoked);
    assert c.state.None? && c.entry in x.registry.entries;
    assert id !in RevokedContexts(x, r);
  }

  /** A writer inside the gate and a revoker excluding it cannot be on the same document. */
  lemma ReaderElsewhere(x: System, channel: nat, revoker: nat)
    requires Wired(x) && GoodGates(x) && OneGate(x) && Exclusive(x)
    requires channel in x.connections && Reads(x.connections[channel].writer)
    requires revoker in x.revokers && x.revokers[revoker].phase == Excluding
    ensures
      var id := x.connections[channel].writer.notice.subscription;
      id in x.registry.cells && x.registry.cells[id].entry.documentId != x.revokers[revoker].request.documentId
  {
    hide WiredConnection;
    NoticeLinked(x, channel);
    RevokerGate(x, revoker);
    var id := x.connections[channel].writer.notice.subscription;
    var gate := x.links[id].gate;
    assert Mentions(x.connections[channel], id);
    assert HeldInFlight(x, channel, id, gate);
    assert Held(x, gate);
    assert ReadLocks(x, channel, gate) && WriteLocks(x, revoker, x.revokers[revoker].gate);
    assert ReadLocked(x, gate) && WriteLocked(x, x.revokers[revoker].gate);
  }

  lemma CommitStillServing(s: Scheme, x: System, revoker: nat, q: Registry)
    requires SystemInv(x) && EntriesLinked(x.registry)
    requires revoker in x.revokers && x.revokers[revoker].phase == Excluding
    requires
      var r := x.revokers[revoker].request;
      && r.documentId in x.db.documents && RevokeDecision(s, x.db, r) == Inserted
      && q == Ended(x.registry, WithIds(RevokedContexts(x, r)), Revoked)
    requires RegistryInv(q) && Quiets(x.registry, q) && Wired(x.(registry := q))
    ensures StillServing(x.(registry := q), AfterRevoke(s, x.db, x.revokers[revoker].request))
  {
    hide Inv, RegistryInv, GoodGates, OneGate, Exclusive, Fenced, Complete, WiredConnection, RevokeDecision, ServingIn,
      AfterRevoke, Ended, RevokedContexts, Ancestor;
    var r := x.revokers[revoker].request;
    forall id | id in q.cells && q.cells[id].state.None?
      ensures ServingIn(AfterRevoke(s, x.db, r), q.cells[id].entry.documentId, q.cells[id].entry.capability)
    {
      var e := x.registry.cells[id].entry;
      assert q.cells[id].entry == e;
      StillActiveOutside(x, r, id);
      RevokeServes(s, x.db, r, e.documentId, e.capability);
    }
    forall c | c in x.connections && x.connections[c].writer.Cleared?
      ensures
        var n := x.connections[c].writer.notice.subscription;
        n in q.cells && ServingIn(AfterRevoke(s, x.db, r), q.cells[n].entry.documentId, q.cells[n].entry.capability)
    {
      ClearedServes(x, c);
      ReaderElsewhere(x, c, revoker);
      var n := x.connections[c].writer.notice.subscription;
      var e := x.registry.cells[n].entry;
      assert q.cells[n].entry == e;
      RevokeServes(s, x.db, r, e.documentId, e.capability);
    }
  }

  lemma CommittedFenced(x: System, documentId: DocumentId, target: CapabilityId)
    requires Fenced(x) && RevokedIn(x.db, documentId, target)
    ensures Fenced(x.(trace := x.trace + [Committed(documentId, target)]))
  {
    hide RevokedIn, Ancestor;
    var y := x.(trace := x.trace + [Committed(documentId, target)]);
    forall i, j | 0 <= i < j < |y.trace| ensures Apart(y.db, y.trace[i], y.trace[j]) {
      if j < |x.trace| { assert Apart(x.db, x.trace[i], x.trace[j]); }
    }
  }

  lemma CommittedRevoked(s: Scheme, db: Db, r: RevokeRequest)
    requires Inv(db) && RevokeDecision(s, db, r) == Inserted
    ensures r.documentId in db.documents && RevokedIn(AfterRevoke(s, db, r), r.documentId, r.target)
  {
    hide Inv, RevokeDecision, AfterRevoke;
    RevokeCommitted(s, db, r);
  }

  lemma CommitKeeps(s: Scheme, x: System, revoker: nat)
    requires SystemInv(x)
    ensures SystemInv(Next(s, x, Commit(revoker)))
  {
    hide Inv, RegistryInv, Wired, GoodGates, OneGate, Exclusive, Serving, Fenced, Complete, RevokeDecision,
      AfterRevoke, Ended, Quiets, Extends;
    if revoker in x.revokers && x.revokers[revoker].phase == Excluding {
      var r := x.revokers[revoker].request;
      if RevokeDecision(s, x.db, r) != Inserted {
        LeaveKeeps(x, revoker);
      } else {
        CommittedRevoked(s, x.db, r);
        RegistryLinked(x.registry);
        CommitInserted(s, x, revoker);
      }
    }
  }

  lemma CommitInserted(s: Scheme, x: System, revoker: nat)
    requires SystemInv(x) && revoker in x.revokers && x.revokers[revoker].phase == Excluding
    requires EntriesLinked(x.registry)
    requires
      var r := x.revokers[revoker].request;
      RevokeDecision(s, x.db, r) == Inserted && r.documentId in x.db.documents
    ensures SystemInv(AfterCommit(s, x, revoker))
  {
    hide Inv, RegistryInv, Wired, GoodGates, OneGate, Exclusive, Serving, Fenced, Complete, RevokeDecision,
      AfterRevoke, Ended, Quiets, Extends, StillServing, RevokedContexts, RevokedIn;
    var r := x.revokers[revoker].request;
    var ends := WithIds(RevokedContexts(x, r));
    var q := Ended(x.registry, ends, Revoked);
    EndedQuiet(x.registry, ends, Revoked);
    QuietKeeps(x, q);
    var ended := x.(registry := q);
    var db := AfterRevoke(s, x.db, r);
    CommitStillServing(s, x, revoker, q);
    CommittedRevoked(s, x.db, r);
    RevokeKeepsInv(s, x.db, r);
    RevokeExtends(s, x.db, r);
    TablesSound(ended, db);
    ControlKeepsLogs(s, x.db, RevokeCapability(r));
    SameLogsComplete(ended, db);
    LeaveKeeps(ended.(db := db), revoker);
    var z := WithRevokers(ended.(db := db), x.revokers - {revoker});
    CommittedFenced(z, r.documentId, r.target);
    var y := AfterCommit(s, x, revoker);
    assert y == z.(trace := z.trace + [Committed(r.documentId, r.target)]);
    HistoryFrame(z, y);
    TraceComplete(z, y);
  }

  lemma TraceComplete(x: System, y: System)
    requires Wired(x) && Wired(y) && Complete(x) && y == x.(trace := y.trace)
    ensures Complete(y)
  {
    hide WiredConnection, OnConnection;
    forall id | id in y.links ensures CompleteFor(y, id) {
      assert id in x.links && CompleteFor(x, id);
      OnConnectionFrame(x, y, x.registry.cells[id].entry.channel, id);
    }
  }

  // ---- Every run ---------------------------------------------------------------------------------

  lemma MutateKeeps(s: Scheme, x: System, command: Command)
    requires SystemInv(x)
    ensures SystemInv(Next(s, x, Step.Mutate(command)))
  {
    hide SystemInv, AfterCreate, AfterGrant;
    match command
    case RevokeCapability(_) =>
    case AcceptUpdate(a) => AcceptKeeps(s, x, a);
    case RetireDocument(id) => RetireKeeps(s, x, id);
    case CreateDocument(_) => ControlKeeps(s, x, command);
    case GrantCapability(_) => ControlKeeps(s, x, command);
  }

  lemma NextKeeps(s: Scheme, x: System, step: Step)
    requires SystemInv(x)
    ensures SystemInv(Next(s, x, step))
  {
    hide SystemInv, Next;
    match step
    case Mutate(command) => MutateKeeps(s, x, command);
    case OpenConnection => OpenKeeps(s, x);
    case CloseConnection(channel) => CloseKeeps(s, x, channel);
    case CloseChannel(channel) => CloseChannelKeeps(s, x, channel);
    case Subscribe(channel, documentId, capability, secret) =>
      SubscribeKeeps(s, x, channel, documentId, capability, secret);
    case Poll(id) => PollKeeps(s, x, id);
    case Recheck(id) => RecheckKeeps(s, x, id);
    case Push(id) => PushKeeps(s, x, id);
    case Announce(id) => AnnounceKeeps(s, x, id);
    case Drop(id) => DropKeeps(s, x, id);
    case Dequeue(channel) => DequeueKeeps(s, x, channel);
    case Enter(channel) => EnterKeeps(s, x, channel);
    case Check(channel) => CheckKeeps(s, x, channel);
    case Write(channel) => WriteKeeps(s, x, channel);
    case Ask(revoker, request) => AskKeeps(s, x, revoker, request);
    case Admit(revoker) => AdmitKeeps(s, x, revoker);
    case Exclude(revoker) => ExcludeKeeps(s, x, revoker);
    case Commit(revoker) => CommitKeeps(s, x, revoker);
    case Abandon(revoker) => AbandonKeeps(s, x, revoker);
  }

  ghost function Behave(s: Scheme, x: System, steps: seq<Step>): System
    requires SystemInv(x)
    decreases |steps|
  {
    if steps == [] then x
    else
      NextKeeps(s, x, steps[0]);
      Behave(s, Next(s, x, steps[0]), steps[1..])
  }

  lemma {:induction false} BehaveKeeps(s: Scheme, x: System, steps: seq<Step>)
    requires SystemInv(x)
    ensures SystemInv(Behave(s, x, steps))
    decreases |steps|
  {
    hide SystemInv, Next;
    if steps != [] {
      NextKeeps(s, x, steps[0]);
      BehaveKeeps(s, Next(s, x, steps[0]), steps[1..]);
    }
  }

  /** A broker over recovered tables, before any connection. */
  function Started(db: Db): System {
    System(db, Registry([], map[], {}, 1, 1), map[], map[], map[], map[], map[], map[], map[], [])
  }

  lemma StartedInv(db: Db)
    requires Inv(db)
    ensures SystemInv(Started(db))
  {
    hide Inv;
    forall g ensures Occupants(Started(db), g) == {} {}
  }

  /**
   * No silent gap: in every interleaving, what an active subscription has received, followed by
   * what it still has queued, is exactly the log since its registration; and while its connection
   * is open, what its client was written, followed by what is in flight in order, is that too.
   */
  lemma NoSilentGap(s: Scheme, db: Db, steps: seq<Step>, id: nat)
    requires Inv(db)
    ensures SystemInv(Started(db))
    ensures
      var x := Behave(s, Started(db), steps);
      id in x.registry.cells && x.registry.cells[id].state.None? ==>
        && id in x.links && id in x.written && id in x.received
        && var e := x.registry.cells[id].entry;
        && e.documentId in x.db.documents
        && x.links[id].since <= |x.db.documents[e.documentId].log|
        && var due := Ids(x.db.documents[e.documentId].log)[x.links[id].since..];
        && x.received[id] + x.registry.cells[id].queue == due
        && (e.channel in x.connections ==> Pipeline(x, id) == due && x.written[id] <= due)
  {
    hide Inv, RegistryInv, GoodGates, OneGate, Exclusive, Serving, Fenced, WiredConnection, OnConnection, InForwarder;
    StartedInv(db);
    BehaveKeeps(s, Started(db), steps);
    var x := Behave(s, Started(db), steps);
    if id in x.registry.cells && x.registry.cells[id].state.None? {
      assert id in x.links && CompleteFor(x, id);
    }
  }

  /**
   * The emission fence: in every interleaving of writers, receivers and revokers, no notification
   * is written after a revocation commits for a subscription whose capability lies at or beneath
   * the revoked one.
   */
  lemma EmissionFence(s: Scheme, db: Db, steps: seq<Step>, i: nat, j: nat)
    requires Inv(db)
    ensures SystemInv(Started(db))
    ensures
      var x := Behave(s, Started(db), steps);
      i < j < |x.trace| && x.trace[i].Committed? && x.trace[j].Wrote? && x.trace[i].documentId == x.trace[j].documentId ==>
        && x.trace[j].documentId in x.db.documents
        && !Ancestor(x.db.documents[x.trace[j].documentId].capabilities, x.trace[i].target, x.trace[j].capability)
  {
    hide Inv, RegistryInv, GoodGates, OneGate, Exclusive, Serving, Wired, Complete, Ancestor;
    StartedInv(db);
    BehaveKeeps(s, Started(db), steps);
    var x := Behave(s, Started(db), steps);
    if i < j < |x.trace| { assert Apart(x.db, x.trace[i], x.trace[j]); }
  }

  /** At most one live gate per document, weakly held as the registry's map is. */
  lemma OneGatePerDocument(s: Scheme, db: Db, steps: seq<Step>, g: nat, h: nat)
    requires Inv(db)
    ensures SystemInv(Started(db))
    ensures
      var x := Behave(s, Started(db), steps);
      g in x.gates && h in x.gates && Held(x, g) && Held(x, h) && x.gates[g] == x.gates[h] ==> g == h
  {
    hide Inv, RegistryInv, GoodGates, Exclusive, Serving, Wired, Complete, Fenced, Held;
    StartedInv(db);
    BehaveKeeps(s, Started(db), steps);
    var x := Behave(s, Started(db), steps);
    assert OneGate(x);
  }

  /** No active subscription on a live channel belongs to a revoked capability. */
  lemma ActiveMeansAuthorized(s: Scheme, db: Db, steps: seq<Step>, id: nat)
    requires Inv(db)
    ensures SystemInv(Started(db))
    ensures
      var x := Behave(s, Started(db), steps);
      id in x.registry.cells && x.registry.cells[id].state.None? ==>
        var e := x.registry.cells[id].entry;
        && e.documentId in x.db.documents && e.capability in x.db.documents[e.documentId].capabilities
        && !x.db.documents[e.documentId].capabilities[e.capability].revoked
  {
    hide Inv, RegistryInv, GoodGates, Exclusive, OneGate, Wired, Complete, Fenced;
    StartedInv(db);
    BehaveKeeps(s, Started(db), steps);
    var x := Behave(s, Started(db), steps);
    assert Serving(x);
  }
}
