/** The broker-local subscription registry: bounded queues, first-reason-wins endings, sweeps. */
module Subscriptions {
  import opened Prelude
  import opened Types
  import opened PassRegistry

  const UPDATE_NOTIFICATION_QUEUE_CAPACITY: nat := 8
  const MAX_UPDATE_SUBSCRIPTIONS: nat := 1024
  const MAX_UPDATE_SUBSCRIPTIONS_PER_CHANNEL: nat := 32
  const MAX_UPDATE_SUBSCRIPTIONS_PER_DOCUMENT: nat := 128

  datatype End = Overflowed | Cancelled | Revoked | Retired | ChannelLost | BrokerShutdown

  datatype Entry = Entry(id: nat, documentId: DocumentId, capability: CapabilityId, channel: nat)

  /** What an entry and its receiver share: the atomic state, the queue, and whether the receiver closed it. */
  datatype Cell = Cell(entry: Entry, state: Option<End>, queue: seq<UpdateId>, closed: bool)

  datatype Registry = Registry(
    entries: seq<Entry>, cells: map<nat, Cell>, live: set<nat>, nextSubscription: nat, nextChannel: nat)

  datatype RegisterOutcome = Registered(id: nat) | RegisterBackpressure

  datatype Verdict = Verdict(keep: bool, cell: Cell)

  /** A compare-exchange from the active state: the first reason to end wins. */
  function Invalidate(c: Cell, reason: End): Cell {
    if c.state.None? then c.(state := Some(reason)) else c
  }

  // ---- Sweeps ------------------------------------------------------------------------

  /** One pass over the entries that keeps some and may touch the cell of each. */
  function Sweep(entries: seq<Entry>, cells: map<nat, Cell>, judge: (Entry, Cell) -> Verdict)
    : (r: (seq<Entry>, map<nat, Cell>))
    requires forall e :: e in entries ==> e.id in cells
    ensures r.1.Keys == cells.Keys
  {
    if entries == [] then ([], cells)
    else
      var front, last := entries[..|entries| - 1], entries[|entries| - 1];
      var (kept, swept) := Sweep(front, cells, judge);
      var verdict := judge(last, swept[last.id]);
      (kept + if verdict.keep then [last] else [], swept[last.id := verdict.cell])
  }

  function NotifyVerdict(live: set<nat>, documentId: DocumentId, updateId: UpdateId): (Entry, Cell) -> Verdict {
    (e: Entry, c: Cell) =>
      if c.state.Some? then Verdict(false, c)
      else if e.channel !in live then Verdict(false, Invalidate(c, ChannelLost))
      else if e.documentId != documentId then Verdict(true, c)
      else if c.closed then Verdict(false, Invalidate(c, Cancelled))
      else if |c.queue| >= UPDATE_NOTIFICATION_QUEUE_CAPACITY then Verdict(false, Invalidate(c, Overflowed))
      else Verdict(true, c.(queue := c.queue + [updateId]))
  }

  function PruneVerdict(live: set<nat>): (Entry, Cell) -> Verdict {
    (e: Entry, c: Cell) =>
      if c.state.Some? then Verdict(false, c)
      else if e.channel !in live then Verdict(false, Invalidate(c, ChannelLost))
      else Verdict(!c.closed, c)
  }

  function EndVerdict(ends: Entry -> bool, reason: End): (Entry, Cell) -> Verdict {
    (e: Entry, c: Cell) => if ends(e) then Verdict(false, Invalidate(c, reason)) else Verdict(true, c)
  }

  function WithIds(ids: set<nat>): Entry -> bool {
    (e: Entry) => e.id in ids
  }

  function ForDocument(documentId: DocumentId): Entry -> bool {
    (e: Entry) => e.documentId == documentId
  }

  function ViaChannel(live: set<nat>, channel: nat): Entry -> bool {
    (e: Entry) => e.channel in live && e.channel == channel
  }

  function All(): Entry -> bool {
    (e: Entry) => true
  }

  predicate EntriesLinked(r: Registry) {
    forall e :: e in r.entries ==> e.id in r.cells
  }

  function Swept(r: Registry, judge: (Entry, Cell) -> Verdict): Registry
    requires EntriesLinked(r)
  {
    var (entries, cells) := Sweep(r.entries, r.cells, judge);
    r.(entries := entries, cells := cells)
  }

  // ---- Operations --------------------------------------------------------------------

  function Notified(r: Registry, documentId: DocumentId, updateId: UpdateId): Registry
    requires EntriesLinked(r)
  {
    Swept(r, NotifyVerdict(r.live, documentId, updateId))
  }

  function Pruned(r: Registry): Registry
    requires EntriesLinked(r)
  {
    Swept(r, PruneVerdict(r.live))
  }

  function Ended(r: Registry, ends: Entry -> bool, reason: End): Registry
    requires EntriesLinked(r)
  {
    Swept(r, EndVerdict(ends, reason))
  }

  function OfChannel(channel: nat): Entry -> bool {
    (e: Entry) => e.channel == channel
  }

  function CanRegister(r: Registry, documentId: DocumentId, channel: nat): bool {
    && |r.entries| < MAX_UPDATE_SUBSCRIPTIONS
    && Count(r.entries, ViaChannel(r.live, channel)) < MAX_UPDATE_SUBSCRIPTIONS_PER_CHANNEL
    && Count(r.entries, ForDocument(documentId)) < MAX_UPDATE_SUBSCRIPTIONS_PER_DOCUMENT
    && r.nextSubscription < U64_MAX
  }

  function Subscribed(r: Registry, channel: nat, documentId: DocumentId, capability: CapabilityId)
    : (Registry, RegisterOutcome)
    requires EntriesLinked(r)
  {
    var p := Pruned(r);
    if !CanRegister(p, documentId, channel) then (p, RegisterBackpressure)
    else
      var e := Entry(p.nextSubscription, documentId, capability, channel);
      (p.(entries := p.entries + [e], cells := p.cells[e.id := Cell(e, None, [], false)],
          nextSubscription := e.id + 1), Registered(e.id))
  }

  function Closed(r: Registry, channel: nat): Registry
    requires EntriesLinked(r)
  {
    Ended(r, ViaChannel(r.live, channel), ChannelLost).(live := r.live - {channel})
  }

  /** Subscriptions of a document that can still be told to end. */
  function Contexts(r: Registry, documentId: DocumentId): set<nat>
    requires EntriesLinked(r)
  {
    set e | e in r.entries && e.documentId == documentId && r.cells[e.id].state.None? && e.channel in r.live :: e.id
  }

  // ---- The registry object -------------------------------------------------------------

  class UpdateSubscriptionRegistry {
    var subscriptions: seq<Entry>
    var cells: map<nat, Cell>
    var live: set<nat>
    var nextSubscriptionId: nat
    var nextChannelId: nat

    function Value(): Registry
      reads this
    {
      Registry(subscriptions, cells, live, nextSubscriptionId, nextChannelId)
    }

    constructor ()
      ensures Value() == Registry([], map[], {}, 1, 1)
    {
      subscriptions, cells, live, nextSubscriptionId, nextChannelId := [], map[], {}, 1, 1;
    }

    /** Hands out the next lease; identities are never reused. */
    method OpenChannel() returns (channel: Option<nat>)
      modifies this
      ensures old(nextChannelId) >= U64_MAX ==> channel.None? && Value() == old(Value())
      ensures old(nextChannelId) < U64_MAX ==>
        channel == Some(old(nextChannelId))
        && Value() == old(Value()).(live := old(live) + {old(nextChannelId)}, nextChannel := old(nextChannelId) + 1)
    {
      if nextChannelId >= U64_MAX { return None; }
      channel := Some(nextChannelId);
      live := live + {nextChannelId};
      nextChannelId := nextChannelId + 1;
    }

    method Retain(judge: (Entry, Cell) -> Verdict)
      requires EntriesLinked(Value())
      modifies this
      ensures Value() == Swept(old(Value()), judge)
    {
      var all := subscriptions;
      var kept: seq<Entry> := [];
      for i := 0 to |all|
        invariant subscriptions == all && live == old(live)
        invariant nextSubscriptionId == old(nextSubscriptionId) && nextChannelId == old(nextChannelId)
        invariant (kept, cells) == Sweep(all[..i], old(cells), judge)
      {
        assert all[..i + 1][..i] == all[..i];
        assert all[i] in all && kept + [] == kept;
        var verdict := judge(all[i], cells[all[i].id]);
        cells := cells[all[i].id := verdict.cell];
        if verdict.keep { kept := kept + [all[i]]; }
      }
      assert all[..|all|] == all;
      subscriptions := kept;
    }

    /** Queues a wakeup at every live subscription of the document, or ends the ones that cannot take it. */
    method Notify(documentId: DocumentId, updateId: UpdateId)
      requires EntriesLinked(Value())
      modifies this
      ensures Value() == Notified(old(Value()), documentId, updateId)
    {
      Retain(NotifyVerdict(live, documentId, updateId));
    }

    method Register(channel: nat, documentId: DocumentId, capability: CapabilityId) returns (outcome: RegisterOutcome)
      requires EntriesLinked(Value())
      modifies this
      ensures (Value(), outcome) == Subscribed(old(Value()), channel, documentId, capability)
    {
      Retain(PruneVerdict(live));
      var channelCount := CountPasses(subscriptions, ViaChannel(live, channel));
      var documentCount := CountPasses(subscriptions, ForDocument(documentId));
      if |subscriptions| >= MAX_UPDATE_SUBSCRIPTIONS
        || channelCount >= MAX_UPDATE_SUBSCRIPTIONS_PER_CHANNEL
        || documentCount >= MAX_UPDATE_SUBSCRIPTIONS_PER_DOCUMENT
      {
        return RegisterBackpressure;
      }
      if nextSubscriptionId >= U64_MAX { return RegisterBackpressure; }
      var e := Entry(nextSubscriptionId, documentId, capability, channel);
      nextSubscriptionId := nextSubscriptionId + 1;
      subscriptions := subscriptions + [e];
      cells := cells[e.id := Cell(e, None, [], false)];
      return Registered(e.id);
    }

    method InvalidateSubscriptions(ids: set<nat>, reason: End)
      requires EntriesLinked(Value())
      modifies this
      ensures Value() == Ended(old(Value()), WithIds(ids), reason)
    {
      Retain(EndVerdict(WithIds(ids), reason));
    }

    method InvalidateDocument(documentId: DocumentId, reason: End)
      requires EntriesLinked(Value())
      modifies this
      ensures Value() == Ended(old(Value()), ForDocument(documentId), reason)
    {
      Retain(EndVerdict(ForDocument(documentId), reason));
    }

    method CloseChannel(channel: nat)
      requires EntriesLinked(Value())
      modifies this
      ensures Value() == Closed(old(Value()), channel)
    {
      Retain(EndVerdict(ViaChannel(live, channel), ChannelLost));
      live := live - {channel};
    }

    /** Drains the registry; every subscription that was still active ends with the broker. */
    method Shutdown()
      requires EntriesLinked(Value())
      modifies this
      ensures Value() == Ended(old(Value()), All(), BrokerShutdown)
    {
      Retain(EndVerdict(All(), BrokerShutdown));
    }

    /** The receiver's poll: an ended subscription says why, also when it ends while a wakeup is taken. */
    method Next(id: nat) returns (update: Option<UpdateId>, ended: Option<End>)
      requires id in cells
      modifies this
      ensures Value() == Polled(old(Value()), id)
      ensures ended == Polled(old(Value()), id).cells[id].state
      ensures update == if ended.None? && old(cells)[id].queue != [] then Some(old(cells)[id].queue[0]) else None
    {
      var c := cells[id];
      if c.entry.channel !in live { c := Invalidate(c, ChannelLost); }
      cells := cells[id := c];
      if c.state.Some? { return None, c.state; }
      if c.queue == [] { return None, None; }
      cells := cells[id := c.(queue := c.queue[1..])];
      return Some(c.queue[0]), None;
    }

    method Cancel(id: nat)
      requires id in cells
      modifies this
      ensures Value() == CancelledIn(old(Value()), id)
    {
      cells := cells[id := Invalidate(cells[id], Cancelled).(closed := true)];
    }
  }

  function Polled(r: Registry, id: nat): Registry
    requires id in r.cells
  {
    var c := if r.cells[id].entry.channel in r.live then r.cells[id] else Invalidate(r.cells[id], ChannelLost);
    if c.state.Some? || c.queue == [] then r.(cells := r.cells[id := c])
    else r.(cells := r.cells[id := c.(queue := c.queue[1..])])
  }

  function CancelledIn(r: Registry, id: nat): Registry
    requires id in r.cells
  {
    r.(cells := r.cells[id := Invalidate(r.cells[id], Cancelled).(closed := true)])
  }

  // ---- The registry invariant -------------------------------------------------------------

  predicate DistinctEntries(entries: seq<Entry>) {
    forall i, j :: 0 <= i < j < |entries| ==> entries[i].id != entries[j].id
  }

  ghost predicate WithinQuotas(r: Registry) {
    && |r.entries| <= MAX_UPDATE_SUBSCRIPTIONS
    && (forall c :: Count(r.entries, OfChannel(c)) <= MAX_UPDATE_SUBSCRIPTIONS_PER_CHANNEL)
    && (forall d :: Count(r.entries, ForDocument(d)) <= MAX_UPDATE_SUBSCRIPTIONS_PER_DOCUMENT)
  }

  predicate GoodCell(r: Registry, id: nat, c: Cell) {
    && c.entry.id == id < r.nextSubscription
    && |c.queue| <= UPDATE_NOTIFICATION_QUEUE_CAPACITY
    && (c.closed ==> c.state.Some?)
    && (c.state.None? && c.entry.channel in r.live ==> c.entry in r.entries)
  }

  /** Every subscription that is active on a live channel is registered, so no wakeup can miss it. */
  ghost predicate RegistryInv(r: Registry) {
    && DistinctEntries(r.entries)
    && (forall e :: e in r.entries ==> e.id in r.cells && r.cells[e.id].entry == e && e.channel < r.nextChannel)
    && (forall id :: id in r.cells ==> GoodCell(r, id, r.cells[id]))
    && WithinQuotas(r)
    && forall c :: c in r.live ==> c < r.nextChannel
  }

  /** What a sweep does to one cell and to its entry. */
  lemma {:induction false} SweepEffect(entries: seq<Entry>, cells: map<nat, Cell>, judge: (Entry, Cell) -> Verdict)
    requires DistinctEntries(entries) && forall e :: e in entries ==> e.id in cells
    ensures
      var (kept, swept) := Sweep(entries, cells, judge);
      && (forall e :: e in kept <==> e in entries && judge(e, cells[e.id]).keep)
      && (forall e :: e in entries ==> swept[e.id] == judge(e, cells[e.id]).cell)
      && (forall id :: id in cells && (forall e :: e in entries ==> e.id != id) ==> swept[id] == cells[id])
      && DistinctEntries(kept)
  {
    hide Sweep;
    SweepStep(entries, cells, judge);
    if entries != [] {
      var front, last := entries[..|entries| - 1], entries[|entries| - 1];
      assert entries == front + [last];
      SweepEffect(front, cells, judge);
      var (kept, swept) := Sweep(front, cells, judge);
      assert forall e :: e in front ==> e.id != last.id;
      assert swept[last.id] == cells[last.id];
      SweptLast(front, last, kept, swept, cells, judge);
    }
  }

  /** A sweep judges the last entry after the rest. */
  lemma SweepStep(entries: seq<Entry>, cells: map<nat, Cell>, judge: (Entry, Cell) -> Verdict)
    requires forall e :: e in entries ==> e.id in cells
    ensures entries == [] ==> Sweep(entries, cells, judge) == ([], cells)
    ensures entries != [] ==>
      var last := entries[|entries| - 1];
      var (kept, swept) := Sweep(entries[..|entries| - 1], cells, judge);
      var verdict := judge(last, swept[last.id]);
      Sweep(entries, cells, judge) == (kept + if verdict.keep then [last] else [], swept[last.id := verdict.cell])
  {
  }

  /** Appending the last entry's verdict to what the front's sweep established. */
  lemma SweptLast(front: seq<Entry>, last: Entry, kept: seq<Entry>, swept: map<nat, Cell>, cells: map<nat, Cell>,
                  judge: (Entry, Cell) -> Verdict)
    requires swept.Keys == cells.Keys && last.id in cells && swept[last.id] == cells[last.id]
    requires forall e :: e in front ==> e.id in cells && e.id != last.id
    requires forall e :: e in kept <==> e in front && judge(e, cells[e.id]).keep
    requires DistinctEntries(kept)
    ensures
      var verdict := judge(last, cells[last.id]);
      var all := kept + if verdict.keep then [last] else [];
      && (forall e :: e in all <==> e in front + [last] && judge(e, cells[e.id]).keep)
      && DistinctEntries(all)
  {
    var verdict := judge(last, cells[last.id]);
    var all := kept + if verdict.keep then [last] else [];
    forall i, j | 0 <= i < j < |all| ensures all[i].id != all[j].id {
      if j == |kept| { assert kept[i] in kept; }
    }
  }

  lemma {:induction false} SweepCount(entries: seq<Entry>, cells: map<nat, Cell>, judge: (Entry, Cell) -> Verdict,
                                      counted: Entry -> bool)
    requires forall e :: e in entries ==> e.id in cells
    ensures Count(Sweep(entries, cells, judge).0, counted) <= Count(entries, counted)
    ensures |Sweep(entries, cells, judge).0| <= |entries|
  {
    if entries != [] {
      var front, last := entries[..|entries| - 1], entries[|entries| - 1];
      SweepCount(front, cells, judge, counted);
      var kept := Sweep(front, cells, judge).0;
      assert (kept + [last])[..|kept|] == kept && kept + [] == kept;
    }
  }

  /** A judge that drops an active cell on a live channel only by ending it, and keeps cells sound. */
  ghost predicate FairTo(live: set<nat>, judge: (Entry, Cell) -> Verdict, e: Entry, c: Cell) {
    var v := judge(e, c);
    && v.cell.entry == c.entry
    && |v.cell.queue| <= UPDATE_NOTIFICATION_QUEUE_CAPACITY
    && (v.cell.closed ==> v.cell.state.Some?)
    && (v.cell.state.None? && e.channel in live ==> v.keep)
  }

  lemma SweptKeepsInv(r: Registry, judge: (Entry, Cell) -> Verdict)
    requires RegistryInv(r)
    requires forall e :: e in r.entries ==> FairTo(r.live, judge, e, r.cells[e.id])
    ensures RegistryInv(Swept(r, judge))
  {
    hide WithinQuotas, Sweep;
    SweepEffect(r.entries, r.cells, judge);
    var after := Swept(r, judge);
    forall e | e in after.entries ensures e.id in after.cells && after.cells[e.id].entry == e {
      assert e in r.entries && FairTo(r.live, judge, e, r.cells[e.id]);
    }
    forall id | id in after.cells ensures GoodCell(after, id, after.cells[id]) {
      assert GoodCell(r, id, r.cells[id]);
      if e :| e in r.entries && e.id == id {
        assert FairTo(r.live, judge, e, r.cells[e.id]);
      }
    }
    SweptWithinQuotas(r, judge);
  }

  lemma SweptWithinQuotas(r: Registry, judge: (Entry, Cell) -> Verdict)
    requires WithinQuotas(r) && EntriesLinked(r)
    ensures WithinQuotas(Swept(r, judge))
  {
    SweepCount(r.entries, r.cells, judge, All());
    forall c ensures Count(Swept(r, judge).entries, OfChannel(c)) <= MAX_UPDATE_SUBSCRIPTIONS_PER_CHANNEL {
      SweepCount(r.entries, r.cells, judge, OfChannel(c));
    }
    forall d ensures Count(Swept(r, judge).entries, ForDocument(d)) <= MAX_UPDATE_SUBSCRIPTIONS_PER_DOCUMENT {
      SweepCount(r.entries, r.cells, judge, ForDocument(d));
    }
  }

  lemma NotifiedKeepsInv(r: Registry, documentId: DocumentId, updateId: UpdateId)
    requires RegistryInv(r)
    ensures RegistryInv(Notified(r, documentId, updateId))
  {
    hide WithinQuotas, DistinctEntries;
    forall e | e in r.entries ensures FairTo(r.live, NotifyVerdict(r.live, documentId, updateId), e, r.cells[e.id]) {
      assert GoodCell(r, e.id, r.cells[e.id]);
    }
    SweptKeepsInv(r, NotifyVerdict(r.live, documentId, updateId));
  }

  lemma PrunedKeepsInv(r: Registry)
    requires RegistryInv(r)
    ensures RegistryInv(Pruned(r))
  {
    hide WithinQuotas, DistinctEntries;
    forall e | e in r.entries ensures FairTo(r.live, PruneVerdict(r.live), e, r.cells[e.id]) {
      assert GoodCell(r, e.id, r.cells[e.id]);
    }
    SweptKeepsInv(r, PruneVerdict(r.live));
  }

  lemma EndedKeepsInv(r: Registry, ends: Entry -> bool, reason: End)
    requires RegistryInv(r)
    ensures RegistryInv(Ended(r, ends, reason))
  {
    hide WithinQuotas, DistinctEntries;
    forall e | e in r.entries ensures FairTo(r.live, EndVerdict(ends, reason), e, r.cells[e.id]) {
      assert GoodCell(r, e.id, r.cells[e.id]);
    }
    SweptKeepsInv(r, EndVerdict(ends, reason));
  }

  lemma {:induction false} SameCount(entries: seq<Entry>, live: set<nat>, channel: nat)
    requires channel in live
    ensures Count(entries, ViaChannel(live, channel)) == Count(entries, OfChannel(channel))
  {
    if entries != [] { SameCount(entries[..|entries| - 1], live, channel); }
  }

  lemma RegisterKeepsInv(r: Registry, channel: nat, documentId: DocumentId, capability: CapabilityId)
    requires RegistryInv(r) && channel in r.live
    ensures RegistryInv(Subscribed(r, channel, documentId, capability).0)
  {
    hide Count, Pruned;
    PrunedKeepsInv(r);
    var p := Pruned(r);
    PrunedFrame(r);
    if CanRegister(p, documentId, channel) {
      SameCount(p.entries, p.live, channel);
      var after := Subscribed(r, channel, documentId, capability).0;
      var e := after.entries[|p.entries|];
      forall x | x in p.entries ensures x.id < e.id {
        assert GoodCell(p, x.id, p.cells[x.id]);
      }
      forall id | id in after.cells ensures GoodCell(after, id, after.cells[id]) {
        if id != e.id { assert GoodCell(p, id, p.cells[id]); }
      }
      AppendWithinQuotas(p, after, e);
    }
  }

  lemma PrunedFrame(r: Registry)
    requires EntriesLinked(r)
    ensures Pruned(r).live == r.live && Pruned(r).nextSubscription == r.nextSubscription
    ensures Pruned(r).cells.Keys == r.cells.Keys && Pruned(r).nextChannel == r.nextChannel
  {
  }

  lemma AppendWithinQuotas(p: Registry, after: Registry, e: Entry)
    requires WithinQuotas(p) && after.entries == p.entries + [e] && |p.entries| < MAX_UPDATE_SUBSCRIPTIONS
    requires Count(p.entries, OfChannel(e.channel)) < MAX_UPDATE_SUBSCRIPTIONS_PER_CHANNEL
    requires Count(p.entries, ForDocument(e.documentId)) < MAX_UPDATE_SUBSCRIPTIONS_PER_DOCUMENT
    ensures WithinQuotas(after)
  {
    assert after.entries[..|p.entries|] == p.entries;
  }

  lemma ClosedKeepsInv(r: Registry, channel: nat)
    requires RegistryInv(r)
    ensures RegistryInv(Closed(r, channel))
  {
    hide WithinQuotas, DistinctEntries, Sweep;
    EndedKeepsInv(r, ViaChannel(r.live, channel), ChannelLost);
    LessLive(Ended(r, ViaChannel(r.live, channel), ChannelLost), channel);
  }

  /** Losing a lease, with or without the registry being told. */
  lemma LessLive(r: Registry, channel: nat)
    requires RegistryInv(r)
    ensures RegistryInv(r.(live := r.live - {channel}))
  {
    hide DistinctEntries;
    var after := r.(live := r.live - {channel});
    forall id | id in after.cells ensures GoodCell(after, id, after.cells[id]) {
      assert GoodCell(r, id, r.cells[id]);
    }
  }

  lemma PolledKeepsInv(r: Registry, id: nat)
    requires RegistryInv(r) && id in r.cells
    ensures RegistryInv(Polled(r, id))
  {
    hide WithinQuotas, DistinctEntries;
    var after := Polled(r, id);
    assert WithinQuotas(after) by { WithinQuotasFrame(r, after); }
    forall k | k in after.cells ensures GoodCell(after, k, after.cells[k]) {
      assert GoodCell(r, k, r.cells[k]);
    }
  }

  lemma WithinQuotasFrame(r: Registry, after: Registry)
    requires WithinQuotas(r) && after.entries == r.entries
    ensures WithinQuotas(after)
  {
  }

  lemma CancelledKeepsInv(r: Registry, id: nat)
    requires RegistryInv(r) && id in r.cells
    ensures RegistryInv(CancelledIn(r, id))
  {
    hide WithinQuotas, DistinctEntries;
    var after := CancelledIn(r, id);
    assert WithinQuotas(after) by { WithinQuotasFrame(r, after); }
    forall k | k in after.cells ensures GoodCell(after, k, after.cells[k]) {
      assert GoodCell(r, k, r.cells[k]);
    }
  }
}
