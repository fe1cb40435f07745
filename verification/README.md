# Renee: a verified model of the authoritative store

This project models the part of Renee that must not go wrong: the authoritative update store, its
paginated reads, the delivery of update notifications, the wire codec beneath them, and the restart
budget of the supervisor. Every statement is checked by Dafny 4.11; `dafny verify dfyconfig.toml`
checks the whole project.

## What is modelled

| module | subject |
|---|---|
| `Prelude`, `Types`, `Bytes`, `Decoding` | results, table aggregates, identifiers, Loro ranges and versions, operation sets, fixed-width fields, the consuming decoder |
| `UpdateRecord`, `Pages`, `Frames`, `Frontier` | the update record, both metadata pages, oplog versions, envelopes and frames, the backfill request and the version of a complete replica |
| `CapabilityTree` | one document's capability tree: bounded upward walks, the downward subtree, the tree invariant |
| `Tables`, `Control`, `UpdateLog` | the relational tables, and creation, grant, revoke, retirement and acceptance as decisions and commits over them |
| `History` | runs of commands: recoverability, permanence of revocation and receipts |
| `Recovery` | the recovery validator, written as loops and proved to decide the invariant |
| `Reads`, `PassRegistry`, `EnumerationPasses`, `VectorPasses`, `Service`, `Replays` | the two bounded scans, the two registries of resumable passes, and whole runs of the service, replays included |
| `Store` | the store as an object whose methods follow the source and refine the step functions |
| `Oracle`, `ServiceOracle`, `CapabilityOracle` | the reference model of acceptance and reads, whole runs of the service against it, and the one place where its authorization departs from the store |
| `Subscriptions`, `Delivery`, `DeliveryProofs`, `DeliveryFrames` | the subscription registry as an object, and delivery as an interleaving of accepts, forwarders, writers and revokers |
| `Handoff` | paginated reads and delivery side by side over the same tables, and the handoff from one to the other |
| `Restart` | restart intensity |

A transaction is "decide on the current tables, then replace them": every early return leaves the
tables as they were. Each decision is a cascade in the source's order. Where the source updates
fields in place the model has a class whose methods are proved against functions of the old state,
and the results are proved about those functions. Verifier derivation enters as four arbitrary
functions, so every result holds for any derivation. Clock readings, drawn tokens and requests are
parameters. Runs start from an empty store, or, for delivery, from any recoverable tables.

What a cursor stands for is stated with a ledger, a history that no operation reads: it records,
for each cursor handed out, everything its holder has been given up to and including the page that
came with it. Enumeration exactness says that the ledger entry is always a prefix of the log;
backfill exactness says that it is always what the client's version misses of such a prefix.

In `Delivery`, what an active subscription has received and what it still has queued are its due. Its
pipeline is what its client was written, then what its connection's writer holds, then what waits in
the connection's event queue, then what its forwarder holds, then its own bounded queue. A step is
one indivisible action of one task; a run is any sequence of steps. A connection that ends and the
closing of its lease are two steps, a forwarder may end at any moment, an overflow is announced only
when the connection's queue has room again, and a revoker may give up in any phase. Read and write
guards are not stored: a gate is read-locked while a writer is inside it and write-locked while a
revoker excludes it, as the guards' scopes have it. A gate is live while a subscription object, an
event in flight or a revoker holds it, and the registry's map refers to it weakly.

In `Handoff` both machines run over the same tables, step by step, and a clock counts the steps. Every
window of a pass is recorded with the step that opened it and the log length it captured, every
subscription with the step and the length at which it joined.

## Findings

- Recovery does not look at the acceptance counter of a document without updates. The tables that
  commits preserve are therefore slightly stronger than what recovery accepts: such a document has
  no counter row. With that addition the invariant is inductive, and every reachable state passes
  recovery.
- The reference model's `authorizes` needs one more iteration than the store's walk to recognise the
  root. On a chain of exactly 64 nodes it denies what the store authorizes, and on every other
  request the two agree.
- The validator's ancestry cycle check never fires: creation revisions fall strictly along parent
  links, and that is checked first.
- Both logical-byte limits follow from the count limits, so neither ever decides an outcome in a
  recoverable store; this is why creation may leave them unchecked.

## Model

| member | source | states |
|---|---|---|
| `Types.NewRange` | crates/renee-types/src/lib.rs:112-127 | a range exists exactly when its counters are ordered, within the Loro counter domain and at most 0x100000 operations apart |
| `Types.NewRanges` | crates/renee-types/src/lib.rs:155-178 | accepts exactly the nonempty lists of at most 256 ranges with strictly rising peers and bounded total work, and each error names a rule the rejected list really breaks |
| `Types.NewVersion` | crates/renee-types/src/lib.rs:222-234 | accepts exactly the strictly sorted versions of at most 256 peers, and says which rule failed |
| `Types.EndCounterFor` | crates/renee-types/src/lib.rs:242-246 | binary search over sorted peers returns exactly the recorded prefix end of a peer, zero when it has none |
| `Types.BitsRoundTrip` | crates/renee-types/src/lib.rs:431-438 | operation sets survive their stable bit representation |
| `UpdateRecord.RecordIsCanonical` | crates/renee-wire/src/update.rs:274-353 | a byte string decodes to an update exactly when it is that update's encoding: decode accepts the image of encode and the two are mutually inverse |
| `UpdateRecord.RecordMetadataFits` | crates/renee-wire/src/update.rs:575-588 | whatever decodes as a record names at most 248 ranges, so its metadata entry always fits an enumeration page |
| `UpdateRecord.ReadUpdateRecord` | crates/renee-wire/src/update.rs:274-318 | the decoder that consumes its input in place computes the canonical decoding, error for error |
| `UpdateRecord.WriteUpdateRecord` | crates/renee-wire/src/update.rs:321-353 | the encoder that appends to a buffer computes the canonical encoding or the right refusal |
| `UpdateRecord.AppendRanges` | crates/renee-wire/src/update.rs:992-998 | appending range fields one by one writes the fixed-width list |
| `Pages.PageIsCanonical` | crates/renee-wire/src/update.rs:590-762 | both response pages, enumeration and vector backfill: decode accepts exactly the image of encode, mutually inverse, with each kind's own rule for cursors |
| `Pages.ReadPage` | crates/renee-wire/src/update.rs:626-672 | the in-place page decoders compute that canonical decoding, error for error |
| `Pages.WritePage` | crates/renee-wire/src/update.rs:590-623 | the appending page encoders compute the canonical encoding and refuse exactly what exceeds one payload or contradicts itself |
| `Pages.VersionIsCanonical` | crates/renee-wire/src/update.rs:414-482 | an oplog version and its durable bytes determine each other |
| `Frontier.RequestSurvives` | crates/renee-wire/src/update.rs:485-527 | every representable version with an issued or absent cursor encodes within 3187 bytes and decodes to itself |
| `Frontier.RequestExact` | crates/renee-wire/src/update.rs:530-558 | whatever the lenient request decoder accepts is the layout of what it returns, also for continuations of foreign length |
| `Frames.BodyIsCanonical` | crates/renee-wire/src/lib.rs:186-218 | an envelope and its body determine each other within the body bound |
| `Frames.FramesSplit` | crates/renee-wire/src/lib.rs:174-183 | any concatenation of frames splits back into the same bodies |
| `Frames.SplitIsFrames` | crates/renee-wire/src/lib.rs:239-261 | and any stream that splits completely is the concatenation of its bodies' frames |
| `Frames.ByteStream.WriteBody` | crates/renee-wire/src/lib.rs:264-276 | writing appends exactly one frame, or refuses and leaves the stream alone |
| `Frames.ByteStream.ReadBody` | crates/renee-wire/src/lib.rs:239-261 | reading takes exactly the next body and tells a clean end from a truncated or oversized frame |
| `Frames.AuthorizedIsCanonical` | crates/renee-wire/src/capability.rs:186-217 | an authority-prefixed record and its bytes determine each other |
| `Frames.AcceptRequestSurvives` | crates/renee-wire/src/capability.rs:186-217 | an accept request for any encodable update survives the record, authority, envelope and length-prefix layers unchanged, in front of any further bytes |
| `CapabilityTree.ChainIsAncestry` | crates/renee-stored/src/store.rs:3347-3374 | being an ancestor by some path of parent links is the same as lying on the capability's chain to its root |
| `CapabilityTree.IsDescendantOrSelf` | crates/renee-stored/src/store.rs:3347-3374 | the 64-step upward walk finds the target exactly when the target is the candidate or an ancestor of it |
| `CapabilityTree.IsActiveDescendant` | crates/renee-stored/src/store.rs:3312-3345 | the walk behind a revoke succeeds exactly when the target is active and has the issuer as ancestor or self |
| `CapabilityTree.IssuerHasDescendantCapacity` | crates/renee-stored/src/store.rs:3158-3184 | capacity remains exactly when the issuer's chain has fewer than 64 nodes |
| `CapabilityTree.SubtreeFixpoint` | crates/renee-stored/src/store.rs:1550-1565 | the recursive downward query terminates and yields exactly the capabilities whose upward walk finds the target |
| `CapabilityTree.EffectiveIsActive` | crates/renee-stored/src/store.rs:3394-3465 | in a valid tree "self and every ancestor active" collapses to the capability's own state |
| `CapabilityTree.AuthorityWalkExact` | crates/renee-stored/src/store.rs:3394-3465 | in a valid tree the bounded walk to the root succeeds exactly when no ancestor is revoked |
| `CapabilityTree.DescentWalkExact` | crates/renee-stored/src/store.rs:3312-3345 | in a valid tree the bounded walk up from a target finds an issuer exactly when the target is active at or beneath it |
| `CapabilityTree.AncestorsHoldMore` | crates/renee-types/src/lib.rs:445-458 | every operation a capability holds is held by each ancestor up to a full root |
| `CapabilityTree.GrowKeepsValid` | crates/renee-stored/src/store.rs:1293-1322 | inserting an attenuated child of an active issuer with room keeps the whole tree invariant |
| `CapabilityTree.MarkKeepsValid` | crates/renee-stored/src/store.rs:1550-1565 | marking a subtree revoked keeps the whole tree invariant, revocation closure included |
| `CapabilityTree.AncestryFrame` | crates/renee-stored/src/store.rs:3347-3374 | ancestry between existing capabilities never changes, whatever is granted or revoked |
| `Control.GrantKeepsInv` | crates/renee-stored/src/store.rs:1205-1330 | every outcome of a grant leaves the store recoverable |
| `Control.RevokeKeepsInv` | crates/renee-stored/src/store.rs:1452-1589 | every outcome of a revoke leaves the store recoverable |
| `Control.CreateKeepsInv` | crates/renee-stored/src/store.rs:941-1126 | every outcome of a creation leaves the store recoverable, though creation checks no logical bytes |
| `Control.RetireKeepsInv` | crates/renee-stored/src/store.rs:834-854 | retirement leaves the store recoverable |
| `Control.GrantGrowthExact` | crates/renee-stored/src/store.rs:3186-3250 | the bytes a grant declares in advance are exactly the growth of the document's and the store's summed table sizes |
| `Control.RevokeGrowthExact` | crates/renee-stored/src/store.rs:3186-3250 | the same for a revoke, whose state changes add nothing |
| `Control.ByteLimitsNeverBind` | crates/renee-stored/src/store.rs:3234-3250 | in a recoverable store both byte limits are implied by the count limits, so they never decide an outcome |
| `Tables.ByteLimitsFollow` | crates/renee-stored/src/store.rs:2736-2758 | the capability and receipt counts alone imply both of recovery's byte limits |
| `Control.PreflightExact` | crates/renee-stored/src/store.rs:1360-1413 | the two separately written cascades agree: preflight, over its own bounded walks, defers exactly the revokes that would commit, and otherwise resolves the answer revoke would give |
| `Control.WalkedAccessExact` | crates/renee-stored/src/store.rs:3394-3465 | authority by the 64-step walk is authority by the unbounded definition |
| `UpdateLog.AcceptKeepsInv` | crates/renee-stored/src/store.rs:1645-1733 | every outcome of an accept keeps sequences contiguous, records canonical, and the range index, peer union and counter exact |
| `UpdateLog.InsertLoroPeers` | crates/renee-stored/src/store.rs:597-625 | insert-or-ignore with a running count accepts exactly when the peer union stays within 256, and then computes that union |
| `History.RecoveryCompleteness` | crates/renee-stored/src/store.rs:2182-2341 | any sequence of create, grant, revoke, accept and retire from an empty store ends in tables that pass the whole of recovery |
| `History.RunKeepsInv` | crates/renee-stored/src/store.rs:2182-2341 | every run keeps the inductive invariant behind recovery |
| `History.ReceiptRetained` | crates/renee-stored/src/store.rs:3015-3065 | whatever has happened since, a retained receipt answers its own request and refuses any other under its identifier |
| `History.RunExtends` | crates/renee-stored/src/store.rs:941-1733 | no run removes a row, changes an identity, a receipt, a log prefix or a retirement, or un-revokes a capability |
| `History.RevocationPermanent` | crates/renee-stored/src/store.rs:1513-1588 | once a revoke commits, in every later state nothing at or beneath its target is authorized for any operation or can grant |
| `History.AccessCollapses` | crates/renee-stored/src/store.rs:3394-3465 | in every recoverable state authority is the presented row being active, its secret and its own operation, which every active ancestor also holds |
| `History.GrantReceiptForever` | crates/renee-stored/src/store.rs:3015-3065 | after a grant commits, any request under its identifier whose secret the receipt verifier accepts is answered in every later state: AlreadyPresent for the same input, RequestConflict for another, changing nothing, even once the issuer is revoked |
| `History.RevokeReceiptForever` | crates/renee-stored/src/store.rs:1463-1481 | the same for revokes, by revoke and by preflight alike |
| `History.IdenticalGrantForever` | crates/renee-stored/src/store.rs:3015-3065 | in every run, the very request that committed a grant answers AlreadyPresent ever after, assuming only that live verifiers tell the issuer's secrets apart |
| `History.IdenticalRevokeForever` | crates/renee-stored/src/store.rs:3015-3065 | and the very request that committed a revoke |
| `History.RunKeepsDerived` | crates/renee-stored/src/store.rs:1205-1322 | in every run both verifiers of a capability come from one secret |
| `History.PreflightStands` | crates/renee-stored/src/main.rs:786-843 | an answer that preflight resolves from a retained receipt, so every AlreadyPresent and RequestConflict given without the gate, is still revoke's answer in every later state |
| `History.GrantReceiptInjective` | crates/renee-stored/src/store.rs:1218-1228 | a normalized grant input determines the descendant, its operations and its verifiers |
| `Recovery.ValidateAncestry` | crates/renee-stored/src/store.rs:2885-2924 | the bounded walk with its cycle check decides exactly the link-by-link condition; falling revisions make the cycle check redundant |
| `Recovery.RowsDecideTree` | crates/renee-stored/src/store.rs:2662-2720 | per-row walks together decide exactly the global tree invariant: links, attenuation, closure, depth, fan-out and size |
| `Recovery.ValidateTree` | crates/renee-stored/src/store.rs:2683-2716 | tree validation accepts exactly the valid trees |
| `Recovery.ValidateReceipts` | crates/renee-stored/src/store.rs:2926-3001 | receipt validation accepts exactly receipts that name the capability they created or a revoked target |
| `Recovery.ValidateControl` | crates/renee-stored/src/store.rs:2662-2742 | per-document validation accepts exactly a valid tree, agreeing receipts, revision equal to receipts plus one, and bounded bytes |
| `Recovery.ValidateUpdates` | crates/renee-stored/src/store.rs:2200-2337 | the update scan with its running peer count accepts exactly contiguous canonical logs with exact index, peer union and counter |
| `Recovery.ValidateCreation` | crates/renee-stored/src/store.rs:2762-2830 | creation validation accepts exactly matching counts, agreeing receipts and per-authority bounds |
| `Recovery.Validate` | crates/renee-stored/src/store.rs:2182-2341 | recovery as a whole opens exactly for the state that every commit preserves |
| `Recovery.GroupsWithin` | crates/renee-stored/src/store.rs:2690-2704 | a running count per group rejects exactly when some group exceeds the limit |
| `Reads.EnumerateIn` | crates/renee-stored/src/store.rs:2364-2441 | the 64-lookup scan returns the longest fitting page at the position, or rejects exactly the positions outside the window |
| `Reads.EnumerationProgressAndFit` | crates/renee-stored/src/main.rs:956-972 | under the daemon's budget every page is nonempty, advances, holds at most 64 entries and encodes with its cursor in one payload |
| `Reads.VectorBackfillIn` | crates/renee-stored/src/store.rs:2492-2580 | the bounded scan returns exactly the missed updates up to its stop, or rejects exactly the unusable windows |
| `Reads.VectorProgressAndFit` | crates/renee-stored/src/main.rs:1039-1053 | every scan with records left moves its position, a continuable page always has one, and every page encodes in one payload |
| `Reads.SelectionExact` | crates/renee-stored/src/store.rs:2545-2559 | an update is selected exactly when it holds an operation the version does not cover |
| `Reads.RelevantSplit` | crates/renee-stored/src/store.rs:2492-2580 | selections of consecutive scans concatenate to the selection of the whole window |
| `Reads.PageEndFits` | crates/renee-stored/src/store.rs:2410-2435 | a page stays within its budget and stops early only at an entry that would exceed it |
| `Reads.MetadataAt` | crates/renee-stored/src/store.rs:2392-2412 | a point lookup in a recoverable log always finds a row whose record agrees with its index |
| `Reads.SelectedByVersion` | crates/renee-stored/src/store.rs:2545-2551 | the range loop decides exactly whether some range ends past what the version covers |
| `PassRegistry.RetainOrderly` | crates/renee-stored/src/store.rs:1774-1788 | dropping passes keeps tokens distinct, contexts unique and all four quotas |
| `PassRegistry.AdmitOrderly` | crates/renee-stored/src/store.rs:2447-2463 | a pass admitted under the quotas with a fresh token keeps the registry invariant |
| `PassRegistry.AdvanceOrderly` | crates/renee-stored/src/store.rs:1946-1959 | replacing a pass by its advance keeps the registry invariant |
| `PassRegistry.MintToken` | crates/renee-stored/src/store.rs:2474-2490 | four draws yield the first candidate that no live pass uses, and nothing only when all four collide |
| `EnumerationPasses.EnumerateExact` | crates/renee-stored/src/store.rs:1742-1960 | after any call every live cursor stands for exactly the log prefix its holder was handed; an answer extends its caller's prefix, and only a caller holding the whole log gets the empty tail; the InvalidCursor and no-record branches are unreachable when entries fit |
| `EnumerationPasses.WindowShrinks` | crates/renee-stored/src/store.rs:1890-1959 | within one frozen window every page strictly shortens what is left and the window does not move |
| `EnumerationPasses.ReplayIdentical` | crates/renee-stored/src/store.rs:1873-1879 | presenting the last consumed token again returns the identical response and changes no pass, whatever was accepted since |
| `EnumerationPasses.EnumerateRetained` | crates/renee-stored/src/store.rs:1946-1959 | a presented cursor that is answered with a further page leaves a pass that retains exactly this answer for it |
| `EnumerationPasses.EnumerateInPlace` | crates/renee-stored/src/store.rs:1774-1960 | a call leaves every pass as it was, except expired ones, those an origin request replaces, and the one whose current cursor it is answered for |
| `EnumerationPasses.GrowTracked` | crates/renee-stored/src/store.rs:1890-1913 | accepts that interleave leave what every cursor stands for unchanged |
| `EnumerationPasses.EnumeratePasses` | crates/renee-stored/src/store.rs:1742-1960 | the branch-by-branch call over the tables computes that step |
| `VectorPasses.VectorBackfillExact` | crates/renee-stored/src/store.rs:1974-2156 | after any call every live cursor stands for exactly what its version misses below its position; pages, empty ones included, concatenate to the captured window's selection, complete exactly when no cursor follows |
| `VectorPasses.VectorReplayIdentical` | crates/renee-stored/src/store.rs:2096-2102 | replaying the last consumed token returns the identical response, also after the last page |
| `VectorPasses.BackfillRetained` | crates/renee-stored/src/store.rs:2148-2156 | a presented cursor that is answered leaves a pass that retains exactly this answer for it, also when the answer is the last page |
| `VectorPasses.BackfillInPlace` | crates/renee-stored/src/store.rs:2008-2156 | a call leaves every pass as it was, except expired ones, those an origin request replaces, and the one whose current cursor it is answered for |
| `VectorPasses.BackfillPasses` | crates/renee-stored/src/store.rs:1974-2156 | the branch-by-branch call over the tables computes that step |
| `Service.EnumerationExactInEveryRun` | crates/renee-stored/src/store.rs:1780-1960 | over whole runs of mutations, reads, lost channels and restarts, every authorized page extends its caller's history to a longer prefix of the log, and the cursorless page comes exactly at the whole log |
| `Service.BackfillExactInEveryRun` | crates/renee-stored/src/store.rs:2008-2156 | over whole runs, the pages of one backfill concatenate to exactly the captured updates the version misses |
| `Service.RegistriesInEveryRun` | crates/renee-stored/src/store.rs:2447-2490 | over whole runs tokens are distinct, contexts unique, quotas kept, no live pass belongs to a retired document or revoked capability, and every live cursor stands for exactly what its holder was handed |
| `Service.WindowsInEveryRun` | crates/renee-stored/src/store.rs:1873-1960 | over whole runs a live pass has handed out nothing past its terminal, and its retained response carries its current token |
| `Service.WindowShrinksInEveryRun` | crates/renee-stored/src/store.rs:1890-1959 | over whole runs a page that continues a window ends inside it and leaves strictly less of it |
| `Replays.ReplayInEveryRun` | crates/renee-stored/src/store.rs:1873-1879 | once any run has answered a cursor with a further page, then through any later events that leave the advanced pass in place, presenting that cursor with authority gives the identical page and advances no pass |
| `Replays.BackfillReplayInEveryRun` | crates/renee-stored/src/store.rs:2096-2102 | the same for backfills, the last page included |
| `Service.ServeRunsCommands` | crates/renee-stored/src/store.rs:1452-2156 | reads, lost channels and restarts leave the tables to the commands |
| `Service.ServeKeeps` | crates/renee-stored/src/store.rs:1742-2156 | so every run of the service keeps it |
| `Service.StepKeeps` | crates/renee-stored/src/store.rs:819-854 | every mutation, read, channel loss and restart keeps the service invariant |
| `Store.DurableUpdateStore.constructor` | crates/renee-stored/src/store.rs:712-747 | a store starts over recoverable tables with empty pass and subscription registries |
| `Store.DurableUpdateStore.AuthorizeDocument` | crates/renee-stored/src/store.rs:3394-3465 | the bounded walk decides exactly the unbounded definition of authority, distinguishing retirement only for valid authority |
| `Store.DurableUpdateStore.LimitsExceeded` | crates/renee-stored/src/store.rs:3186-3250 | the aggregate queries decide exactly the count and byte limits over the summed tables |
| `Store.DurableUpdateStore.CreateDocument` | crates/renee-stored/src/store.rs:941-1126 | creation decides in the documented order and changes the tables only when it inserts |
| `Store.DurableUpdateStore.GrantCapability` | crates/renee-stored/src/store.rs:1205-1330 | a grant decides in the documented order and changes the tables only when it inserts |
| `Store.DurableUpdateStore.RevokeCapability` | crates/renee-stored/src/store.rs:1452-1589 | a revoke marks exactly the subtree, drops exactly its passes and ends exactly its live subscriptions, all or nothing |
| `Store.DurableUpdateStore.PreflightRevokeCapability` | crates/renee-stored/src/store.rs:1360-1413 | the read-only cascade, written out over the walks and the aggregates, classifies as decided on the tables |
| `Store.DurableUpdateStore.Accept` | crates/renee-stored/src/store.rs:1645-1733 | acceptance appends, indexes and notifies only on a first insertion; retries and conflicts change nothing |
| `Store.DurableUpdateStore.EnumerateAuthorized` | crates/renee-stored/src/store.rs:1742-1960 | authorization and page selection in one snapshot move the registry by the enumeration step |
| `Store.DurableUpdateStore.VectorBackfillAuthorized` | crates/renee-stored/src/store.rs:1974-2156 | authorization and selection in one snapshot move the registry by the backfill step |
| `Store.DurableUpdateStore.SubscribeUpdates` | crates/renee-stored/src/store.rs:790-816 | only a reader with current authority is registered, and registration changes nothing else |
| `Store.DurableUpdateStore.FetchAuthorized` | crates/renee-stored/src/store.rs:2161-2180 | an authorized fetch returns the payload of exactly the named update, or nothing when none is stored |
| `Store.DurableUpdateStore.Retire` | crates/renee-stored/src/store.rs:834-854 | retirement drops the document's passes and ends its subscriptions |
| `Store.DurableUpdateStore.CloseBrokerChannel` | crates/renee-stored/src/store.rs:819-827 | a lost channel takes exactly its own passes and subscriptions with it |
| `Store.RevokedSubscriptions` | crates/renee-stored/src/store.rs:1513-1534 | the contexts a revoke ends are exactly the live subscriptions at or beneath the target |
| `Store.RevokedPassCapabilities` | crates/renee-stored/src/store.rs:1535-1548 | a pass is dropped by a revoke exactly when its capability stands at or beneath the target |
| `Store.Recover` | crates/renee-stored/src/store.rs:712-747 | a store is opened exactly when recovery accepts the tables |
| `Store.DurableUpdateStore.DecideCreate` | crates/renee-stored/src/store.rs:960-1062 | the creation cascade, with its retained-receipt and root-proof branches, answers as decided on the tables |
| `Store.DurableUpdateStore.DecideGrant` | crates/renee-stored/src/store.rs:1205-1292 | the grant cascade, walks and aggregates included, answers as decided on the tables |
| `Store.DurableUpdateStore.DecideRevoke` | crates/renee-stored/src/store.rs:1463-1512 | the revoke cascade, walks and aggregates included, answers as decided on the tables |
| `Store.DurableUpdateStore.DecideAccept` | crates/renee-stored/src/store.rs:1664-1711 | the accept cascade answers as decided on the tables and yields the peer union to store |
| `Store.DurableUpdateStore.CommitRevoke` | crates/renee-stored/src/store.rs:1549-1576 | the subtree update, receipt and revision of a revoke are committed together |
| `Oracle.UpdateModel.Accept` | crates/renee-model/src/lib.rs:475-508 | the reference model decides and records one acceptance |
| `Oracle.UpdateModel.AcceptanceWindow` | crates/renee-model/src/lib.rs:535-558 | the reference model's window lists the accepted updates of a position interval in order |
| `Oracle.UpdateModel.VectorBackfill` | crates/renee-model/src/lib.rs:561-575 | the reference model filters that window by the client's version |
| `Oracle.SameRecordSameUpdate` | crates/renee-stored/src/store.rs:1678-1690 | byte equality of stored records coincides with equality of the updates they carry |
| `Oracle.NewRangesCount` | crates/renee-model/src/lib.rs:489-499 | counting ranges with new peers equals the growth of the peer union |
| `Oracle.AcceptRefines` | crates/renee-model/src/lib.rs:475-508 | given authority, store and reference model answer alike and stay in correspondence, and whatever is not inserted changes neither |
| `Oracle.RunCorresponds` | crates/renee-model/src/lib.rs:475-508 | store and reference model stay in correspondence over every run of commands |
| `Oracle.EveryRunCorresponds` | crates/renee-model/src/lib.rs:475-508 | and they start in it, so every reachable store corresponds to the model fed with the same authorized updates |
| `Oracle.WindowIsSlice` | crates/renee-model/src/lib.rs:526-558 | the reference model's window is the slice of the stored log, position for position |
| `Oracle.BackfillRefines` | crates/renee-model/src/lib.rs:561-575 | the reference model selects exactly what the store's scans select |
| `ServiceOracle.BackfillIsOracle` | crates/renee-model/src/lib.rs:561-575 | in every run, the pages of a backfill together are the reference model's selection from a front of the captured window, and from the whole window once no cursor follows |
| `ServiceOracle.EnumerationIsOracle` | crates/renee-model/src/lib.rs:526-558 | in every run, the pages of an enumeration together are a front of the reference model's acceptance window, all of it at the cursorless tail |
| `CapabilityOracle.ModelAuthorizes` | crates/renee-model/src/lib.rs:198-231 | the reference loop computes the walk that recognises the root only one step after it |
| `CapabilityOracle.ModelWalkExact` | crates/renee-model/src/lib.rs:217-230 | on valid trees that walk succeeds exactly for active capabilities on chains of fewer than 64 nodes |
| `CapabilityOracle.AgreeBelowFullDepth` | crates/renee-model/src/lib.rs:217-230 | reference model and store agree on a request if and only if it does not present an active row, with its secret and an operation it holds, at the full depth of 64 |
| `CapabilityOracle.AscentReaches` | crates/renee-stored/src/store.rs:1205-1330 | one creation and 63 grants commit one beneath the other, for any verifier derivation |
| `CapabilityOracle.ModelDeniesFullDepth` | crates/renee-model/src/lib.rs:217-230 | after that run the store authorizes the last capability and the reference model denies it |
| `Frontier.LogIsRepresentable` | crates/renee-stored/src/store.rs:597-625 | every recoverable log has an exact per-peer maximum version that is valid, fits one request payload, and selects nothing from the whole log |
| `Subscriptions.UpdateSubscriptionRegistry.OpenChannel` | crates/renee-stored/src/subscription.rs:246-253 | leases get identities that are never reused, until the counter is spent |
| `Subscriptions.UpdateSubscriptionRegistry.Notify` | crates/renee-stored/src/subscription.rs:335-359 | a sweep queues the wakeup at every live subscription of the document and ends those that cannot take it |
| `Subscriptions.UpdateSubscriptionRegistry.Register` | crates/renee-stored/src/subscription.rs:259-305 | registration prunes first, then admits under the three limits |
| `Subscriptions.UpdateSubscriptionRegistry.InvalidateSubscriptions` | crates/renee-stored/src/subscription.rs:361-374 | exactly the named subscriptions end, by the first reason to reach them |
| `Subscriptions.UpdateSubscriptionRegistry.InvalidateDocument` | crates/renee-stored/src/subscription.rs:376-385 | exactly the document's subscriptions end |
| `Subscriptions.UpdateSubscriptionRegistry.CloseChannel` | crates/renee-stored/src/subscription.rs:387-401 | exactly the channel's subscriptions end, and its lease dies |
| `Subscriptions.UpdateSubscriptionRegistry.Shutdown` | crates/renee-stored/src/subscription.rs:403-407 | every registered subscription ends |
| `Subscriptions.UpdateSubscriptionRegistry.Next` | crates/renee-stored/src/subscription.rs:161-185 | a poll takes the oldest wakeup or reports why the subscription ended, never both |
| `Subscriptions.UpdateSubscriptionRegistry.Cancel` | crates/renee-stored/src/subscription.rs:188-191 | cancelling ends the subscription unless it already ended for another reason |
| `Subscriptions.SweepEffect` | crates/renee-stored/src/subscription.rs:335-421 | a retain sweep judges every entry exactly once against its own cell and leaves every other cell alone |
| `Subscriptions.NotifiedKeepsInv` | crates/renee-stored/src/subscription.rs:335-359 | after a notification an active subscription on a live channel is still registered |
| `Subscriptions.RegisterKeepsInv` | crates/renee-stored/src/subscription.rs:259-305 | registration keeps 1024 subscriptions, 32 per channel and 128 per document |
| `Subscriptions.PolledKeepsInv` | crates/renee-stored/src/subscription.rs:161-198 | polling keeps the registry invariant |
| `DeliveryProofs.NextKeeps` | crates/renee-stored/src/main.rs:466-599 | every step of every task keeps the system invariant |
| `DeliveryProofs.BehaveKeeps` | crates/renee-stored/src/main.rs:466-599 | so every interleaving keeps it |
| `DeliveryProofs.NoSilentGap` | crates/renee-stored/src/subscription.rs:335-359 | in every interleaving, what an active subscription received plus what it has queued is exactly the log since its registration, and on an open connection so is what its client was written plus what is in flight |
| `DeliveryProofs.EmissionFence` | crates/renee-stored/src/main.rs:562-599 | in every interleaving, no notification is written after a revocation commits for a subscription at or beneath the revoked capability |
| `DeliveryProofs.OneGatePerDocument` | crates/renee-stored/src/subscription.rs:307-318 | although gates are held weakly, no document ever has two live gates |
| `DeliveryProofs.ActiveMeansAuthorized` | crates/renee-stored/src/store.rs:1578-1588 | no active subscription belongs to a revoked capability |
| `DeliveryProofs.EmissionGateKeeps` | crates/renee-stored/src/subscription.rs:307-318 | obtaining a gate reuses the live one and never leaves two |
| `DeliveryProofs.PollKeeps` | crates/renee-stored/src/subscription.rs:161-185 | taking a wakeup moves it from queue to forwarder without loss |
| `DeliveryProofs.PushKeeps` | crates/renee-stored/src/main.rs:514-540 | handing over to the connection queue loses nothing, and a full queue ends the subscription instead |
| `DeliveryProofs.CheckKeeps` | crates/renee-stored/src/main.rs:562-577 | a writer is cleared only for a subscription that is active on a live channel |
| `DeliveryProofs.WriteKeeps` | crates/renee-stored/src/main.rs:562-582 | what is written stands on a capability with no revoked ancestor |
| `DeliveryProofs.CloseKeeps` | crates/renee-stored/src/main.rs:258-287 | a connection that ends loses what was on it, but its subscriptions still have it in what they received |
| `DeliveryProofs.CloseChannelKeeps` | crates/renee-stored/src/store.rs:819-827 | closing the lease ends every subscription of the channel that is still active |
| `DeliveryProofs.AnnounceKeeps` | crates/renee-stored/src/main.rs:494-541 | a terminal event takes a place in the queue and nothing else, and one that finds no room turns into an overflow that waits |
| `DeliveryProofs.AbandonKeeps` | crates/renee-stored/src/main.rs:585-599 | a revoke that is dropped frees its place, its lock and its hold on the gate |
| `DeliveryProofs.AcceptKeeps` | crates/renee-stored/src/store.rs:1655-1733 | an accept lengthens the log and every active pipeline of the document by the same update |
| `DeliveryProofs.SubscribeKeeps` | crates/renee-stored/src/store.rs:790-816 | a new subscription starts with nothing in flight at the current log length |
| `DeliveryProofs.AdmitKeeps` | crates/renee-stored/src/subscription.rs:118-124 | at most eight revokers wait for or hold one document's gate |
| `DeliveryProofs.ReaderElsewhere` | crates/renee-stored/src/subscription.rs:92-129 | a writer inside a gate and a revoker excluding one are never on the same document |
| `DeliveryProofs.CommitKeeps` | crates/renee-stored/src/main.rs:786-843 | a revoke committed under exclusion ends every active subscription in its subtree before any later write |
| `Handoff.HandoffCovers` | crates/renee-stored/src/store.rs:790-816 | over every run of reads and delivery together, a window opened after a subscription joined captures at least the log it joined at, and what was handed out of it followed by what the subscription got or still gets is the whole log, in order |
| `Handoff.PagesAreStamped` | crates/renee-stored/src/store.rs:1780-1960 | an origin and a genuine advance past the tail open a window over the log as it is, a continuation stays in its window, and a page after which no more follows completes it |
| `Handoff.TailCovers` | crates/renee-stored/src/store.rs:1901-1913 | when a read is answered without a cursor, what its reader has, followed at every later state by the rest of any earlier subscription, is the whole log |
| `Handoff.BackfillCovers` | crates/renee-stored/src/store.rs:2008-2156 | a completed backfill opened after a subscription joined holds what its version misses of a window that reaches back to the joining, and the subscription covers the rest at every later state |
| `Handoff.InteractKeeps` | crates/renee-stored/src/store.rs:790-816 | every joint run keeps the invariant that ties cursors to windows and windows to subscriptions |
| `EnumerationPasses.EnumerateWindowed` | crates/renee-stored/src/store.rs:1780-1960 | a replay changes no window, a continued cursor stands in its predecessor's, and anything else captures the log as it is |
| `VectorPasses.BackfillWindowed` | crates/renee-stored/src/store.rs:2008-2156 | every pass after a call was there before, continues one in its window, or was opened over the whole log |
| `DeliveryFrames.NextLinks` | crates/renee-stored/src/subscription.rs:259-305 | no step changes a subscription's entry or the length it joined at, and a new subscription is active |
| `Restart.RestartBudget.RecordFailure` | crates/renee-supervisord/src/main.rs:434-450 | one failure evicts what is too old, then is admitted exactly when fewer than five remain |
| `Restart.DequeExact` | crates/renee-supervisord/src/main.rs:434-450 | after any nondecreasing history the deque is exactly the accepted failures younger than 30 s, so a failure is refused exactly when five such exist |
| `Restart.SixSpanTheWindow` | crates/renee-supervisord/src/main.rs:386-427 | any six consecutive accepted failures span at least 30 s |
| `Restart.Replay` | crates/renee-supervisord/src/main.rs:386-427 | one budget shared by a role's successive replacements runs through that deque |

## Left out

- SQLite, its schema text, triggers, foreign keys and quick check: only table contents and commit or rollback are modelled. Primary keys are the keys of maps; that update identifiers are distinct within a log is a precondition of `Recovery.Validate` for the same reason.
- Rows are grouped as the source's keys group them: a document holds its own capabilities, receipts, log, range index and peers; a capability holds its set of operations; an indexed update holds its list of ranges. Recovery's comparison of row counts becomes a comparison of group counts.
- SHA-256 verifier derivation, constant-time comparison, Ed25519 and the quality of randomness: arbitrary functions and arbitrary drawn tokens; failure of the entropy source is not modelled.
- Provisioning of create authorities: the authority table is a constant of each run.
- Channels of a foreign broker: every modelled channel is the broker's own.
- `CapabilityModel` beyond its authorization walk: its control operations have no limit outcomes, so the capability properties are proved on the store directly.
- Restart.Replay: the delay between attempts, readiness of the replacement and the group restart after exhaustion are not modelled, because only the sequence of failure instants matters to the budget.
- DeliveryProofs.NoSilentGap: a write that stalls past its timeout ends the connection and is modelled as closing it, because the bytes of a partly written body are not observable as a notification.
- Terminal events on a connection are modelled by their kind and their place in the event queue; their encodings are not.
- Retirement has no wire operation and takes no emission gate; it ends subscriptions, but the fence is proved for revocation only, as the source promises.
- Subscribe, cancel and fetch codecs, negotiation, and the one-byte outcome and error codecs: finite tables and fixed layouts that would add easy members only.
- The gateway, the session daemon, process spawning, argument parsing and certificate files.
- Liveness and fairness of the asynchronous runtime: only safety over interleavings is stated.
