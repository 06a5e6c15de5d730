# Verification of the timestamp service's seal, serve and answer pipeline

A client submits 32-byte leaves. They collect in an open epoch; at each tick the
sealer closes it, writes it to the store with every enabled anchor method (EVM,
qualified TSA) pending, anchors the batch root once per method, mints one
witness per leaf from the stored anchor, checks every witness, and writes the
set for serving. Whatever fails stays pending and is settled by a later tick.
The routes answer from the store: 200, 202, 503, 410, 404, 403.

This project models that pipeline as one durable state machine and proves what
every state of every run keeps, with providers, verdicts, signatures, writes and
crashes chosen by an adversary and submissions falling anywhere around a tick.
Two smaller components are modelled beside it: the order of an identity tree's
revisions, and the block watcher that credits contributors.

`dafny verify dfyconfig.toml` checks everything.

## How it is laid out

| file | what it holds |
|---|---|
| Base, Merkle, Witness, SelfCheck | values, leaf spellings, the minter and the pending record (with its in-place class), the self-check |
| Accumulator | the open epoch, as a value and as the class that updates it |
| Storage, Persistence, Keys | the nine partitions as a value with one function per batch; the `Store` class whose methods commit them; the composite keys |
| Sealer, SealerMachine | a settle and a tick over the backlog as functions; the class that performs them in place, proved equal |
| System, Service | submissions, ticks and restarts as steps of the whole service; the class that runs a tick, proved equal |
| Invariants, Settle, Backlog, Runs | the durable invariant: kept by each batch, and exactly when by each settle, each epoch, each step, every run |
| Resubmission, Revival | a leaf in two epochs that settle out of order; a serve write that lands but reports an error |
| Verdicts, Outcomes | why a settle decides as it does, and what it then leaves in the store, case by case |
| Trace, Accounts, Returns, Progress, Liveness | calls within a tick, where every bought anchor goes, what a tick returns, the falling measure, and that 202 is live |
| Routes, Listings, Pagination | the answers, the union listing and the totals, the paged epoch list |
| Guarantees | the run-level statements, once each |
| Identity, Watcher | the two smaller components |

The imperative code of the service is modelled by classes and loops (`Accumulator`,
`PendingEpoch`, `Store`, `Ticking`, `Timestamper`, `ResponseMaps`, `BlockWatcher`), each
proved equal to a function of its old state; the theorems are about those functions.

## How the environment is modelled

- A provider call returns an anchor or fails; signing succeeds with some salts or
  fails; the check answers through hosts given as functions, or panics.
- A write is `Written`, `Refused` (an error, the store unchanged), `Unsynced` (it
  landed, and the sync after it reported an error), `CrashBefore` or `CrashAfter` its
  commit. A crash drops the volatile record, the down set and the open epoch and
  restarts the process. A crash between two writes leaves the store as a crash
  just before the next one does.
- Every write may have any of the five outcomes. A serve write that lands but reports
  an error leaves the volatile copy stale: it still lists a served method. The
  agreement of the partitions survives a run exactly when nothing is written on a
  stale copy before it is dropped at the end of its epoch (`Runs.EveryRunIsGoodExactly`);
  `SafeRun` is that condition, and the theorems that need the agreement are for such
  runs. The epochs, their leaves, the ids, the acceptances and losses, the call rule,
  the lost anchors and the epoch list need it not, and hold over every run.
- The volatile copy of a pending record lives for all methods of its epoch in a
  tick, as in the program: an anchor whose two saves failed can still become
  durable through another method's later save, and it counts as lost only if the
  copy is dropped first. The invariant says how far the copy may run ahead.
- Hashes are free constructors over what they hash, so equal hashes mean equal
  revisions; a batch root is a free constructor over the batch's leaves and its
  shielding nonces, which are fresh in every preparation. The judges of an
  anchor see the anchor fields and nothing else.
- A qTSA payload carries no contract address and an EVM payload does, as the provider
  outcome is documented (`crates/aqua-timestamp-core/src/witness.rs:139-141`); the network
  label alone would not tell the methods apart.
- Epoch ids stay below the top of the 64-bit range; Findings says what happens
  there. The enabled methods are free of duplicates and fixed for a run, as are
  the fault cap and the timeout.
- Runs start from an empty store.

## Findings

- A transfer can be skipped for good. Nothing is stored at a start, so a crash
  before the first committed window lets the next start begin after the newer
  current block: with starts at blocks 10 and 20 and a crash in between, a transfer
  in block 11 is never credited (`Watcher.TransferSkippedAcrossCrash`). When the
  committed windows begin later than the first start did, they are the transfers from
  that start on if and only if none lies in between (`Watcher.WindowsAreExact`); nothing
  is skipped when every restart finds a stored watermark (`Watcher.NothingIsSkipped`).
- A transfer can be credited twice. When a window's commit lands but reports an
  error, the next poll scans the same blocks again (`Watcher.TransferCreditedTwice`).
  A poll loses step with the store exactly in that case (`Watcher.PollKeepsCovered`), a
  start exactly when it cannot read a stored watermark and begins at block 0
  (`Watcher.StartKeepsCovered`), and a poll behind the store by some transfer always
  commits transfers twice (`Watcher.StalePollCreditsTwice`). The exactness results are
  for runs where the watermark can be read at every start and such a commit is
  followed by a restart.
- A contributor with several transfers in one window is credited only the last of
  them: entries are computed from the store, not from the window's own updates
  (`Watcher.RepeatedSenderIsUndercredited`). The credit is the sum of the transfers if
  and only if no window repeats the sender (`Watcher.CreditingIsExact`).
- At the top of the id range ids are reused: by the restart rule exactly when the top
  is persisted (`Runs.NextEpochIdFreshIff`), by the swap exactly at the top
  (`Accumulation.SwapReusesIdExactlyAtTop`), and there two ticks that seal in a row
  seal the same id, the second over the record of the first, without any restart
  (`Guarantees.SecondSealAtTheTopOverwrites`).
- When epochs settle out of order, serving the older epoch points a resubmitted
  leaf's lookup back at the older witness (`Resubmission.OlderServeTakesTheLookupBack`), and it
  does exactly when the served epoch holds the leaf and is older than the one the
  lookup led to (`Resubmission.LookupMovesBackExactly`). Both witnesses are genuine, and
  the answer by leaf is proved for either.
- A serve write that lands but reports an error leaves the store good and the copy
  stale. From an empty store, one tick: a leaf is sealed with both methods, EVM's serve
  write ends so, and saving qTSA's new anchor writes the stale copy; EVM is then pending
  and served at once (`Revival.UnsyncedServeIsRevived`). The agreement survives settling an
  epoch, a step, a run if and only if no write follows such a serve in its epoch and tick
  (`Backlog.SettleMethodsExactly`, `Runs.StepKeepsExactly`, `Runs.EveryRunIsGoodExactly`); a tick in
  which no serve write ends so always keeps it (`Runs.SyncedTickIsHarmless`).
- A seal write that lands but reports an error fails the tick although the epoch is
  sealed; nothing is lost, and later ticks settle it (`Guarantees.UnsyncedSealIsSealed`).
- With a limit of zero the epoch list hands back the very cursor it was given, and
  only then (`Pagination.CursorStaysExactlyAtZero`); the route clamps the limit to at
  least one, and completeness is proved for those.

## Model

| member | source | states |
|---|---|---|
| Accumulation.SubmissionAllOrNothing | crates/aqua-timestamp-core/src/accumulator.rs:141-180 | A batch is refused exactly when its distinct fresh leaves would cross the cap, and is then told the epoch, when it closes and its cap; otherwise every leaf of it is held afterwards, accepted is that count, accepted + duplicates is the batch length, earlier entries and submitters are kept, each added leaf was fresh and belongs to this submitter, and the answer names the epoch and when it closes |
| Accumulation.PassesAgree | crates/aqua-timestamp-core/src/accumulator.rs:147-174 | The admission pass (a set) and the append pass (a walk) count the same leaves |
| Runs.AcceptedLeavesReachTheSnapshot | crates/aqua-timestamp-core/src/accumulator.rs:141-208 | Accepted leaves are in the snapshot the next swap takes of the epoch reported to the client, whatever is submitted in between |
| Accumulation.AcceptedLeavesReachTheirEpoch | crates/aqua-timestamp-core/src/accumulator.rs:175-208 | The same with the swap straight after the submission; the next epoch opens empty |
| Accumulation.SwapReusesIdExactlyAtTop | crates/aqua-timestamp-core/src/accumulator.rs:198-198 | The swap opens the id it closed if and only if that is the top of the range |
| Accumulation.OpenedIs | crates/aqua-timestamp-core/src/accumulator.rs:119-130 | An epoch opens empty, closes one duration after it opened (saturating), and holds the smaller of the given cap and 2^20 leaves |
| Accumulation.SwapIs | crates/aqua-timestamp-core/src/accumulator.rs:188-208 | The swap hands out the closed epoch with its id, times and leaves, and opens the next id, empty, for one duration under the same cap |
| Runs.SubmitsInOrder | crates/aqua-timestamp/src/routes.rs:169-245 | Submissions are taken in the order they arrive, each on what the earlier ones left |
| Accumulation.IndexInverts | crates/aqua-timestamp-core/src/accumulator.rs:58-75 | The dedup index is the inverse of the leaf list |
| Accumulation.Accumulator.AppendBatch | crates/aqua-timestamp-core/src/accumulator.rs:141-180 | The in-place append answers and moves the open epoch exactly as the submission function says, keeping the index in line |
| Accumulation.Accumulator.SwapAndOpenNext | crates/aqua-timestamp-core/src/accumulator.rs:188-208 | The swap returns the closed epoch and leaves the empty successor |
| Accumulation.Accumulator.WithLeafCap | crates/aqua-timestamp-core/src/accumulator.rs:119-130 | A fresh epoch under the smaller of the given cap and the template maximum |
| Merkle.ParseAcceptsExactlyTheSpellings | crates/aqua-timestamp-core/src/merkle.rs:32-50 | Exactly the bare, `0x`, multihash and `0x` multihash spellings of 32 bytes parse, each to its digest |
| Merkle.ParsesExactlySpellings | crates/aqua-timestamp-core/src/merkle.rs:32-50 | The same character by character: a text parses to a hash exactly when, after the prefixes it carries, each two characters are the digits, of either case, of one byte of the hash |
| Merkle.BadLengthIs | crates/aqua-timestamp-core/src/merkle.rs:32-45 | A text is refused for its length n, counted after a `0x`, exactly when n is not 64 and it is not the multihash prefix and 64 characters |
| Merkle.CanonicalIs | crates/aqua-timestamp-core/src/merkle.rs:54-56 | The canonical spelling is `0x` and the 64 lower-case digits |
| Merkle.CanonicalRoundTrip | crates/aqua-timestamp-core/src/merkle.rs:54-56 | The canonical spelling reads back as the same hash, by the client parser and by the pending-record reader |
| Merkle.DecodeInvertsEncode | crates/aqua-timestamp-core/src/merkle.rs:46-56 | Decoding inverts encoding |
| Witness.RestoreInvertsStore | crates/aqua-timestamp-core/src/witness.rs:391-510 | A pending record restores to the very batch it was made from: id, root and every leaf with its submitter, in order |
| Witness.MintedSetIs | crates/aqua-timestamp-core/src/witness.rs:120-232 | Minting one method gives one witness per leaf, in batch order. Each is the object chained to its leaf, under its own hash, with every payload field taken from what the provider returned and the batch root (EVM: transaction hash, `0x` sender, network, contract; qTSA: label tsa, no contract, the provider's name for a missing sender), the batch size and the leaf's place; a signature of that object by the signer; the leaf's submitter and epoch; and the two file names with the leaf's first eight hex digits |
| Witness.SingleMethodRows | crates/aqua-timestamp-core/src/witness.rs:581-600 | The nested leaf-by-method loop run for one method is that set |
| Witness.MintedRowIs | crates/aqua-timestamp-core/src/witness.rs:581-600 | With several methods, the row of a leaf holds at each place the witness of the method at that place |
| Witness.MintWitnessesForEpoch | crates/aqua-timestamp-core/src/witness.rs:544-601 | The minter fails exactly when the batch does not hold the snapshot's leaves in order, or some method cannot be finished, or some witness cannot be signed; otherwise it returns leaves in batch order with the methods in the given order |
| Witness.TipDetermines | crates/aqua-timestamp-core/src/witness.rs:120-232 | Equal tips mean the same leaf, method and epoch root, whatever the anchors are |
| Witness.PendingEpoch.SetAnchor | crates/aqua-timestamp-core/src/witness.rs:420-427 | The anchor replaces the method's old one with the current time; nothing else in the record changes |
| Witness.PendingEpoch.DropAnchor | crates/aqua-timestamp-core/src/witness.rs:466-468 | Only the method's anchor leaves the record |
| Witness.PendingEpoch.AnchorFirstSeen | crates/aqua-timestamp-core/src/witness.rs:432-441 | The first-seen time of the stored anchor, filled in (and reported as changed) only when it was missing |
| Witness.PendingEpoch.CountAnchorFault | crates/aqua-timestamp-core/src/witness.rs:452-463 | The method's counter goes up by one, the others stay; the new count is returned |
| Witness.PendingRecord.Without | crates/aqua-timestamp-core/src/sealer.rs:515-517 | The remaining record: without the method and its anchor, fault counts and all else kept |
| SelfCheck.BatchRefinesPerWitness | crates/aqua-timestamp-core/src/selfcheck.rs:170-200 | The batch check is all Verified if and only if every witness is Verified by the per-witness check and all share the first one's method and anchor fields |
| SelfCheck.VerdictsAreExact | crates/aqua-timestamp-core/src/selfcheck.rs:131-370 | One witness is Verified exactly when its object is a timestamp object under its own hash, chained to its leaf, within the size cap and included, a chain host verified the EVM anchor or a TSA host found the token qualified or level-verified, and the signature verifies, over this object, by the service. It is Missing exactly when the object is so and the chain host answered not found, NotYet exactly for its other open answer, and blames the anchor exactly for the four refutations (contract, sender, input, reverted) or a rejected token |
| SelfCheck.BatchPassesExactly | crates/aqua-timestamp-core/src/selfcheck.rs:170-200 | The batch check, which judges the anchor once, passes exactly when every witness holds in that sense and all share the first one's anchor |
| SelfCheck.BatchHasOneVerdictEach | crates/aqua-timestamp-core/src/selfcheck.rs:170-200 | Always one verdict per witness, so pairing them drops nothing |
| SelfCheck.SharedAnchorSharesVerdict | crates/aqua-timestamp-core/src/selfcheck.rs:131-200 | On the judged anchor both checks accept the same witnesses |
| SelfCheck.UnsettledAnchorSettlesBatch | crates/aqua-timestamp-core/src/selfcheck.rs:178-188 | A first witness that fails up to its anchor gives its verdict to the whole batch |
| SelfCheck.MintedSetVerifies | crates/aqua-timestamp-core/src/selfcheck.rs:203-280 | Against any hosts that verify the anchor of this set and its inclusion proofs and signatures, the minted set passes if and only if the batch has at most 2^20 leaves |
| Verdicts.DecisionIsAboutTheAnchor | crates/aqua-timestamp-core/src/sealer.rs:453-512 | A settle blames or misses an anchor exactly when signing and the check ran, the first leaf is included, and the host asked about the anchor refuted it, or did not find its transaction |
| Verdicts.ServesExactlyWhenEveryWitnessHolds | crates/aqua-timestamp-core/src/sealer.rs:428-531 | A settle serves exactly when signing and the check ran and every minted witness holds: object, inclusion, verified anchor and the service's signature; it then serves those witnesses |
| Verdicts.AnchorIsHeldOnceStored | crates/aqua-timestamp-core/src/sealer.rs:415-426 | A returned anchor is used exactly when one of its two saves was written, the second tried only after an error, and is then in the store's record; the method goes down exactly when both returned errors, landed or not |
| Verdicts.MissingIsDecidedByAge | crates/aqua-timestamp-core/src/sealer.rs:588-640 | A missing anchor is kept exactly below the timeout, a first-seen time it lacked being noted in the store; at or past the timeout it is dropped and counted as one fault, and the record without it is stored unless the write does not land |
| Verdicts.ValidateIsExact | crates/aqua-timestamp-core/src/sealer.rs:150-166 | A context may close epochs exactly when every enabled method has a provider and a self-check host and the service DID is known |
| Verdicts.ValidateNamesTheFirst | crates/aqua-timestamp-core/src/sealer.rs:150-166 | A refused context is told the first enabled method without a provider, else the first without a self-check host, else that the service DID is missing |
| Verdicts.GoodAnchorIsNeverBlamed | crates/aqua-timestamp-core/src/selfcheck.rs:187-199 | Once the anchor is judged good no later verdict of the batch is NotYet, Missing or at fault |
| Outcomes.RefutedIsDiscarded | crates/aqua-timestamp-core/src/sealer.rs:488-506 | A refuted anchor is dropped and counted and the record saved so: if the write lands, the store's record of the epoch has no anchor of the method, one fault more, and the rest as the copy has it; if not, the store is as it was. The method is down for the tick |
| Outcomes.TimedOutIsDiscarded | crates/aqua-timestamp-core/src/sealer.rs:588-640 | An anchor not found for the whole timeout is dropped, counted and saved the same way; the method is not down |
| Outcomes.OtherwiseKept | crates/aqua-timestamp-core/src/sealer.rs:453-512 | Any other verdict changes nothing: the anchor is kept and nothing is written |
| Outcomes.HoldingIsServed | crates/aqua-timestamp-core/src/sealer.rs:514-531 | When every witness holds, one commit stores them so that each is found by tip, by leaf and method and by both revisions and is marked self-checked, takes the method off the record (the record goes with its last method), and the set is returned if the write reported no error; a write that does not land changes nothing |
| Outcomes.ReturnedAnchorIsSaved | crates/aqua-timestamp-core/src/sealer.rs:415-426 | A returned anchor is saved with the current time, once more after an error; the store holds the record with it exactly when a save landed, the settle goes on as with a held anchor exactly when one was written, and the method is down exactly after two errors |
| Outcomes.FailedCallPutsDown | crates/aqua-timestamp-core/src/sealer.rs:415-426 | A failed call puts the method down for the tick and changes nothing else |
| Outcomes.NoCallNoChange | crates/aqua-timestamp-core/src/sealer.rs:402-414 | Without an anchor, a method that is down or at the fault cap is not called, and nothing changes |
| Outcomes.DisabledIsLeft | crates/aqua-timestamp-core/src/sealer.rs:372-390 | A method that is not enabled is left alone |
| Outcomes.CrashEndsTheTick | crates/aqua-timestamp-core/src/sealer.rs:319-349 | After a crash nothing more is settled |
| Outcomes.MethodsGoInOrder | crates/aqua-timestamp-core/src/sealer.rs:335-347 | The methods of an epoch are settled in the record's order, each on what the ones before left |
| Outcomes.OneMethod | crates/aqua-timestamp-core/src/sealer.rs:335-347 | A method is settled under what the environment does for its epoch and itself |
| Outcomes.RecordsGoInOrder | crates/aqua-timestamp-core/src/sealer.rs:335-347 | So are the records of the backlog |
| Outcomes.OneRecord | crates/aqua-timestamp-core/src/sealer.rs:335-347 | Each record is settled on a copy of its own with all its methods, and the copy is then dropped |
| Keys.EpochKeysAreOrdered | crates/aqua-timestamp-core/src/storage.rs:440-444 | Big-endian epoch keys compare as their ids do, and read back |
| Keys.IterationIsInOrder | crates/aqua-timestamp-core/src/storage.rs:440-444 | A sequence of keys is what iterating a partition in byte order yields if and only if it is the keys of its ids in numeric order |
| Keys.LeafTipKeysAreInjective | crates/aqua-timestamp-core/src/storage.rs:698-703 | Distinct (leaf, method) pairs have distinct keys |
| Keys.EpochPrefixSelectsEpoch | crates/aqua-timestamp-core/src/storage.rs:460-473 | The epoch prefix selects exactly that epoch's leaf keys |
| Keys.ComposeLeafToTipsKey | crates/aqua-timestamp-core/src/storage.rs:698-703 | Filling the array in place yields the leaf followed by the method byte |
| Keys.ComposeLeavesKey | crates/aqua-timestamp-core/src/storage.rs:706-711 | Filling the array in place yields the big-endian id followed by the leaf |
| Persistence.Store.PersistSealedEpochWithPending | crates/aqua-timestamp-core/src/storage.rs:212-262 | One commit of the sealed epoch, its leaves, owners, witnesses, pending record and lookups: all of it or none; an error may be reported after all of it landed |
| Persistence.Store.PersistPendingMinted | crates/aqua-timestamp-core/src/storage.rs:270-306 | One commit of the witnesses, their markers, the removal of the method and of this epoch's own lookups: all or none; an error may be reported after all of it landed |
| Persistence.Store.SavePending | crates/aqua-timestamp-core/src/storage.rs:310-326 | Overwrites one pending record and nothing else, or nothing; an error may be reported after it landed |
| Persistence.Store.ListPendingEpochs | crates/aqua-timestamp-core/src/storage.rs:329-337 | Every pending record, oldest first |
| Persistence.Store.LastSealedEpochId | crates/aqua-timestamp-core/src/storage.rs:414-420 | The greatest persisted id, none exactly for an empty store |
| Persistence.WriteWitnesses | crates/aqua-timestamp-core/src/storage.rs:367-399 | The loop over witnesses fills the tip, pair and revision partitions |
| Persistence.RemoveLookups | crates/aqua-timestamp-core/src/storage.rs:285-296 | A lookup is dropped only if the store holds it for this epoch |
| Storage.PutWitnessesValue | crates/aqua-timestamp-core/src/storage.rs:367-399 | Every written witness is found again: its tip leads to its pair, its (leaf, method) to its tip, its two revisions are stored |
| Storage.DropLookupsAt | crates/aqua-timestamp-core/src/storage.rs:285-296 | Exactly the lookups of these leaves and method that point at this epoch go |
| Storage.PutAllLookupsAt | crates/aqua-timestamp-core/src/storage.rs:226-240 | Exactly the sealed leaves under the pending methods point at the new epoch |
| SealerMachine.Ticking.Settle | crates/aqua-timestamp-core/src/sealer.rs:372-531 | Settling one (epoch, method) in place moves the store, the volatile record, the down set and the returned witnesses exactly as the settle function says |
| SealerMachine.Ticking.AcquireAnchor | crates/aqua-timestamp-core/src/sealer.rs:390-426 | The stored anchor, or one call below the cap and not while down, its anchor stored before use |
| SealerMachine.Ticking.StoreAnchor | crates/aqua-timestamp-core/src/sealer.rs:544-580 | Saved, once more on failure; the result is that of the last save tried |
| SealerMachine.Ticking.HandleMissing | crates/aqua-timestamp-core/src/sealer.rs:588-640 | A missing anchor is kept below the timeout and counted and discarded at or past it |
| SealerMachine.Ticking.ServeWitnesses | crates/aqua-timestamp-core/src/sealer.rs:514-531 | Witnesses and the method's removal land in one commit, and only then does the volatile record shrink |
| SealerMachine.Ticking.RetryAll | crates/aqua-timestamp-core/src/sealer.rs:319-349 | The backlog in order, each record on its own copy, with one down set for the tick |
| SealerMachine.FirstVerdict | crates/aqua-timestamp-core/src/sealer.rs:461-512 | The first verdict of the zip that is not Verified decides |
| Service.Timestamper.Tick | crates/aqua-timestamp-core/src/sealer.rs:241-295 | The whole tick in place equals the step of the state machine, whatever the environment does, and returns its answer: sealed with the record and the late witnesses before its own, failed with its error, or crashed |
| Service.Timestamper.CloseEpoch | crates/aqua-timestamp-core/src/sealer.rs:256-283 | Swap, prepare, persist with every method pending, then settle; sealed with the record and the witnesses served, failed with the batch, root or store error, or crashed |
| Returns.TickReturnsExactlyTheServed | crates/aqua-timestamp-core/src/sealer.rs:232-295 | A tick that seals returns exactly the witnesses of the sets served in it by writes that reported no error, those of earlier epochs first, then those of the epoch it sealed |
| Service.Timestamper.Restart | crates/aqua-timestamp/src/lib.rs:146-159 | After a restart the store is as it was, the open leaves are gone, and the open id follows the last persisted one |
| Service.Timestamper.Append | crates/aqua-timestamp/src/routes.rs:169-245 | Submissions go to the open epoch one after the other and each acceptance is recorded once |
| Invariants.SealKeepsInv | crates/aqua-timestamp-core/src/storage.rs:212-262 | Sealing a new epoch keeps the agreement of all nine partitions |
| Invariants.ServeKeepsInv | crates/aqua-timestamp-core/src/storage.rs:270-306 | Serving a pending method keeps the agreement of all nine partitions, also when later epochs hold the same leaves |
| Invariants.SaveKeepsInv | crates/aqua-timestamp-core/src/storage.rs:310-326 | Overwriting a pending record of the same methods keeps it too |
| Invariants.SharedTip | crates/aqua-timestamp-core/src/storage.rs:388-396 | No two served witnesses share a tip, so the tip index never overwrites a pair |
| Resubmission.LookupMovesBackExactly | crates/aqua-timestamp-core/src/storage.rs:367-399 | Serving moves a leaf's lookup to an older epoch exactly when the served epoch holds the leaf and is older than the one the lookup led to |
| Resubmission.OlderServeTakesTheLookupBack | crates/aqua-timestamp-core/src/storage.rs:367-399 | A good state of two epochs with one leaf, the newer served first, where serving the older one takes the lookup back |
| Backlog.SettleMethodsExactly | crates/aqua-timestamp-core/src/sealer.rs:335-347 | Settling the methods of an epoch, crashed or not, keeps the agreement of the partitions if and only if no write follows a serve that landed but reported an error |
| Settle.LagSettles | crates/aqua-timestamp-core/src/sealer.rs:372-531 | Settling another method on a copy that lists a served one keeps the agreement exactly when it leaves the store as it is |
| Revival.UnsyncedServeIsRevived | crates/aqua-timestamp-core/src/sealer.rs:514-531 | From an empty store one tick, whose EVM serve write lands but reports an error and whose qTSA anchor is then saved, leaves EVM pending and served at once |
| Settle.SettleSettles | crates/aqua-timestamp-core/src/sealer.rs:372-531 | Settling one method keeps the durable agreement, for every environment and crash; the copy is left at most one unsaved step ahead, or stale after a serve that landed but reported an error |
| Backlog.EpochSettles | crates/aqua-timestamp-core/src/sealer.rs:335-347 | Settling an epoch keeps the durable agreement if and only if no write follows a serve that landed but reported an error; it touches no other epoch's record |
| Backlog.RetrySettles | crates/aqua-timestamp-core/src/sealer.rs:319-349 | Working through the backlog, crashed or not, keeps the durable agreement if and only if in no epoch such a write follows |
| Backlog.PendingEpochsAreBacklog | crates/aqua-timestamp-core/src/storage.rs:329-337 | The listing holds every pending record exactly once, in id order |
| Runs.EveryRunKeepsTheInvariant | crates/aqua-timestamp-core/src/sealer.rs:241-295 | Every state of every run without a write on a stale copy satisfies the whole invariant: nine partitions, open epoch, ids, conservation |
| Runs.StepKeepsExactly | crates/aqua-timestamp-core/src/sealer.rs:241-295 | One step, a submission, a tick with any outcomes and crashes, or a restart, keeps it if and only if nothing is written on a stale copy |
| Runs.EveryRunIsGoodExactly | crates/aqua-timestamp-core/src/sealer.rs:241-295 | All states of a run from an empty store are good if and only if no tick writes on a stale copy |
| Runs.SyncedTickIsHarmless | crates/aqua-timestamp-core/src/sealer.rs:514-531 | A tick in which no serve write reports an error after landing writes on no stale copy |
| Runs.EveryRunKeepsTheCore | crates/aqua-timestamp-core/src/sealer.rs:241-295 | Every run, whatever its writes do, keeps the epoch records, the leaf index, the names of pending records, the ids and the conservation of acceptances |
| Runs.NextEpochIdIsNew | crates/aqua-timestamp/src/lib.rs:146-154 | Below the top of the range the restart rule gives an id above every persisted one |
| Runs.NextEpochIdFreshIff | crates/aqua-timestamp/src/lib.rs:150-154 | The restart rule reuses an id if and only if the top of the range is persisted |
| Runs.RestartIs | crates/aqua-timestamp/src/lib.rs:146-159 | A restart keeps the store, loses the open leaves, and opens an empty epoch one past the greatest persisted id (1 over an empty store), under the template's cap, for one duration |
| Runs.SealedTicketsGrow | crates/aqua-timestamp-core/src/storage.rs:246-258 | Sealing adds exactly the snapshot's acceptances to the durable ones |
| Trace.RetryLogs | crates/aqua-timestamp-core/src/sealer.rs:319-349 | Across the backlog a method is not called again after a failed call, an unstored anchor or an anchor at fault |
| Trace.HeldAnchorIgnoresDown | crates/aqua-timestamp-core/src/sealer.rs:390-400 | A stored anchor is minted, checked and served just the same when its method is down |
| Trace.RetryGoesOldestFirst | crates/aqua-timestamp-core/src/sealer.rs:319-349 | The backlog is worked through oldest epoch first |
| Guarantees.EveryRunLooksUpItsLeaves | crates/aqua-timestamp-core/src/storage.rs:212-306 | Every leaf sealed with a method has a tip or a pending lookup; every lookup names an epoch still pending for the method and holding the leaf |
| Guarantees.EveryRunAnswersWell | crates/aqua-timestamp/src/routes.rs:564-741 | In every run no answer is 410 or an internal error, and 404 for an unknown leaf means it was never sealed |
| Guarantees.EveryRunServesOnlyVerified | crates/aqua-timestamp-core/src/sealer.rs:428-531 | Every self-checked tip is of a set minted over the sealed leaves and root, from an anchor of a durable record, and every witness of it holds: object, inclusion, verified anchor, the service's signature |
| Guarantees.TickStopsCalling | crates/aqua-timestamp-core/src/sealer.rs:251-283 | In any tick, across backlog and new epoch, no call of a method follows a failed call, a double save failure or an at-fault verdict; at most one call per method fails |
| Guarantees.TickGoesOldestFirst | crates/aqua-timestamp-core/src/sealer.rs:241-295 | In a tick the epochs are settled in ascending order: the backlog oldest first, the epoch just sealed last |
| Guarantees.TickSealsTheOpenEpoch | crates/aqua-timestamp-core/src/sealer.rs:251-283 | A tick that returns a sealed epoch has sealed the open epoch with every leaf submitted before the swap, every enabled method, and a root over the leaves in order; the record it stores and returns has its id, times, root and count, and the next id is open |
| Guarantees.SealIs | crates/aqua-timestamp-core/src/storage.rs:212-262 | The seal write adds the epoch's record and, if it has methods, a pending record with all of them, no anchor and no fault |
| Guarantees.TickAnswersBy | crates/aqua-timestamp-core/src/sealer.rs:241-295 | A tick past its checks fails with the batch error, the root error or the store error exactly as preparation and the seal write went, and otherwise returns the sealed epoch unless it crashed |
| Guarantees.RefusedTickTouchesNothing | crates/aqua-timestamp-core/src/sealer.rs:241-250 | A context that fails its checks is answered with the first problem, and nothing is touched |
| Guarantees.UnlistedBacklogIsLeft | crates/aqua-timestamp-core/src/sealer.rs:319-334 | Without a context, or when the pending records cannot be listed, no earlier epoch is settled |
| Guarantees.EveryRunConservesLeaves | crates/aqua-timestamp-core/src/sealer.rs:256-270 | In every run, whatever its writes do, each acceptance is in exactly one of the open epoch, a sealed epoch and the lost ones; the numbers add up with the store's totals |
| Guarantees.LossNeedsCrashOrError | crates/aqua-timestamp-core/src/sealer.rs:256-270 | Leaves are lost only by a restart, or by a tick that went past its checks and did not return a sealed epoch |
| Guarantees.StepLosesExactly | crates/aqua-timestamp-core/src/sealer.rs:241-295 | Each step loses exactly the open epoch of a process that stops and the leaves of an epoch closed but not sealed |
| Guarantees.LostOnlyGrows | crates/aqua-timestamp-core/src/sealer.rs:241-295 | Over every run the lost acceptances only grow |
| Guarantees.UnsyncedSealIsSealed | crates/aqua-timestamp-core/src/storage.rs:242-262 | A seal write that landed but reported an error fails the tick, yet the epoch is sealed and nothing is lost |
| Guarantees.FailedSealLosesItsSnapshot | crates/aqua-timestamp-core/src/sealer.rs:256-270 | An error between the swap and the seal write loses exactly the snapshot's leaves and changes no epoch in the store |
| Guarantees.SealHitsFreshKeys | crates/aqua-timestamp-core/src/storage.rs:242-258 | The epoch a tick seals has an id above every id in the store |
| Guarantees.SecondSealAtTheTopOverwrites | crates/aqua-timestamp-core/src/sealer.rs:251-283 | At the top id two ticks that seal in a row seal the same id, and the second overwrites the record of the first |
| Guarantees.PendingRecordOnlyShrinks | crates/aqua-timestamp-core/src/storage.rs:296-303 | Through every later run a pending record keeps its epoch's leaves and root and its method list only shrinks |
| Guarantees.SealedForGood | crates/aqua-timestamp-core/src/storage.rs:212-262 | What an epoch was sealed with never changes |
| Accounts.AnchorSpendIsBounded | crates/aqua-timestamp-core/src/sealer.rs:402-426 | The anchors bought for an (epoch, method) equal those the store accounts for plus those lost, so at most the fault cap plus the ticks in which a call returned an anchor and neither of its saves landed |
| Accounts.LossesAreUnstored | crates/aqua-timestamp-core/src/sealer.rs:544-580 | In every run at most one anchor of an (epoch, method) is lost per tick, and only after a call neither of whose saves landed |
| Accounts.EveryRunBalances | crates/aqua-timestamp-core/src/sealer.rs:544-580 | The books balance in every state: calls are faults, held anchor, served anchor and losses |
| Accounts.SettleTally | crates/aqua-timestamp-core/src/sealer.rs:372-531 | One settle balances them, with the volatile copy in the place of the store, also on a stale copy that is not written |
| Progress.MovesAreBounded | crates/aqua-timestamp-core/src/witness.rs:420-468 | The measure 2(cap - faults) - held pays for every step that moves a sealed (epoch, method): at most twice the fault cap of them do in any run |
| Progress.AheadIsLower | crates/aqua-timestamp-core/src/sealer.rs:480-531 | Storing an anchor and discarding one each lower the measure |
| Progress.ServedSlot | crates/aqua-timestamp-core/src/sealer.rs:514-531 | Serving lowers it too, and leaves the other methods where the copy has them |
| Progress.RunSince | crates/aqua-timestamp-core/src/sealer.rs:241-295 | From any good state, in every later one each (epoch, method) is as it was or lower, and every anchor gone is explained by an event |
| Progress.StalledForever | crates/aqua-timestamp-core/src/sealer.rs:405-414 | Once stalled, an (epoch, method) stays exactly as it is through every later run, for any environment |
| Progress.SettledForever | crates/aqua-timestamp-core/src/storage.rs:296-303 | A served method never becomes pending again |
| Progress.AnchorLeavesOnlyByDeparture | crates/aqua-timestamp-core/src/sealer.rs:447-531 | A durable anchor leaves its record only by serving, by an at-fault verdict on it, or by a Missing verdict at or past the timeout |
| Liveness.PendingBecomesServed | crates/aqua-timestamp/src/routes.rs:805-826 | A leaf answered 202 for an enabled method is answered 200 to its owner after any one tick in which that method's provider, signer and backlog writes cooperate and every witness minted for it holds, whatever the other method's provider and verdicts do |
| Liveness.CooperatingTickServes | crates/aqua-timestamp-core/src/sealer.rs:319-349 | Such a tick serves the method in every pending epoch where it is enabled and not stalled |
| Liveness.OwnSettle | crates/aqua-timestamp-core/src/sealer.rs:372-531 | A cooperating settle serves a live method |
| Liveness.OtherSettle | crates/aqua-timestamp-core/src/sealer.rs:223-224 | The methods are independent: whatever another method's provider and verdicts do, a settle of it leaves this one's anchor, faults and down mark as they are |
| Routes.ByLeafIsExact | crates/aqua-timestamp/src/routes.rs:661-741 | 404 exactly for a leaf never sealed, 403 exactly for a leaf whose newest submitter is another DID, and to that submitter 200 exactly for a served one, 404 exactly when never sealed with the method, 202 or 503 for the newest pending epoch; never 410 or an internal error |
| Routes.OwnerIsNewestSubmitter | crates/aqua-timestamp-core/src/storage.rs:246-258 | The store's owner of a leaf is the one who submitted it in the newest epoch that sealed it |
| Routes.PendingAnswerIs | crates/aqua-timestamp/src/routes.rs:805-846 | A pending epoch is answered 503 exactly when its record has no anchor of the method and its faults are at the cap, else 202 |
| Routes.RequestsAreParsedExactly | crates/aqua-timestamp/src/routes.rs:667-677 | 400 exactly for a missing method, one other than evm and qtsa, or a leaf in no accepted spelling, in that order; every accepted spelling of a leaf gets that leaf's answer under the method asked for |
| Routes.ByTipIsExact | crates/aqua-timestamp/src/routes.rs:623-657 | 404 exactly for an unknown tip, 403 exactly for another DID's, else 200 with the genuine pair; never 410 or an internal error |
| Routes.TipsAreServedWitnesses | crates/aqua-timestamp-core/src/storage.rs:367-399 | The known tips are exactly the witnesses of the served sets, each stored with the leaf and submitter of a sealed entry of its epoch |
| Routes.TipIffServed | crates/aqua-timestamp-core/src/storage.rs:515-533 | A leaf has a tip exactly when some epoch that sealed it with the method was served, and that tip is self-checked, stored, and of this leaf and method |
| Routes.LookupIsNewestPending | crates/aqua-timestamp-core/src/storage.rs:340-350 | Without a tip the lookup is the newest pending epoch of the leaf; without a lookup there is none |
| Routes.PairBodyIsGenuine | crates/aqua-timestamp/src/routes.rs:749-793 | A loaded pair is the timestamp object of the leaf carrying the durable anchor's fields over the sealed root, and this service's signature over it, each under its own hash, and the file index names the object's hash with the object file and the signature's with the signature file of that leaf |
| Routes.SelfCheckedTipIsGenuine | crates/aqua-timestamp-core/src/storage.rs:278-284 | Every marked tip is a witness of a served set over the recorded root, all of it Verified one by one |
| Routes.StalledIsOfTheRecord | crates/aqua-timestamp/src/routes.rs:833-846 | The scan of all pending records finds an epoch stalled exactly when its own record is |
| Listings.ListingIsTheSubmittedLeaves | crates/aqua-timestamp-core/src/storage.rs:573-593 | Once an epoch is settled for a method, a DID's listing holds exactly one pair for each leaf of the epoch's index it submitted and nothing else; before that it is empty |
| Listings.UnionForEpoch | crates/aqua-timestamp/src/routes.rs:564-620 | 404 for an unsealed epoch, the pending answer while pending, else the union built by the loops over exactly the listed pairs |
| Listings.UnionIsExact | crates/aqua-timestamp/src/routes.rs:593-619 | The union holds exactly the two revisions of every listed pair, each under its own hash, and for each pair its two file names under the right hashes; never 410 or an internal error |
| Listings.StoredPairIsNamed | crates/aqua-timestamp-core/src/witness.rs:120-232 | Every stored pair's file names are those of its leaf and method |
| Listings.ListWitnesses | crates/aqua-timestamp-core/src/storage.rs:573-593 | The scan enumerates exactly the DID's tips of the epoch and method, each once |
| Listings.ResponseMaps.LoadPairInto | crates/aqua-timestamp/src/routes.rs:767-793 | Both revisions and file names are added, or nothing when one revision is missing |
| Listings.ScanStalled | crates/aqua-timestamp/src/routes.rs:833-846 | The scan answers whether some listed record of the epoch is stalled |
| Listings.Totals | crates/aqua-timestamp-core/src/storage.rs:674-684 | The loop counts the records and sums their leaf counts |
| Listings.TotalsFit | crates/aqua-timestamp-core/src/storage.rs:674-684 | The 64-bit sum of the leaf counts does not wrap below 2^44 epochs |
| Listings.TotalsAreTheSealedLeaves | crates/aqua-timestamp-core/src/storage.rs:674-684 | The totals are the number of sealed epochs and of leaves in the epoch index |
| Pagination.WalkIsComplete | crates/aqua-timestamp-core/src/storage.rs:428-455 | With any limits of at least one, following the cursor ends and yields exactly the records up to the start that the first page's store held, ids strictly descending |
| Pagination.ListFromIs | crates/aqua-timestamp-core/src/storage.rs:428-455 | The whole listing from an id down: each stored record up to it once, ids strictly descending |
| Pagination.WalkOverARunIsComplete | crates/aqua-timestamp-core/src/storage.rs:428-455 | The same for the stores a running service goes through between the pages |
| Pagination.ListEpochsDesc | crates/aqua-timestamp-core/src/storage.rs:428-455 | The reverse range scan over the byte keys returns the first records down from the start and the id after them; a limit of zero hands the cursor back |
| Pagination.RunIsLater | crates/aqua-timestamp-core/src/storage.rs:242-246 | Later stores of a run keep every record and add only above |
| Pagination.NextIsLower | crates/aqua-timestamp-core/src/storage.rs:446-452 | For a limit of at least one the cursor always moves down |
| Pagination.CursorStaysExactlyAtZero | crates/aqua-timestamp-core/src/storage.rs:433-435 | The cursor handed back is the one given if and only if the limit is zero |
| Identity.TopologicalRevisionOrder | crates/aqua-timestamp/src/identity.rs:248-279 | On every map the walk without a visited set ends; the order is the complete walk, from the first entry without a predecessor (absent or null) through first successors, followed by what it did not reach, in iteration order, each key exactly once |
| Identity.ListingIsTotal | crates/aqua-timestamp/src/identity.rs:248-279 | Each key is listed exactly once, and each walked entry comes right after its predecessor |
| Identity.WalkIsInjective | crates/aqua-timestamp/src/identity.rs:264-272 | The walk visits no entry twice, also on maps with cycles and forks |
| Identity.CompleteWalkIsUnique | crates/aqua-timestamp/src/identity.rs:251-272 | The walked chain is determined by the map |
| Identity.AppendedIsLeftOver | crates/aqua-timestamp/src/identity.rs:273-279 | What is appended to the walk is exactly the entries it did not reach |
| Identity.LeftOverKeepsOrder | crates/aqua-timestamp/src/identity.rs:273-279 | Two entries it did not reach keep their order |
| Watcher.CreditingIsExact | crates/aqua-timestamp/src/watcher.rs:148-227 | Over every run a contributor's total is the saturated sum of its last transfer in each committed window, and unsaturated equals what it sent the wallet on the chain, summed over the transactions of the covered blocks with it as signer and the wallet as recipient, if and only if no window repeats the sender |
| Watcher.ScanListsThePayments | crates/aqua-timestamp/src/watcher.rs:58-112 | A scan yields exactly the transactions of its blocks that send the wallet a positive value, each once, in block and index order, with its signer, value, block number and block time |
| Watcher.WindowCredits | crates/aqua-timestamp/src/watcher.rs:183-206 | A window credits a sender from its entry before: the fuel plus its last transfer, saturated, the DID and other counters kept for a known contributor, the last active time moved to the transfer's |
| Watcher.WindowLeavesOthers | crates/aqua-timestamp/src/watcher.rs:183-206 | A contributor without a transfer in the window is left alone |
| Watcher.PollIs | crates/aqua-timestamp/src/watcher.rs:148-226 | One poll: nothing without a new block and a complete scan; an empty window moves the memory on whatever becomes of its write; transfers and watermark land together, and the memory moves on only without an error |
| Watcher.StartIs | crates/aqua-timestamp/src/watcher.rs:129-147 | A start resumes from the stored watermark, else the current block, else 0, and from 0 when the store cannot be read |
| Watcher.WindowsAreExact | crates/aqua-timestamp/src/watcher.rs:120-227 | Over every run the committed windows are the chain's transfers from the base to the durable watermark, in order and once; they are those from the very first start on if and only if no transfer lies between the two |
| Watcher.NothingIsSkipped | crates/aqua-timestamp/src/watcher.rs:129-147 | When every restart finds a stored watermark the committed windows are all the transfers from the very first start on |
| Watcher.TransferSkippedAcrossCrash | crates/aqua-timestamp/src/watcher.rs:129-147 | Starts at blocks 10 and 20 with a crash in between: the transfer in block 11 is never credited |
| Watcher.PollKeepsCovered | crates/aqua-timestamp/src/watcher.rs:148-226 | A poll keeps coverage; it loses step with the store exactly when it commits transfers and the write reports an error |
| Watcher.StartKeepsCovered | crates/aqua-timestamp/src/watcher.rs:129-147 | A start keeps coverage; it is in step with the store exactly when it can read it, or nothing past block 0 is stored |
| Watcher.StalePollCreditsTwice | crates/aqua-timestamp/src/watcher.rs:148-226 | A poll behind the store by some transfer commits transfers twice |
| Watcher.TransferCreditedTwice | crates/aqua-timestamp/src/watcher.rs:206-226 | A transfer of 5 whose commit landed but reported an error is credited 10 after the next poll |
| Watcher.RepeatedSenderIsUndercredited | crates/aqua-timestamp/src/watcher.rs:183-206 | Transfers of 5 and 7 by one sender in one window are credited as 7 |
| Watcher.CapNeverCuts | crates/aqua-timestamp/src/watcher.rs:66-66 | A window is at most a hundred blocks, so the scan's own cap leaves it whole |
| Watcher.EveryWatchKeeps | crates/aqua-timestamp/src/watcher.rs:148-226 | Over every run the windows cover base to watermark exactly once, and the memory is in step with the store except right after a commit that reported an error |
| Watcher.WindowCreditsLast | crates/aqua-timestamp/src/watcher.rs:183-206 | A window adds to each sender its last transfer of that window, saturated |
| Watcher.LastIsSumIffOnce | crates/aqua-timestamp/src/watcher.rs:183-206 | The last transfer is the sum exactly when there is at most one |
| Watcher.ScanBlocks | crates/aqua-timestamp/src/watcher.rs:58-88 | The loop fails exactly when a block of the capped range cannot be fetched, else returns its transfers in order |
| Watcher.BlockWatcher.PollOnce | crates/aqua-timestamp/src/watcher.rs:148-226 | One turn of the loop moves the store and the watermarks exactly as the poll function says |
| Watcher.BlockWatcher.UpsertWithWatermark | crates/aqua-timestamp-core/src/storage.rs:598-617 | Entries and watermark land in one commit, the last entry of a sender standing |
| Watcher.BlockWatcher.Start | crates/aqua-timestamp/src/watcher.rs:129-147 | The watermark resumes from the store, else from the current block, else from zero; from zero when the store cannot be read |

## Left out

- The RFC 9162 tree, shielding, proofs, signatures and link hashing: they live in aqua-rs-sdk, which is not part of this model; inclusion and signature verification are functions of the hosts.
- EVM RPC, the TSA protocol, fjall internals, timers, event streams and HTTP extraction: only their outcomes appear.
- Records written before the self-check existed: runs start from an empty store, so 410 is proved unreachable rather than exercised.
- The bonding-curve seal loop and its floating-point interval.
- The client crate, the e2e crate, configuration checks, documentation and landing pages.
- Service.Timestamper.Append: the checks before a submission reaches the open epoch (allowlist, request size, leaf spelling) and the answer to the client are not modelled; the spellings are `Merkle.ParseAcceptsExactlyTheSpellings`.
- Listings.UnionForEpoch: pairs are enumerated in no particular order; the sort by file name only orders the JSON.
- Listings.ListWitnesses: the order of the listing by file name is not stated.
- Listings.Totals: counts are unbounded integers; `Listings.TotalsFit` shows that the 64-bit sum does not wrap below 2^44 epochs.
- The legacy list of tips for a DID and the leaderboard listings: plain scans.
- Routes.ByTipIsExact: a tip is a symbolic hash, so the 400 for a tip that is not one is not modelled.
- Routes.ByLeafIsExact: store read errors, which the route answers with 400 (or, for the stalled scan, with the pending body), are not modelled.
- Watcher.CreditingIsExact: contributor reads are assumed to succeed (a failed one is treated by the code as a new contributor), and the chain as fixed (no reorganisation); the satoshi and hash counters and the DID text of a contributor are carried, not computed; a transferred value over 128 bits, on which the conversion panics, is excluded.
- Merkle.ParseAcceptsExactlyTheSpellings: a character stands for one byte; multi-byte text is not modelled.
