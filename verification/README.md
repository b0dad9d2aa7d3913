# The rollup node's L1 to L2 protocol in Dafny

An Optimism rollup node (`op-node`) turns L1 blocks into L2 blocks. A sequencer builds L2 blocks ahead
of L1, a batch submitter (`op-batcher`) posts their transactions to L1 in bundles, and every verifier
derives the same L2 blocks from L1 again. This project models that loop and the parts it rests on, and
proves what it is for: a verifier confirms the blocks a sequencer built for an epoch once their batches
land, derivation does not depend on the unsafe chain, the submitter's bundles tile the chain, and the
driver's heads and its window of L1 blocks stay consistent over every run, through reorgs, failures and
lost replies. Where sequencer and verifier part, because derivation moves on to an L1 origin whose time
has not come, the exact condition is proved too.

`dafny verify dfyconfig.toml` checks everything.

## How it is built

| part | modules |
|---|---|
| shared values, numbers and buffers | Types, Numbers, Buffers |
| the execution engine as a growing block tree | Engine |
| attributes, insertHeadBlock, verifySafeBlock, insertEpoch, createNewBlock | Output, OutputImpl, EpochContent, Progress |
| filtering and filling batches | Derivation |
| FindL2Heads | Sync, SyncSpec |
| the driver's state machine and its runs | Driver, DriverRuns, DriverLaws, ChainRules, DriverImpl |
| RLP, batches, L1 info, deposits | Rlp, BatchCodec, L1Info, Deposits, SourceHashes |
| bundling and submitting | BlockBatch, Bundle, BundleLaws, BundleBuilder, Batcher |
| sequencer and verifier agree, and where they part | Agreement, Posting, EndToEnd, Sequencing, Origins |
| SSZ | Ssz, SszImpl |
| the request pool and the L1 cache | FetchBatched, L1Cache |
| the transaction manager | SendStates, TxManager |

Each operation has a function that says what it computes. Where the source works by changing things, a
method or a class with the source's loops and fields is proved equal to that function, and the theorems
are about the functions.

The environment enters as data. The engine answers every call from a tape of replies (accepted, refused,
carried out but the answer lost, a built payload); a payload built with noTxPool holds exactly the given
transactions, as engine_forkchoiceUpdatedV1, engine_getPayloadV1 and engine_newPayloadV1 with the
extensions of `specs/exec-engine.md` promise. L1 is the set of all its blocks by hash, and each driver
event carries what L1 answered while it was handled. Goroutines, timers and contexts are interleavings in
which any enabled step may come next. Keccak is an arbitrary function; a theorem that needs it free of
collisions says on which inputs.

## Where code and documentation disagree

The model follows the code.

- `specs/rollup-node.md:122` says an L2 block is never stamped before its L1 origin. Derived blocks can be.
  `Origins.FirstEpochNotBeforeOrigin` gives the exact condition for the epoch right above genesis and
  `Origins.NextEpochNotBeforeOrigin` for every later one; `Origins.FirstEpochCanPrecedeOrigin` and
  `Derivation.NextEpochCanPrecedeOrigin` are inputs that fail it.
- The sequencer does keep to that rule (`op-node/rollup/driver/state.go:245-252`), so when an epoch ends before the
  next L1 block's time it builds on the old origin once more, and the next epoch replaces that block:
  `Origins.NextBlockOriginExact`, `Origins.UnreachedBlockIsReplaced`.
- `op-node/rollup/sync/start.go:27-28` ties the safe head to windows complete in the canonical L1 chain. The
  code counts the window down from the highest canonical origin of the L2 chain, not from the L1 head.
  `SyncSpec.DocumentedSafeFromOrigins` says exactly when the two agree, and `SyncSpec.SafeCanLagBehind` is a chain
  where they do not.
- `op-node/l1/batching.go:59` says the channel capacity keeps goroutines from getting stuck on writing.
  `FetchBatched.StuckWriterExact` says exactly when a worker can get stuck for ever, and `FetchBatched.BlockingExact`
  exactly when the whole call can.
- The fuzz test `op-node/l2/ssz_test.go:12` says the decoder never panics. `Ssz.DecodePanics` says exactly
  when it does, and `Ssz.ZerosPanic` is such an input.
- `op-batcher/db/history_db.go:38-42` sorts a copy of the history that is then not used. That makes no difference
  exactly for ascending histories (`Batcher.HighestCommonExact`); `Batcher.ReorgLeavesDescent` is one that is not.
- `op-node/node/api.go:205-211` sends an undersized bundle to avoid live locking. It compares the minimum with the
  summed estimates and not with the bundle, so a submitter can still poll in vain for ever:
  `BundleLaws.InVainForGood` says exactly when, and `BundleLaws.PlainInVain` is a chain on which it does.
- `op-node/rollup/driver/state.go:184-187` keeps the driver's safe head when a higher one was found, after the engine
  was given the higher one. Sequencing then takes the engine's safe block back.
  `DriverLaws.SafeBlockHeldExact` and `DriverLaws.SignalAgreesExact` say exactly when this happens, and
  `DriverLaws.SequencingCanMoveSafeBlock` is such a run.
- `op-node/rollup/driver/state.go:319-342` takes a peer's block at the safe head's own height. From there insertEpoch finds
  no block above the safe head and fails (`Progress.PeerBesideSafeHead`, `Progress.DeadEnd`).
- The size estimate of `op-node/node/api.go:185-212` bounds the bundle for every list but the empty one, which
  is never encoded.
- `Start` (`op-node/rollup/driver/state.go:64-106`) sends no forkchoice, so the engine may be on a descendant of
  the unsafe head it starts from. The contracts of insertEpoch allow for that.

## Model

| member | source | states |
|---|---|---|
| `EndToEnd.SubmittedEpochIsConfirmed` | op-node/rollup/driver/step.go:161-281 | However the submitter polled, failed and resubmitted: when its posts of a stretch of the chain that covers an epoch are what the L1 window holds, insertEpoch, failing or not, takes no reorg branch and leaves the engine on a chain that contains the whole unsafe chain; on success it has reorganised nothing and the new safe head runs through the same sequenced blocks |
| `EndToEnd.WindowReadsChain` | op-node/rollup/derive/payload_attributes.go:227-253 | What the verifier reads from the inbox of such a window are the batches of the chain between two recorded blocks, each once and in order |
| `EndToEnd.WindowHoldsEpoch` | op-node/rollup/derive/payload_attributes.go:227-253 | Among those batches, the ones tagged with the epoch are exactly the submissions of the epoch's non-empty blocks |
| `EndToEnd.SequencedIsWhole` | op-node/rollup/driver/step.go:78-157 | On a chain that follows the block rules, the blocks of a sequenced epoch are all the blocks with that L1 origin number |
| `EndToEnd.ListsReadInbox` | op-node/rollup/derive/payload_attributes.go:227-253 | The batches of the window are the decoded calldata the batch sender sent to the inbox, malformed calldata and foreign transactions skipped |
| `Agreement.SequencerVerifierAgreement` | op-node/rollup/driver/step.go:205-278 | If an epoch's blocks were sequenced on the safe head and their batches land as the first valid ones, insertEpoch, failing or not, takes no reorg branch and leaves the engine on a chain that contains the whole unsafe chain; on success it has reorganised nothing and confirms those very blocks |
| `Progress.AcceptedEpochIsConfirmed` | op-node/rollup/driver/step.go:161-281 | If the chain goes on above that epoch and the engine accepts two calls for each of its k blocks, insertEpoch succeeds: the unsafe head stays and the safe head is the epoch's last block |
| `Agreement.ReorgReported` | op-node/rollup/driver/step.go:214-281 | A successful insertEpoch reports a reorg exactly when some iteration took the reorg branch |
| `Agreement.ConfirmingLoop` | op-node/rollup/driver/step.go:214-280 | While the unsafe chain carries the derived attributes, no iteration that is reached takes the reorg branch, and whether the loop succeeds or fails half way the engine's chain still contains all of the unsafe chain |
| `Agreement.ConfirmingStep` | op-node/rollup/driver/step.go:240-278 | The same for one iteration, on its match and insert branches, succeeding or failing |
| `Agreement.MovesOnWhenDue` | op-node/rollup/driver/state.go:246-252 | A chain goes on with a block of the next L1 origin only when that origin's time has come, because the driver refuses to build a block before its origin |
| `Agreement.CreateNewL2BlockSequences` | op-node/rollup/driver/state.go:230-272 | Whatever moves the unsafe head in the sequencing step is a block built from the sequencer's attributes and not stamped before its L1 origin |
| `Agreement.DerivedMatchesSequenced` | op-node/rollup/driver/step.go:214-240 | The attributes derived for slot j are those of the block the sequencer made for it |
| `Agreement.SlotsCoverEpoch` | op-node/rollup/derive/payload_attributes.go:304-335 | The verifier fills at least the epoch's slots, and exactly those once the next L1 time is in reach of the last one |
| `Agreement.SequencedContent` | op-node/rollup/driver/step.go:78-157 | A sequenced block of slot j: its time, its forced transactions, only sequenced transactions after them, and none once the drift limit is reached |
| `Agreement.CreateNewBlockSequences` | op-node/rollup/driver/step.go:78-157 | createNewBlock puts on the head a block built from the sequencer's attributes for that origin; the engine ends on it, with the safe block it was given |
| `Agreement.SubmissionContent` | op-node/l2/util.go:87-122 | The batch of a sequenced block holds its time, its epoch and exactly its sequenced transactions; no batch only when there are none |
| `Agreement.SubmissionIsValid` | op-node/rollup/derive/payload_attributes.go:272-297 | The batch of a sequenced block passes the verifier's filter |
| `Posting.PostedEpochIsConfirmed` | op-node/rollup/driver/step.go:161-281 | In any reachable driver state, an epoch whose window batches are its submissions is confirmed in the same sense, failing or not |
| `Posting.PostedSubmissionsLand` | op-node/rollup/derive/payload_attributes.go:255-270 | Submissions that are all the window holds for the epoch become the first valid batch of their slots |
| `Posting.SubmissionsDecide` | op-node/rollup/derive/payload_attributes.go:255-297 | Among the submissions of an epoch the first valid batch for slot j is the one made for it, and there is none for other slots |
| `Posting.PostedBundleIsRead` | op-node/rollup/derive/payload_attributes.go:227-253 | A bundle posted by the batch sender is read back, whatever follows it in the calldata |
| `Posting.OriginMovesOnWhenDue` | op-node/rollup/driver/state.go:195-226 | findL1Origin moves to the next L1 origin, also when it is the L1 head, only when the next block's time has reached it |
| `Sequencing.RunFromHeadSequences` | op-node/rollup/driver/state.go:230-272 | Over every run in which only sequencing moves the unsafe head, with extensions, confirming epochs and failures in between, every block it adds is sequenced for the L1 origin it records, and stays so as the tree grows |
| `Sequencing.RunSequences` | op-node/rollup/driver/state.go:230-272 | The same from any height above which the chain is sequenced |
| `Sequencing.SequencedEpochOf` | op-node/rollup/driver/step.go:78-157 | The blocks of such a chain that record the next L1 origin are a sequenced epoch, as the agreement theorems assume |
| `Origins.NextBlockOriginExact` | op-node/rollup/driver/state.go:230-272 | After an inserted epoch with the heads together, the block the driver sequences next is on the next L1 origin if and only if the epoch reached it |
| `Origins.NextOriginExact` | op-node/rollup/driver/state.go:195-226 | findL1Origin then chooses the next L1 block exactly in that case, and otherwise the epoch's origin once more |
| `Origins.UnreachedBlockIsReplaced` | op-node/rollup/driver/step.go:308-338 | In the other case the first iteration of the next epoch finds that block and takes the reorg branch |
| `Origins.OtherOriginIsReplaced` | op-node/rollup/driver/step.go:308-338 | The same for any block sequenced on the safe head for another origin than the next epoch's |
| `Origins.WrongOriginIsReplaced` | op-node/rollup/driver/step.go:308-338 | An iteration that finds a block on another L1 origin above the safe head takes the reorg branch |
| `DriverRuns.WindowInvariant` | op-node/rollup/driver/state.go:134-313 | Over every run (extensions, reorgs, epochs, failures, lost replies, peer payloads) the window is an unbroken L1 chain that starts with a child of the safe head's origin |
| `DriverRuns.WindowGuardsNeverFire` | op-node/rollup/driver/step.go:163-186 | From Start on, insertEpoch never reports a window of the wrong size or one that does not extend the safe origin |
| `DriverRuns.StepInv` | op-node/rollup/driver/state.go:141-342 | Every step, failing or not, keeps that invariant and only adds blocks to the engine's tree |
| `DriverRuns.StepOrder` | op-node/rollup/driver/state.go:141-342 | Steps whose failures leave the engine's head alone keep safe number <= unsafe number, keep the safe head an ancestor without peer payloads, and the safe number drops only when an L1 signal is not for the L1 head or a child of it, and rises only in an epoch request |
| `DriverLaws.SignalOffHead` | op-node/rollup/driver/state.go:157-191 | A signal for a block that is neither the L1 head nor its child, on a steady L1: on success the L1 head is the new one, the window is empty, the unsafe head and the engine's pair are the found ones, and the safe head is the lower of the old and the found one; on failure heads and window stay |
| `DriverLaws.SignalSucceeds` | op-node/rollup/driver/state.go:157-191 | It succeeds, when every request is answered, if and only if a block less than 500 below the head has a canonical origin and the engine accepts |
| `DriverLaws.FoundOnce` | op-node/rollup/sync/start.go:91-197 | For one chain and L1 view the found pair is unique |
| `DriverLaws.SignalOnHead` | op-node/rollup/driver/state.go:141-153 | A signal of the L1 head changes nothing; its child becomes the L1 head and joins the window exactly when it continues it |
| `DriverLaws.EpochRequestExact` | op-node/rollup/driver/state.go:277-313 | Every outcome of an epoch request: no window to work on, a window still short, an inserted epoch that takes the first entry off the window, and a failed one that keeps both heads and clears it |
| `DriverLaws.ExtendWindowExact` | op-node/rollup/driver/state.go:278-291 | The window worked on is the old one when full, and otherwise the old one with what an L1Range answer adds |
| `DriverLaws.L1RangeExact` | op-node/l1/source.go:324-367 | L1Range returns a list if and only if it is the headers before the first miss, each the child of the one before |
| `DriverLaws.SafeRisesByEpochsOnly` | op-node/rollup/driver/state.go:141-342 | Over every run without epoch requests the safe head never rises |
| `DriverLaws.UnconfirmedStep` | op-node/rollup/driver/state.go:230-342 | After a step that sequenced a block or took a peer's the engine is on it and its safe block is the driver's safe head; in any other outcome its safe block is the one it had or that; nothing else changes |
| `DriverLaws.SafeBlockHeld` | op-node/rollup/driver/state.go:230-342 | Over every run of such steps the engine's safe block never moves, when it starts as the driver's safe head |
| `DriverLaws.SafeBlockHeldExact` | op-node/rollup/driver/state.go:230-342 | Whatever the engine answers, such steps leave its safe block alone if and only if it is the driver's safe head |
| `DriverLaws.SignalAgreesExact` | op-node/rollup/driver/state.go:170-189 | After a signal off the head the two agree if and only if the found safe head is not higher than the driver's, or the same block |
| `DriverLaws.EpochAgrees` | op-node/rollup/driver/state.go:292-312 | After an inserted epoch they agree |
| `DriverLaws.SequencingCanMoveSafeBlock` | op-node/rollup/driver/state.go:170-189 | A concrete run in which a signal raises the engine's safe block above the driver's and sequencing takes it back |
| `DriverLaws.StartExact` | op-node/rollup/driver/state.go:64-106 | Start takes the found heads below the engine's head, or genesis for both while L1 has not passed it, and leaves the engine alone |
| `Progress.SequenceExact` | op-node/rollup/driver/state.go:230-272 | A sequencing step in every case; on an engine that builds p and accepts, p becomes the head exactly when it may follow it: next number and time, randao and fee recipient, forced transactions first, only sequenced ones behind, none past the drift limit |
| `Progress.PeerPayloadExact` | op-node/rollup/driver/state.go:319-342 | A peer's payload in every case, on an accepting engine: ignored below the safe head, refused when its origin is unreadable or it cannot join the chain, and otherwise the new head |
| `Progress.PeerBesideSafeHead` | op-node/rollup/driver/state.go:319-342 | A peer's block beside the safe head is taken as the new head, and then every insertEpoch fails |
| `DriverRuns.SafeNeverAboveUnsafe` | op-node/rollup/driver/state.go:141-342 | Over every such run the safe head is never higher than the unsafe head |
| `DriverRuns.SafeAlwaysAncestor` | op-node/rollup/driver/state.go:141-313 | Over every such run without peer payloads the safe head is the unsafe head or an ancestor of it |
| `DriverRuns.StartInv` | op-node/rollup/driver/state.go:64-106 | Start establishes all of these invariants, although it sends no forkchoice |
| `DriverRuns.HandleNewL1BlockInv` | op-node/rollup/driver/state.go:141-191 | An L1 signal keeps the window invariant, leaves the engine's tree alone and never raises the safe number |
| `DriverRuns.HandleEpochInv` | op-node/rollup/driver/state.go:277-313 | An epoch request keeps the window invariant, failing or not |
| `DriverRuns.InsertEpochRefs` | op-node/rollup/driver/step.go:161-281 | A successful epoch on a linked window gives a safe head whose L1 origin is the window's first block |
| `DriverRuns.CreateNewBlockRef` | op-node/rollup/driver/step.go:78-157 | A sequenced block is a child of the old head, its reference describes it, and the engine ends on it with the driver's safe head for safe |
| `Driver.RunL1Range` | op-node/l1/source.go:324-367 | The range loop returns what the chain of parent checks allows: the longest found prefix, or an error |
| `Driver.L1RangeLinked` | op-node/l1/source.go:324-367 | A returned range is an unbroken chain of L1 blocks on top of its start |
| `DriverImpl.Loop.OnL1Signal` | op-node/rollup/driver/state.go:141-191 | The handler assigns the fields exactly as the L1 step of the model, never raises the safe head, and keeps the window invariant and, when it fails quietly, the order of the heads |
| `DriverImpl.Loop.OnNewBlock` | op-node/rollup/driver/state.go:230-272 | The handler is the sequencing step, whose head has moved even when publication fails; the engine is then on that head and keeps the driver's safe head for safe; and keeps the invariants |
| `DriverImpl.Loop.OnEpochRequest` | op-node/rollup/driver/state.go:277-313 | The handler is the epoch step (window extended, trimmed by one on success, cleared on failure) and keeps the invariants |
| `DriverImpl.Loop.OnUnsafePayload` | op-node/rollup/driver/state.go:319-342 | The handler is the peer payload step; a new head is the engine's head and the driver's safe head its safe block; and keeps the invariants |
| `DriverImpl.Loop.constructor` | op-node/rollup/driver/state.go:17-62 | The object starts in the given driver state |
| `Output.InsertEpochContract` | op-node/rollup/driver/step.go:161-281 | On success the new safe head is exactly as many blocks above the old one as there are slots (at least one), each carrying its derived attributes; the unsafe head is at or above it, the engine's forkchoice is the returned pair, and heads that have met stay equal |
| `EpochContent.InsertedBlocks` | op-node/rollup/driver/step.go:188-280 | Block i of an inserted epoch is stamped safe time + (i + 1) * block time, has the origin's randao, the L1 info with number i, the deposits exactly when i is 0, and then the first batch of the window that counts for its time or nothing |
| `EpochContent.InsertedEnd` | op-node/rollup/driver/step.go:205-239 | The epoch ends at the latest time at which a batch counts or the last one a block time before the next L1 time, whichever is later, and below the drift limit written out |
| `EpochContent.InsertedPayFees` | op-node/rollup/driver/step.go:220-280 | Failing or not, every block insertEpoch adds to the engine's tree pays the configured fee recipient and has the origin's randao |
| `EpochContent.InsertedTime` | op-node/rollup/driver/step.go:220-280 | A successful insertEpoch adds at least one block, and its blocks stand one block time apart |
| `EpochContent.EmptyPastDrift` | op-node/rollup/driver/step.go:206-212 | A block after the first one, from the drift limit on, holds its L1 info transaction alone |
| `EpochContent.FirstCountingBatchLands` | op-node/rollup/derive/payload_attributes.go:255-297 | The first batch that counts for a block's time is what the block holds |
| `Progress.InsertEpochSucceeds` | op-node/rollup/driver/step.go:161-281 | On an engine that accepts every call and builds what it is asked for, insertEpoch succeeds if and only if the heads are together or the engine's chain goes on above the safe head |
| `Progress.DeadEnd` | op-node/rollup/driver/step.go:308-338 | Heads apart with the engine no higher than the safe head: insertEpoch fails whatever is answered |
| `Progress.CreateNewBlockExact` | op-node/rollup/driver/step.go:78-157 | On an engine that builds p, createNewBlock succeeds exactly when p may follow the head; the engine ends on p with the given safe block, and the reference has p's fields, the origin and the sequence number |
| `Progress.ProcessBlockExact` | op-node/rollup/driver/step.go:57-74 | On an accepting engine processBlock succeeds exactly when the payload can join the tree |
| `Progress.InsertHeadBlockBuilds` | op-node/rollup/driver/step.go:342-406 | On an engine that builds p, insertHeadBlock succeeds exactly when p is as asked, sane and insertable |
| `Output.EpochLoopContract` | op-node/rollup/driver/step.go:214-280 | The same for the loop over any list of attributes, with the reorg flag carried over |
| `Output.EpochStepContract` | op-node/rollup/driver/step.go:240-278 | One iteration over its verify, reorg and insert branches |
| `Output.DerivationIndependentOfUnsafeChain` | op-node/rollup/driver/step.go:220-335 | Two successful runs from one safe head and window, on different engines and unsafe heads, give equally many blocks with the same timestamps, randao and transactions |
| `Output.InsertHeadBlockTree` | op-node/rollup/driver/step.go:342-406 | Failing or not, insertHeadBlock adds at most one block, built as asked on the forkchoice head; on success the engine's heads are the new ones |
| `Output.EpochStepTree` | op-node/rollup/driver/step.go:240-278 | Failing or not, an iteration adds at most one block, built on the safe head |
| `Output.EpochLoopTree` | op-node/rollup/driver/step.go:214-280 | Failing or not, the loop only adds blocks to the engine's tree |
| `Output.AttributesMatchBlock` | op-node/rollup/driver/step.go:285-304 | True exactly when parent, timestamp, randao and all transactions agree; the fee recipient is not compared |
| `Output.LastDeposit` | op-node/rollup/driver/step.go:41-55 | The index of the last of the leading deposits; an error only when an empty transaction is met |
| `Output.CheckDeposits` | op-node/rollup/driver/step.go:358-381 | Accepts exactly the payloads that start with a deposit, have no empty transaction and no deposit after another kind; panics exactly on an empty first transaction |
| `Output.BuiltNeverCrashes` | op-node/rollup/driver/step.go:358-364 | That panic never happens on a payload built from the sequencer's or an epoch's attributes |
| `Output.InsertHeadBlockHead` | op-node/rollup/driver/step.go:342-406 | Failing or not, insertHeadBlock leaves the engine where it was, on the forkchoice head, or on the block built on it |
| `Output.BatchesFromEVMTransactions` | op-node/rollup/derive/payload_attributes.go:227-253 | The two loops return the batches of the accepted transactions in order |
| `OutputImpl.ContiguousBatches` | op-node/rollup/driver/step.go:205-212 | The loops that filter and fill are the slot function, and from genesis on slot i is stamped safe time + (i + 1) * block time and holds the first batch of the window that counts: right epoch, aligned, in time under the drift limit written out, and without deposits |
| `OutputImpl.Impl.RunInsertHeadBlock` | op-node/rollup/driver/step.go:342-406 | The method changes the engine and answers as the specification, call by call |
| `OutputImpl.Impl.RunVerifySafeBlock` | op-node/rollup/driver/step.go:308-338 | The same for verifySafeBlock |
| `OutputImpl.Impl.RunEpochLoop` | op-node/rollup/driver/step.go:214-280 | The loop with its mutable heads and flags is the specified loop |
| `OutputImpl.Impl.RunInsertEpoch` | op-node/rollup/driver/step.go:161-281 | The same for insertEpoch with its guards |
| `OutputImpl.Impl.RunCreateNewBlock` | op-node/rollup/driver/step.go:78-157 | The same for createNewBlock; on success the engine ends on the new block with the safe block it was given |
| `OutputImpl.Impl.RunProcessBlock` | op-node/rollup/driver/step.go:57-74 | The same for processBlock |
| `Engine.InsertKeepsTree` | op-node/l2/source.go:107-137 | A payload the engine may insert keeps the tree a tree and changes no block |
| `Engine.LookupTotal` | op-node/l2/source.go:54-68 | Every height from genesis up to a block has exactly one block on its chain |
| `Engine.LookupParent` | op-node/l2/source.go:54-68 | One height below a block of the chain stands its parent |
| `Engine.AncestorGrows` | op-node/l2/source.go:54-68 | Ancestry survives every growth of the tree |
| `ChainRules.RulesInvariant` | op-node/rollup/driver/step.go:78-281 | Over every run every block of the tree follows its parent: one block time later, the same origin with the next sequence number or the next origin with number 0, deposits exactly at the start of an epoch, sequenced transactions after them |
| `ChainRules.StepRule` | op-node/rollup/driver/state.go:141-342 | Every step keeps the rules, also the steps that fail half way |
| `ChainRules.CreateNewBlockRule` | op-node/rollup/driver/step.go:78-157 | Sequenced blocks follow the rules |
| `ChainRules.InsertEpochRule` | op-node/rollup/driver/step.go:161-281 | Derived blocks follow the rules |
| `ChainRules.TimeLaw` | op-node/rollup/driver/step.go:127-132 | Every block is stamped genesis time + block time * height above genesis |
| `ChainRules.SpanIsAligned` | op-node/rollup/driver/step.go:206-212 | In every reachable state the next epoch's first slot is a whole number of blocks after genesis |
| `ChainRules.NoBatchLostInAnyRun` | op-node/rollup/driver/step.go:205-212 | So in every reachable state insertEpoch uses every batch that survives filtering |
| `ChainRules.EpochTimeBounds` | op-node/rollup/driver/step.go:206-239 | The next epoch starts later than the next L1 time less one block time, and the inserted epoch ends before the origin's time plus the drift, two block times after the old safe head, or the next L1 time |
| `ChainRules.InsertedSafeTime` | op-node/rollup/driver/step.go:206-239 | An inserted epoch ends at its last slot, and the next block belongs at the slot after it |
| `Derivation.FilterBatches` | op-node/rollup/derive/payload_attributes.go:255-270 | The one-pass filter returns the batches that are first valid for their time |
| `Derivation.FilteredIsFirstValid` | op-node/rollup/derive/payload_attributes.go:255-270 | A batch survives if and only if it is the first valid one for its time; one batch per time |
| `Derivation.FirstValidIsValid` | op-node/rollup/derive/payload_attributes.go:272-297 | The first valid batch is valid and of the list, and there is none only when no batch is valid for that time |
| `Derivation.IndexBatches` | op-node/rollup/derive/payload_attributes.go:304-322 | The first loop yields the last batch per time and the last time to reach |
| `Derivation.FillMissingBatches` | op-node/rollup/derive/payload_attributes.go:304-335 | The map and the counting loop produce one batch per slot |
| `Derivation.DeriveSlotsSpec` | op-node/rollup/derive/payload_attributes.go:255-335 | Filter then fill: at least one slot, slot i stamped minTime + i * blockTime, holding the first valid input batch for that time or an empty batch of this epoch |
| `Derivation.DeriveSlotsLength` | op-node/rollup/derive/payload_attributes.go:304-335 | Slot i exists exactly when its time does not pass the last time to reach |
| `Derivation.ValidBatchExact` | op-node/rollup/derive/payload_attributes.go:272-297 | From genesis on, the wrapping uint64 subtraction of ValidBatch is the exact one |
| `Derivation.ValidBatchWrapsBeforeGenesis` | op-node/rollup/derive/payload_attributes.go:272-297 | For limits before genesis, which insertEpoch never passes (see ChainRules.SpanIsAligned), it is not: a concrete batch that only passes because of the wrap |
| `Derivation.NoBatchLost` | op-node/rollup/derive/payload_attributes.go:255-335 | No filtered batch is lost if and only if nothing was filtered in or the first slot is aligned with genesis |
| `Derivation.FilteredBatchHasSlot` | op-node/rollup/derive/payload_attributes.go:304-335 | A filtered batch has a slot exactly when it is a whole number of blocks after the first one |
| `Derivation.SlotsBelowLimit` | op-node/rollup/derive/payload_attributes.go:310-333 | No slot reaches both the drift limit and the next L1 time |
| `Derivation.NextEpochNearOrigin` | op-node/rollup/derive/payload_attributes.go:310-333 | The next epoch starts less than one block before its L1 origin's time |
| `Derivation.NextEpochNotBeforeOrigin` | specs/rollup-node.md:122-123 | The slot after an epoch is not before the next L1 time if and only if that time is at most one block after the first slot, falls on a slot, or a valid batch reaches the last slot before it |
| `Origins.NextEpochNotBeforeOrigin` | specs/rollup-node.md:122-123 | For every epoch that follows an inserted one, the documented claim that no block precedes its L1 origin holds if and only if the inserted epoch reached that origin in this sense |
| `Origins.FirstEpochNotBeforeOrigin` | specs/rollup-node.md:122-123 | For the epoch right above genesis it holds if and only if genesis time plus one block time reaches the origin |
| `Origins.EpochNotBeforeOrigin` | op-node/rollup/driver/step.go:205-212 | For any safe head and window, no slot of the epoch precedes the origin if and only if the safe block's time plus one block time reaches it |
| `Origins.NextBlockNotBeforeOrigin` | op-node/rollup/driver/step.go:206-239 | After a successful insertEpoch the next block time reaches the next L1 block if and only if the epoch reached it |
| `Origins.FirstEpochCanPrecedeOrigin` | specs/rollup-node.md:122-123 | A concrete driver state at genesis in which the first five blocks of the first epoch all precede their origin |
| `Derivation.NextEpochCanPrecedeOrigin` | specs/rollup-node.md:122-123 | A concrete epoch after which the next one starts before its origin |
| `Sync.RunFindL2Heads` | op-node/rollup/sync/start.go:91-197 | Both loops with their mutable variables are the specified walks, and terminate |
| `Sync.FindL2HeadsShape` | op-node/rollup/sync/start.go:91-197 | Whatever L1 answers, and however its answers change during the walk, safe is unsafe or an ancestor, and unsafe is start or an ancestor |
| `SyncSpec.FindL2HeadsSpec` | op-node/rollup/sync/start.go:91-197 | Unsafe is the highest block such that it and all its ancestors have canonical or ahead origins; safe is the highest block whose origin is exactly seqWindowSize - 1 below the highest canonical origin, or genesis, and has only canonical origins at and below it |
| `SyncSpec.FindL2HeadsSucceeds` | op-node/rollup/sync/start.go:91-197 | While every request is answered, heads are found if and only if a block less than 500 below start has a canonical origin |
| `SyncSpec.WalkToCanonicalSpec` | op-node/rollup/sync/start.go:94-157 | The first loop stops at the highest block with a canonical origin and holds the highest plausible one |
| `SyncSpec.WalkWindowSpec` | op-node/rollup/sync/start.go:159-197 | The second loop counts L1 origins exactly |
| `SyncSpec.UnsafeIsStartOrHighestCanonical` | op-node/rollup/sync/start.go:94-157 | The unsafe result is start or the highest block with a canonical origin |
| `SyncSpec.FindL2HeadsIdempotent` | op-node/rollup/sync/start.go:91-197 | Running it again from the unsafe result returns the same pair |
| `SyncSpec.DocumentedSafeExact` | op-node/rollup/sync/start.go:27-28 | The safe result is the documented one, the highest block whose window is complete within the canonical L1 chain, if and only if it is the highest block with a canonical origin or the window of the block above it is not complete |
| `SyncSpec.DocumentedSafeFromOrigins` | op-node/rollup/sync/start.go:27-28 | The same condition on the inputs: no block after genesis has an origin within the window below the highest canonical origin and yet a complete window below the L1 head |
| `SyncSpec.DocumentedAtL1Head` | op-node/rollup/sync/start.go:27-28 | In particular the documentation is met when the highest canonical origin is the L1 head |
| `SyncSpec.SafeCanLagBehind` | op-node/rollup/sync/start.go:27-28 | A concrete L2 chain and L1 view where the safe result is genesis although the next block's window is complete |
| `SyncSpec.CanonicalBelow` | op-node/rollup/sync/start.go:14-17 | Below a block with a canonical origin every origin is canonical |
| `SyncSpec.OriginsMonotone` | op-node/rollup/sync/start.go:14-17 | Origin numbers never decrease along a chain |
| `SourceHashes.SourceHashesDistinct` | op-node/rollup/derive/payload_attributes.go:38-64 | All deposits on one L2 chain, L1 info and user deposits across all epochs, have pairwise different source hashes, if Keccak does not collide on the inputs of the two |
| `SourceHashes.SourcesDistinct` | op-node/rollup/derive/payload_attributes.go:38-64 | No source (domain, L1 block, index) occurs twice on a chain |
| `SourceHashes.DepositCarriesSource` | op-node/rollup/derive/payload_attributes.go:175-225 | Transaction i of a block is a deposit exactly when the block has a source i, and then it carries that source's hash |
| `ChainRules.OriginProgress` | op-node/rollup/driver/step.go:88-98 | While the origin stays the sequence number counts the distance; a block that starts an epoch has an origin above all earlier ones |
| `ChainRules.SequenceBounded` | op-node/rollup/driver/step.go:88-98 | The sequence number never exceeds the height above genesis, so its wrap-around never happens |
| `Deposits.SourceHashInjective` | op-node/rollup/derive/payload_attributes.go:38-64 | Equal source hashes mean equal domain, L1 block and index |
| `Deposits.CheckReceipts` | op-node/l1/receipts.go:41-76 | The nested loop accepts exactly the answers in which no receipt is missing and all indices, block and transaction hashes are consistent |
| `Deposits.LogsNumbered` | op-node/l1/receipts.go:41-76 | Accepted receipts number the block's logs 0, 1, 2, ... |
| `Deposits.UserDeposits` | op-node/rollup/derive/payload_attributes.go:205-225 | The two loops return the deposit events of successful receipts in order |
| `Deposits.DeriveDeposits` | op-node/rollup/derive/payload_attributes.go:351-363 | One transaction per qualifying log, in order; read back, the i-th has the sender, receiver, mint, value, gas and data of the i-th log's event and the source hash of its block and index |
| `Deposits.UserDepositLogsExact` | op-node/rollup/derive/payload_attributes.go:205-225 | A log becomes a deposit if and only if it is a decodable deposit event of the contract in a successful receipt |
| `Deposits.InfoDepositContent` | op-node/rollup/derive/payload_attributes.go:175-201 | The L1 info deposit is sent by the depositor account to the predeploy, with mint and value 0, the fixed gas and the info as data |
| `SourceHashes.DepositContentOnChain` | op-node/rollup/derive/payload_attributes.go:175-225 | On a chain, each deposit of a block carries its log's event, or is that L1 info deposit |
| `Deposits.UserDepositLogsIncreasing` | op-node/rollup/derive/payload_attributes.go:205-225 | Deposit logs keep the increasing log indices |
| `Deposits.ConcreteCodecSound` | op-node/l2/source.go:222-258 | With the real encodings, origin and sequence number are read back from every block, and batch times fit 64 bits |
| `L1Info.InfoRoundTrip` | op-node/rollup/derive/l1_block_info.go:23-65 | The L1 info of a block is read back exactly |
| `L1Info.InfoCanonical` | op-node/rollup/derive/l1_block_info.go:40-65 | Accepted calldata is the encoding of what it is read as, up to the selector, which is not checked |
| `L1Info.MarshalInfo` | op-node/rollup/derive/l1_block_info.go:23-38 | The buffer writes with a moving offset produce the encoding |
| `L1Info.DepositRoundTrip` | op-node/rollup/derive/payload_attributes.go:338-349 | A deposit transaction is decoded back exactly |
| `BatchCodec.BundleRoundTrip` | op-node/rollup/derive/batch.go:60-121 | Decoding an encoded bundle returns its batches, whatever follows it |
| `BatchCodec.BundleCanonical` | op-node/rollup/derive/batch.go:60-78 | An accepted bundle is the encoding of the batches it is read as, followed by ignored bytes |
| `BatchCodec.WriteBatches` | op-node/rollup/derive/batch.go:80-99 | The writing loop produces the encoding |
| `BatchCodec.ReadBatches` | op-node/rollup/derive/batch.go:60-78 | The reading steps decode it |
| `BatchCodec.ReadAll` | op-node/rollup/derive/batch.go:124-153 | Every element of the list is decoded, or the whole list is refused |
| `BatchCodec.SingleSizesBound` | op-node/node/api.go:185-212 | The sum of the single-batch sizes is at least the joint size if and only if there is a batch at all |
| `BatchCodec.HeaderSubadditive` | op-node/rollup/derive/batch.go:80-121 | A joint RLP list header is no longer than two separate ones |
| `Rlp.SplitCanonical` | op-node/rollup/derive/batch.go:124-153 | Whatever the RLP reader accepts is the encoding of what it returns |
| `Rlp.StringsRoundTrip` | op-node/rollup/derive/batch.go:101-116 | A list of strings is read back |
| `Rlp.StringsCanonical` | op-node/rollup/derive/batch.go:124-153 | An accepted list of strings is its own encoding |
| `Rlp.UintRoundTrip` | op-node/rollup/derive/batch.go:48-53 | A 64-bit number is read back |
| `BlockBatch.RunBlockToBatch` | op-node/l2/util.go:87-122 | The loop returns no batch for a block with one transaction, an error for a block without a readable L1 info deposit, else the non-deposits in order |
| `BlockBatch.NonDepositsAfter` | op-node/l2/util.go:87-122 | Behind its leading deposits, a block's batch is exactly the rest of the block |
| `Bundle.BundleSpec` | op-node/node/api.go:162-223 | Every response covers a gap-free range of canonical blocks after the first canonical block of the history; its bundle holds exactly the batches of the non-empty blocks in order, within the maximum size; and the range is as long as the limits allow |
| `BundleLaws.BundleExact` | op-node/node/api.go:129-268 | Every outcome: the errors with their causes; and with hi the unique height where collection stops, nothing is answered if and only if there is a batch, the joint encoding is below the minimum, and it is not a batch too large for the maximum that stopped the estimates short of the minimum; every other answer is the range with its joint encoding |
| `BundleLaws.CollectionExact` | op-node/node/api.go:162-223 | Collection stops at exactly one height, or meets a block that breaks it |
| `BundleLaws.SmallBundleIsForced` | op-node/node/api.go:205-212 | A non-empty bundle below the minimum was stopped by a batch too large for the maximum |
| `BundleLaws.InVainForGood` | op-node/node/api.go:205-268 | However far the chain grows, a submitter polls in vain for good if and only if its next block's batch alone exceeds the maximum, or the collected batches encode to less than the minimum while their estimates reach it or the block limit stops them |
| `BundleLaws.InVainInput` | op-node/node/api.go:205-268 | Such inputs: minimum and maximum both equal to the sum of the estimates of the next two batches, with a third one behind |
| `BundleLaws.PlainInVain` | op-node/node/api.go:205-268 | A concrete chain and client on which that happens |
| `BundleLaws.JointIsSmaller` | op-node/node/api.go:185-212 | Two or more batches encode to strictly less than their estimates |
| `Bundle.GreedySpec` | op-node/node/api.go:165-223 | The greedy loop stops only at the block limit, at a missing block, or before a batch that does not fit |
| `BundleBuilder.GetBatchBundle` | op-node/node/api.go:129-268 | The loops over history, blocks and candidates answer as the specification, which has no pruning, with the outcome BundleLaws.BundleExact states for every case |
| `BundleBuilder.FinishNeverPrunes` | op-node/node/api.go:225-267 | When the estimates fit, the first round of the prune loop answers: the prune branch is unreachable |
| `BundleBuilder.RunFinish` | op-node/node/api.go:225-267 | The prune loop terminates because every round drops a non-empty candidate; batches that fit the maximum are answered as they are, or with nothing exactly when they are below the minimum and that counts; what does not fit is answered pruned; no answer exceeds the maximum |
| `BundleBuilder.CollectCandidates` | op-node/node/api.go:162-223 | The greedy loop collects exactly the blocks up to the height at which it stops |
| `BundleBuilder.FindCommonPoint` | op-node/node/api.go:130-157 | The first history entry that is canonical, or an error of the client |
| `BundleBuilder.Pruned` | op-node/node/bundle_builder.go:57-70 | Pruning keeps a prefix of the candidates and drops exactly the last batch |
| `BundleBuilder.Builder.constructor` | op-node/node/bundle_builder.go:32-38 | A builder without candidates |
| `BundleBuilder.Builder.AddCandidate` | op-node/node/bundle_builder.go:41-46 | Appends the candidate and keeps the count of non-empty ones right |
| `BundleBuilder.Builder.HasNonEmptyCandidate` | op-node/node/bundle_builder.go:50-52 | True exactly when some candidate has a batch |
| `BundleBuilder.Builder.PruneLastNonEmpty` | op-node/node/bundle_builder.go:57-70 | Cuts the candidates at the last non-empty one |
| `BundleBuilder.Builder.Batches` | op-node/node/bundle_builder.go:74-83 | The batches of the non-empty candidates in order |
| `BundleBuilder.Builder.MakeResponse` | op-node/node/bundle_builder.go:88-101 | The last block of the response is the last candidate, or the previous block |
| `Batcher.SubmitterTilesChain` | op-batcher/sequencer/driver.go:67-141 | From an empty history file, over every run of polls on a chain that does not reorganise, with failures and any number of resubmissions: the recorded ranges tile the chain, and the posted bundles decode to the batches of exactly its non-empty blocks, each once and in order |
| `Batcher.PollsTile` | op-batcher/sequencer/driver.go:67-141 | The same from any history whose entries are blocks of the chain |
| `Batcher.PollContinues` | op-batcher/sequencer/driver.go:67-141 | Whatever a poll finds to record starts at the latest recorded block |
| `Batcher.AppendedTwice` | op-batcher/db/history_db.go:21-32 | Recording a block twice, as each resubmission does, is recording it once |
| `Batcher.History.AppendEntry` | op-batcher/db/history_db.go:21-32 | A known hash is not recorded again; only the newest entries are kept |
| `Batcher.History.LatestID` | op-batcher/db/history_db.go:17-19 | The entry added last |
| `Batcher.History.Ancestors` | op-batcher/db/history_db.go:34-50 | The hashes in reverse order of insertion; the sorted copy is not used |
| `Batcher.HighestCommonExact` | op-batcher/db/history_db.go:34-50 | For every client the common point is the highest recorded canonical block if and only if the history is ascending |
| `Batcher.AncestorsDescendExact` | op-batcher/db/history_db.go:38-47 | The ancestors come in descending order of number, as the sorted copy would, if and only if the history is ascending |
| `Batcher.ReorgLeavesDescent` | op-batcher/db/history_db.go:34-50 | A history after an L2 reorg, 0, 5, 3, for which a client with 5 and 3 canonical is sent back to 3 |
| `Batcher.Submitter.GetBlockRange` | op-batcher/sequencer/driver.go:67-141 | Clears the current batch, then keeps a bundle to post, records an empty range, does nothing, or reports an error of the history file or the request; with a client that answers a number with a block of that number, start and end differ exactly for a bundle to post |
| `Batcher.Submitter.SendTransaction` | op-batcher/sequencer/driver.go:224-238 | Records the range before publishing; does not publish when the history file cannot be written; succeeds exactly when both do |
| `Batcher.Submitter.RunRound` | op-proposer/service.go:100-172 | One round of the event loop, which goes on only when start and end differ, records at most one range, however often it publishes and whichever writes of the history file fail |
| `Batcher.WorkMovesUp` | op-batcher/sequencer/driver.go:102-141 | Whatever there is to record or post ends above the block it starts from |
| `Ssz.PayloadRoundTrip` | op-node/l2/ssz.go:27-225 | A payload below four gigabytes decodes back exactly when it has at most 32 bytes of extra data and at most 2^20 transactions; any other one is rejected |
| `Ssz.PayloadCanonical` | op-node/l2/ssz.go:122-225 | An accepted input re-encodes to the same bytes if and only if its transaction section is empty or its first offset is not zero |
| `Ssz.DecodePanics` | op-node/l2/ssz.go:122-225 | The decoder with every slice expression checked panics exactly when the transactions offset points into the fixed part, although its fuzz test says it never does |
| `Ssz.UnmarshalIsDecode` | op-node/l2/ssz.go:122-225 | Of all its slices only that of the extra data can fail; otherwise it computes the simple decoder |
| `Ssz.ZerosPanic` | op-node/l2/ssz.go:173-183 | A concrete input of 508 bytes that makes it panic |
| `Ssz.TxsRoundTrip` | op-node/l2/ssz.go:109-225 | A transaction list round-trips exactly when it is not longer than the limit |
| `Ssz.TxsCanonical` | op-node/l2/ssz.go:187-225 | An accepted transaction section is the encoding of what it is read as exactly when it is empty or its first offset is not zero |
| `Ssz.TrailingBytesIgnored` | op-node/l2/ssz.go:196-208 | Any bytes behind a zero first offset are dropped without an error |
| `Ssz.EncodeInjective` | op-node/l2/ssz.go:56-107 | Different payloads within the limits have different encodings |
| `SszImpl.SizeSSZ` | op-node/l2/ssz.go:27-36 | The 32-bit sum is the exact length of the encoding, modulo 2^32 |
| `SszImpl.MarshalSSZ` | op-node/l2/ssz.go:56-107 | The buffer, reused or new, ends up holding exactly the encoding; nothing of its old contents shows |
| `SszImpl.MarshalTransactions` | op-node/l2/ssz.go:109-119 | The loop writes the offset table and the transactions behind it, growing both together |
| `SszImpl.UnmarshalSSZ` | op-node/l2/ssz.go:122-185 | Slicing with a running offset decodes exactly the first scope bytes, refuses a short input, and panics where a slice does |
| `SszImpl.UnmarshalTransactions` | op-node/l2/ssz.go:187-225 | The loop over the offsets, slice by slice, is the recursive reader |
| `FetchBatched.AwaitedIsHeld` | op-node/l1/batching.go:33-135 | In every interleaving awaited is the number of elements in the queue, the task channel, the workers and the unread results; every request is held exactly once or retired exactly once, and has at most one successful attempt |
| `FetchBatched.AllFetchedIsComplete` | op-node/l1/batching.go:110-114 | nil is returned only after every request had exactly one successful attempt, with nothing held anywhere |
| `FetchBatched.SentBounded` | op-node/l1/batching.go:81-124 | At most maxCount + maxParallel batches are ever sent |
| `FetchBatched.ChecksExact` | op-node/l1/batching.go:112-120 | At its checks the main loop returns nil exactly when every request was retired, and too many retries exactly when some was not and more than maxCount batches were sent |
| `FetchBatched.StepConserves` | op-node/l1/batching.go:66-135 | Every step conserves every additive count of the elements |
| `FetchBatched.StepShaped` | op-node/l1/batching.go:59-79 | Channels respect their capacities, no batch is empty, and a report's success count is the number of its successful elements |
| `FetchBatched.SelectSplits` | op-node/l1/batching.go:34-47 | The elements to retry and the others make up the batch |
| `FetchBatched.BatchRequest` | op-node/l1/batching.go:34-47 | The loop collects the failed elements in order |
| `FetchBatched.BlockingExact` | op-node/l1/batching.go:56-135 | A state in which no goroutine can move before the call returns is reachable if and only if retries are allowed, there are workers, and there are more than three batches for each worker |
| `FetchBatched.StuckWriterExact` | op-node/l1/batching.go:59-60 | A state in which a worker waits for ever to write its result is reachable, although the channel capacity is said to be sufficient, if and only if retries are allowed, there are workers, and there are more batches than workers |
| `FetchBatched.StepPacked` | op-node/l1/batching.go:81-97 | Batches under way and batches still to be cut from the queue are together never more than expectedBatches, however failed elements regroup |
| `FetchBatched.FourRequestsCanBlock` | op-node/l1/batching.go:56-97 | One worker with four requests in batches of one can block; with three it cannot |
| `L1Cache.CacheTransparent` | op-node/l1/source.go:247-296 | After any calls and evictions, the lists returned are those of an uncached fetch of the same window, at every index |
| `L1Cache.ReachableCacheTrue` | op-node/l1/source.go:175-191 | Every reachable cache maps a hash to the transactions of that block |
| `L1Cache.OutcomeTrue` | op-node/l1/source.go:247-296 | From such a cache every list returned is the true one of its window index |
| `L1Cache.MissIndex` | op-node/l1/source.go:254-270 | Request k belongs to the window index with k misses before it: the remapping is exact |
| `L1Cache.Source.FetchAllTransactions` | op-node/l1/source.go:247-296 | Succeeds exactly when nothing is missing or the batch and every element are answered; each list is the cached one or the answer to that index's own request |
| `L1Cache.Source.Lookup` | op-node/l1/source.go:248-270 | Cached lists at their indices, and the indices of the others in order |
| `L1Cache.Source.Place` | op-node/l1/source.go:278-290 | Every delivered block is cached and its list put at the index it was requested for; bad data stops the loop |
| `L1Cache.Source.BlockCall` | op-node/l1/source.go:175-191 | A single block is returned and cached under its own hash |
| `TxManager.SendReturnsConfirmed` | op-proposer/txmgr/txmgr.go:115-236 | In every interleaving a returned receipt is of a transaction that was published, found with at least NumConfirmations unless the sum of height and confirmations overflows 64 bits |
| `TxManager.GivesUpOnlyWhenJustified` | op-proposer/txmgr/txmgr.go:133-236 | Send gives up only when its caller cancelled or a goroutine aborted, and every abort follows a check at which no transaction counted as mined and at least the threshold of nonce-too-low errors had come in since one last did |
| `TxManager.GoroutineStarts` | op-proposer/txmgr/txmgr.go:209-226 | In every interleaving a publication goroutine is added if and only if the resubmission timeout passes in a running Send while no transaction was last seen mined; no other move adds or removes one |
| `TxManager.MoveRecords` | op-proposer/txmgr/txmgr.go:160-178 | Every nonce-too-low error, receipt and missing receipt is recorded once, and nothing else is |
| `TxManager.ReceiptEndsSend` | op-proposer/txmgr/txmgr.go:181-235 | A goroutine that gets a receipt makes Send return it if and only if the tip confirms it |
| `TxManager.FailureEndsSend` | op-proposer/txmgr/txmgr.go:160-178 | A goroutine whose publication failed makes Send give up if and only if nothing was last seen mined and enough nonce-too-low errors came in since |
| `TxManager.ResultIsFinal` | op-proposer/txmgr/txmgr.go:209-236 | What Send returned stays its result whatever the remaining goroutines do |
| `TxManager.RunInv` | op-proposer/txmgr/txmgr.go:133-322 | The invariant of all interleavings |
| `TxManager.ThreadStepThreads` | op-proposer/txmgr/txmgr.go:143-207 | Every move of a goroutine keeps what is known of every goroutine |
| `TxManager.ConfirmsExact` | op-proposer/txmgr/txmgr.go:285-305 | The 64-bit comparison counts confirmations exactly while neither sum wraps, and only an overflow on the left reports too few |
| `TxManager.ConfirmsSoundExact` | op-proposer/txmgr/txmgr.go:285-305 | No tip height makes it report too few confirmations if and only if height plus confirmations fits 64 bits |
| `TxManager.ConfirmsWraps` | op-proposer/txmgr/txmgr.go:285-305 | A concrete overflow that reports a transaction above the tip as confirmed |
| `SendStates.ObserveRecords` | op-proposer/txmgr/send_state.go:41-85 | The two fields always say which transactions were last seen mined, and how many nonce-too-low errors came in since the mined set was last emptied |
| `SendStates.SendState.constructor` | op-proposer/txmgr/send_state.go:26-36 | A fresh state has seen nothing |
| `SendStates.SendState.ProcessSendError` | op-proposer/txmgr/send_state.go:41-57 | Counts a nonce-too-low error and ignores every other outcome |
| `SendStates.SendState.TxMined` | op-proposer/txmgr/send_state.go:61-66 | Records the observation |
| `SendStates.SendState.TxNotMined` | op-proposer/txmgr/send_state.go:70-85 | Records the observation, and forgets the errors when it empties the mined set |
| `SendStates.SendState.ShouldAbortImmediately` | op-proposer/txmgr/send_state.go:90-102 | True exactly when no transaction was last seen mined and enough errors came in since one was |
| `SendStates.SendState.IsWaitingForConfirmation` | op-proposer/txmgr/send_state.go:106-111 | True exactly when some transaction was last seen mined |

## Left out

- Timestamps, block numbers and sizes are exact natural numbers. 64-bit wrap-around is modelled in ValidBatch,
  in the sequence number and in the confirmation count, 32-bit wrap-around in SizeSSZ; an overflow elsewhere is
  not.
- DriverRuns.StepOrder: the order of the heads is stated for failing steps that leave the engine on the head it had.
  After a failed epoch the driver keeps its old heads while the engine may have moved.
- DriverRuns.SafeNeverAboveUnsafe: the same, over runs of such steps.
- DriverRuns.SafeAlwaysAncestor: the same, and without peer payloads, since one at the safe head's own height may be
  on another fork.
- SyncSpec.FindL2HeadsSpec: says what is found when L1 stays as it is during one call; `Sync.FindL2HeadsShape` also covers
  answers that change on the way.
- ChainRules.RulesInvariant: payloads from peers enter only when they follow the block rules or are known already, as
  the engine's own validation of a peer's block is not part of this model.
- The finalized head, which the driver only passes on, and the safe head's use by the engine beyond forkchoice.
- The RLP layout of the deposit transaction type and the ABI decoding of deposit events live in libraries that are
  not part of this model: the layout is the obvious list of seven strings, and a log carries its decoded body.
- Transaction signatures: an L1 transaction carries its recovered sender. Trie roots of receipts and transactions.
- Byte strings of 2^64 bytes and more in the RLP round trips.
- Ssz.Encode: encodings of 2^32 bytes and more, where SizeSSZ wraps and the buffer is too small.
- SszImpl.UnmarshalSSZ: the fields a failed decode has already written to the receiver.
- Batcher.SubmitterTilesChain: sends that fail after the history was written, L2 reorgs between polls, and a history
  limit of zero entries, which the submitter never configures.
- FetchBatched.AllFetchedIsComplete: that a call which cannot block also finishes, and the Error fields a caller sees, are
  not modelled.
- Output.InsertHeadBlock: a panic of its checks (see `Output.CheckDeposits`) counts as a failed call.
- SendStates.SendState.ProcessSendError: the error count is a natural number, not a uint64.
- L1Cache.Source.FetchAllTransactions: the header cache, which is filled alongside, and calls of other goroutines in
  the middle of one call.
- RPC clients, HTTP server, flags, logging, snapshots, metrics, p2p, contract bindings, withdrawals and the output
  proposer: no hard property of their own.
