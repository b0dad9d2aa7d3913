/**
  What insertEpoch puts on the safe head (op-node/rollup/driver/step.go), block by block and in terms of
  the configuration, the L1 window and the batches read from it alone.
 */
module EpochContent {
  import opened Types
  import opened Engine
  import opened Output
  import opened ChainRules
  import Derivation

  // ----- Which batches count -----

  /**
    A batch for the epoch of L1 block b on top of a safe block stamped safeTime: of this epoch, a whole
    number of block times after genesis, not before the first slot, before the drift limit or else for
    the first slot, and without deposits.
   */
  predicate Counts(cfg: Config, b: L1Block, safeTime: nat, batch: Batch)
    requires cfg.blockTime > 0
  {
    && batch.epoch == b.number
    && (batch.timestamp - cfg.genesis.l2Time) % cfg.blockTime == 0
    && safeTime + cfg.blockTime <= batch.timestamp
    && (batch.timestamp < b.time + cfg.maxSequencerDrift || batch.timestamp < safeTime + 2 * cfg.blockTime)
    && (forall i :: 0 <= i < |batch.txs| ==> batch.txs[i] != [] && batch.txs[i][0] != DEPOSIT_TX_TYPE)
  }

  /** Batch k counts, is for time t, and no batch read before it is. */
  ghost predicate CountsFirst(cfg: Config, b: L1Block, safeTime: nat, bs: seq<Batch>, t: nat, k: nat)
    requires cfg.blockTime > 0
  {
    && k < |bs| && Counts(cfg, b, safeTime, bs[k]) && bs[k].timestamp == t
    && forall j :: 0 <= j < k ==> !(Counts(cfg, b, safeTime, bs[j]) && bs[j].timestamp == t)
  }

  /** The sequenced transactions of the slot at time t: those of the first batch that counts, or none. */
  ghost predicate SlotHolds(cfg: Config, b: L1Block, safeTime: nat, bs: seq<Batch>, t: nat, txs: seq<Bytes>)
    requires cfg.blockTime > 0
  {
    || (exists k: nat :: CountsFirst(cfg, b, safeTime, bs, t, k) && txs == bs[k].txs)
    || (txs == [] && forall k :: 0 <= k < |bs| ==> !(Counts(cfg, b, safeTime, bs[k]) && bs[k].timestamp == t))
  }

  lemma CountsIsValid(r: Rollup, b: L1Block, safeTime: nat, batch: Batch)
    requires r.cfg.blockTime > 0 && safeTime + r.cfg.blockTime >= r.cfg.genesis.l2Time && batch.timestamp < TWO_64
    ensures Derivation.ValidBatch(EpochSpan(r, b.number, safeTime, b), batch) <==> Counts(r.cfg, b, safeTime, batch)
  {
    Derivation.ValidBatchExact(EpochSpan(r, b.number, safeTime, b), batch);
    assert (forall i :: 0 <= i < |batch.txs| ==> IsSequenced(batch.txs[i])) <==>
           (forall tx :: tx in batch.txs ==> IsSequenced(tx));
  }

  lemma {:induction false} FirstCounts(r: Rollup, b: L1Block, safeTime: nat, bs: seq<Batch>, t: nat)
    requires r.cfg.blockTime > 0 && safeTime + r.cfg.blockTime >= r.cfg.genesis.l2Time
    requires forall batch :: batch in bs ==> batch.timestamp < TWO_64
    ensures match Derivation.FirstValid(EpochSpan(r, b.number, safeTime, b), bs, t)
            case Some(batch) => exists k: nat :: CountsFirst(r.cfg, b, safeTime, bs, t, k) && bs[k] == batch
            case None => forall k :: 0 <= k < |bs| ==> !(Counts(r.cfg, b, safeTime, bs[k]) && bs[k].timestamp == t)
  {
    if bs != [] {
      assert bs[0] in bs;
      CountsIsValid(r, b, safeTime, bs[0]);
      if Counts(r.cfg, b, safeTime, bs[0]) && bs[0].timestamp == t {
        assert CountsFirst(r.cfg, b, safeTime, bs, t, 0);
      } else {
        FirstCounts(r, b, safeTime, bs[1..], t);
        FirstOfRest(r, b, safeTime, bs, t, Derivation.FirstValid(EpochSpan(r, b.number, safeTime, b), bs[1..], t));
      }
    }
  }

  lemma FirstOfRest(r: Rollup, b: L1Block, safeTime: nat, bs: seq<Batch>, t: nat, f: Option<Batch>)
    requires r.cfg.blockTime > 0 && bs != [] && !(Counts(r.cfg, b, safeTime, bs[0]) && bs[0].timestamp == t)
    requires match f
             case Some(batch) => exists k: nat :: CountsFirst(r.cfg, b, safeTime, bs[1..], t, k) && bs[1..][k] == batch
             case None =>
               forall k :: 0 <= k < |bs[1..]| ==>
                 !(Counts(r.cfg, b, safeTime, bs[1..][k]) && bs[1..][k].timestamp == t)
    ensures match f
            case Some(batch) => exists k: nat :: CountsFirst(r.cfg, b, safeTime, bs, t, k) && bs[k] == batch
            case None => forall k :: 0 <= k < |bs| ==> !(Counts(r.cfg, b, safeTime, bs[k]) && bs[k].timestamp == t)
  {
    var rest := bs[1..];
    forall k | 0 < k < |bs| ensures bs[k] == rest[k - 1] {
    }
    if f.Some? {
      var k: nat :| CountsFirst(r.cfg, b, safeTime, rest, t, k) && rest[k] == f.value;
      assert CountsFirst(r.cfg, b, safeTime, bs, t, k + 1);
    }
  }

  /** The slot function meets this specification. */
  lemma SlotsHold(r: Rollup, safeTime: nat, window: seq<BlockID>, b: L1Block, bs: seq<Batch>, i: nat)
    requires r.cfg.blockTime > 0 && safeTime + r.cfg.blockTime >= r.cfg.genesis.l2Time && r.codec.Sound()
    requires |window| >= 2 && WindowKnown(r, window) && b == r.l1[window[0].hash] && b.number == window[0].number
    requires bs == ListsBatches(r, WindowTxs(r, window)) && i < |EpochSlots(r, safeTime, window)|
    ensures var slot, t := EpochSlots(r, safeTime, window)[i], safeTime + (i + 1) * r.cfg.blockTime;
            slot.timestamp == t && SlotHolds(r.cfg, b, safeTime, bs, t, slot.txs)
  {
    var span, next := EpochSpan(r, b.number, safeTime, b), r.l1[window[1].hash].time;
    var t := Derivation.SlotTime(span.minTime, span.blockTime, i);
    ListsTimesFit(r, WindowTxs(r, window));
    Derivation.DeriveSlotAt(span, bs, next, i);
    FirstCounts(r, b, safeTime, bs, t);
    assert t == safeTime + (i + 1) * r.cfg.blockTime;
  }

  // ----- Where the epoch ends -----

  /** The largest of three times. */
  function Largest(x: nat, y: nat, z: nat): nat {
    if x >= y && x >= z then x else if y >= z then y else z
  }

  /**
    The last slot is the latest time at which a batch counts, or the latest one that does not pass the
    next L1 time less a block time, or else the first slot; whichever is later.
   */
  ghost predicate EndsEpoch(cfg: Config, b: L1Block, safeTime: nat, bs: seq<Batch>, nextTime: nat, last: nat)
    requires cfg.blockTime > 0
  {
    && (forall k :: 0 <= k < |bs| && Counts(cfg, b, safeTime, bs[k]) ==> bs[k].timestamp < last + cfg.blockTime)
    && last + 2 * cfg.blockTime > nextTime
    && (|| last == safeTime + cfg.blockTime
        || last + cfg.blockTime <= nextTime
        || exists k :: 0 <= k < |bs| && Counts(cfg, b, safeTime, bs[k]) && bs[k].timestamp >= last)
    && last < Largest(b.time + cfg.maxSequencerDrift, safeTime + 2 * cfg.blockTime, nextTime)
  }

  lemma SlotsEnd(r: Rollup, safeTime: nat, window: seq<BlockID>, b: L1Block, bs: seq<Batch>, nextTime: nat)
    requires r.cfg.blockTime > 0 && safeTime + r.cfg.blockTime >= r.cfg.genesis.l2Time && r.codec.Sound()
    requires |window| >= 2 && WindowKnown(r, window) && b == r.l1[window[0].hash] && b.number == window[0].number
    requires bs == ListsBatches(r, WindowTxs(r, window)) && nextTime == r.l1[window[1].hash].time
    ensures var n := |EpochSlots(r, safeTime, window)|;
            n >= 1 && EndsEpoch(r.cfg, b, safeTime, bs, nextTime, safeTime + n * r.cfg.blockTime)
  {
    var span := EpochSpan(r, b.number, safeTime, b);
    var n := |EpochSlots(r, safeTime, window)|;
    ListsTimesFit(r, WindowTxs(r, window));
    Derivation.DeriveSlotsSpec(span, bs, nextTime);
    AllCountsIsValid(r, b, safeTime, bs);
    LastSlot(safeTime, r.cfg.blockTime, n);
    NoBatchPastEnd(span, bs, nextTime, n);
    WhyEndHere(span, bs, nextTime, n);
    Derivation.NextEpochNearOrigin(span, bs, nextTime);
    Derivation.SlotsBelowLimit(span, bs, nextTime, n - 1);
  }

  lemma AllCountsIsValid(r: Rollup, b: L1Block, safeTime: nat, bs: seq<Batch>)
    requires r.cfg.blockTime > 0 && safeTime + r.cfg.blockTime >= r.cfg.genesis.l2Time
    requires forall batch :: batch in bs ==> batch.timestamp < TWO_64
    ensures forall k :: 0 <= k < |bs| ==>
              (Derivation.ValidBatch(EpochSpan(r, b.number, safeTime, b), bs[k]) <==> Counts(r.cfg, b, safeTime, bs[k]))
  {
    forall k | 0 <= k < |bs|
      ensures Derivation.ValidBatch(EpochSpan(r, b.number, safeTime, b), bs[k]) <==> Counts(r.cfg, b, safeTime, bs[k])
    {
      assert bs[k] in bs;
      CountsIsValid(r, b, safeTime, bs[k]);
    }
  }

  lemma NoBatchPastEnd(span: Derivation.Span, bs: seq<Batch>, nextTime: nat, n: nat)
    requires span.blockTime > 0 && n == |Derivation.DeriveSlots(span, bs, nextTime)|
    ensures forall k :: 0 <= k < |bs| && Derivation.ValidBatch(span, bs[k]) ==>
              bs[k].timestamp < Derivation.SlotTime(span.minTime, span.blockTime, n)
  {
    var end := Derivation.SlotTime(span.minTime, span.blockTime, n);
    Derivation.DeriveSlotsLength(span, bs, nextTime, n);
    Derivation.HeadReaches(span, bs, nextTime, end);
    forall k | 0 <= k < |bs| && Derivation.ValidBatch(span, bs[k]) ensures bs[k].timestamp < end {
      assert bs[k] in bs;
    }
  }

  lemma WhyEndHere(span: Derivation.Span, bs: seq<Batch>, nextTime: nat, n: nat)
    requires span.blockTime > 0 && n == |Derivation.DeriveSlots(span, bs, nextTime)| >= 1
    ensures var last := Derivation.SlotTime(span.minTime, span.blockTime, n - 1);
            || last == span.minTime
            || last + span.blockTime <= nextTime
            || exists k :: 0 <= k < |bs| && Derivation.ValidBatch(span, bs[k]) && bs[k].timestamp >= last
  {
    var last := Derivation.SlotTime(span.minTime, span.blockTime, n - 1);
    Derivation.DeriveSlotsLength(span, bs, nextTime, n - 1);
    Derivation.HeadReaches(span, bs, nextTime, last);
    if batch :| batch in bs && Derivation.ValidBatch(span, batch) && batch.timestamp >= last {
      var k :| 0 <= k < |bs| && bs[k] == batch;
    }
  }

  lemma LastSlot(safeTime: nat, d: nat, n: nat)
    requires n >= 1
    ensures Derivation.SlotTime(safeTime + d, d, n - 1) == safeTime + n * d
    ensures Derivation.SlotTime(safeTime + d, d, n) == safeTime + n * d + d
  {
    assert (n - 1) * d + d == n * d;
  }

  // ----- The inserted blocks -----

  /** Block i of an epoch of L1 block b carries what the L1 window says, and nothing else. */
  ghost predicate EpochBlock(r: Rollup, b: L1Block, safeTime: nat, bs: seq<Batch>, i: nat, p: Payload)
    requires r.cfg.blockTime > 0
  {
    && p.timestamp == safeTime + (i + 1) * r.cfg.blockTime
    && p.prevRandao == b.mixDigest
    && exists txs ::
         && SlotHolds(r.cfg, b, safeTime, bs, p.timestamp, txs)
         && p.txs == [r.codec.info(i % TWO_64, b)] + (if i == 0 then r.codec.deposits(b) else []) + txs
  }

  /** bs are the batches of the window, which starts with the L1 block b and goes on with one stamped nextTime. */
  ghost predicate WindowHolds(r: Rollup, window: seq<BlockID>, b: L1Block, bs: seq<Batch>, nextTime: nat) {
    && |window| >= 2 && WindowKnown(r, window)
    && b == r.l1[window[0].hash] && b.ID() == window[0]
    && nextTime == r.l1[window[1].hash].time
    && bs == ListsBatches(r, WindowTxs(r, window))
  }

  lemma InsertedChain(r: Rollup, e: State, answers: L1Answers, head: L2Ref, safe: L2Ref, window: seq<BlockID>)
    requires r.Wf() && LoopReady(r, EpochState(e, head, safe, false, false))
    requires |window| >= 2 && WindowKnown(r, window)
    ensures var (e', out) := InsertEpoch(r, e, answers, head, safe, window);
            out.Inserted? ==>
              && Tracks(r, e'.tree, out.safe)
              && out.safe.number == safe.number + |EpochInputs(r, safe.time, window)|
              && DerivedChain(e'.tree, out.safe.hash, safe.hash, safe.number, EpochInputs(r, safe.time, window))
  {
    InsertEpochContract(r, e, answers, head, safe, window);
  }

  /** A successful insertEpoch ends where the epoch ends. */
  lemma InsertedEnd(
    r: Rollup, e: State, answers: L1Answers, head: L2Ref, safe: L2Ref, window: seq<BlockID>,
    b: L1Block, bs: seq<Batch>, nextTime: nat)
    requires r.Wf() && LoopReady(r, EpochState(e, head, safe, false, false))
    requires safe.time + r.cfg.blockTime >= r.cfg.genesis.l2Time && WindowHolds(r, window, b, bs, nextTime)
    ensures var out := InsertEpoch(r, e, answers, head, safe, window).1;
            out.Inserted? ==> EndsEpoch(r.cfg, b, safe.time, bs, nextTime, out.safe.time)
  {
    var (e', out) := InsertEpoch(r, e, answers, head, safe, window);
    InsertedChain(r, e, answers, head, safe, window);
    if out.Inserted? {
      DerivedEnd(r, e'.tree, out.safe, safe, window, b, bs, nextTime);
    }
  }

  /** It adds at least one block, one block time after the other. */
  lemma InsertedTime(r: Rollup, e: State, answers: L1Answers, head: L2Ref, safe: L2Ref, window: seq<BlockID>)
    requires r.Wf() && LoopReady(r, EpochState(e, head, safe, false, false))
    requires |window| >= 2 && WindowKnown(r, window)
    ensures var out := InsertEpoch(r, e, answers, head, safe, window).1;
            out.Inserted? ==>
              && out.safe.number > safe.number
              && out.safe.time == safe.time + (out.safe.number - safe.number) * r.cfg.blockTime
  {
    var (e', out) := InsertEpoch(r, e, answers, head, safe, window);
    InsertedChain(r, e, answers, head, safe, window);
    if out.Inserted? {
      EndTime(r, e'.tree, out.safe, safe, window);
      DerivedEpochTime(r, e'.tree, out.safe, safe, window);
    }
  }

  lemma DerivedEnd(
    r: Rollup, t: Tree, tip: L2Ref, safe: L2Ref, window: seq<BlockID>, b: L1Block, bs: seq<Batch>, nextTime: nat)
    requires r.Wf() && safe.time + r.cfg.blockTime >= r.cfg.genesis.l2Time && WindowHolds(r, window, b, bs, nextTime)
    requires Tracks(r, t, tip) && tip.number == safe.number + |EpochInputs(r, safe.time, window)|
    requires DerivedChain(t, tip.hash, safe.hash, safe.number, EpochInputs(r, safe.time, window))
    ensures EndsEpoch(r.cfg, b, safe.time, bs, nextTime, tip.time)
  {
    SlotsEnd(r, safe.time, window, b, bs, nextTime);
    EndTime(r, t, tip, safe, window);
  }

  /** And block i above the old safe head carries what the L1 window says. */
  lemma InsertedBlocks(
    r: Rollup, e: State, answers: L1Answers, head: L2Ref, safe: L2Ref, window: seq<BlockID>, i: nat)
    requires r.Wf() && LoopReady(r, EpochState(e, head, safe, false, false))
    requires safe.time + r.cfg.blockTime >= r.cfg.genesis.l2Time
    requires |window| >= 2 && WindowKnown(r, window) && r.l1[window[0].hash].ID() == window[0]
    ensures var (e', out) := InsertEpoch(r, e, answers, head, safe, window);
            out.Inserted? && safe.number + i < out.safe.number ==>
              var x := Lookup(e'.tree, out.safe.hash, safe.number + i + 1);
              && x.Some? && x.value in e'.tree
              && EpochBlock(r, r.l1[window[0].hash], safe.time, ListsBatches(r, WindowTxs(r, window)), i,
                e'.tree[x.value])
  {
    var (e', out) := InsertEpoch(r, e, answers, head, safe, window);
    InsertEpochContract(r, e, answers, head, safe, window);
    if out.Inserted? && safe.number + i < out.safe.number {
      DerivedBlock(r, e'.tree, out.safe.hash, safe, window, i);
    }
  }

  lemma DerivedBlock(r: Rollup, t: Tree, tip: Hash, safe: L2Ref, window: seq<BlockID>, i: nat)
    requires r.Wf() && safe.time + r.cfg.blockTime >= r.cfg.genesis.l2Time
    requires |window| >= 2 && WindowKnown(r, window) && r.l1[window[0].hash].ID() == window[0]
    requires DerivedChain(t, tip, safe.hash, safe.number, EpochInputs(r, safe.time, window))
    requires i < |EpochInputs(r, safe.time, window)|
    ensures var x := Lookup(t, tip, safe.number + i + 1);
            && x.Some? && x.value in t
            && EpochBlock(r, r.l1[window[0].hash], safe.time, ListsBatches(r, WindowTxs(r, window)), i, t[x.value])
  {
    var b, bs := r.l1[window[0].hash], ListsBatches(r, WindowTxs(r, window));
    SlotsHold(r, safe.time, window, b, bs, i);
    assert DerivedAbove(t, tip, safe.number + i, EpochInputs(r, safe.time, window)[i]);
    var parent, x := Lookup(t, tip, safe.number + i).value, Lookup(t, tip, safe.number + i + 1).value;
    MatchedIsEpochBlock(r, safe.time, window, b, bs, i, parent, t[x]);
  }

  lemma EndTime(r: Rollup, t: Tree, tip: L2Ref, safe: L2Ref, window: seq<BlockID>)
    requires r.cfg.blockTime > 0 && |window| >= 2 && WindowKnown(r, window) && Tracks(r, t, tip)
    requires DerivedChain(t, tip.hash, safe.hash, safe.number, EpochInputs(r, safe.time, window))
    ensures tip.time == safe.time + |EpochSlots(r, safe.time, window)| * r.cfg.blockTime
  {
    DerivedEpochTime(r, t, tip, safe, window);
    LastSlot(safe.time, r.cfg.blockTime, |EpochSlots(r, safe.time, window)|);
  }

  lemma MatchedIsEpochBlock(
    r: Rollup, safeTime: nat, window: seq<BlockID>, b: L1Block, bs: seq<Batch>, i: nat, parent: Hash, p: Payload)
    requires r.cfg.blockTime > 0 && |window| >= 2 && WindowKnown(r, window) && b == r.l1[window[0].hash]
    requires i < |EpochSlots(r, safeTime, window)|
    requires var slot, t := EpochSlots(r, safeTime, window)[i], safeTime + (i + 1) * r.cfg.blockTime;
             slot.timestamp == t && SlotHolds(r.cfg, b, safeTime, bs, t, slot.txs)
    requires AttributesMatch(EpochInputs(r, safeTime, window)[i], parent, p)
    ensures EpochBlock(r, b, safeTime, bs, i, p)
  {
    var txs := EpochSlots(r, safeTime, window)[i].txs;
    assert SlotHolds(r.cfg, b, safeTime, bs, p.timestamp, txs);
  }

  lemma LaterSlot(d: nat, i: nat)
    requires i >= 1
    ensures (i + 1) * d >= 2 * d
  {
  }

  /** From the drift limit on, a block after the first one holds nothing behind its L1 info transaction. */
  lemma EmptyPastDrift(r: Rollup, b: L1Block, safeTime: nat, bs: seq<Batch>, i: nat, p: Payload)
    requires r.cfg.blockTime > 0 && EpochBlock(r, b, safeTime, bs, i, p)
    requires i >= 1 && p.timestamp >= b.time + r.cfg.maxSequencerDrift
    ensures p.txs == [r.codec.info(i % TWO_64, b)]
  {
    LaterSlot(r.cfg.blockTime, i);
    var txs :| SlotHolds(r.cfg, b, safeTime, bs, p.timestamp, txs)
      && p.txs == [r.codec.info(i % TWO_64, b)] + (if i == 0 then r.codec.deposits(b) else []) + txs;
    assert txs == [];
  }

  /** The first batch that counts for a block's time is what the block holds. */
  lemma FirstCountingBatchLands(r: Rollup, b: L1Block, safeTime: nat, bs: seq<Batch>, i: nat, p: Payload, k: nat)
    requires r.cfg.blockTime > 0 && EpochBlock(r, b, safeTime, bs, i, p)
    requires CountsFirst(r.cfg, b, safeTime, bs, p.timestamp, k)
    ensures p.txs == [r.codec.info(i % TWO_64, b)] + (if i == 0 then r.codec.deposits(b) else []) + bs[k].txs
  {
    var txs :| SlotHolds(r.cfg, b, safeTime, bs, p.timestamp, txs)
      && p.txs == [r.codec.info(i % TWO_64, b)] + (if i == 0 then r.codec.deposits(b) else []) + txs;
    if j: nat :| CountsFirst(r.cfg, b, safeTime, bs, p.timestamp, j) && txs == bs[j].txs {
      assert j == k;
    }
  }

  // ----- Blocks that join the tree -----

  /**
    Every block of the second tree that is not in the first was built for epoch b, with the configured fee recipient.
   */
  ghost predicate NewBlocksFor(r: Rollup, b: L1Block, t: Tree, t': Tree) {
    forall h :: h in t' && h !in t ==> t'[h].feeRecipient == r.cfg.feeRecipient && t'[h].prevRandao == b.mixDigest
  }

  lemma StepBuildsFor(r: Rollup, s: EpochState, b: L1Block, attrs: Attributes)
    requires s.eng.Wf(r.G()) && attrs.feeRecipient == r.cfg.feeRecipient && attrs.prevRandao == b.mixDigest
    ensures var s1 := EpochStep(r, s, attrs).0; s1.eng.Wf(r.G()) && NewBlocksFor(r, b, s.eng.tree, s1.eng.tree)
  {
    var s1 := EpochStep(r, s, attrs).0;
    EpochStepTree(r, s, attrs);
    GrownKeepsTree(r, s.eng.tree, s1.eng.tree, s.safe.hash, attrs);
    GrownFor(r, b, s.eng.tree, s1.eng.tree, s.safe.hash, attrs);
  }

  lemma {:induction false} LoopBuildsFor(r: Rollup, s: EpochState, b: L1Block, attrs: seq<Attributes>)
    requires s.eng.Wf(r.G())
    requires forall a :: a in attrs ==> a.feeRecipient == r.cfg.feeRecipient && a.prevRandao == b.mixDigest
    ensures NewBlocksFor(r, b, s.eng.tree, EpochLoop(r, s, attrs).0.eng.tree)
    decreases |attrs|
  {
    if attrs != [] {
      var (s1, ok) := EpochStep(r, s, attrs[0]);
      assert attrs[0] in attrs;
      StepBuildsFor(r, s, b, attrs[0]);
      if ok {
        EpochLoopTree(r, s1, attrs[1..]);
        LoopBuildsFor(r, s1, b, attrs[1..]);
        NewBlocksChain(r, b, s.eng.tree, s1.eng.tree, EpochLoop(r, s1, attrs[1..]).0.eng.tree);
      }
    }
  }

  lemma NewBlocksChain(r: Rollup, b: L1Block, t: Tree, t1: Tree, t2: Tree)
    requires NewBlocksFor(r, b, t, t1) && NewBlocksFor(r, b, t1, t2) && SubTree(t1, t2)
    ensures NewBlocksFor(r, b, t, t2)
  {
  }

  lemma GrownFor(r: Rollup, b: L1Block, t: Tree, t': Tree, parent: Hash, attrs: Attributes)
    requires Grown(r, t, t', parent, attrs)
    requires attrs.feeRecipient == r.cfg.feeRecipient && attrs.prevRandao == b.mixDigest
    ensures NewBlocksFor(r, b, t, t')
  {
    if t' != t {
      var p :| GrownBy(r, t, t', parent, attrs, p);
    }
  }

  /** Failing or not, what insertEpoch adds to the engine's tree pays the configured fee recipient. */
  lemma InsertedPayFees(r: Rollup, e: State, answers: L1Answers, head: L2Ref, safe: L2Ref, window: seq<BlockID>)
    requires r.cfg.blockTime > 0 && e.Wf(r.G()) && |window| >= 2 && window[0].hash in r.l1
    ensures NewBlocksFor(r, r.l1[window[0].hash], e.tree, InsertEpoch(r, e, answers, head, safe, window).0.tree)
  {
    var (e1, info) := PayloadByHash(e, safe.hash);
    if info.Some? && WindowKnown(r, window) {
      var attrs := EpochInputs(r, info.value.timestamp, window);
      LoopBuildsFor(r, EpochState(e1, head, safe, false, false), r.l1[window[0].hash], attrs);
    }
  }
}
