/**
  The outputImpl object of op-node/rollup/driver/step.go: the operations of module Output, step
  by step against an engine whose state they change. Every method is tied to its function.
 */
module OutputImpl {
  import opened Types
  import opened Engine
  import opened Output
  import EpochContent
  import Derivation

  /** From genesis on, every slot holds what the configuration and the window say. */
  ghost predicate SlotsMeetWindow(r: Rollup, safeTime: nat, window: seq<BlockID>, slots: seq<Batch>)
    requires r.cfg.blockTime > 0 && |window| >= 2 && WindowKnown(r, window)
  {
    var b := r.l1[window[0].hash];
    safeTime + r.cfg.blockTime >= r.cfg.genesis.l2Time && r.codec.Sound() && b.number == window[0].number ==>
      forall i :: 0 <= i < |slots| ==>
        && slots[i].timestamp == safeTime + (i + 1) * r.cfg.blockTime
        && EpochContent.SlotHolds(r.cfg, b, safeTime, ListsBatches(r, WindowTxs(r, window)), slots[i].timestamp,
          slots[i].txs)
  }

  lemma EpochSlotsMeetWindow(r: Rollup, safeTime: nat, window: seq<BlockID>)
    requires r.cfg.blockTime > 0 && |window| >= 2 && WindowKnown(r, window)
    ensures SlotsMeetWindow(r, safeTime, window, EpochSlots(r, safeTime, window))
  {
    var b, bs := r.l1[window[0].hash], ListsBatches(r, WindowTxs(r, window));
    if safeTime + r.cfg.blockTime >= r.cfg.genesis.l2Time && r.codec.Sound() && b.number == window[0].number {
      var slots := EpochSlots(r, safeTime, window);
      forall i | 0 <= i < |slots|
        ensures slots[i].timestamp == safeTime + (i + 1) * r.cfg.blockTime
        ensures EpochContent.SlotHolds(r.cfg, b, safeTime, bs, slots[i].timestamp, slots[i].txs)
      {
        EpochContent.SlotsHold(r, safeTime, window, b, bs, i);
      }
    }
  }

  /** The part of insertEpoch that makes the window's batches contiguous. */
  method ContiguousBatches(r: Rollup, safeTime: nat, window: seq<BlockID>) returns (batches: seq<Batch>)
    requires r.cfg.blockTime > 0 && |window| >= 2 && WindowKnown(r, window)
    ensures batches == EpochSlots(r, safeTime, window)
    ensures SlotsMeetWindow(r, safeTime, window, batches)
  {
    var b, next := r.l1[window[0].hash], r.l1[window[1].hash];
    batches := BatchesFromEVMTransactions(r, WindowTxs(r, window));
    ghost var all := batches;
    var minTime := safeTime + r.cfg.blockTime;
    var maxTime := b.time + r.cfg.maxSequencerDrift;
    if minTime + r.cfg.blockTime > maxTime {
      maxTime := minTime + r.cfg.blockTime;
    }
    var span := Derivation.Span(r.cfg.genesis.l2Time, r.cfg.blockTime, window[0].number, minTime, maxTime);
    batches := Derivation.FilterBatches(span, batches);
    batches := Derivation.FillMissingBatches(batches, window[0].number, r.cfg.blockTime, minTime, next.time);
    assert span == EpochSpan(r, window[0].number, safeTime, b);
    assert batches == Derivation.DeriveSlots(span, all, next.time);
    EpochSlotsMeetWindow(r, safeTime, window);
  }

  /** A sequenced block becomes the engine's head and not its safe block. */
  lemma CreatedKeepsSafe(r: Rollup, e: State, infoOk: bool, head: L2Ref, safe: Hash, b: L1Block)
    ensures var (e', ref) := CreateNewBlock(r, e, infoOk, head, safe, b);
            e.head in e.tree && e.safe in e.tree && ref.Some? ==> e'.head == ref.value.hash && e'.safe == safe
  {
    if infoOk && e.head in e.tree && e.safe in e.tree {
      InsertHeadBlockTree(r, e, head.hash, safe, SequencerAttributes(r, head, b), false);
    }
  }

  class Impl {
    const r: Rollup
    var l2: State

    constructor (r: Rollup, l2: State)
      ensures this.r == r && this.l2 == l2
    {
      this.r := r;
      this.l2 := l2;
    }

    method RunInsertHeadBlock(
      fcHead: Hash, fcSafe: Hash, attrs: Attributes, updateSafe: bool)
      returns (payload: Option<Payload>)
      modifies this
      ensures (l2, payload) == InsertHeadBlock(r, old(l2), fcHead, fcSafe, attrs, updateSafe)
    {
      var (e1, ok1) := ForkchoiceUpdate(l2, fcHead, fcSafe);
      l2 := e1;
      if !ok1 {
        return None;
      }
      var (e2, built) := GetPayload(l2, r.G(), attrs);
      l2 := e2;
      if built.None? {
        return None;
      }
      var sane := CheckDeposits(built.value.txs);
      if !sane.Sane? {
        return None;
      }
      var (e3, ok3) := NewPayload(l2, r.G(), built.value);
      l2 := e3;
      if !ok3 {
        return None;
      }
      var newSafe := if updateSafe then built.value.hash else fcSafe;
      var (e4, ok4) := ForkchoiceUpdate(l2, built.value.hash, newSafe);
      l2 := e4;
      return if ok4 then built else None;
    }

    method RunVerifySafeBlock(fcHead: Hash, attrs: Attributes, parent: BlockID) returns (v: Option<(Payload, bool)>)
      modifies this
      ensures (l2, v) == VerifySafeBlock(r, old(l2), fcHead, attrs, parent)
    {
      var (e1, found) := PayloadByNumber(l2, parent.number + 1);
      l2 := e1;
      if found.None? || RefOf(r, found.value).None? {
        return None;
      }
      var matches := AttributesMatchBlock(attrs, parent.hash, found.value);
      if !matches {
        var p := RunInsertHeadBlock(parent.hash, parent.hash, attrs, true);
        return if p.Some? then Some((p.value, true)) else None;
      }
      var (e2, ok) := ForkchoiceUpdate(l2, fcHead, found.value.hash);
      l2 := e2;
      return if ok then Some((found.value, false)) else None;
    }

    method RunInsertEpoch(
      answers: L1Answers, head: L2Ref, safe: L2Ref, window: seq<BlockID>)
      returns (out: EpochOutcome)
      requires r.cfg.blockTime > 0
      modifies this
      ensures (l2, out) == InsertEpoch(r, old(l2), answers, head, safe, window)
    {
      if |window| <= 1 {
        return Failed(WindowTooSmall);
      }
      if |window| != r.cfg.seqWindowSize {
        return Failed(WrongWindowSize);
      }
      var (e1, info) := PayloadByHash(l2, safe.hash);
      l2 := e1;
      var guard := EpochGuard(r, answers, safe, window, info.Some?);
      if guard.Some? {
        return Failed(guard.value);
      }
      var batches := ContiguousBatches(r, info.value.timestamp, window);
      out := RunEpochLoop(r.l1[window[0].hash], batches, head, safe);
    }

    /** The loop over the batches of an epoch. */
    method RunEpochLoop(b: L1Block, batches: seq<Batch>, head: L2Ref, safe: L2Ref) returns (out: EpochOutcome)
      modifies this
      ensures var (s, ok) :=
              EpochLoop(r, EpochState(old(l2), head, safe, false, false), EpochAttributes(r, b, batches));
              && l2 == s.eng
              && out == if ok then Inserted(s.head, s.safe, s.didReorg) else Failed(ChainFailed)
    {
      ghost var attrs := EpochAttributes(r, b, batches);
      ghost var s0 := EpochState(l2, head, safe, false, false);
      var lastHead, lastSafe := head, safe;
      var reorg, didReorg := false, false;
      for i := 0 to |batches|
        invariant EpochLoop(r, s0, attrs)
                  == EpochLoop(r, EpochState(l2, lastHead, lastSafe, reorg, didReorg), attrs[i..])
      {
        assert attrs[i..][0] == DerivedAttributes(r, b, batches[i], i) && attrs[i..][1..] == attrs[i + 1..];
        var txs := [r.codec.info(i % TWO_64, b)];
        if i == 0 {
          txs := txs + r.codec.deposits(b);
        }
        txs := txs + batches[i].txs;
        assert i != 0 ==> txs == [r.codec.info(i % TWO_64, b)] + [] + batches[i].txs;
        var a := Attributes(batches[i].timestamp, b.mixDigest, r.cfg.feeRecipient, txs, true);
        var payload: Option<Payload>;
        if lastHead.hash != lastSafe.hash {
          var v := RunVerifySafeBlock(lastHead.hash, a, lastSafe.ID());
          payload := if v.Some? then Some(v.value.0) else None;
          reorg := if v.Some? then v.value.1 else reorg;
        } else {
          payload := RunInsertHeadBlock(lastHead.hash, lastSafe.hash, a, true);
        }
        if payload.None? || RefOf(r, payload.value).None? {
          return Failed(ChainFailed);
        }
        var newLast := RefOf(r, payload.value).value;
        if reorg {
          didReorg := true;
        }
        if reorg || lastHead.hash == lastSafe.hash {
          lastHead := newLast;
        }
        lastSafe := newLast;
      }
      return Inserted(lastHead, lastSafe, didReorg);
    }

    method RunCreateNewBlock(infoOk: bool, head: L2Ref, safe: Hash, b: L1Block) returns (ref: Option<L2Ref>)
      modifies this
      ensures (l2, ref) == CreateNewBlock(r, old(l2), infoOk, head, safe, b)
      ensures old(l2.head in l2.tree && l2.safe in l2.tree) && ref.Some? ==>
              l2.head == ref.value.hash && l2.safe == safe
    {
      CreatedKeepsSafe(r, l2, infoOk, head, safe, b);
      if !infoOk {
        return None;
      }
      var seqNumber := (head.sequenceNumber + 1) % TWO_64;
      var newEpoch := head.l1Origin.number != b.number;
      if newEpoch {
        seqNumber := 0;
      }
      var txs := [r.codec.info(seqNumber, b)];
      if newEpoch {
        txs := txs + r.codec.deposits(b);
      }
      assert !newEpoch ==> txs == [r.codec.info(seqNumber, b)] + [];
      var nextL2Time := head.time + r.cfg.blockTime;
      var attrs :=
        Attributes(nextL2Time, b.mixDigest, r.cfg.feeRecipient, txs, nextL2Time >= b.time + r.cfg.maxSequencerDrift);
      var payload := RunInsertHeadBlock(head.hash, safe, attrs, false);
      return if payload.Some? then RefOf(r, payload.value) else None;
    }

    method RunProcessBlock(safe: Hash, p: Payload) returns (ok: bool)
      modifies this
      ensures (l2, ok) == ProcessBlock(r, old(l2), safe, p)
    {
      var (e1, ok1) := NewPayload(l2, r.G(), p);
      l2 := e1;
      if !ok1 {
        return false;
      }
      var (e2, ok2) := ForkchoiceUpdate(l2, p.hash, safe);
      l2 := e2;
      return ok2;
    }
  }
}
