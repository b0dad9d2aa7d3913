/**
  The sequencer and the verifier agree: blocks built by createNewBlock, submitted through
  BlockToBatch and EncodeBatches and read back from the sequencing window, are derived again by
  insertEpoch with the same attributes, so the unsafe chain is confirmed and not replaced.
 */
module Agreement {
  import opened Types
  import opened Engine
  import opened Output
  import opened ChainRules
  import opened Driver
  import opened BlockBatch
  import Derivation

  // ----- A matching unsafe chain is never reorganised -----

  /** Above height n, as far as it reaches, the chain of tip carries the attributes. */
  ghost predicate MatchesAbove(t: Tree, tip: Hash, n: nat, attrs: seq<Attributes>)
    requires tip in t
  {
    forall i :: 0 <= i < |attrs| && n + i < t[tip].number ==> DerivedAbove(t, tip, n + i, attrs[i])
  }

  ghost predicate Confirming(r: Rollup, s: EpochState, attrs: seq<Attributes>) {
    && LoopReady(r, s)
    && Ancestor(s.eng.tree, s.safe.hash, s.head.hash)
    && !s.reorg && !s.didReorg
    && MatchesAbove(s.eng.tree, s.head.hash, s.safe.number, attrs)
  }

  /** What matches one block further up still matches after the tree has grown. */
  lemma MatchesGrows(t: Tree, t': Tree, g: BlockID, tip: Hash, n: nat, attrs: seq<Attributes>)
    requires WfTree(t, g) && SubTree(t, t') && tip in t && g.number <= n && attrs != []
    requires MatchesAbove(t, tip, n, attrs)
    ensures tip in t' && MatchesAbove(t', tip, n + 1, attrs[1..])
  {
    forall i | 0 <= i < |attrs| - 1 && n + 1 + i < t'[tip].number
      ensures DerivedAbove(t', tip, n + 1 + i, attrs[1..][i])
    {
      assert DerivedAbove(t, tip, n + (i + 1), attrs[i + 1]);
      LookupGrows(t, t', g, tip, n + 1 + i);
      LookupGrows(t, t', g, tip, n + 2 + i);
    }
  }

  /** The iteration finds a block of the unsafe chain that does not match, and would replace it. */
  predicate TakesReorg(r: Rollup, s: EpochState, attrs: Attributes) {
    s.head.hash != s.safe.hash &&
    var found := PayloadByNumber(s.eng, s.safe.number + 1).1;
    found.Some? && RefOf(r, found.value).Some? && !AttributesMatch(attrs, s.safe.hash, found.value)
  }

  /** No iteration that is reached takes the reorg branch, whether it then succeeds or not. */
  predicate NeverReorgs(r: Rollup, s: EpochState, attrs: seq<Attributes>)
    decreases |attrs|
  {
    attrs != [] ==>
      && !TakesReorg(r, s, attrs[0])
      && var (s1, ok) := EpochStep(r, s, attrs[0]); ok ==> NeverReorgs(r, s1, attrs[1..])
  }

  lemma StepReorgFlag(r: Rollup, s: EpochState, attrs: Attributes)
    requires s.reorg ==> s.didReorg
    ensures var (s1, ok) := EpochStep(r, s, attrs);
            ok ==> (s1.reorg ==> s1.didReorg) && (s1.didReorg <==> s.didReorg || TakesReorg(r, s, attrs))
  {
  }

  /** A loop that succeeds reports a reorg exactly when some iteration took the reorg branch. */
  lemma {:induction false} LoopReorgFlag(r: Rollup, s: EpochState, attrs: seq<Attributes>)
    requires s.reorg ==> s.didReorg
    ensures var (s', ok) := EpochLoop(r, s, attrs);
            ok ==> (s'.didReorg <==> s.didReorg || !NeverReorgs(r, s, attrs))
    decreases |attrs|
  {
    if attrs != [] {
      StepReorgFlag(r, s, attrs[0]);
      var (s1, ok) := EpochStep(r, s, attrs[0]);
      if ok {
        LoopReorgFlag(r, s1, attrs[1..]);
      }
    }
  }

  /** Below the unsafe head the next block is found and matches. */
  lemma ConfirmingBelow(r: Rollup, s: EpochState, attrs: seq<Attributes>)
    requires Confirming(r, s, attrs) && attrs != [] && attrs[0].noTxPool && s.safe.number < s.head.number
    ensures !TakesReorg(r, s, attrs[0])
    ensures var (s1, ok) := EpochStep(r, s, attrs[0]);
            && !s1.didReorg
            && Ancestor(s1.eng.tree, s.head.hash, s1.eng.head)
            && (ok ==> !s1.reorg && s1.head == s.head)
  {
    var t, n := s.eng.tree, s.safe.number;
    TrackedNumber(r, t, s.safe);
    TrackedNumber(r, t, s.head);
    assert DerivedAbove(t, s.head.hash, n + 0, attrs[0]);
    LookupTransitive(t, s.eng.head, s.head.number, n + 1);
    LookupTransitive(t, s.eng.head, s.head.number, n);
    MatchingIteration(r, s, attrs[0], Lookup(t, s.eng.head, n + 1).value);
  }

  /** An iteration that finds a matching block moves only the safe head. */
  lemma MatchingIteration(r: Rollup, s: EpochState, attrs: Attributes, x: Hash)
    requires LoopReady(r, s) && !s.reorg && !s.didReorg && s.head.hash != s.safe.hash
    requires Lookup(s.eng.tree, s.eng.head, s.safe.number + 1) == Some(x)
    requires x in s.eng.tree && AttributesMatch(attrs, s.safe.hash, s.eng.tree[x])
    ensures !TakesReorg(r, s, attrs)
    ensures var (s1, ok) := EpochStep(r, s, attrs);
            && !s1.didReorg
            && Ancestor(s1.eng.tree, s.head.hash, s1.eng.head)
            && (ok ==> !s1.reorg && s1.head == s.head)
  {
    TrackedNumber(r, s.eng.tree, s.head);
    assert Ancestor(s.eng.tree, s.head.hash, s.head.hash);
    VerifyFindsMatch(r, s.eng, s.head.hash, attrs, s.safe.ID(), x);
  }

  /** verifySafeBlock on a matching block: at most the forkchoice moves, to the head it was given. */
  lemma VerifyFindsMatch(r: Rollup, e: State, fcHead: Hash, attrs: Attributes, parent: BlockID, x: Hash)
    requires Lookup(e.tree, e.head, parent.number + 1) == Some(x) && x in e.tree
             && AttributesMatch(attrs, parent.hash, e.tree[x])
    ensures var (e', v) := VerifySafeBlock(r, e, fcHead, attrs, parent);
            && e'.tree == e.tree
            && (e'.head == e.head || e'.head == fcHead)
            && (v.Some? ==> !v.value.1)
  {
  }

  /** At the unsafe head a block is added. */
  lemma ConfirmingAt(r: Rollup, s: EpochState, attrs: seq<Attributes>)
    requires Confirming(r, s, attrs) && attrs != [] && attrs[0].noTxPool && s.safe.number >= s.head.number
    ensures !TakesReorg(r, s, attrs[0])
    ensures var (s1, ok) := EpochStep(r, s, attrs[0]);
            && !s1.didReorg
            && Ancestor(s1.eng.tree, s.head.hash, s1.eng.head)
            && (ok ==>
              !s1.reorg && s1.head == s1.safe && s1.eng.tree[s1.head.hash].parentHash == s.head.hash
                && s1.head.number == s.head.number + 1)
  {
    TrackedNumber(r, s.eng.tree, s.safe);
    TrackedNumber(r, s.eng.tree, s.head);
    assert s.safe.hash == s.head.hash;
    InsertHeadBlockHead(r, s.eng, s.head.hash, s.safe.hash, attrs[0], true);
    EpochStepContract(r, s, attrs[0]);
  }

  lemma ConfirmingStep(r: Rollup, s: EpochState, attrs: seq<Attributes>)
    requires Confirming(r, s, attrs) && attrs != [] && attrs[0].noTxPool
    ensures !TakesReorg(r, s, attrs[0])
    ensures var (s1, ok) := EpochStep(r, s, attrs[0]);
            && !s1.didReorg
            && Ancestor(s1.eng.tree, s.head.hash, s1.eng.head)
            && (ok ==> Confirming(r, s1, attrs[1..]) && Ancestor(s1.eng.tree, s.head.hash, s1.head.hash))
  {
    var (s1, ok) := EpochStep(r, s, attrs[0]);
    EpochStepContract(r, s, attrs[0]);
    TrackedNumber(r, s.eng.tree, s.safe);
    TrackedNumber(r, s.eng.tree, s.head);
    if s.safe.number < s.head.number {
      ConfirmingBelow(r, s, attrs);
      if ok {
        MatchesGrows(s.eng.tree, s1.eng.tree, r.G(), s.head.hash, s.safe.number, attrs);
        TrackedNumber(r, s1.eng.tree, s1.head);
      }
    } else {
      ConfirmingAt(r, s, attrs);
      if ok {
        TrackedNumber(r, s1.eng.tree, s1.safe);
        assert Lookup(s1.eng.tree, s.head.hash, s.head.number) == Some(s.head.hash);
      }
    }
  }

  /**
    While the unsafe chain matches, no iteration takes the reorg branch, and whether the loop
    succeeds or fails half way, the engine's chain still contains all of the unsafe chain.
   */
  lemma {:induction false} ConfirmingLoop(r: Rollup, s: EpochState, attrs: seq<Attributes>)
    requires Confirming(r, s, attrs) && forall a :: a in attrs ==> a.noTxPool
    ensures NeverReorgs(r, s, attrs)
    ensures var (s', ok) := EpochLoop(r, s, attrs);
            && !s'.didReorg
            && Ancestor(s'.eng.tree, s.head.hash, s'.eng.head)
            && (ok ==> Ancestor(s'.eng.tree, s.head.hash, s'.head.hash))
    decreases |attrs|
  {
    if attrs != [] {
      var (s1, ok) := EpochStep(r, s, attrs[0]);
      ConfirmingStep(r, s, attrs);
      if ok {
        ConfirmingLoop(r, s1, attrs[1..]);
        HeadSurvives(r, s, s1, attrs[1..]);
      }
    } else {
      TrackedNumber(r, s.eng.tree, s.head);
    }
  }

  /** What contains the head after the first iteration contains the head before it. */
  lemma HeadSurvives(r: Rollup, s: EpochState, s1: EpochState, attrs: seq<Attributes>)
    requires s1.eng.Wf(r.G()) && Ancestor(s1.eng.tree, s.head.hash, s1.head.hash)
    ensures var (s', ok) := EpochLoop(r, s1, attrs);
            && (Ancestor(s'.eng.tree, s1.head.hash, s'.eng.head) ==> Ancestor(s'.eng.tree, s.head.hash, s'.eng.head))
            && (Ancestor(s'.eng.tree, s1.head.hash, s'.head.hash) ==> Ancestor(s'.eng.tree, s.head.hash, s'.head.hash))
  {
    var (s', ok) := EpochLoop(r, s1, attrs);
    EpochLoopTree(r, s1, attrs);
    AncestorGrows(s1.eng.tree, s'.eng.tree, r.G(), s.head.hash, s1.head.hash);
    if Ancestor(s'.eng.tree, s1.head.hash, s'.eng.head) {
      AncestorTransitive(s'.eng.tree, s.head.hash, s1.head.hash, s'.eng.head);
    }
    if Ancestor(s'.eng.tree, s1.head.hash, s'.head.hash) {
      AncestorTransitive(s'.eng.tree, s.head.hash, s1.head.hash, s'.head.hash);
    }
  }

  // ----- Sequenced blocks -----

  /** The block at height n + 1 was built by createNewBlock on block n, with L1 origin b. */
  ghost predicate BuiltAt(r: Rollup, t: Tree, tip: Hash, b: L1Block, n: nat) {
    && Lookup(t, tip, n).Some?
    && BlockAt(t, tip, n + 1).Some?
    && var p := BlockAt(t, tip, n + 1).value;
       && BuiltFrom(SequencerAttributes(r, RefAt(r, t, tip, n), b), Lookup(t, tip, n).value, p)
       && DepositsFirst(p.txs)
  }

  /** The block at height n + 1 was sequenced by the driver: it is moreover not stamped before its L1 origin. */
  ghost predicate SequencedAt(r: Rollup, t: Tree, tip: Hash, b: L1Block, n: nat) {
    BuiltAt(r, t, tip, b, n) && b.time <= BlockAt(t, tip, n + 1).value.timestamp
  }

  /** createNewBlock makes such blocks, and leaves the engine's safe block where it was told to. */
  lemma CreateNewBlockSequences(r: Rollup, e: State, info: bool, head: L2Ref, safe: Hash, b: L1Block)
    requires e.Wf(r.G()) && Tracks(r, e.tree, head)
    ensures var (e', ref) := CreateNewBlock(r, e, info, head, safe, b);
            ref.Some? ==>
              && BuiltAt(r, e'.tree, ref.value.hash, b, head.number)
              && BlockAt(e'.tree, ref.value.hash, head.number + 1).value.timestamp == head.time + r.cfg.blockTime
              && e'.head == ref.value.hash && e'.safe == safe
  {
    var (e', ref) := CreateNewBlock(r, e, info, head, safe, b);
    if ref.Some? {
      var attrs := SequencerAttributes(r, head, b);
      InsertHeadBlockTree(r, e, head.hash, safe, attrs, false);
      var (_, p) := InsertHeadBlock(r, e, head.hash, safe, attrs, false);
      GrownIsBuilt(r, e.tree, e'.tree, head, b, p.value);
    }
  }

  lemma GrownIsBuilt(r: Rollup, t: Tree, t': Tree, head: L2Ref, b: L1Block, p: Payload)
    requires WfTree(t, r.G()) && Tracks(r, t, head) && GrownBy(r, t, t', head.hash, SequencerAttributes(r, head, b), p)
    ensures BuiltAt(r, t', p.hash, b, head.number)
    ensures BlockAt(t', p.hash, head.number + 1).value.timestamp == head.time + r.cfg.blockTime
  {
    InsertKeepsTree(t, r.G(), p);
    TrackedNumber(r, t, head);
    assert Lookup(t', head.hash, head.number) == Some(head.hash);
    assert Lookup(t', p.hash, head.number) == Some(head.hash) && Lookup(t', p.hash, head.number + 1) == Some(p.hash);
    assert RefAt(r, t', p.hash, head.number) == head.(parentHash := RefAt(r, t', p.hash, head.number).parentHash);
  }

  /** The driver refuses to build a block before its origin's time, so whatever moves the unsafe head is sequenced. */
  lemma CreateNewL2BlockSequences(
    r: Rollup, s: DriverState, current: bool, next: Option<L1Block>, info: bool, published: bool)
    requires Core(r, s)
    ensures var s' := CreateNewL2Block(r, s, current, next, info, published).state;
            s'.l2Head != s.l2Head ==>
              && FindL1Origin(r, s, current, next).Some?
              && SequencedAt(r, s'.eng.tree, s'.l2Head.hash, FindL1Origin(r, s, current, next).value, s.l2Head.number)
  {
    var b := FindL1Origin(r, s, current, next);
    if b.Some? && s.l2Head.time + r.cfg.blockTime >= b.value.time {
      OnTimeIsSequenced(r, s.eng, info, s.l2Head, s.l2Safe.hash, b.value);
    }
  }

  lemma OnTimeIsSequenced(r: Rollup, e: State, info: bool, head: L2Ref, safe: Hash, b: L1Block)
    requires e.Wf(r.G()) && Tracks(r, e.tree, head) && head.time + r.cfg.blockTime >= b.time
    ensures var (e', ref) := CreateNewBlock(r, e, info, head, safe, b);
            ref.Some? ==> SequencedAt(r, e'.tree, ref.value.hash, b, head.number)
  {
    CreateNewBlockSequences(r, e, info, head, safe, b);
  }

  /** The k blocks above height n are the epoch of b, whose first slot is at minTime. */
  ghost predicate SequencedEpoch(r: Rollup, t: Tree, tip: Hash, b: L1Block, n: nat, k: nat, minTime: nat) {
    && UnderSlot(r, b, minTime, 0, RefAt(r, t, tip, n))
    && forall m :: n <= m < n + k ==> SequencedAt(r, t, tip, b, m)
  }

  /** The sequencer's attributes for slot i, in terms of the slot. */
  lemma SequencerSlot(r: Rollup, b: L1Block, minTime: nat, i: nat, parent: L2Ref)
    requires UnderSlot(r, b, minTime, i, parent)
    ensures var a := SequencerAttributes(r, parent, b);
            && a.timestamp == Derivation.SlotTime(minTime, r.cfg.blockTime, i)
            && a.prevRandao == b.mixDigest
            && a.txs == Forced(r, b, i % TWO_64, i == 0)
  {
    assert i > 0 ==> i % TWO_64 == ((i - 1) % TWO_64 + 1) % TWO_64;
  }

  lemma {:induction false} SequencedUnder(
    r: Rollup, t: Tree, tip: Hash, b: L1Block, n: nat, k: nat, minTime: nat, j: nat)
    requires r.Wf() && WfTree(t, r.G()) && r.G().number <= n
    requires SequencedEpoch(r, t, tip, b, n, k, minTime) && j <= k
    ensures UnderSlot(r, b, minTime, j, RefAt(r, t, tip, n + j))
  {
    if j > 0 {
      SequencedUnder(r, t, tip, b, n, k, minTime, j - 1);
      assert SequencedAt(r, t, tip, b, n + (j - 1));
      var parent := RefAt(r, t, tip, n + (j - 1));
      SequencerSlot(r, b, minTime, j - 1, parent);
      var p := BlockAt(t, tip, n + j).value;
      LookupHeight(t, tip, n + j);
      assert p.txs[0] == r.codec.info((j - 1) % TWO_64, b);
      Derivation.SlotExists(r.cfg.blockTime, minTime, minTime, j - 1);
    }
  }

  /**
    p is a block the sequencer made for slot j of the epoch of b: the slot's time, the forced
    transactions first, only sequenced ones after them, and none once the drift limit is reached.
   */
  ghost predicate IsSlotBlock(r: Rollup, b: L1Block, minTime: nat, j: nat, p: Payload) {
    var forced := Forced(r, b, j % TWO_64, j == 0);
    && p.timestamp == Derivation.SlotTime(minTime, r.cfg.blockTime, j)
    && p.prevRandao == b.mixDigest
    && p.txs == forced + NonDeposits(p.txs)
    && (forall tx :: tx in NonDeposits(p.txs) ==> IsSequenced(tx))
    && (p.timestamp >= b.time + r.cfg.maxSequencerDrift ==> NonDeposits(p.txs) == [])
  }

  lemma SequencedContent(r: Rollup, t: Tree, tip: Hash, b: L1Block, n: nat, k: nat, minTime: nat, j: nat)
    requires r.Wf() && WfTree(t, r.G()) && r.G().number <= n
    requires SequencedEpoch(r, t, tip, b, n, k, minTime) && j < k
    ensures BlockAt(t, tip, n + j + 1).Some?
    ensures IsSlotBlock(r, b, minTime, j, BlockAt(t, tip, n + j + 1).value)
  {
    SequencedUnder(r, t, tip, b, n, k, minTime, j);
    assert SequencedAt(r, t, tip, b, n + j);
    var parent, p := RefAt(r, t, tip, n + j), BlockAt(t, tip, n + j + 1).value;
    SequencerSlot(r, b, minTime, j, parent);
    ForcedThenSequenced(r, b, j % TWO_64, j == 0, p.txs);
  }

  /** A block that starts with its forced transactions and has no deposits after them. */
  lemma ForcedThenSequenced(r: Rollup, b: L1Block, s: nat, newEpoch: bool, txs: seq<Bytes>)
    requires r.codec.Sound() && s < TWO_64 && Forced(r, b, s, newEpoch) <= txs && DepositsFirst(txs)
    requires forall i :: |Forced(r, b, s, newEpoch)| <= i < |txs| ==> !IsDeposit(txs[i])
    ensures txs == Forced(r, b, s, newEpoch) + NonDeposits(txs)
    ensures forall tx :: tx in NonDeposits(txs) ==> IsSequenced(tx)
  {
    ForcedAreDeposits(r, b, s, newEpoch);
    DepositsThenSequenced(Forced(r, b, s, newEpoch), txs);
  }

  lemma ForcedAreDeposits(r: Rollup, b: L1Block, s: nat, newEpoch: bool)
    requires r.codec.Sound() && s < TWO_64
    ensures forall i :: 0 <= i < |Forced(r, b, s, newEpoch)| ==> IsDeposit(Forced(r, b, s, newEpoch)[i])
  {
    var forced := Forced(r, b, s, newEpoch);
    forall i | 0 <= i < |forced| ensures IsDeposit(forced[i]) {
      if i > 0 {
        assert forced[i] == r.codec.deposits(b)[i - 1];
        assert forced[i] in r.codec.deposits(b);
      }
    }
  }

  lemma DepositsThenSequenced(forced: seq<Bytes>, txs: seq<Bytes>)
    requires forced <= txs && (forall i :: 0 <= i < |forced| ==> IsDeposit(forced[i]))
    requires forall i :: |forced| <= i < |txs| ==> txs[i] != [] && !IsDeposit(txs[i])
    ensures txs == forced + NonDeposits(txs)
    ensures forall tx :: tx in NonDeposits(txs) ==> IsSequenced(tx)
  {
    assert forall i :: 0 <= i < |forced| ==> txs[i] == forced[i];
    NonDepositsAfter(txs, |forced|);
    forall tx | tx in NonDeposits(txs) ensures IsSequenced(tx) {
      var i :| |forced| <= i < |txs| && txs[i] == tx;
    }
  }

  // ----- Batches that land -----

  /** The batch submitted for a block, if any. */
  function Submission(r: Rollup, p: Payload): Option<Batch> {
    match BlockToBatch(r, p)
    case Ok(batch) => batch
    case Err(_) => None
  }

  /** The batch submitted for the block of slot j, if any. */
  function SlotSubmission(r: Rollup, t: Tree, tip: Hash, n: nat, j: nat): Option<Batch> {
    match BlockAt(t, tip, n + j + 1)
    case None => None
    case Some(p) => Submission(r, p)
  }

  /** What is submitted for a slot block: all its sequenced transactions, with its time and epoch. */
  lemma SubmissionContent(r: Rollup, b: L1Block, minTime: nat, j: nat, p: Payload)
    requires r.Wf() && IsSlotBlock(r, b, minTime, j, p)
    ensures match Submission(r, p)
            case None => NonDeposits(p.txs) == []
            case Some(batch) =>
              && batch == Batch(b.number, p.timestamp, NonDeposits(p.txs))
              && (j > 0 ==> p.timestamp < b.time + r.cfg.maxSequencerDrift)
  {
    var forced := Forced(r, b, j % TWO_64, j == 0);
    assert p.txs[0] == forced[0] == r.codec.info(j % TWO_64, b);
  }

  /** A block's submission passes the verifier's filter: right epoch, aligned, in range, no deposits. */
  lemma SubmissionIsValid(r: Rollup, b: L1Block, span: Derivation.Span, j: nat, p: Payload)
    requires r.Wf() && IsSlotBlock(r, b, span.minTime, j, p)
    requires span.minTime >= r.cfg.blockTime && span == EpochSpan(r, b.number, span.minTime - r.cfg.blockTime, b)
             && span.Aligned()
    requires p.timestamp < TWO_64
    ensures Submission(r, p).Some? ==> Derivation.ValidBatch(span, Submission(r, p).value)
  {
    SubmissionContent(r, b, span.minTime, j, p);
    if Submission(r, p).Some? {
      SlotAligned(span, j);
      Derivation.ValidBatchExact(span, Submission(r, p).value);
    }
  }

  lemma SlotAligned(span: Derivation.Span, j: nat)
    requires span.blockTime > 0 && span.Aligned()
    ensures (Derivation.SlotTime(span.minTime, span.blockTime, j) - span.genesisTime) % span.blockTime == 0
  {
    var q := (span.minTime - span.genesisTime) / span.blockTime;
    assert span.minTime - span.genesisTime == q * span.blockTime;
    assert Derivation.SlotTime(span.minTime, span.blockTime, j) - span.genesisTime == (q + j) * span.blockTime + 0;
    Derivation.ModOfMultiple(q + j, span.blockTime, 0);
  }

  /**
    The window holds, as the first valid batch of every slot of the epoch, what was submitted for
    it, and no valid batch for a later slot; and the last block has a batch or is stamped no
    later than the time the verifier fills up to by itself.
   */
  ghost predicate Lands(
    r: Rollup, t: Tree, tip: Hash, n: nat, k: nat, span: Derivation.Span, bs: seq<Batch>, nextL1Time: nat)
    requires span.blockTime > 0
  {
    && k >= 1
    && (forall j :: 0 <= j < k ==>
      Derivation.FirstValid(span, bs, Derivation.SlotTime(span.minTime, span.blockTime, j))
        == SlotSubmission(r, t, tip, n, j))
    && (forall b :: b in bs && Derivation.ValidBatch(span, b) ==>
      b.timestamp <= Derivation.SlotTime(span.minTime, span.blockTime, k - 1))
    && (SlotSubmission(r, t, tip, n, k - 1).Some?
        || Derivation.SlotTime(span.minTime, span.blockTime, k - 1)
          <= Derivation.FillTime(span.blockTime, span.minTime, nextL1Time))
  }

  /** The verifier derives at least the k slots, and no more once the next L1 block is in reach of the last one. */
  lemma SlotsCoverEpoch(
    r: Rollup, t: Tree, tip: Hash, n: nat, k: nat, span: Derivation.Span, bs: seq<Batch>, nextL1Time: nat)
    requires span.blockTime > 0 && Lands(r, t, tip, n, k, span, bs, nextL1Time)
    ensures |Derivation.DeriveSlots(span, bs, nextL1Time)| >= k
    ensures nextL1Time <= Derivation.SlotTime(span.minTime, span.blockTime, k) ==>
            |Derivation.DeriveSlots(span, bs, nextL1Time)| == k
  {
    var d, last := span.blockTime, Derivation.SlotTime(span.minTime, span.blockTime, k - 1);
    Derivation.SlotExists(d, span.minTime, span.minTime, k - 1);
    Derivation.DeriveSlotsLength(span, bs, nextL1Time, k - 1);
    Derivation.DeriveSlotsLength(span, bs, nextL1Time, k);
    Derivation.HeadReaches(span, bs, nextL1Time, last);
    Derivation.HeadReaches(span, bs, nextL1Time, last + d);
    Derivation.FirstValidIsValid(span, bs, last);
  }

  /** The attributes derived for slot j are those of the block the sequencer made for it. */
  lemma DerivedMatchesSequenced(
    r: Rollup, t: Tree, tip: Hash, b: L1Block, n: nat, k: nat, span: Derivation.Span, bs: seq<Batch>, nextL1Time: nat,
    j: nat)
    requires r.Wf() && WfTree(t, r.G()) && r.G().number <= n
    requires SequencedEpoch(r, t, tip, b, n, k, span.minTime) && j < k
    requires span.blockTime == r.cfg.blockTime
    requires Lands(r, t, tip, n, k, span, bs, nextL1Time)
    ensures j < |Derivation.DeriveSlots(span, bs, nextL1Time)|
    ensures DerivedAbove(t, tip, n + j, DerivedAttributes(r, b, Derivation.DeriveSlots(span, bs, nextL1Time)[j], j))
  {
    SlotsCoverEpoch(r, t, tip, n, k, span, bs, nextL1Time);
    Derivation.DeriveSlotAt(span, bs, nextL1Time, j);
    SequencedContent(r, t, tip, b, n, k, span.minTime, j);
    var slot, p := Derivation.DeriveSlots(span, bs, nextL1Time)[j], BlockAt(t, tip, n + j + 1).value;
    SubmissionContent(r, b, span.minTime, j, p);
    assert slot.txs == NonDeposits(p.txs);
    assert DerivedAttributes(r, b, slot, j).txs == Forced(r, b, j % TWO_64, j == 0) + slot.txs;
    assert SequencedAt(r, t, tip, b, n + j);
  }

  // ----- The agreement -----

  /**
    The inputs of the epoch on top of safe: a linked window of L1 blocks, its first two blocks, the
    time limits and the batches.
   */
  ghost predicate EpochFacts(
    r: Rollup, safe: L2Ref, window: seq<BlockID>, b: L1Block, span: Derivation.Span, bs: seq<Batch>, next: L1Block) {
    && |window| >= 2 && WindowKnown(r, window) && WindowLinked(r, safe.l1Origin.hash, window)
    && b == r.l1[window[0].hash] && next == r.l1[window[1].hash]
    && span == EpochSpan(r, b.number, safe.time, b)
    && bs == ListsBatches(r, WindowTxs(r, window))
  }

  lemma EpochBlocksLinked(
    r: Rollup, safe: L2Ref, window: seq<BlockID>, b: L1Block, span: Derivation.Span, bs: seq<Batch>, next: L1Block)
    requires r.WfL1() && EpochFacts(r, safe, window, b, span, bs, next)
    ensures b.ID() == window[0] && next.ID() == window[1] && next.number == b.number + 1
  {
    assert LinkedAt(r, safe.l1Origin.hash, window, 0) && LinkedAt(r, safe.l1Origin.hash, window, 1);
  }

  /** The chain ends at height n, or goes on with a block sequenced on the next L1 origin. */
  ghost predicate MovesOn(r: Rollup, t: Tree, tip: Hash, next: L1Block, n: nat) {
    (tip in t && t[tip].number == n) || SequencedAt(r, t, tip, next, n)
  }

  /** A chain moves on to the next origin only when its time has come. */
  lemma MovesOnWhenDue(r: Rollup, t: Tree, tip: Hash, b: L1Block, next: L1Block, n: nat, k: nat, minTime: nat)
    requires r.Wf() && WfTree(t, r.G()) && r.G().number <= n
    requires SequencedEpoch(r, t, tip, b, n, k, minTime) && SequencedAt(r, t, tip, next, n + k)
    ensures next.time <= Derivation.SlotTime(minTime, r.cfg.blockTime, k)
    ensures RefAt(r, t, tip, n + k + 1).l1Origin == next.ID()
  {
    SequencedUnder(r, t, tip, b, n, k, minTime, k);
    BuiltOrigin(r, t, tip, next, n + k);
  }

  /** A block built on L1 origin b says so, and is stamped one block time after its parent. */
  lemma BuiltOrigin(r: Rollup, t: Tree, tip: Hash, b: L1Block, n: nat)
    requires r.Wf() && WfTree(t, r.G()) && r.G().number <= n && BuiltAt(r, t, tip, b, n)
    ensures RefAt(r, t, tip, n + 1).l1Origin == b.ID()
    ensures BlockAt(t, tip, n + 1).value.timestamp == RefAt(r, t, tip, n).time + r.cfg.blockTime
  {
    var parent, p := RefAt(r, t, tip, n), BlockAt(t, tip, n + 1).value;
    var newEpoch := parent.l1Origin.number != b.number;
    LookupHeight(t, tip, n + 1);
    assert p.txs[0] == r.codec.info(if newEpoch then 0 else (parent.sequenceNumber + 1) % TWO_64, b);
  }

  /**
    The epoch of b was sequenced on safe and landed, and the chain moves on after it, if at all, as the driver does.
   */
  ghost predicate EpochLanded(
    r: Rollup, t: Tree, head: L2Ref, safe: L2Ref, k: nat, b: L1Block, span: Derivation.Span, bs: seq<Batch>,
    next: L1Block)
    requires span.blockTime > 0
  {
    && k >= 1 && safe.number + k <= head.number
    && SequencedEpoch(r, t, head.hash, b, safe.number, k, span.minTime)
    && Lands(r, t, head.hash, safe.number, k, span, bs, next.time)
    && MovesOn(r, t, head.hash, next, safe.number + k)
  }

  /** As far as the unsafe chain reaches, it carries the attributes insertEpoch derives. */
  lemma UnsafeChainMatches(
    r: Rollup, t: Tree, head: L2Ref, safe: L2Ref, window: seq<BlockID>, k: nat,
    b: L1Block, span: Derivation.Span, bs: seq<Batch>, next: L1Block)
    requires r.Wf() && WfTree(t, r.G()) && Tracks(r, t, head) && Tracks(r, t, safe)
    requires EpochFacts(r, safe, window, b, span, bs, next) && EpochLanded(r, t, head, safe, k, b, span, bs, next)
    ensures |EpochInputs(r, safe.time, window)| >= k
    ensures MatchesAbove(t, head.hash, safe.number, EpochInputs(r, safe.time, window))
  {
    var attrs := EpochInputs(r, safe.time, window);
    TrackedNumber(r, t, safe);
    TrackedNumber(r, t, head);
    EpochBlocksLinked(r, safe, window, b, span, bs, next);
    EpochInputsAre(r, safe, window, b, span, bs, next);
    SlotsEndWithEpoch(r, t, head, safe, k, b, span, bs, next);
    forall i | 0 <= i < |attrs| && safe.number + i < t[head.hash].number
      ensures DerivedAbove(t, head.hash, safe.number + i, attrs[i])
    {
      DerivedMatchesSequenced(r, t, head.hash, b, safe.number, k, span, bs, next.time, i);
    }
  }

  lemma EpochInputsAre(
    r: Rollup, safe: L2Ref, window: seq<BlockID>, b: L1Block, span: Derivation.Span, bs: seq<Batch>, next: L1Block)
    requires r.cfg.blockTime > 0 && EpochFacts(r, safe, window, b, span, bs, next) && b.ID() == window[0]
    ensures EpochInputs(r, safe.time, window) == EpochAttributes(r, b, Derivation.DeriveSlots(span, bs, next.time))
  {
  }

  /** The verifier derives the k slots, and none beyond the reach of the unsafe chain that would differ. */
  lemma SlotsEndWithEpoch(
    r: Rollup, t: Tree, head: L2Ref, safe: L2Ref, k: nat, b: L1Block, span: Derivation.Span, bs: seq<Batch>,
    next: L1Block)
    requires r.Wf() && WfTree(t, r.G()) && Tracks(r, t, head) && r.G().number <= safe.number
             && span.blockTime == r.cfg.blockTime
    requires EpochLanded(r, t, head, safe, k, b, span, bs, next)
    ensures |Derivation.DeriveSlots(span, bs, next.time)| >= k
    ensures safe.number + k < head.number ==> |Derivation.DeriveSlots(span, bs, next.time)| == k
  {
    if safe.number + k < head.number {
      NextIsDue(r, t, head, safe.number, k, b, span.minTime, next);
    }
    SlotsCoverEpoch(r, t, head.hash, safe.number, k, span, bs, next.time);
  }

  /** A chain that goes on after the epoch has reached the next origin's time. */
  lemma NextIsDue(
    r: Rollup, t: Tree, head: L2Ref, n: nat, k: nat, b: L1Block, minTime: nat, next: L1Block)
    requires r.Wf() && WfTree(t, r.G()) && Tracks(r, t, head) && r.G().number <= n
    requires SequencedEpoch(r, t, head.hash, b, n, k, minTime) && MovesOn(r, t, head.hash, next, n + k)
    requires n + k < head.number
    ensures next.time <= Derivation.SlotTime(minTime, r.cfg.blockTime, k)
  {
    TrackedNumber(r, t, head);
    MovesOnWhenDue(r, t, head.hash, b, next, n, k, minTime);
  }

  /** The loop of insertEpoch, if it is reached at all, never takes the reorg branch. */
  predicate EpochNeverReorgs(r: Rollup, e: State, answers: L1Answers, head: L2Ref, safe: L2Ref, window: seq<BlockID>)
    requires r.cfg.blockTime > 0
  {
    var (e1, info) := PayloadByHash(e, safe.hash);
    info.Some? && EpochGuard(r, answers, safe, window, true).None? ==>
      NeverReorgs(r, EpochState(e1, head, safe, false, false), EpochInputs(r, info.value.timestamp, window))
  }

  /** insertEpoch reports a reorg exactly when its loop took the reorg branch. */
  lemma ReorgReported(r: Rollup, e: State, answers: L1Answers, head: L2Ref, safe: L2Ref, window: seq<BlockID>)
    requires r.cfg.blockTime > 0
    ensures var out := InsertEpoch(r, e, answers, head, safe, window).1;
            out.Inserted? ==> (out.didReorg <==> !EpochNeverReorgs(r, e, answers, head, safe, window))
  {
    var (e1, info) := PayloadByHash(e, safe.hash);
    if info.Some? && EpochGuard(r, answers, safe, window, true).None? {
      LoopReorgFlag(r, EpochState(e1, head, safe, false, false), EpochInputs(r, info.value.timestamp, window));
    }
  }

  /**
    What insertEpoch does to an unsafe chain it confirms. Failing or not, no iteration takes the reorg
    branch and the engine's chain still contains all of the unsafe chain; on success the new safe head
    is on one chain with the k blocks above the old one, at or above the last of them.
   */
  ghost predicate Confirmed(
    r: Rollup, e: State, answers: L1Answers, head: L2Ref, safe: L2Ref, window: seq<BlockID>, k: nat)
    requires r.cfg.blockTime > 0
  {
    var (e', out) := InsertEpoch(r, e, answers, head, safe, window);
    && EpochNeverReorgs(r, e, answers, head, safe, window)
    && Ancestor(e'.tree, head.hash, e'.head)
    && (out.Inserted? ==>
          && !out.didReorg
          && Ancestor(e'.tree, head.hash, out.head.hash)
          && out.safe.number >= safe.number + k
          && Lookup(e'.tree, out.safe.hash, safe.number + k) == Lookup(e.tree, head.hash, safe.number + k))
  }

  /**
    If the k blocks of an epoch were sequenced on top of the safe head and their batches landed,
    insertEpoch confirms them, whatever comes after them on the sequencer's chain.
   */
  lemma SequencerVerifierAgreement(
    r: Rollup, e: State, answers: L1Answers, head: L2Ref, safe: L2Ref, window: seq<BlockID>, k: nat,
    b: L1Block, span: Derivation.Span, bs: seq<Batch>, next: L1Block)
    requires r.Wf() && LoopReady(r, EpochState(e, head, safe, false, false)) && Ancestor(e.tree, safe.hash, head.hash)
    requires EpochFacts(r, safe, window, b, span, bs, next) && EpochLanded(r, e.tree, head, safe, k, b, span, bs, next)
    ensures Confirmed(r, e, answers, head, safe, window, k)
  {
    UnsafeChainMatches(r, e.tree, head, safe, window, k, b, span, bs, next);
    MatchingEpochKeepsHead(r, e, answers, head, safe, window);
    MatchingEpochConfirms(r, e, answers, head, safe, window, k);
  }

  /** An unsafe chain that carries the derived attributes as far as it reaches survives the epoch, failing or not. */
  lemma MatchingEpochKeepsHead(r: Rollup, e: State, answers: L1Answers, head: L2Ref, safe: L2Ref, window: seq<BlockID>)
    requires r.Wf() && LoopReady(r, EpochState(e, head, safe, false, false)) && Ancestor(e.tree, safe.hash, head.hash)
    requires |window| >= 2 && WindowKnown(r, window)
    requires MatchesAbove(e.tree, head.hash, safe.number, EpochInputs(r, safe.time, window))
    ensures EpochNeverReorgs(r, e, answers, head, safe, window)
    ensures var (e', out) := InsertEpoch(r, e, answers, head, safe, window);
            && Ancestor(e'.tree, head.hash, e'.head)
            && (out.Inserted? ==> !out.didReorg && Ancestor(e'.tree, head.hash, out.head.hash))
  {
    var (e1, info) := PayloadByHash(e, safe.hash);
    if info.Some? {
      assert info.value.timestamp == safe.time;
      EpochInputsNoPool(r, safe.time, window);
      ConfirmingLoop(r, EpochState(e1, head, safe, false, false), EpochInputs(r, safe.time, window));
    }
  }

  lemma EpochInputsNoPool(r: Rollup, safeTime: nat, window: seq<BlockID>)
    requires r.cfg.blockTime > 0 && |window| >= 2 && WindowKnown(r, window)
    ensures forall a :: a in EpochInputs(r, safeTime, window) ==> a.noTxPool
  {
  }

  /** When the head survives and at least k slots are derived, the safe head runs through the first k blocks. */
  lemma MatchingEpochConfirms(
    r: Rollup, e: State, answers: L1Answers, head: L2Ref, safe: L2Ref, window: seq<BlockID>, k: nat)
    requires r.cfg.blockTime > 0 && LoopReady(r, EpochState(e, head, safe, false, false))
    requires |window| >= 2 && WindowKnown(r, window) && safe.number + k <= head.number
    requires |EpochInputs(r, safe.time, window)| >= k
    ensures var (e', out) := InsertEpoch(r, e, answers, head, safe, window);
            out.Inserted? && Ancestor(e'.tree, head.hash, out.head.hash) ==>
              && out.safe.number >= safe.number + k
              && Lookup(e'.tree, out.safe.hash, safe.number + k) == Lookup(e.tree, head.hash, safe.number + k)
  {
    var (e', out) := InsertEpoch(r, e, answers, head, safe, window);
    InsertEpochContract(r, e, answers, head, safe, window);
    if out.Inserted? && Ancestor(e'.tree, head.hash, out.head.hash) {
      SameBlocks(r, e, e', head, safe, out, k);
    }
  }

  /** The old and new head chains agree up to the old head. */
  lemma SameBlocks(r: Rollup, e: State, e': State, head: L2Ref, safe: L2Ref, out: EpochOutcome, k: nat)
    requires e.Wf(r.G()) && e'.Wf(r.G()) && SubTree(e.tree, e'.tree) && out.Inserted?
    requires Tracks(r, e.tree, head) && Tracks(r, e.tree, safe) && safe.number + k <= head.number
    requires Tracks(r, e'.tree, out.safe) && out.safe.number >= safe.number + k
    requires Ancestor(e'.tree, head.hash, out.head.hash) && Ancestor(e'.tree, out.safe.hash, out.head.hash)
    ensures Lookup(e'.tree, out.safe.hash, safe.number + k) == Lookup(e.tree, head.hash, safe.number + k)
  {
    var t', n := e'.tree, safe.number + k;
    TrackedNumber(r, e.tree, head);
    TrackedNumber(r, e.tree, safe);
    TrackedNumber(r, t', out.safe);
    assert t'[head.hash] == e.tree[head.hash];
    LookupGrows(e.tree, t', r.G(), head.hash, n);
    LookupTransitive(t', out.head.hash, head.number, n);
    LookupTransitive(t', out.head.hash, out.safe.number, n);
  }
}
