/**
  From submitted bundles to derived slots: bundles of an epoch's batches, posted to L1 by the
  batch sender in order, between batches of other epochs and foreign transactions, land as the
  first valid batches of their slots.
 */
module Posting {
  import opened Types
  import opened Engine
  import opened Output
  import opened ChainRules
  import opened Agreement
  import opened Driver
  import Derivation
  import Numbers
  import BatchCodec

  /** The batches tagged with an epoch, in order. */
  function OfEpoch(bs: seq<Batch>, epoch: nat): seq<Batch> {
    if bs == [] then []
    else if bs[0].epoch == epoch then [bs[0]] + OfEpoch(bs[1..], epoch)
    else OfEpoch(bs[1..], epoch)
  }

  /** The batches submitted for the first k blocks above height n. */
  function Submissions(r: Rollup, t: Tree, tip: Hash, n: nat, k: nat): seq<Batch> {
    if k == 0 then []
    else
      match SlotSubmission(r, t, tip, n, k - 1)
      case None => Submissions(r, t, tip, n, k - 1)
      case Some(b) => Submissions(r, t, tip, n, k - 1) + [b]
  }

  lemma {:induction false} OfEpochDecides(span: Derivation.Span, bs: seq<Batch>, t: nat)
    requires span.blockTime > 0
    ensures Derivation.FirstValid(span, OfEpoch(bs, span.epoch), t) == Derivation.FirstValid(span, bs, t)
    ensures forall b :: b in bs && b.epoch == span.epoch ==> b in OfEpoch(bs, span.epoch)
  {
    if bs != [] {
      OfEpochDecides(span, bs[1..], t);
      if bs[0].epoch == span.epoch {
        assert ([bs[0]] + OfEpoch(bs[1..], span.epoch))[1..] == OfEpoch(bs[1..], span.epoch);
      }
    }
  }

  /** Everything a submission of a sequenced epoch is known to be. */
  ghost predicate GoodSubmissions(r: Rollup, t: Tree, tip: Hash, n: nat, k: nat, span: Derivation.Span)
    requires span.blockTime > 0
  {
    forall j :: 0 <= j < k && SlotSubmission(r, t, tip, n, j).Some? ==>
      && Derivation.ValidBatch(span, SlotSubmission(r, t, tip, n, j).value)
      && SlotSubmission(r, t, tip, n, j).value.timestamp == Derivation.SlotTime(span.minTime, span.blockTime, j)
  }

  lemma SequencedGood(r: Rollup, t: Tree, tip: Hash, b: L1Block, n: nat, k: nat, span: Derivation.Span)
    requires r.Wf() && WfTree(t, r.G()) && r.G().number <= n
    requires SequencedEpoch(r, t, tip, b, n, k, span.minTime)
    requires span.minTime >= r.cfg.blockTime && span == EpochSpan(r, b.number, span.minTime - r.cfg.blockTime, b)
             && span.Aligned()
    requires Derivation.SlotTime(span.minTime, span.blockTime, k) <= TWO_64
    ensures GoodSubmissions(r, t, tip, n, k, span)
  {
    forall j | 0 <= j < k && SlotSubmission(r, t, tip, n, j).Some?
      ensures Derivation.ValidBatch(span, SlotSubmission(r, t, tip, n, j).value)
      ensures SlotSubmission(r, t, tip, n, j).value.timestamp == Derivation.SlotTime(span.minTime, span.blockTime, j)
    {
      SequencedContent(r, t, tip, b, n, k, span.minTime, j);
      SubmissionContent(r, b, span.minTime, j, BlockAt(t, tip, n + j + 1).value);
      SlotsIncrease(span, j, k);
      SubmissionIsValid(r, b, span, j, BlockAt(t, tip, n + j + 1).value);
    }
  }

  lemma SlotsIncrease(span: Derivation.Span, i: nat, j: nat)
    requires span.blockTime > 0 && i < j
    ensures Derivation.SlotTime(span.minTime, span.blockTime, i) < Derivation.SlotTime(span.minTime, span.blockTime, j)
  {
    Numbers.MulMonotone(i + 1, j, span.blockTime);
  }

  /** Among the submissions, the first valid batch for slot j is the one submitted for it. */
  lemma {:induction false} SubmissionsDecide(
    r: Rollup, t: Tree, tip: Hash, n: nat, k: nat, span: Derivation.Span, j: nat)
    requires span.blockTime > 0 && GoodSubmissions(r, t, tip, n, k, span)
    ensures Derivation.FirstValid(span, Submissions(r, t, tip, n, k),
            Derivation.SlotTime(span.minTime, span.blockTime, j))
         == if j < k then SlotSubmission(r, t, tip, n, j) else None
    ensures forall b :: b in Submissions(r, t, tip, n, k) ==>
            b.timestamp < Derivation.SlotTime(span.minTime, span.blockTime, k)
    decreases k
  {
    if k > 0 {
      SubmissionsDecide(r, t, tip, n, k - 1, span, j);
      SlotsIncrease(span, k - 1, k);
      var last := SlotSubmission(r, t, tip, n, k - 1);
      var time := Derivation.SlotTime(span.minTime, span.blockTime, j);
      if last.Some? {
        Derivation.FirstValidSplit(span, Submissions(r, t, tip, n, k - 1), [last.value], time);
        assert Derivation.FirstValid(span, [last.value], time) == if last.value.timestamp == time then last else None;
        if j < k - 1 {
          SlotsIncrease(span, j, k - 1);
        } else if j > k - 1 {
          SlotsIncrease(span, k - 1, j);
        }
      }
    }
  }

  /** Submissions that are all the window holds for the epoch land. */
  lemma PostedSubmissionsLand(
    r: Rollup, t: Tree, tip: Hash, b: L1Block, n: nat, k: nat, span: Derivation.Span, bs: seq<Batch>, next: nat)
    requires r.Wf() && WfTree(t, r.G()) && r.G().number <= n && k >= 1
    requires SequencedEpoch(r, t, tip, b, n, k, span.minTime)
    requires span.minTime >= r.cfg.blockTime && span == EpochSpan(r, b.number, span.minTime - r.cfg.blockTime, b)
             && span.Aligned()
    requires Derivation.SlotTime(span.minTime, span.blockTime, k) <= TWO_64
    requires OfEpoch(bs, b.number) == Submissions(r, t, tip, n, k)
    requires SlotSubmission(r, t, tip, n, k - 1).Some?
             || Derivation.SlotTime(span.minTime, span.blockTime, k - 1)
               <= Derivation.FillTime(span.blockTime, span.minTime, next)
    ensures Lands(r, t, tip, n, k, span, bs, next)
  {
    SequencedGood(r, t, tip, b, n, k, span);
    forall j | 0 <= j < k
      ensures Derivation.FirstValid(span, bs, Derivation.SlotTime(span.minTime, span.blockTime, j))
              == SlotSubmission(r, t, tip, n, j)
    {
      OfEpochDecides(span, bs, Derivation.SlotTime(span.minTime, span.blockTime, j));
      SubmissionsDecide(r, t, tip, n, k, span, j);
    }
    OfEpochDecides(span, bs, 0);
    SubmissionsBelow(r, t, tip, n, k, span);
  }

  lemma {:induction false} SubmissionsBelow(r: Rollup, t: Tree, tip: Hash, n: nat, k: nat, span: Derivation.Span)
    requires span.blockTime > 0 && k >= 1 && GoodSubmissions(r, t, tip, n, k, span)
    ensures forall b :: b in Submissions(r, t, tip, n, k) ==>
            b.timestamp <= Derivation.SlotTime(span.minTime, span.blockTime, k - 1)
  {
    SubmissionsDecide(r, t, tip, n, k - 1, span, 0);
  }

  /** A bundle posted by the batch sender is read back, whatever follows it in the calldata. */
  lemma PostedBundleIsRead(r: Rollup, tx: L1Tx, bs: seq<Batch>, trailing: Bytes)
    requires r.codec.decode == BatchCodec.DecodeBatches
    requires tx.to == Some(r.cfg.batchInbox) && tx.sender == Some(r.cfg.batchSender)
    requires tx.data == BatchCodec.EncodeBatches(bs) + trailing
    requires (forall b :: b in bs ==> BatchCodec.Encodable(b)) && |BatchCodec.EncodeBatches(bs)| < TWO_64
    ensures TxBatches(r, tx) == bs
  {
    BatchCodec.BundleRoundTrip(bs, trailing);
  }

  /**
    findL1Origin moves on only when the next block's time has reached the next origin: also when that
    origin is the L1 head.
   */
  lemma OriginMovesOnWhenDue(r: Rollup, s: DriverState, current: bool, next: L1Block)
    requires Honest(r, s, NewBlock(current, Some(next), true, true))
    requires FindL1Origin(r, s, current, Some(next)) == Some(next) && s.l2Head.l1Origin.hash != s.l1Head.hash
    ensures next.time <= s.l2Head.time + r.cfg.blockTime
  {
  }

  /**
    The k blocks of the epoch of b were sequenced on block safe of head's chain, the window's
    batches for this epoch are exactly those of the non-empty blocks, the last block has a batch
    or is stamped no later than the verifier fills by itself, and the chain goes on, if at all, with
    a block sequenced on the next origin.
   */
  ghost predicate EpochPosted(
    r: Rollup, t: Tree, head: L2Ref, safe: L2Ref, k: nat, b: L1Block, span: Derivation.Span, bs: seq<Batch>,
    next: L1Block) {
    && k >= 1 && safe.number + k <= head.number
    && SequencedEpoch(r, t, head.hash, b, safe.number, k, span.minTime)
    && Derivation.SlotTime(span.minTime, span.blockTime, k) <= TWO_64
    && OfEpoch(bs, b.number) == Submissions(r, t, head.hash, safe.number, k)
    && (SlotSubmission(r, t, head.hash, safe.number, k - 1).Some?
        || Derivation.SlotTime(span.minTime, span.blockTime, k - 1)
          <= Derivation.FillTime(span.blockTime, span.minTime, next.time))
    && MovesOn(r, t, head.hash, next, safe.number + k)
  }

  lemma EpochPostedLands(
    r: Rollup, s: DriverState, window: seq<BlockID>, k: nat, b: L1Block, span: Derivation.Span, bs: seq<Batch>,
    next: L1Block)
    requires RuleInv(r, s) && EpochFacts(r, s.l2Safe, window, b, span, bs, next)
    requires EpochPosted(r, s.eng.tree, s.l2Head, s.l2Safe, k, b, span, bs, next)
    ensures span.blockTime > 0 && EpochLanded(r, s.eng.tree, s.l2Head, s.l2Safe, k, b, span, bs, next)
  {
    SpanIsAligned(r, s, b.number, b);
    TrackedNumber(r, s.eng.tree, s.l2Safe);
    PostedSubmissionsLand(r, s.eng.tree, s.l2Head.hash, b, s.l2Safe.number, k, span, bs, next.time);
  }

  /** End to end: an epoch posted like this, in any reachable state, is confirmed by insertEpoch. */
  lemma PostedEpochIsConfirmed(
    r: Rollup, s: DriverState, answers: L1Answers, window: seq<BlockID>, k: nat,
    b: L1Block, span: Derivation.Span, bs: seq<Batch>, next: L1Block)
    requires RuleInv(r, s) && LoopReady(r, EpochState(s.eng, s.l2Head, s.l2Safe, false, false))
    requires Ancestor(s.eng.tree, s.l2Safe.hash, s.l2Head.hash)
    requires EpochFacts(r, s.l2Safe, window, b, span, bs, next)
    requires EpochPosted(r, s.eng.tree, s.l2Head, s.l2Safe, k, b, span, bs, next)
    ensures Confirmed(r, s.eng, answers, s.l2Head, s.l2Safe, window, k)
  {
    EpochPostedLands(r, s, window, k, b, span, bs, next);
    SequencerVerifierAgreement(r, s.eng, answers, s.l2Head, s.l2Safe, window, k, b, span, bs, next);
  }
}
