/**
  GetBatchBundle (op-node/node/api.go) outcome by outcome: where collection stops, when the answer is
  nothing, and when a submitter polls in vain for good.
 */
module BundleLaws {
  import opened Types
  import opened Output
  import opened BatchCodec
  import opened Rlp
  import opened Numbers
  import opened Bundle

  // ----- Where collection stops -----

  /** The blocks above lo up to hi are collected: all known and within the maximum, and the next one is not taken. */
  ghost predicate Collected(slots: nat -> Slot, size: Batch -> nat, req: Request, lo: nat, hi: nat) {
    && lo <= hi <= lo + 100
    && RangeKnown(slots, lo, hi)
    && RangeSize(slots, size, lo, hi) <= req.maxSize
    && (hi == lo + 100 || slots(hi + 1).Gone? || TooLarge(slots, size, req, lo, hi))
  }

  /** The batch of the block after hi does not fit. */
  ghost predicate TooLarge(slots: nat -> Slot, size: Batch -> nat, req: Request, lo: nat, hi: nat) {
    slots(hi + 1).Full? &&
    RangeSize(slots, size, lo, hi) + size(slots(hi + 1).batch) > req.maxSize
  }

  /** Collection meets a block at height n that cannot be fetched or converted. */
  ghost predicate BreaksAt(slots: nat -> Slot, size: Batch -> nat, req: Request, lo: nat, n: nat) {
    && lo < n <= lo + 100
    && slots(n).Broken?
    && RangeKnown(slots, lo, n - 1)
    && RangeSize(slots, size, lo, n - 1) <= req.maxSize
  }

  lemma {:induction false} RangeSizeMonotone(slots: nat -> Slot, size: Batch -> nat, lo: nat, h: nat, hi: nat)
    requires lo <= h <= hi
    ensures RangeSize(slots, size, lo, h) <= RangeSize(slots, size, lo, hi)
    decreases hi - h
  {
    if h < hi {
      RangeGrows(slots, size, lo, h);
      RangeSizeMonotone(slots, size, lo, h + 1, hi);
    }
  }

  /** The loop takes the block after h when a later height is reached within the maximum. */
  lemma TakesBelow(slots: nat -> Slot, size: Batch -> nat, req: Request, lo: nat, h: nat, hi: nat, limit: nat)
    requires lo <= h < hi <= limit && RangeKnown(slots, lo, hi) && RangeSize(slots, size, lo, hi) <= req.maxSize
    ensures Takes(slots, size, req, h, limit, RangeSize(slots, size, lo, h))
    ensures RangeSize(slots, size, lo, h + 1)
            == RangeSize(slots, size, lo, h) + NextSize(slots, size, h)
  {
    RangeGrows(slots, size, lo, h);
    RangeSizeMonotone(slots, size, lo, h + 1, hi);
  }

  /** Having taken the blocks up to h, the loop reaches every height that is known and within the maximum. */
  lemma {:induction false} GreedyReaches(
    slots: nat -> Slot, size: Batch -> nat, req: Request, lo: nat, h: nat, hi: nat, limit: nat)
    requires lo <= h <= hi <= limit && RangeKnown(slots, lo, hi) && RangeSize(slots, size, lo, hi) <= req.maxSize
    ensures Greedy(slots, size, req, h, limit, RangeSize(slots, size, lo, h))
            == Greedy(slots, size, req, hi, limit, RangeSize(slots, size, lo, hi))
    decreases hi - h
  {
    if h < hi {
      TakesBelow(slots, size, req, lo, h, hi, limit);
      GreedyTakes(slots, size, req, h, limit, RangeSize(slots, size, lo, h));
      GreedyReaches(slots, size, req, lo, h + 1, hi, limit);
    }
  }

  /** What stops collection before the minimum is a large next batch. */
  ghost predicate Forced(slots: nat -> Slot, size: Batch -> nat, req: Request, lo: nat, hi: nat) {
    hi < lo + 100 && TooLarge(slots, size, req, lo, hi) && RangeSize(slots, size, lo, hi) < req.minSize
  }

  lemma GreedyCollects(slots: nat -> Slot, size: Batch -> nat, req: Request, lo: nat, hi: nat)
    requires Collected(slots, size, req, lo, hi)
    ensures Greedy(slots, size, req, lo, lo + MAX_BLOCKS, 0) == Ok((hi, Forced(slots, size, req, lo, hi)))
  {
    GreedyReaches(slots, size, req, lo, lo, hi, lo + MAX_BLOCKS);
  }

  lemma GreedyBreaks(slots: nat -> Slot, size: Batch -> nat, req: Request, lo: nat, n: nat)
    requires BreaksAt(slots, size, req, lo, n)
    ensures Greedy(slots, size, req, lo, lo + MAX_BLOCKS, 0) == Err(slots(n).error)
  {
    GreedyReaches(slots, size, req, lo, lo, n - 1, lo + MAX_BLOCKS);
  }

  lemma TakesKnown(slots: nat -> Slot, size: Batch -> nat, req: Request, lo: nat, h: nat)
    requires lo <= h && RangeKnown(slots, lo, h)
    requires Takes(slots, size, req, h, lo + MAX_BLOCKS, RangeSize(slots, size, lo, h))
    ensures h < lo + MAX_BLOCKS
    ensures RangeKnown(slots, lo, h + 1) && RangeSize(slots, size, lo, h + 1) <= req.maxSize
  {
    RangeGrows(slots, size, lo, h);
  }

  lemma StopsHere(slots: nat -> Slot, size: Batch -> nat, req: Request, lo: nat, h: nat)
    requires lo <= h <= lo + MAX_BLOCKS && RangeKnown(slots, lo, h) && RangeSize(slots, size, lo, h) <= req.maxSize
    requires !Takes(slots, size, req, h, lo + MAX_BLOCKS, RangeSize(slots, size, lo, h))
    ensures Collected(slots, size, req, lo, h) || BreaksAt(slots, size, req, lo, h + 1)
  {
  }

  lemma {:induction false} StopsOrBreaks(slots: nat -> Slot, size: Batch -> nat, req: Request, lo: nat, h: nat)
    returns (n: nat)
    requires lo <= h <= lo + MAX_BLOCKS && RangeKnown(slots, lo, h) && RangeSize(slots, size, lo, h) <= req.maxSize
    ensures Collected(slots, size, req, lo, n) || BreaksAt(slots, size, req, lo, n)
    decreases lo + MAX_BLOCKS - h
  {
    if Takes(slots, size, req, h, lo + MAX_BLOCKS, RangeSize(slots, size, lo, h)) {
      TakesKnown(slots, size, req, lo, h);
      n := StopsOrBreaks(slots, size, req, lo, h + 1);
    } else {
      StopsHere(slots, size, req, lo, h);
      n := if Collected(slots, size, req, lo, h) then h else h + 1;
    }
  }

  /** Collection stops at exactly one height, or breaks at exactly one. */
  lemma CollectionExact(slots: nat -> Slot, size: Batch -> nat, req: Request, lo: nat)
    ensures (exists hi :: Collected(slots, size, req, lo, hi)) <==> !(exists n :: BreaksAt(slots, size, req, lo, n))
    ensures forall hi, hi' :: Collected(slots, size, req, lo, hi) && Collected(slots, size, req, lo, hi') ==> hi == hi'
  {
    var stop := StopsOrBreaks(slots, size, req, lo, lo);
    forall hi: nat | Collected(slots, size, req, lo, hi)
      ensures Greedy(slots, size, req, lo, lo + MAX_BLOCKS, 0) == Ok((hi, Forced(slots, size, req, lo, hi)))
    {
      GreedyCollects(slots, size, req, lo, hi);
    }
    if n :| BreaksAt(slots, size, req, lo, n) {
      GreedyBreaks(slots, size, req, lo, n);
    }
  }

  // ----- What is answered -----

  /** The answer res for the blocks above prev up to hi. */
  ghost predicate AnswerIs(
    slots: nat -> Slot, ids: nat -> BlockID, size: Batch -> nat, req: Request, prev: BlockID, hi: nat,
    res: Option<Response>) {
    var bs := RangeBatches(slots, prev.number, hi);
    && (res.None? <==> bs != [] && |EncodeBatches(bs)| < req.minSize && !Forced(slots, size, req, prev.number, hi))
    && (res.Some? ==>
          && res.value.prev == prev
          && res.value.last == (if hi == prev.number then prev else ids(hi))
          && res.value.bundle == (if bs == [] then [] else EncodeBatches(bs)))
  }

  lemma AnswerMeets(
    slots: nat -> Slot, ids: nat -> BlockID, size: Batch -> nat, req: Request, prev: BlockID, hi: nat)
    requires prev.number <= hi
    ensures var forced := Forced(slots, size, req, prev.number, hi);
            AnswerIs(slots, ids, size, req, prev, hi,
              Answer(req, prev, LastID(ids, prev, hi), RangeBatches(slots, prev.number, hi), forced))
  {
  }

  lemma AnswerWhenCollected(
    slots: nat -> Slot, ids: nat -> BlockID, size: Batch -> nat, req: Request, prev: BlockID, hi: nat)
    requires Collected(slots, size, req, prev.number, hi)
    ensures var res := AnswerAfter(slots, ids, size, req, prev);
            res.Ok? && AnswerIs(slots, ids, size, req, prev, hi, res.value)
  {
    GreedyCollects(slots, size, req, prev.number, hi);
    AnswerMeets(slots, ids, size, req, prev, hi);
  }

  lemma AnswerAfterExact(slots: nat -> Slot, ids: nat -> BlockID, size: Batch -> nat, req: Request, prev: BlockID)
    ensures var res := AnswerAfter(slots, ids, size, req, prev);
            && (forall n :: BreaksAt(slots, size, req, prev.number, n) ==> res == Err(slots(n).error))
            && (forall hi :: Collected(slots, size, req, prev.number, hi) ==>
                  res.Ok? && AnswerIs(slots, ids, size, req, prev, hi, res.value))
  {
    var res := AnswerAfter(slots, ids, size, req, prev);
    forall n: nat | BreaksAt(slots, size, req, prev.number, n) ensures res == Err(slots(n).error) {
      GreedyBreaks(slots, size, req, prev.number, n);
    }
    forall hi: nat | Collected(slots, size, req, prev.number, hi)
      ensures res.Ok? && AnswerIs(slots, ids, size, req, prev, hi, res.value)
    {
      AnswerWhenCollected(slots, ids, size, req, prev, hi);
    }
  }

  /**
    What GetBatchBundle answers, in every case. Without a common point, or when the client fails while it is looked
    for, an error. Otherwise the blocks after the common point are collected, up to exactly one height hi
    unless one breaks. Nothing is answered exactly when there is a batch to send, the joint bundle is
    smaller than the minimum, and it is not a large next batch that stopped collection short of the minimum.
    Every other answer is the range, with the joint bundle of its batches.
   */
  ghost predicate Outcome(r: Rollup, v: L2View, req: Request, res: Result<Option<Response>, ApiError>) {
    var slots := SlotsOf(r, v);
    match CommonPoint(v, req.history)
    case NotFound => res == Err(NoCommonPoint)
    case Unavailable => res == Err(ClientFailed)
    case Found(prev) =>
      if prev.hash == 0 && prev.number == 0 then res == Err(NoCommonPoint)
      else
        && ((exists hi :: Collected(slots, SingleSize, req, prev.number, hi))
            <==> !(exists n :: BreaksAt(slots, SingleSize, req, prev.number, n)))
        && (forall n :: BreaksAt(slots, SingleSize, req, prev.number, n) ==> res == Err(slots(n).error))
        && (forall hi :: Collected(slots, SingleSize, req, prev.number, hi) ==>
              res.Ok? && AnswerIs(slots, IdsOf(r, v), SingleSize, req, prev, hi, res.value))
  }

  lemma BundleExact(r: Rollup, v: L2View, req: Request)
    ensures Outcome(r, v, req, BundleFor(r, v, req))
  {
    match CommonPoint(v, req.history)
    case Found(prev) =>
      CollectionExact(SlotsOf(r, v), SingleSize, req, prev.number);
      AnswerAfterExact(SlotsOf(r, v), IdsOf(r, v), SingleSize, req, prev);
    case _ =>
  }

  lemma SmallIsForced(
    slots: nat -> Slot, ids: nat -> BlockID, size: Batch -> nat, req: Request, prev: BlockID, hi: nat, resp: Response)
    requires AnswerIs(slots, ids, size, req, prev, hi, Some(resp))
    requires resp.bundle != [] && |resp.bundle| < req.minSize
    ensures Forced(slots, size, req, prev.number, hi)
  {
  }

  /** A bundle that is not empty has the minimum size, or was stopped by a batch too large for the maximum. */
  lemma SmallBundleIsForced(r: Rollup, v: L2View, req: Request, resp: Response)
    requires BundleFor(r, v, req) == Ok(Some(resp)) && resp.bundle != [] && |resp.bundle| < req.minSize
    ensures exists hi ::
              && Collected(SlotsOf(r, v), SingleSize, req, resp.prev.number, hi)
              && Forced(SlotsOf(r, v), SingleSize, req, resp.prev.number, hi)
  {
    BundleExact(r, v, req);
    var prev := CommonPoint(v, req.history).value;
    var hi :| Collected(SlotsOf(r, v), SingleSize, req, prev.number, hi);
    SmallIsForced(SlotsOf(r, v), IdsOf(r, v), SingleSize, req, prev, hi, resp);
  }

  // ----- Polling in vain -----

  /** What a client shows while the tip is at the given height: the blocks up to it, and none above. */
  ghost predicate Shows(slots: nat -> Slot, shown: nat -> Slot, lo: nat, tip: nat) {
    forall n :: lo < n <= lo + 101 ==> shown(n) == if n <= tip then slots(n) else Gone
  }

  lemma {:induction false} ShownRange(slots: nat -> Slot, shown: nat -> Slot, lo: nat, tip: nat, hi: nat)
    requires Shows(slots, shown, lo, tip) && lo <= hi <= tip && hi <= lo + 100
    ensures RangeBatches(shown, lo, hi) == RangeBatches(slots, lo, hi)
    decreases hi
  {
    if lo < hi {
      ShownRange(slots, shown, lo, tip, hi - 1);
    }
  }

  function Lower(a: nat, b: nat): nat {
    if a < b then a else b
  }

  /** A poll collects up to the tip, or up to where collection would stop on the whole chain. */
  lemma ShownCollected(
    slots: nat -> Slot, shown: nat -> Slot, size: Batch -> nat, req: Request, lo: nat, tip: nat, hi: nat)
    requires Collected(slots, size, req, lo, hi) && !slots(hi + 1).Gone?
    requires Shows(slots, shown, lo, tip) && lo <= tip
    ensures Collected(shown, size, req, lo, Lower(tip, hi))
    ensures Forced(shown, size, req, lo, Lower(tip, hi)) <==> tip > hi && Forced(slots, size, req, lo, hi)
  {
    var h := Lower(tip, hi);
    ShownRange(slots, shown, lo, tip, h);
    RangeSizeMonotone(slots, size, lo, h, hi);
  }

  lemma EncodingGrows(bs: seq<Batch>, b: Batch)
    ensures |EncodeBatches(bs)| <= |EncodeBatches(bs + [b])|
  {
    BundleSize(bs);
    BundleSize(bs + [b]);
    PayloadAppend(bs, b);
    MinBEMonotone(|BundlePayload(bs)|, |BundlePayload(bs + [b])|);
  }

  lemma NextJoint(slots: nat -> Slot, lo: nat, h: nat)
    requires lo <= h
    ensures |EncodeBatches(RangeBatches(slots, lo, h))| <= |EncodeBatches(RangeBatches(slots, lo, h + 1))|
    ensures RangeBatches(slots, lo, h) != [] ==> RangeBatches(slots, lo, h + 1) != []
  {
    var bs := RangeBatches(slots, lo, h);
    if slots(h + 1).Full? {
      EncodingGrows(bs, slots(h + 1).batch);
    } else {
      assert bs + [] == bs;
    }
  }

  lemma {:induction false} JointMonotone(slots: nat -> Slot, lo: nat, h: nat, hi: nat)
    requires lo <= h <= hi
    ensures |EncodeBatches(RangeBatches(slots, lo, h))| <= |EncodeBatches(RangeBatches(slots, lo, hi))|
    ensures RangeBatches(slots, lo, h) != [] ==> RangeBatches(slots, lo, hi) != []
    decreases hi - h
  {
    if h < hi {
      NextJoint(slots, lo, h);
      JointMonotone(slots, lo, h + 1, hi);
    }
  }

  /** A poll in vain: nothing is answered, or a range without a block. */
  predicate InVain(res: Result<Option<Response>, ApiError>, prev: BlockID) {
    res == Ok(None) || res == Ok(Some(Response(prev, prev, [])))
  }

  /** The client's views while the tip moves up a chain without errors, all with the same common point. */
  ghost predicate Growing(r: Rollup, views: nat -> L2View, req: Request, prev: BlockID, slots: nat -> Slot) {
    && (prev.hash != 0 || prev.number != 0)
    && (forall n :: prev.number < n <= prev.number + 101 ==> slots(n).Empty? || slots(n).Full?)
    && forall tip: nat :: prev.number <= tip ==> GrownTo(r, views(tip), req, prev, slots, tip)
  }

  ghost predicate GrownTo(
    r: Rollup, v: L2View, req: Request, prev: BlockID, slots: nat -> Slot, tip: nat) {
    && CommonPoint(v, req.history) == Found(prev)
    && Shows(slots, SlotsOf(r, v), prev.number, tip)
    && forall n :: prev.number < n <= tip ==> IdsOf(r, v)(n).number == n
  }

  /** An answer is in vain exactly when no block is collected, or the batches are too few and nothing forces them. */
  lemma AnswerInVain(
    slots: nat -> Slot, ids: nat -> BlockID, size: Batch -> nat, req: Request, prev: BlockID, h: nat,
    res: Option<Response>)
    requires AnswerIs(slots, ids, size, req, prev, h, res) && prev.number <= h
    requires h > prev.number ==> ids(h).number == h
    ensures var bs := RangeBatches(slots, prev.number, h);
            InVain(Ok(res), prev) <==>
              h == prev.number
                || (bs != [] && |EncodeBatches(bs)| < req.minSize && !Forced(slots, size, req, prev.number, h))
  {
  }

  lemma PollAt(
    r: Rollup, v: L2View, req: Request, prev: BlockID, slots: nat -> Slot, hi: nat, tip: nat)
    requires GrownTo(r, v, req, prev, slots, tip) && (prev.hash != 0 || prev.number != 0)
    requires Collected(slots, SingleSize, req, prev.number, hi) && !slots(hi + 1).Gone? && prev.number <= tip
    ensures var h, lo := Lower(tip, hi), prev.number;
            var bs := RangeBatches(slots, lo, h);
            InVain(BundleFor(r, v, req), prev) <==>
              h == lo
              || (bs != [] && |EncodeBatches(bs)| < req.minSize
                  && !(tip > hi && Forced(slots, SingleSize, req, lo, hi)))
  {
    var h, lo: nat := Lower(tip, hi), prev.number;
    ShownCollected(slots, SlotsOf(r, v), SingleSize, req, lo, tip, hi);
    ShownRange(slots, SlotsOf(r, v), lo, tip, h);
    BundleExact(r, v, req);
    var res := BundleFor(r, v, req);
    assert h > lo ==> IdsOf(r, v)(h).number == h;
    AnswerInVain(SlotsOf(r, v), IdsOf(r, v), SingleSize, req, prev, h, res.value);
  }

  /** The first block decides whether anything is collected. */
  lemma FirstBlock(slots: nat -> Slot, size: Batch -> nat, req: Request, lo: nat, hi: nat)
    requires Collected(slots, size, req, lo, hi) && (slots(lo + 1).Empty? || slots(lo + 1).Full?)
    ensures hi == lo <==> slots(lo + 1).Full? && size(slots(lo + 1).batch) > req.maxSize
    ensures hi > lo ==> (RangeBatches(slots, lo, lo + 1) == [] <==> slots(lo + 1).Empty?)
  {
    assert RangeBatches(slots, lo, lo) == [];
    assert RangeBatches(slots, lo, lo + 1) == [] + SlotBatches(slots(lo + 1));
    RangeGrows(slots, size, lo, lo);
    if hi > lo {
      RangeSizeMonotone(slots, size, lo, lo + 1, hi);
    }
  }

  /** The collected batches, at least one, are too few, and no large batch forces them. */
  ghost predicate TooFew(slots: nat -> Slot, size: Batch -> nat, req: Request, lo: nat, hi: nat) {
    |EncodeBatches(RangeBatches(slots, lo, hi))| < req.minSize && !Forced(slots, size, req, lo, hi)
  }

  lemma TooFewBefore(slots: nat -> Slot, size: Batch -> nat, req: Request, lo: nat, h: nat, hi: nat)
    requires Collected(slots, size, req, lo, hi) && lo < h <= hi && slots(lo + 1).Full?
    requires TooFew(slots, size, req, lo, hi)
    ensures RangeBatches(slots, lo, h) != [] && |EncodeBatches(RangeBatches(slots, lo, h))| < req.minSize
  {
    FirstBlock(slots, size, req, lo, hi);
    JointMonotone(slots, lo, lo + 1, h);
    JointMonotone(slots, lo, h, hi);
  }

  /** Unless the first block is empty, batches that are too few in the end were too few before. */
  lemma InVainThroughout(
    r: Rollup, v: L2View, req: Request, prev: BlockID, slots: nat -> Slot, hi: nat, tip: nat)
    requires GrownTo(r, v, req, prev, slots, tip) && (prev.hash != 0 || prev.number != 0)
    requires Collected(slots, SingleSize, req, prev.number, hi) && !slots(hi + 1).Gone? && prev.number <= tip
    requires slots(prev.number + 1).Full? && (hi == prev.number || TooFew(slots, SingleSize, req, prev.number, hi))
    ensures InVain(BundleFor(r, v, req), prev)
  {
    var lo: nat := prev.number;
    var h := Lower(tip, hi);
    PollAt(r, v, req, prev, slots, hi, tip);
    if h > lo {
      TooFewBefore(slots, SingleSize, req, lo, h, hi);
    }
  }

  /** An empty first block is answered with a range that covers it. */
  lemma FirstEmptyIsCovered(r: Rollup, v: L2View, req: Request, prev: BlockID, slots: nat -> Slot, hi: nat)
    requires GrownTo(r, v, req, prev, slots, prev.number + 1) && (prev.hash != 0 || prev.number != 0)
    requires Collected(slots, SingleSize, req, prev.number, hi) && !slots(hi + 1).Gone?
    requires slots(prev.number + 1).Empty?
    ensures !InVain(BundleFor(r, v, req), prev)
  {
    PollAt(r, v, req, prev, slots, hi, prev.number + 1);
    FirstBlock(slots, SingleSize, req, prev.number, hi);
  }

  /** Behind the whole collection the answer is final. */
  lemma FinalPoll(r: Rollup, v: L2View, req: Request, prev: BlockID, slots: nat -> Slot, hi: nat)
    requires GrownTo(r, v, req, prev, slots, hi + 1) && (prev.hash != 0 || prev.number != 0)
    requires Collected(slots, SingleSize, req, prev.number, hi) && !slots(hi + 1).Gone?
    requires slots(prev.number + 1).Full? && InVain(BundleFor(r, v, req), prev)
    ensures hi == prev.number || TooFew(slots, SingleSize, req, prev.number, hi)
  {
    PollAt(r, v, req, prev, slots, hi, hi + 1);
  }

  /** Sizes under which nothing collected up to hi can be sent. */
  ghost predicate Hopeless(slots: nat -> Slot, size: Batch -> nat, req: Request, lo: nat, hi: nat) {
    && slots(lo + 1).Full?
    && (|| size(slots(lo + 1).batch) > req.maxSize
        || (|EncodeBatches(RangeBatches(slots, lo, hi))| < req.minSize
            && (hi == lo + 100 || RangeSize(slots, size, lo, hi) >= req.minSize)))
  }

  lemma HopelessExact(slots: nat -> Slot, size: Batch -> nat, req: Request, lo: nat, hi: nat)
    requires Collected(slots, size, req, lo, hi) && !slots(hi + 1).Gone? && !slots(lo + 1).Broken?
    ensures Hopeless(slots, size, req, lo, hi) <==>
            slots(lo + 1).Full? && (hi == lo || TooFew(slots, size, req, lo, hi))
  {
    if slots(lo + 1).Full? {
      FirstBlock(slots, size, req, lo, hi);
    }
  }

  /**
    When a submitter whose history leads to prev polls in vain for good, however far the chain grows: exactly
    when the next block holds a batch, and that batch alone exceeds the maximum, or the batches collected
    up to hi encode to less than the minimum and no batch too large for the rest stops their estimates
    short of it.
   */
  lemma InVainForGood(r: Rollup, views: nat -> L2View, req: Request, prev: BlockID, slots: nat -> Slot, hi: nat)
    requires Growing(r, views, req, prev, slots) && Collected(slots, SingleSize, req, prev.number, hi)
    ensures (forall tip: nat :: prev.number <= tip ==> InVain(BundleFor(r, views(tip), req), prev)) <==>
            Hopeless(slots, SingleSize, req, prev.number, hi)
  {
    var lo: nat := prev.number;
    var hopeless := Hopeless(slots, SingleSize, req, lo, hi);
    HopelessExact(slots, SingleSize, req, lo, hi);
    assert GrownTo(r, views(hi + 1), req, prev, slots, hi + 1) && GrownTo(r, views(lo + 1), req, prev, slots, lo + 1);
    if slots(lo + 1).Empty? {
      FirstEmptyIsCovered(r, views(lo + 1), req, prev, slots, hi);
    } else if hopeless {
      forall tip: nat | lo <= tip ensures InVain(BundleFor(r, views(tip), req), prev) {
        InVainThroughout(r, views(tip), req, prev, slots, hi, tip);
      }
    } else if InVain(BundleFor(r, views(hi + 1), req), prev) {
      FinalPoll(r, views(hi + 1), req, prev, slots, hi);
    }
  }

  /** Two or more batches encode to strictly less than the sum of their single bundles. */
  lemma JointIsSmaller(bs: seq<Batch>)
    requires |bs| >= 2
    ensures |EncodeBatches(bs)| < SingleSizes(bs)
  {
    var init, last := bs[..|bs| - 1], bs[|bs| - 1];
    assert bs == init + [last];
    SingleSizesBound(init);
    PayloadAppend(init, last);
    PayloadAppend([], last);
    assert [] + [last] == [last];
    BundleSize(bs);
    BundleSize(init);
    BundleSize([last]);
    HeaderSubadditive(|BundlePayload(init)|, |BundlePayload([last])|);
  }

  /**
    Such an input: three blocks with batches behind prev, and a minimum and maximum that are both the sum of the
    estimates of the first two. The estimates reach the minimum, the joint bundle does not, and the third
    batch does not fit.
   */
  lemma InVainInput(
    r: Rollup, views: nat -> L2View, req: Request, prev: BlockID, slots: nat -> Slot, b1: Batch, b2: Batch, b3: Batch,
    tip: nat)
    requires Growing(r, views, req, prev, slots) && prev.number <= tip
    requires var lo := prev.number; slots(lo + 1) == Full(b1) && slots(lo + 2) == Full(b2) && slots(lo + 3) == Full(b3)
    requires req.minSize == req.maxSize == SingleSize(b1) + SingleSize(b2)
    ensures InVain(BundleFor(r, views(tip), req), prev)
  {
    var lo: nat := prev.number;
    TwoCollected(slots, SingleSize, req, lo, b1, b2, b3);
    JointIsSmaller([b1, b2]);
    SumOfTwo(SingleSize, b1, b2);
    InVainForGood(r, views, req, prev, slots, lo + 2);
  }

  lemma SumOfTwo(size: Batch -> nat, b1: Batch, b2: Batch)
    ensures SumSizes(size, [b1, b2]) == size(b1) + size(b2)
  {
    assert [b1, b2][..1] == [b1] && [b1][..0] == [];
    assert SumSizes(size, [b1]) == size(b1);
  }

  lemma TwoCollected(
    slots: nat -> Slot, size: Batch -> nat, req: Request, lo: nat, b1: Batch, b2: Batch, b3: Batch)
    requires slots(lo + 1) == Full(b1) && slots(lo + 2) == Full(b2) && slots(lo + 3) == Full(b3) && size(b3) > 0
    requires req.maxSize == size(b1) + size(b2)
    ensures RangeBatches(slots, lo, lo + 2) == [b1, b2] && RangeSize(slots, size, lo, lo + 2) == size(b1) + size(b2)
    ensures Collected(slots, size, req, lo, lo + 2)
  {
    assert RangeBatches(slots, lo, lo) == [];
    assert RangeBatches(slots, lo, lo + 1) == [] + SlotBatches(slots(lo + 1));
    assert RangeBatches(slots, lo, lo + 2) == [b1] + SlotBatches(slots(lo + 2));
    SumOfTwo(size, b1, b2);
    assert RangeBatches(slots, lo, lo + 2) == [b1, b2];
    assert RangeSize(slots, size, lo, lo + 2) == SumSizes(size, [b1, b2]);
    assert slots(lo + 2 + 1) == Full(b3);
    assert RangeKnown(slots, lo, lo + 2);
  }

  // A chain of blocks with one transaction each, sequenced on one L1 block.

  function PlainPayload(c: Codec, b: L1Block, n: nat): Payload {
    Payload((1000 + n) % TWO_64, (999 + n) % TWO_64, n, 2 * n, 0, 0, [c.info(0, b), [2]])
  }

  function PlainBatch(b: L1Block, n: nat): Batch {
    Batch(b.number, 2 * n, [[2]])
  }

  function PlainView(c: Codec, b: L1Block, tip: nat): L2View {
    L2View(map n: nat | 0 <= n <= tip :: n := Found(PlainPayload(c, b, n)), map[1000 := Found(BlockID(1000, 0))])
  }

  function PlainRequest(b: L1Block): Request {
    var size := SingleSize(PlainBatch(b, 1)) + SingleSize(PlainBatch(b, 2));
    Request([1000], size, size)
  }

  lemma PlainSlot(r: Rollup, b: L1Block, tip: nat, n: nat)
    requires r.codec.Sound() && 0 < n
    ensures var v := PlainView(r.codec, b, tip);
            SlotsOf(r, v)(n) == (if n <= tip then Full(PlainBatch(b, n)) else Gone)
            && (n <= tip ==> IdsOf(r, v)(n) == BlockID((1000 + n) % TWO_64, n))
  {
    var p := PlainPayload(r.codec, b, n);
    BlockBatch.NonDepositsAfter(p.txs, 1);
  }

  lemma PlainGrows(r: Rollup, b: L1Block)
    requires r.codec.Sound()
    ensures Growing(r, (tip: nat) => PlainView(r.codec, b, tip), PlainRequest(b), BlockID(1000, 0),
                    (n: nat) => Full(PlainBatch(b, n)))
  {
    var slots := (n: nat) => Full(PlainBatch(b, n));
    forall tip: nat ensures GrownTo(r, PlainView(r.codec, b, tip), PlainRequest(b), BlockID(1000, 0), slots, tip) {
      var v := PlainView(r.codec, b, tip);
      assert CheckCommon(v, 1000) == Found(BlockID(1000, 0));
      assert CommonPoint(v, [1000]) == Found(BlockID(1000, 0));
      forall n: nat | 0 < n
        ensures SlotsOf(r, v)(n) == (if n <= tip then Full(PlainBatch(b, n)) else Gone)
        ensures n <= tip ==> IdsOf(r, v)(n).number == n
      {
        PlainSlot(r, b, tip, n);
      }
    }
  }

  /** On that chain the submitter never gets beyond block 0, although every block has something to submit. */
  lemma PlainInVain(r: Rollup, b: L1Block, tip: nat)
    requires r.codec.Sound()
    ensures InVain(BundleFor(r, PlainView(r.codec, b, tip), PlainRequest(b)), BlockID(1000, 0))
  {
    PlainGrows(r, b);
    InVainInput(r, (tip: nat) => PlainView(r.codec, b, tip), PlainRequest(b), BlockID(1000, 0),
                (n: nat) => Full(PlainBatch(b, n)), PlainBatch(b, 1), PlainBatch(b, 2), PlainBatch(b, 3), tip);
  }
}
