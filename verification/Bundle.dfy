/**
  op-node/node/api.go and bundle_builder.go: GetBatchBundle finds the common point with the
  submitter's history, collects the following blocks greedily by estimated size, and answers with
  one encoded bundle.
 */
module Bundle {
  import opened Types
  import opened Output
  import opened BlockBatch
  import opened BatchCodec

  const MAX_BLOCKS: nat := 100

  /** An answer of the L2 client. */
  datatype Fetched<+T> = Found(value: T) | NotFound | Unavailable

  /** The L2 client: canonical blocks by number, and blocks by hash; what is absent is not found. */
  datatype L2View = L2View(numbers: map<nat, Fetched<Payload>>, hashes: map<Hash, Fetched<BlockID>>)
  {
    function BlockByNumber(n: nat): Fetched<Payload> {
      if n in numbers then numbers[n] else NotFound
    }

    function RefByNumber(n: nat): Fetched<BlockID> {
      match BlockByNumber(n)
      case Found(p) => Found(BlockID(p.hash, p.number))
      case NotFound => NotFound
      case Unavailable => Unavailable
    }

    function RefByHash(h: Hash): Fetched<BlockID> {
      if h in hashes then hashes[h] else NotFound
    }
  }

  datatype Request = Request(history: seq<Hash>, minSize: nat, maxSize: nat)

  /** The blocks after prev up to last, and the bundle of their batches; empty when there is nothing to submit. */
  datatype Response = Response(prev: BlockID, last: BlockID, bundle: Bytes)

  datatype ApiError = NoCommonPoint | ClientFailed | BadBlock

  // ----- The common point -----

  /** h is a canonical block; Unavailable when the client could not say. */
  function CheckCommon(v: L2View, h: Hash): Fetched<BlockID> {
    match v.RefByHash(h)
    case NotFound => NotFound
    case Unavailable => Unavailable
    case Found(id) =>
      match v.RefByNumber(id.number)
      case NotFound => NotFound
      case Unavailable => Unavailable
      case Found(canon) => if canon.hash == h then Found(canon) else NotFound
  }

  function CommonPoint(v: L2View, history: seq<Hash>): Fetched<BlockID> {
    if history == [] then NotFound
    else
      match CheckCommon(v, history[0])
      case NotFound => CommonPoint(v, history[1..])
      case Unavailable => Unavailable
      case Found(id) => Found(id)
  }

  // ----- The specification -----

  /** What the greedy loop meets at one height: no block, an error, an empty block, or a block with a batch. */
  datatype Slot = Gone | Broken(error: ApiError) | Empty | Full(batch: Batch)

  /** A block in the range, with its batch unless it is empty. */
  datatype Candidate = Candidate(id: BlockID, batch: Option<Batch>)

  /** What the loop makes of the block at some height: a candidate, nothing when there is no block, or an error. */
  type Fetcher = nat -> Result<Option<Candidate>, ApiError>

  function CandidateOf(r: Rollup, p: Payload): Result<Option<Candidate>, ApiError> {
    match BlockToBatch(r, p)
    case Err(_) => Err(BadBlock)
    case Ok(batch) => Ok(Some(Candidate(BlockID(p.hash, p.number), batch)))
  }

  function FetchCandidate(r: Rollup, v: L2View, n: nat): Result<Option<Candidate>, ApiError> {
    match v.BlockByNumber(n)
    case NotFound => Ok(None)
    case Unavailable => Err(ClientFailed)
    case Found(p) => CandidateOf(r, p)
  }

  function FetcherOf(r: Rollup, v: L2View): Fetcher {
    (n: nat) => FetchCandidate(r, v, n)
  }

  function SlotOf(res: Result<Option<Candidate>, ApiError>): Slot {
    match res
    case Err(e) => Broken(e)
    case Ok(None) => Gone
    case Ok(Some(c)) => if c.batch.Some? then Full(c.batch.value) else Empty
  }

  function Slots(fetch: Fetcher): nat -> Slot {
    (n: nat) => SlotOf(fetch(n))
  }

  /** The ID of the block at height n. */
  function IdOfFetched(res: Result<Option<Candidate>, ApiError>): BlockID {
    match res
    case Ok(Some(c)) => c.id
    case _ => BlockID(0, 0)
  }

  function Ids(fetch: Fetcher): nat -> BlockID {
    (n: nat) => IdOfFetched(fetch(n))
  }

  function SlotsOf(r: Rollup, v: L2View): nat -> Slot {
    Slots(FetcherOf(r, v))
  }

  function IdsOf(r: Rollup, v: L2View): nat -> BlockID {
    Ids(FetcherOf(r, v))
  }

  /**
    Up to which height the greedy loop takes blocks, having taken those up to height h, of estimated
    size total; and whether a large next batch is what stops it below the minimum.
   */
  function Greedy(
    slots: nat -> Slot, size: Batch -> nat, req: Request, h: nat, limit: nat, total: nat): Result<(nat, bool), ApiError>
    decreases limit - h
  {
    if h >= limit then Ok((h, false))
    else
      match slots(h + 1)
      case Gone => Ok((h, false))
      case Broken(e) => Err(e)
      case Empty => Greedy(slots, size, req, h + 1, limit, total)
      case Full(b) =>
        if total + size(b) > req.maxSize then Ok((h, total < req.minSize))
        else Greedy(slots, size, req, h + 1, limit, total + size(b))
  }

  function SlotBatches(slot: Slot): seq<Batch> {
    if slot.Full? then [slot.batch] else []
  }

  /** The batches of the blocks above height lo up to height hi, in order. */
  function RangeBatches(slots: nat -> Slot, lo: nat, hi: nat): seq<Batch>
    decreases hi
  {
    if hi <= lo then [] else RangeBatches(slots, lo, hi - 1) + SlotBatches(slots(hi))
  }

  /** The ID of the last block of the range that starts after prev and ends at height hi. */
  function LastID(ids: nat -> BlockID, prev: BlockID, hi: nat): BlockID {
    if hi <= prev.number then prev else ids(hi)
  }

  /** The answer for the collected batches: an empty bundle, no answer when it is too small, or the bundle. */
  function Answer(req: Request, prev: BlockID, last: BlockID, bs: seq<Batch>, ignoreMin: bool): Option<Response> {
    if bs == [] then Some(Response(prev, last, []))
    else if !ignoreMin && |EncodeBatches(bs)| < req.minSize then None
    else Some(Response(prev, last, EncodeBatches(bs)))
  }

  /** The answer for the blocks after prev: no pruning appears here. */
  function AnswerAfter(
    slots: nat -> Slot, ids: nat -> BlockID, size: Batch -> nat, req: Request,
    prev: BlockID): Result<Option<Response>, ApiError> {
    match Greedy(slots, size, req, prev.number, prev.number + MAX_BLOCKS, 0)
    case Err(e) => Err(e)
    case Ok((hi, largeNext)) =>
      Ok(Answer(req, prev, LastID(ids, prev, hi), RangeBatches(slots, prev.number, hi), largeNext))
  }

  /** What GetBatchBundle answers. */
  function BundleFor(r: Rollup, v: L2View, req: Request): Result<Option<Response>, ApiError> {
    match CommonPoint(v, req.history)
    case NotFound => Err(NoCommonPoint)
    case Unavailable => Err(ClientFailed)
    case Found(prev) =>
      if prev == BlockID(0, 0) then Err(NoCommonPoint)
      else AnswerAfter(SlotsOf(r, v), IdsOf(r, v), SingleSize, req, prev)
  }

  // ----- Properties of the answer -----

  /** The blocks above lo up to hi are all there and convertible. */
  ghost predicate RangeKnown(slots: nat -> Slot, lo: nat, hi: nat) {
    forall n :: lo < n <= hi ==> slots(n).Empty? || slots(n).Full?
  }

  /** Why the greedy loop stopped at height hi, with blocks of estimated size total. */
  ghost predicate Maximal(slots: nat -> Slot, size: Batch -> nat, req: Request, hi: nat, limit: nat, total: nat) {
    var next := slots(hi + 1);
    hi == limit || next.Gone? || (next.Full? && total + size(next.batch) > req.maxSize)
  }

  lemma SumSizesAppend(size: Batch -> nat, bs: seq<Batch>, b: Batch)
    ensures SumSizes(size, bs + [b]) == SumSizes(size, bs) + size(b)
  {
    assert (bs + [b])[..|bs|] == bs;
  }

  ghost function RangeSize(slots: nat -> Slot, size: Batch -> nat, lo: nat, hi: nat): nat {
    SumSizes(size, RangeBatches(slots, lo, hi))
  }

  /** What the greedy loop has when it stops at height hi. */
  ghost predicate Stopped(
    slots: nat -> Slot, size: Batch -> nat, req: Request, lo: nat, limit: nat, hi: nat, largeNext: bool) {
    var sum := RangeSize(slots, size, lo, hi);
    && lo <= hi <= limit
    && RangeKnown(slots, lo, hi)
    && sum <= req.maxSize
    && Maximal(slots, size, req, hi, limit, sum)
    && (largeNext ==> sum < req.minSize)
  }

  lemma RangeGrows(slots: nat -> Slot, size: Batch -> nat, lo: nat, hi: nat)
    requires lo <= hi
    ensures RangeSize(slots, size, lo, hi + 1) ==
            RangeSize(slots, size, lo, hi) + NextSize(slots, size, hi)
  {
    var slot, bs := slots(hi + 1), RangeBatches(slots, lo, hi);
    if slot.Full? {
      SumSizesAppend(size, bs, slot.batch);
    } else {
      assert bs + [] == bs;
    }
  }

  /** The size the block at height h + 1 adds. */
  ghost function NextSize(slots: nat -> Slot, size: Batch -> nat, h: nat): nat {
    if slots(h + 1).Full? then size(slots(h + 1).batch) else 0
  }

  /** The greedy loop takes the block at height h + 1. */
  ghost predicate Takes(slots: nat -> Slot, size: Batch -> nat, req: Request, h: nat, limit: nat, total: nat) {
    h < limit && (slots(h + 1).Empty? || slots(h + 1).Full?) && total + NextSize(slots, size, h) <= req.maxSize
  }

  lemma GreedyTakes(slots: nat -> Slot, size: Batch -> nat, req: Request, h: nat, limit: nat, total: nat)
    requires Takes(slots, size, req, h, limit, total)
    ensures Greedy(slots, size, req, h, limit, total)
            == Greedy(slots, size, req, h + 1, limit, total + NextSize(slots, size, h))
  {
  }

  lemma GreedyHere(slots: nat -> Slot, size: Batch -> nat, req: Request, h: nat, limit: nat, total: nat)
    requires h <= limit && total <= req.maxSize && !Takes(slots, size, req, h, limit, total)
    ensures match Greedy(slots, size, req, h, limit, total)
            case Err(_) => true
            case Ok((hi, largeNext)) =>
              hi == h && Maximal(slots, size, req, h, limit, total) && (largeNext ==> total < req.minSize)
  {
  }

  lemma {:induction false} GreedySpec(
    slots: nat -> Slot, size: Batch -> nat, req: Request, lo: nat, h: nat, limit: nat, total: nat)
    requires lo <= h <= limit && RangeKnown(slots, lo, h)
    requires total == RangeSize(slots, size, lo, h) <= req.maxSize
    ensures var res := Greedy(slots, size, req, h, limit, total);
            res.Ok? ==> Stopped(slots, size, req, lo, limit, res.value.0, res.value.1)
    decreases limit - h
  {
    if Takes(slots, size, req, h, limit, total) {
      GreedyTakes(slots, size, req, h, limit, total);
      RangeGrows(slots, size, lo, h);
      GreedySpec(slots, size, req, lo, h + 1, limit, total + NextSize(slots, size, h));
    } else {
      GreedyHere(slots, size, req, h, limit, total);
    }
  }

  lemma GreedyStops(slots: nat -> Slot, size: Batch -> nat, req: Request, lo: nat, limit: nat)
    requires lo <= limit
    ensures var res := Greedy(slots, size, req, lo, limit, 0);
            res.Ok? ==> Stopped(slots, size, req, lo, limit, res.value.0, res.value.1)
  {
    GreedySpec(slots, size, req, lo, lo, limit, 0);
  }

  ghost predicate IsAnswer(
    slots: nat -> Slot, ids: nat -> BlockID, size: Batch -> nat, req: Request, resp: Response, hi: nat) {
    var lo := resp.prev.number;
    var bs := RangeBatches(slots, lo, hi);
    && lo <= hi <= lo + MAX_BLOCKS
    && RangeKnown(slots, lo, hi)
    && resp.last == LastID(ids, resp.prev, hi)
    && resp.bundle == (if bs == [] then [] else EncodeBatches(bs))
    && |resp.bundle| <= req.maxSize
    && Maximal(slots, size, req, hi, lo + MAX_BLOCKS, RangeSize(slots, size, lo, hi))
  }

  /** The estimates of a non-empty list never fall short of its joint encoding. */
  ghost predicate BoundsJoint(size: Batch -> nat) {
    forall bs: seq<Batch> :: bs != [] ==> |EncodeBatches(bs)| <= SumSizes(size, bs)
  }

  lemma SingleSizeBoundsJoint()
    ensures BoundsJoint(SingleSize)
  {
    forall bs: seq<Batch> | bs != []
      ensures |EncodeBatches(bs)| <= SumSizes(SingleSize, bs)
    {
      SingleSizesBound(bs);
    }
  }

  lemma AnswerAfterSpec(slots: nat -> Slot, ids: nat -> BlockID, size: Batch -> nat, req: Request, prev: BlockID)
    requires BoundsJoint(size)
    ensures match AnswerAfter(slots, ids, size, req, prev)
            case Ok(Some(resp)) => resp.prev == prev && exists hi :: IsAnswer(slots, ids, size, req, resp, hi)
            case _ => true
  {
    match AnswerAfter(slots, ids, size, req, prev)
    case Ok(Some(resp)) =>
      var lo: nat := prev.number;
      GreedyStops(slots, size, req, lo, lo + MAX_BLOCKS);
      var (hi, _) := Greedy(slots, size, req, lo, lo + MAX_BLOCKS, 0).value;
      assert IsAnswer(slots, ids, size, req, resp, hi);
    case _ =>
  }

  /**
    Every answer covers a gap-free range (prev, last] of canonical blocks that starts at the first
    canonical block of the history; its bundle holds exactly the batches of the non-empty blocks of
    the range, in order, within the maximum size; and the range is as long as the limits allow.
   */
  lemma BundleSpec(r: Rollup, v: L2View, req: Request)
    ensures match BundleFor(r, v, req)
            case Ok(Some(resp)) =>
              && CommonPoint(v, req.history) == Found(resp.prev)
              && exists hi :: IsAnswer(SlotsOf(r, v), IdsOf(r, v), SingleSize, req, resp, hi)
            case _ => true
  {
    SingleSizeBoundsJoint();
    match BundleFor(r, v, req)
    case Ok(Some(resp)) =>
      AnswerAfterSpec(SlotsOf(r, v), IdsOf(r, v), SingleSize, req, CommonPoint(v, req.history).value);
    case _ =>
  }
}
