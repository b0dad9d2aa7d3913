/**
  The BundleBuilder of op-node/node/bundle_builder.go and the loops of GetBatchBundle in
  op-node/node/api.go, with the prune loop that the size estimate makes superfluous.
 */
module BundleBuilder {
  import opened Types
  import opened Output
  import opened BatchCodec
  import opened Bundle
  import BundleLaws

  /** The batches of the non-empty candidates. */
  function CandidateBatches(cs: seq<Candidate>): seq<Batch> {
    if cs == [] then []
    else
      var init, last := CandidateBatches(cs[..|cs| - 1]), cs[|cs| - 1];
      if last.batch.Some? then init + [last.batch.value] else init
  }

  /** Without the last non-empty candidate and everything after it. */
  function Pruned(cs: seq<Candidate>): (p: seq<Candidate>)
    ensures p <= cs
    ensures CandidateBatches(cs) != [] ==> CandidateBatches(p) == CandidateBatches(cs)[..|CandidateBatches(cs)| - 1]
  {
    if cs == [] then []
    else if cs[|cs| - 1].batch.Some? then cs[..|cs| - 1]
    else if CandidateBatches(cs) == [] then cs
    else Pruned(cs[..|cs| - 1])
  }

  function LastCandidate(prev: BlockID, cs: seq<Candidate>): BlockID {
    if cs == [] then prev else cs[|cs| - 1].id
  }

  class Builder {
    const prevBlockID: BlockID
    var candidates: seq<Candidate>
    var numNonEmpty: nat

    ghost predicate Valid()
      reads this
    {
      numNonEmpty == |CandidateBatches(candidates)|
    }

    constructor (prev: BlockID)
      ensures Valid() && prevBlockID == prev && candidates == []
    {
      prevBlockID := prev;
      candidates := [];
      numNonEmpty := 0;
    }

    method AddCandidate(c: Candidate)
      requires Valid()
      modifies this
      ensures Valid() && candidates == old(candidates) + [c]
    {
      assert (candidates + [c])[..|candidates|] == candidates;
      candidates := candidates + [c];
      if c.batch.Some? {
        numNonEmpty := numNonEmpty + 1;
      }
    }

    method HasNonEmptyCandidate() returns (b: bool)
      requires Valid()
      ensures b <==> CandidateBatches(candidates) != []
    {
      b := numNonEmpty > 0;
    }

    method PruneLastNonEmpty()
      requires Valid()
      modifies this
      ensures Valid()
      ensures candidates == if CandidateBatches(old(candidates)) == [] then old(candidates) else Pruned(old(candidates))
    {
      if numNonEmpty == 0 {
        return;
      }
      var i := |candidates| - 1;
      assert candidates[..i + 1] == candidates;
      while i >= 0
        invariant -1 <= i < |candidates| && candidates == old(candidates) && numNonEmpty == old(numNonEmpty)
        invariant CandidateBatches(candidates[..i + 1]) == CandidateBatches(candidates)
        invariant Pruned(candidates[..i + 1]) == Pruned(candidates)
      {
        assert candidates[..i + 1][..i] == candidates[..i];
        if candidates[i].batch.Some? {
          candidates := candidates[..i];
          numNonEmpty := numNonEmpty - 1;
          return;
        }
        i := i - 1;
      }
    }

    method Batches() returns (batches: seq<Batch>)
      ensures batches == CandidateBatches(candidates)
    {
      batches := [];
      for i := 0 to |candidates|
        invariant batches == CandidateBatches(candidates[..i])
      {
        assert candidates[..i + 1][..i] == candidates[..i];
        if candidates[i].batch.Some? {
          batches := batches + [candidates[i].batch.value];
        }
      }
      assert candidates[..|candidates|] == candidates;
    }

    method MakeResponse(bundle: Bytes) returns (resp: Response)
      ensures resp == Response(prevBlockID, LastCandidate(prevBlockID, candidates), bundle)
    {
      var last := prevBlockID;
      if |candidates| > 0 {
        last := candidates[|candidates| - 1].id;
      }
      resp := Response(prevBlockID, last, bundle);
    }
  }

  // ----- The prune loop -----

  /** The loop at the end of GetBatchBundle; it ends because every round drops a non-empty candidate. */
  function Finish(prev: BlockID, cs: seq<Candidate>, req: Request, ignoreMin: bool): Option<Response>
    decreases |CandidateBatches(cs)|
  {
    var bs := CandidateBatches(cs);
    if bs == [] then Some(Response(prev, LastCandidate(prev, cs), []))
    else
      var bundle := EncodeBatches(bs);
      if |bundle| > req.maxSize then Finish(prev, Pruned(cs), req, true)
      else if !ignoreMin && |bundle| < req.minSize then None
      else Some(Response(prev, LastCandidate(prev, cs), bundle))
  }

  /** The first round answers whatever fits, and no answer exceeds the maximum. */
  ghost predicate Finished(
    prev: BlockID, cs: seq<Candidate>, req: Request, ignoreMin: bool, res: Option<Response>) {
    var bs := CandidateBatches(cs);
    && (bs == [] ==> res == Some(Response(prev, LastCandidate(prev, cs), [])))
    && (bs != [] && |EncodeBatches(bs)| <= req.maxSize ==>
          && (res.None? <==> |EncodeBatches(bs)| < req.minSize && !ignoreMin)
          && (res.Some? ==> res == Some(Response(prev, LastCandidate(prev, cs), EncodeBatches(bs)))))
    && (bs != [] && |EncodeBatches(bs)| > req.maxSize ==> res.Some?)
    && (res.Some? ==> res.value.prev == prev && |res.value.bundle| <= req.maxSize)
  }

  lemma {:induction false} FinishFinishes(prev: BlockID, cs: seq<Candidate>, req: Request, ignoreMin: bool)
    ensures Finished(prev, cs, req, ignoreMin, Finish(prev, cs, req, ignoreMin))
    decreases |CandidateBatches(cs)|
  {
    var bs := CandidateBatches(cs);
    if bs != [] && |EncodeBatches(bs)| > req.maxSize {
      FinishFinishes(prev, Pruned(cs), req, true);
    }
  }

  method RunFinish(b: Builder, req: Request, hasLargeNextBatch: bool) returns (res: Option<Response>)
    requires b.Valid()
    modifies b
    ensures res == Finish(b.prevBlockID, old(b.candidates), req, hasLargeNextBatch)
    ensures Finished(b.prevBlockID, old(b.candidates), req, hasLargeNextBatch, res)
  {
    FinishFinishes(b.prevBlockID, b.candidates, req, hasLargeNextBatch);
    var pruneCount := 0;
    while true
      invariant b.Valid()
      invariant Finish(b.prevBlockID, old(b.candidates), req, hasLargeNextBatch)
             == Finish(b.prevBlockID, b.candidates, req, pruneCount > 0 || hasLargeNextBatch)
      decreases |CandidateBatches(b.candidates)|
    {
      var any := b.HasNonEmptyCandidate();
      if !any {
        var empty := b.MakeResponse([]);
        return Some(empty);
      }
      var batches := b.Batches();
      var buf := WriteBatches(batches);
      if |buf| > req.maxSize {
        b.PruneLastNonEmpty();
        pruneCount := pruneCount + 1;
        continue;
      }
      var ignoreMinSize := pruneCount > 0 || hasLargeNextBatch;
      if !ignoreMinSize && |buf| < req.minSize {
        return None;
      }
      var resp := b.MakeResponse(buf);
      return Some(resp);
    }
  }

  /** When the estimates fit the maximum, the first round already answers: pruning is unreachable. */
  lemma FinishNeverPrunes(prev: BlockID, cs: seq<Candidate>, req: Request, ignoreMin: bool, size: Batch -> nat)
    requires BoundsJoint(size) && SumSizes(size, CandidateBatches(cs)) <= req.maxSize
    ensures Finish(prev, cs, req, ignoreMin)
            == Answer(req, prev, LastCandidate(prev, cs), CandidateBatches(cs), ignoreMin)
  {
  }

  // ----- GetBatchBundle -----

  method FindCommonPoint(v: L2View, history: seq<Hash>) returns (res: Fetched<BlockID>)
    ensures res == CommonPoint(v, history)
  {
    assert history[0..] == history;
    for i := 0 to |history|
      invariant CommonPoint(v, history) == CommonPoint(v, history[i..])
    {
      var h := history[i];
      assert history[i..][0] == h && history[i..][1..] == history[i + 1..];
      var l2Ref := v.RefByHash(h);
      if l2Ref.NotFound? {
        continue;
      }
      if l2Ref.Unavailable? {
        return Unavailable;
      }
      var canon := v.RefByNumber(l2Ref.value.number);
      if canon.NotFound? {
        continue;
      }
      if canon.Unavailable? {
        return Unavailable;
      }
      if canon.value.hash == h {
        return canon;
      }
    }
    return NotFound;
  }

  /** What the greedy loop has collected up to height h. */
  ghost predicate Collected(fetch: Fetcher, prev: BlockID, cs: seq<Candidate>, h: nat) {
    && h >= prev.number
    && (cs == [] <==> h == prev.number)
    && CandidateBatches(cs) == RangeBatches(Slots(fetch), prev.number, h)
    && LastCandidate(prev, cs) == LastID(Ids(fetch), prev, h)
  }

  lemma CandidateBatchesAppend(cs: seq<Candidate>, c: Candidate)
    ensures CandidateBatches(cs + [c]) == CandidateBatches(cs) + if c.batch.Some? then [c.batch.value] else []
  {
    assert (cs + [c])[..|cs|] == cs;
  }

  lemma CollectedGrows(fetch: Fetcher, prev: BlockID, cs: seq<Candidate>, h: nat, c: Candidate)
    requires Collected(fetch, prev, cs, h) && fetch(h + 1) == Ok(Some(c))
    ensures Collected(fetch, prev, cs + [c], h + 1)
  {
    CandidateBatchesAppend(cs, c);
  }

  /** One more candidate that fits. */
  lemma GreedyAdvances(
    fetch: Fetcher, size: Batch -> nat, req: Request, h: nat, limit: nat, total: nat, c: Candidate, n: nat)
    requires h < limit && fetch(h + 1) == Ok(Some(c)) && total + n <= req.maxSize
    requires n == if c.batch.Some? then size(c.batch.value) else 0
    ensures Greedy(Slots(fetch), size, req, h, limit, total) == Greedy(Slots(fetch), size, req, h + 1, limit, total + n)
  {
    GreedyTakes(Slots(fetch), size, req, h, limit, total);
  }

  /** The loop ends at a missing block, at an error, or before a batch that does not fit. */
  lemma GreedyEnds(fetch: Fetcher, size: Batch -> nat, req: Request, h: nat, limit: nat, total: nat)
    requires h < limit
    ensures match fetch(h + 1)
            case Err(e) => Greedy(Slots(fetch), size, req, h, limit, total) == Err(e)
            case Ok(None) => Greedy(Slots(fetch), size, req, h, limit, total) == Ok((h, false))
            case Ok(Some(c)) =>
              c.batch.Some? && total + size(c.batch.value) > req.maxSize ==>
                Greedy(Slots(fetch), size, req, h, limit, total) == Ok((h, total < req.minSize))
  {
  }

  /** The greedy loop: the candidates up to the height it reaches, and hasLargeNextBatch. */
  method CollectCandidates(
    fetch: Fetcher, size: Batch -> nat, req: Request, b: Builder)
    returns (res: Result<(nat, bool), ApiError>)
    requires b.Valid() && b.candidates == []
    modifies b
    ensures b.Valid()
    ensures res == Greedy(Slots(fetch), size, req, b.prevBlockID.number, b.prevBlockID.number + MAX_BLOCKS, 0)
    ensures res.Ok? ==> Collected(fetch, b.prevBlockID, b.candidates, res.value.0)
  {
    var h: nat, limit: nat, totalBatchSizeBytes: nat := b.prevBlockID.number, b.prevBlockID.number + MAX_BLOCKS, 0;
    ghost var whole := Greedy(Slots(fetch), size, req, h, limit, totalBatchSizeBytes);
    while h < limit
      invariant b.Valid() && h <= limit && totalBatchSizeBytes <= req.maxSize
      invariant Collected(fetch, b.prevBlockID, b.candidates, h)
      invariant whole == Greedy(Slots(fetch), size, req, h, limit, totalBatchSizeBytes)
    {
      var l2Block := fetch(h + 1);
      GreedyEnds(fetch, size, req, h, limit, totalBatchSizeBytes);
      if l2Block.Err? {
        return Err(l2Block.error);
      }
      if l2Block.value.None? {
        return Ok((h, false));
      }
      var candidate, nextBatchSizeBytes: nat := l2Block.value.value, 0;
      if candidate.batch.Some? {
        nextBatchSizeBytes := size(candidate.batch.value);
        if totalBatchSizeBytes + nextBatchSizeBytes > req.maxSize {
          return Ok((h, totalBatchSizeBytes < req.minSize));
        }
      }
      GreedyAdvances(fetch, size, req, h, limit, totalBatchSizeBytes, candidate, nextBatchSizeBytes);
      CollectedGrows(fetch, b.prevBlockID, b.candidates, h, candidate);
      b.AddCandidate(candidate);
      h, totalBatchSizeBytes := h + 1, totalBatchSizeBytes + nextBatchSizeBytes;
    }
    return Ok((h, false));
  }

  lemma GreedyFits(slots: nat -> Slot, size: Batch -> nat, req: Request, lo: nat, limit: nat, hi: nat, largeNext: bool)
    requires lo <= limit && Greedy(slots, size, req, lo, limit, 0) == Ok((hi, largeNext))
    ensures SumSizes(size, RangeBatches(slots, lo, hi)) <= req.maxSize
  {
    GreedyStops(slots, size, req, lo, limit);
    assert RangeSize(slots, size, lo, hi) <= req.maxSize;
  }

  lemma AnswerOf(
    slots: nat -> Slot, ids: nat -> BlockID, size: Batch -> nat, req: Request, prev: BlockID, hi: nat, largeNext: bool)
    requires Greedy(slots, size, req, prev.number, prev.number + MAX_BLOCKS, 0) == Ok((hi, largeNext))
    ensures AnswerAfter(slots, ids, size, req, prev)
         == Ok(Answer(req, prev, LastID(ids, prev, hi), RangeBatches(slots, prev.number, hi), largeNext))
  {
  }

  /** Collecting and finishing answer what the specification does. */
  lemma CollectedAnswer(
    fetch: Fetcher, size: Batch -> nat, req: Request, prev: BlockID, cs: seq<Candidate>, hi: nat, largeNext: bool)
    requires BoundsJoint(size)
    requires Greedy(Slots(fetch), size, req, prev.number, prev.number + MAX_BLOCKS, 0) == Ok((hi, largeNext))
    requires Collected(fetch, prev, cs, hi)
    ensures AnswerAfter(Slots(fetch), Ids(fetch), size, req, prev) == Ok(Finish(prev, cs, req, largeNext))
  {
    GreedyFits(Slots(fetch), size, req, prev.number, prev.number + MAX_BLOCKS, hi, largeNext);
    AnswerOf(Slots(fetch), Ids(fetch), size, req, prev, hi, largeNext);
    FinishNeverPrunes(prev, cs, req, largeNext, size);
  }

  /** What was collected after prev, and the answer made of it. */
  ghost predicate Answered(
    fetch: Fetcher, size: Batch -> nat, req: Request, prev: BlockID, cs: seq<Candidate>,
    res: Result<Option<Response>, ApiError>) {
    match Greedy(Slots(fetch), size, req, prev.number, prev.number + MAX_BLOCKS, 0)
    case Err(e) => res == Err(e)
    case Ok((hi, largeNext)) => Collected(fetch, prev, cs, hi) && res == Ok(Finish(prev, cs, req, largeNext))
  }

  lemma AnsweredIsAnswer(
    fetch: Fetcher, size: Batch -> nat, req: Request, prev: BlockID, cs: seq<Candidate>,
    res: Result<Option<Response>, ApiError>)
    requires BoundsJoint(size) && Answered(fetch, size, req, prev, cs, res)
    ensures res == AnswerAfter(Slots(fetch), Ids(fetch), size, req, prev)
  {
    match Greedy(Slots(fetch), size, req, prev.number, prev.number + MAX_BLOCKS, 0)
    case Err(e) =>
    case Ok((hi, largeNext)) => CollectedAnswer(fetch, size, req, prev, cs, hi, largeNext);
  }

  /** The part of GetBatchBundle after the common point. */
  method BundleAfter(fetch: Fetcher, size: Batch -> nat, req: Request, prev: BlockID)
    returns (res: Result<Option<Response>, ApiError>, ghost cs: seq<Candidate>)
    ensures Answered(fetch, size, req, prev, cs, res)
  {
    var builder := new Builder(prev);
    var collected := CollectCandidates(fetch, size, req, builder);
    cs := builder.candidates;
    if collected.Err? {
      return Err(collected.error), cs;
    }
    var resp := RunFinish(builder, req, collected.value.1);
    return Ok(resp), cs;
  }

  method GetBatchBundle(r: Rollup, v: L2View, req: Request) returns (res: Result<Option<Response>, ApiError>)
    ensures res == BundleFor(r, v, req)
    ensures BundleLaws.Outcome(r, v, req, res)
  {
    BundleLaws.BundleExact(r, v, req);
    var found := FindCommonPoint(v, req.history);
    if found.Unavailable? {
      return Err(ClientFailed);
    }
    if found.NotFound? || found.value == BlockID(0, 0) {
      return Err(NoCommonPoint);
    }
    ghost var cs;
    res, cs := BundleAfter(FetcherOf(r, v), SingleSize, req, found.value);
    SingleSizeBoundsJoint();
    AnsweredIsAnswer(FetcherOf(r, v), SingleSize, req, found.value, cs, res);
  }
}
