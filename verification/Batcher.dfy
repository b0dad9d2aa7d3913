/**
  The batch submitter, op-batcher/sequencer/driver.go with op-batcher/db/history_db.go and the loop of
  op-proposer/service.go: it polls for a bundle, posts it, and records up to which block it has posted.
 */
module Batcher {
  import opened Types
  import opened Output
  import opened BlockBatch
  import opened BatchCodec
  import opened Bundle
  import opened BundleBuilder

  // ----- The history -----

  predicate HasHash(ids: seq<BlockID>, h: Hash) {
    exists i :: 0 <= i < |ids| && ids[i].hash == h
  }

  /** AppendEntry: a known hash is not recorded again, and only the newest entries are kept. */
  function Appended(ids: seq<BlockID>, id: BlockID, maxEntries: nat): seq<BlockID> {
    if HasHash(ids, id.hash) then ids
    else
      var all := ids + [id];
      if |all| > maxEntries then all[|all| - maxEntries..] else all
  }

  /** Ancestors: the newest entry first, in the order of insertion and not of the block numbers. */
  function AncestorHashes(ids: seq<BlockID>): seq<Hash> {
    seq(|ids|, i requires 0 <= i < |ids| => ids[|ids| - 1 - i].hash)
  }

  /** Older entries have lower numbers, or equal ones. */
  ghost predicate Ascending(ids: seq<BlockID>) {
    forall i, j :: 0 <= i < j < |ids| ==> ids[i].number <= ids[j].number
  }

  ghost predicate DistinctHashes(ids: seq<BlockID>) {
    forall i, j :: 0 <= i < j < |ids| ==> ids[i].hash != ids[j].hash
  }

  lemma AppendedDistinct(ids: seq<BlockID>, id: BlockID, maxEntries: nat)
    requires DistinctHashes(ids)
    ensures DistinctHashes(Appended(ids, id, maxEntries))
  {
  }

  class History {
    var blockIDs: seq<BlockID>

    constructor (genesis: BlockID)
      ensures blockIDs == [genesis]
    {
      blockIDs := [genesis];
    }

    method LatestID() returns (id: BlockID)
      requires blockIDs != []
      ensures id == blockIDs[|blockIDs| - 1]
    {
      id := blockIDs[|blockIDs| - 1];
    }

    method AppendEntry(id: BlockID, maxEntries: nat)
      modifies this
      ensures blockIDs == Appended(old(blockIDs), id, maxEntries)
    {
      for i := 0 to |blockIDs|
        invariant forall j :: 0 <= j < i ==> blockIDs[j].hash != id.hash
      {
        if blockIDs[i].hash == id.hash {
          return;
        }
      }
      blockIDs := blockIDs + [id];
      if |blockIDs| > maxEntries {
        blockIDs := blockIDs[|blockIDs| - maxEntries..];
      }
    }

    method Ancestors() returns (ancestors: seq<Hash>)
      ensures ancestors == AncestorHashes(blockIDs)
    {
      ancestors := [];
      var i := |blockIDs| - 1;
      while i >= 0
        invariant -1 <= i < |blockIDs| && |ancestors| == |blockIDs| - 1 - i
        invariant forall j :: 0 <= j < |ancestors| ==> ancestors[j] == blockIDs[|blockIDs| - 1 - j].hash
      {
        ancestors := ancestors + [blockIDs[i].hash];
        i := i - 1;
      }
    }
  }

  // ----- One poll -----

  datatype Limits = Limits(minSize: nat, maxSize: nat, maxEntries: nat)

  /** What GetBlockRange finds: nothing to do, a range of empty blocks to record, or a bundle to post. */
  datatype Work = Idle | Commit(resp: Response) | Post(resp: Response)

  function WorkFor(res: Result<Option<Response>, ApiError>): Work {
    match res
    case Err(_) => Idle
    case Ok(None) => Idle
    case Ok(Some(resp)) =>
      if resp.last.hash == resp.prev.hash then Idle
      else if resp.bundle == [] then Commit(resp)
      else Post(resp)
  }

  function FindWork(r: Rollup, lim: Limits, ids: seq<BlockID>, v: L2View): Work {
    WorkFor(BundleFor(r, v, Request(AncestorHashes(ids), lim.minSize, lim.maxSize)))
  }

  datatype PollError = HistoryFailed | RequestFailed(error: ApiError)

  /** The range that GetBlockRange returns and the batch it keeps for CraftTx. */
  predicate TakenUp(work: Work, currentBatch: Option<Response>, range: Result<(nat, nat), PollError>) {
    && currentBatch == (if work.Post? then Some(work.resp) else None)
    && (work.Post? ==> range == Ok((work.resp.prev.number + 1, work.resp.last.number + 1)))
    && (!work.Post? && range.Ok? ==> range.value.0 == range.value.1)
  }

  /** A call of SendTransaction: whether the history file could be written, and whether L1 took the transaction. */
  datatype Attempt = Attempt(written: bool, accepted: bool)

  /** How the history file answers in one round, and the calls the transaction manager makes. */
  datatype Io = Io(loaded: bool, committed: bool, attempts: seq<Attempt>)
  {
    predicate Written(n: nat) {
      exists i :: 0 <= i < n <= |attempts| && attempts[i].written
    }
  }

  /** What GetBlockRange records at once. */
  function CommitOf(work: Work, io: Io): Option<Response> {
    if io.loaded && work.Commit? && io.committed then Some(work.resp) else None
  }

  /** What the round records: a range that is not empty is recorded by the first attempt that can. */
  function Records(work: Work, io: Io): Option<Response> {
    if !io.loaded then None
    else
      match work
      case Idle => None
      case Commit(_) => CommitOf(work, io)
      case Post(resp) =>
        if resp.last.number != resp.prev.number && io.Written(|io.attempts|) then Some(resp) else None
  }

  function AfterPoll(ids: seq<BlockID>, rec: Option<Response>, maxEntries: nat): seq<BlockID> {
    if rec.None? then ids else Appended(ids, rec.value.last, maxEntries)
  }

  /** The client answers a number with a block of that number. */
  ghost predicate WellNumbered(v: L2View) {
    forall n: nat :: v.BlockByNumber(n).Found? ==> v.BlockByNumber(n).value.number == n
  }

  lemma WorkIsAnswer(r: Rollup, lim: Limits, ids: seq<BlockID>, v: L2View)
    ensures var work, req := FindWork(r, lim, ids, v), Request(AncestorHashes(ids), lim.minSize, lim.maxSize);
            !work.Idle? ==>
              && work.resp.last.hash != work.resp.prev.hash
              && CommonPoint(v, req.history) == Found(work.resp.prev)
              && exists hi :: IsAnswer(SlotsOf(r, v), IdsOf(r, v), SingleSize, req, work.resp, hi)
  {
    BundleSpec(r, v, Request(AncestorHashes(ids), lim.minSize, lim.maxSize));
  }

  /** Whatever there is to record or post, its last block is above its previous one. */
  lemma WorkMovesUp(r: Rollup, lim: Limits, ids: seq<BlockID>, v: L2View)
    requires WellNumbered(v)
    ensures var work := FindWork(r, lim, ids, v); !work.Idle? ==> work.resp.prev.number < work.resp.last.number
  {
    var work, req := FindWork(r, lim, ids, v), Request(AncestorHashes(ids), lim.minSize, lim.maxSize);
    WorkIsAnswer(r, lim, ids, v);
    if !work.Idle? {
      var hi :| IsAnswer(SlotsOf(r, v), IdsOf(r, v), SingleSize, req, work.resp, hi);
      AnswerMovesUp(r, v, req, work.resp, hi);
    }
  }

  lemma AnswerMovesUp(r: Rollup, v: L2View, req: Request, resp: Response, hi: nat)
    requires WellNumbered(v) && IsAnswer(SlotsOf(r, v), IdsOf(r, v), SingleSize, req, resp, hi)
             && resp.last.hash != resp.prev.hash
    ensures resp.prev.number < resp.last.number
  {
    assert resp.prev.number < hi;
    assert SlotsOf(r, v)(hi) == SlotOf(FetchCandidate(r, v, hi));
    assert v.BlockByNumber(hi).Found?;
  }

  lemma AppendedTwice(ids: seq<BlockID>, id: BlockID, maxEntries: nat)
    requires maxEntries >= 1
    ensures Appended(Appended(ids, id, maxEntries), id, maxEntries) == Appended(ids, id, maxEntries)
  {
    var once := Appended(ids, id, maxEntries);
    if !HasHash(ids, id.hash) {
      assert once[|once| - 1] == id;
    }
  }

  class Submitter {
    const rollup: Rollup
    const limits: Limits
    const history: History
    var currentBatch: Option<Response>

    constructor (r: Rollup, lim: Limits, h: History)
      ensures rollup == r && limits == lim && history == h && currentBatch == None
    {
      rollup, limits, history, currentBatch := r, lim, h, None;
    }

    /** The part of GetBlockRange after the bundle request. */
    method TakeUp(resp: Result<Option<Response>, ApiError>, latest: BlockID, committed: bool)
      returns (res: Result<(nat, nat), PollError>)
      requires currentBatch == None
      modifies this, history
      ensures TakenUp(WorkFor(resp), currentBatch, res)
      ensures var rec := CommitOf(WorkFor(resp), Io(true, committed, []));
              history.blockIDs == AfterPoll(old(history.blockIDs), rec, limits.maxEntries)
      ensures WorkFor(resp).Commit? && !committed ==> res == Err(HistoryFailed)
    {
      if resp.Err? {
        return Err(RequestFailed(resp.error));
      }
      if resp.value.None? {
        return Ok((latest.number + 1, latest.number + 1));
      }
      var batch := resp.value.value;
      var start := batch.prev.number + 1;
      if batch.last.hash == batch.prev.hash {
        return Ok((start, start));
      }
      var end := batch.last.number + 1;
      if |batch.bundle| == 0 {
        if !committed {
          return Err(HistoryFailed);
        }
        history.AppendEntry(batch.last, limits.maxEntries);
        return Ok((end, end));
      }
      currentBatch := Some(batch);
      return Ok((start, end));
    }

    method RequestBundle(v: L2View) returns (resp: Result<Option<Response>, ApiError>)
      ensures WorkFor(resp) == FindWork(rollup, limits, history.blockIDs, v)
    {
      var ancestors := history.Ancestors();
      resp := GetBatchBundle(rollup, v, Request(ancestors, limits.minSize, limits.maxSize));
    }

    /** GetBlockRange: the end is exclusive, so that start == end says there is nothing to post. */
    method GetBlockRange(v: L2View, io: Io) returns (res: Result<(nat, nat), PollError>)
      requires history.blockIDs != []
      modifies this, history
      ensures var work := FindWork(rollup, limits, old(history.blockIDs), v);
              && (io.loaded ==> TakenUp(work, currentBatch, res))
              && (!io.loaded ==> currentBatch == None && res == Err(HistoryFailed))
              && (io.loaded && work.Commit? && !io.committed ==> res == Err(HistoryFailed))
              && (WellNumbered(v) && res.Ok? ==> (res.value.0 != res.value.1 <==> work.Post?))
      ensures var rec := CommitOf(FindWork(rollup, limits, old(history.blockIDs), v), io);
              history.blockIDs == AfterPoll(old(history.blockIDs), rec, limits.maxEntries)
    {
      if WellNumbered(v) {
        WorkMovesUp(rollup, limits, history.blockIDs, v);
      }
      currentBatch := None;
      if !io.loaded {
        return Err(HistoryFailed);
      }
      var latest := history.LatestID();
      var resp := RequestBundle(v);
      res := TakeUp(resp, latest, io.committed);
    }

    /** SendTransaction records the range before it publishes, and does not publish when it cannot. */
    method SendTransaction(attempt: Attempt) returns (ok: bool)
      requires currentBatch.Some?
      modifies history
      ensures ok <==> attempt.written && attempt.accepted
      ensures history.blockIDs == if attempt.written
                then Appended(old(history.blockIDs), currentBatch.value.last, limits.maxEntries)
                else old(history.blockIDs)
    {
      if !attempt.written {
        return false;
      }
      history.AppendEntry(currentBatch.value.last, limits.maxEntries);
      return attempt.accepted;
    }

    /** One round of the service's event loop: the transaction of a range that is not empty is sent again and again. */
    method RunRound(v: L2View, io: Io)
      requires history.blockIDs != [] && limits.maxEntries >= 1
      modifies this, history
      ensures var rec := Records(FindWork(rollup, limits, old(history.blockIDs), v), io);
              history.blockIDs == AfterPoll(old(history.blockIDs), rec, limits.maxEntries)
    {
      var range := GetBlockRange(v, io);
      if range.Err? || range.value.0 == range.value.1 {
        return;
      }
      SendAll(io);
    }

    /** The calls the transaction manager makes until it returns. */
    method SendAll(io: Io)
      requires currentBatch.Some? && limits.maxEntries >= 1
      modifies history
      ensures history.blockIDs == if io.Written(|io.attempts|)
                then Appended(old(history.blockIDs), currentBatch.value.last, limits.maxEntries)
                else old(history.blockIDs)
    {
      ghost var ids, last := history.blockIDs, currentBatch.value.last;
      for i := 0 to |io.attempts|
        invariant history.blockIDs == if io.Written(i) then Appended(ids, last, limits.maxEntries) else ids
      {
        var ok := SendTransaction(io.attempts[i]);
        AppendedTwice(ids, last, limits.maxEntries);
        WrittenNext(io, i);
      }
    }
  }

  lemma WrittenNext(io: Io, i: nat)
    requires i < |io.attempts|
    ensures io.Written(i + 1) <==> io.Written(i) || io.attempts[i].written
  {
  }

  // ----- Polls over a chain that does not reorganise -----

  function IdOf(p: Payload): BlockID {
    BlockID(p.hash, p.number)
  }

  /** Distinct blocks, one at every height, with batches that fit the encoding. */
  ghost predicate WfChain(r: Rollup, chain: nat -> Payload) {
    && (forall n :: chain(n).number == n)
    && (forall m: nat, n: nat :: m < TWO_64 && n < TWO_64 && chain(m).hash == chain(n).hash ==> m == n)
    && (forall n :: var b := BlockToBatch(r, chain(n)); b.Ok? && b.value.Some? ==> Encodable(b.value.value))
  }

  /** The client answers from the chain up to the given height, or not at all. */
  ghost predicate Sees(v: L2View, chain: nat -> Payload, height: nat) {
    && height < TWO_64
    && (forall n: nat :: n <= height ==> v.BlockByNumber(n) in {Found(chain(n)), Unavailable})
    && (forall n :: n > height ==> v.BlockByNumber(n) in {NotFound, Unavailable})
    && (forall n: nat :: n <= height ==> v.RefByHash(chain(n).hash) in {Found(IdOf(chain(n))), Unavailable})
  }

  datatype Round = Round(view: L2View, height: nat, io: Io)

  /** The rounds see one growing chain, from the given height on. */
  ghost predicate OneChain(chain: nat -> Payload, rounds: seq<Round>, height: nat) {
    rounds != [] ==>
      && height <= rounds[0].height
      && Sees(rounds[0].view, chain, rounds[0].height)
      && OneChain(chain, rounds[1..], rounds[0].height)
  }

  /** The responses that successive rounds record, and the history they leave. */
  function Recorded(r: Rollup, lim: Limits, ids: seq<BlockID>, rounds: seq<Round>): (seq<Response>, seq<BlockID>)
    decreases |rounds|
  {
    if rounds == [] then ([], ids)
    else
      var rec := Records(FindWork(r, lim, ids, rounds[0].view), rounds[0].io);
      var (rest, end) := Recorded(r, lim, AfterPoll(ids, rec, lim.maxEntries), rounds[1..]);
      (if rec.Some? then [rec.value] + rest else rest, end)
  }

  /** The ranges (prev, last] follow each other without gap or overlap, from one block to another. */
  ghost predicate Tiles(resps: seq<Response>, from: BlockID, to: BlockID) {
    if resps == [] then from == to
    else resps[0].prev == from && resps[0].last.number > from.number && Tiles(resps[1..], resps[0].last, to)
  }

  /** A recorded range without batches is not posted. */
  function ReadBundle(d: Bytes): Option<seq<Batch>> {
    if d == [] then Some([]) else DecodeBatches(d)
  }

  /** The batches a reader decodes from the posted bundles; None when one of them is malformed. */
  function ReadPosted(read: Bytes -> Option<seq<Batch>>, resps: seq<Response>): Option<seq<Batch>> {
    if resps == [] then Some([])
    else
      var first, rest := read(resps[0].bundle), ReadPosted(read, resps[1..]);
      if first.None? || rest.None? then None else Some(first.value + rest.value)
  }

  /** The batch of the block at every height, with no reference to a client. */
  function ChainSlots(r: Rollup, chain: nat -> Payload): nat -> Slot {
    (n: nat) => SlotOf(CandidateOf(r, chain(n)))
  }

  /** Every recorded block is known to the client at the given height, newest last and all distinct. */
  ghost predicate WfHistory(chain: nat -> Payload, ids: seq<BlockID>, height: nat) {
    && ids != []
    && ids[|ids| - 1].number <= height
    && forall i :: 0 <= i < |ids| ==> ids[i] == IdOf(chain(ids[i].number)) && ids[i].number <= ids[|ids| - 1].number
  }

  function Latest(ids: seq<BlockID>): BlockID
    requires ids != []
  {
    ids[|ids| - 1]
  }

  lemma LatestIsCommon(r: Rollup, chain: nat -> Payload, ids: seq<BlockID>, v: L2View, height: nat)
    requires WfChain(r, chain) && Sees(v, chain, height) && WfHistory(chain, ids, height)
    ensures CommonPoint(v, AncestorHashes(ids)) in {Found(Latest(ids)), Unavailable}
  {
    var id, n := Latest(ids), Latest(ids).number;
    assert AncestorHashes(ids)[0] == id.hash && id == IdOf(chain(n));
    assert v.BlockByNumber(n) in {Found(chain(n)), Unavailable};
    assert v.RefByHash(chain(n).hash) in {Found(IdOf(chain(n))), Unavailable};
  }

  // ----- One poll continues where the last one ended -----

  lemma {:induction false} RangeAgrees(one: nat -> Slot, two: nat -> Slot, lo: nat, hi: nat)
    requires forall n :: lo < n <= hi ==> one(n) == two(n)
    ensures RangeBatches(one, lo, hi) == RangeBatches(two, lo, hi)
    decreases hi
  {
    if lo < hi {
      RangeAgrees(one, two, lo, hi - 1);
    }
  }

  lemma {:induction false} RangeSplits(slots: nat -> Slot, lo: nat, mid: nat, hi: nat)
    requires lo <= mid <= hi
    ensures RangeBatches(slots, lo, hi) == RangeBatches(slots, lo, mid) + RangeBatches(slots, mid, hi)
    decreases hi
  {
    if mid < hi {
      RangeSplits(slots, lo, mid, hi - 1);
    }
  }

  lemma {:induction false} RangeEncodable(slots: nat -> Slot, lo: nat, hi: nat)
    requires forall n :: slots(n).Full? ==> Encodable(slots(n).batch)
    ensures forall b :: b in RangeBatches(slots, lo, hi) ==> Encodable(b)
    decreases hi
  {
    if lo < hi {
      RangeEncodable(slots, lo, hi - 1);
    }
  }

  /** A response that covers the blocks of the chain above lo, up to a known height. */
  ghost predicate Covers(slots: nat -> Slot, chain: nat -> Payload, resp: Response, height: nat) {
    var hi := resp.last.number;
    && resp.prev.number < hi <= height
    && resp.last == IdOf(chain(hi))
    && ReadBundle(resp.bundle) == Some(RangeBatches(slots, resp.prev.number, hi))
  }

  lemma AnswerReads(slots: nat -> Slot, lim: Limits, resp: Response, hi: nat)
    requires forall n :: slots(n).Full? ==> Encodable(slots(n).batch)
    requires |resp.bundle| <= lim.maxSize < TWO_64
    requires var bs := RangeBatches(slots, resp.prev.number, hi);
             resp.bundle == if bs == [] then [] else EncodeBatches(bs)
    ensures ReadBundle(resp.bundle) == Some(RangeBatches(slots, resp.prev.number, hi))
  {
    var bs := RangeBatches(slots, resp.prev.number, hi);
    RangeEncodable(slots, resp.prev.number, hi);
    if bs != [] {
      BundleRoundTrip(bs, []);
      assert EncodeBatches(bs) + [] == EncodeBatches(bs);
    }
  }

  lemma SlotsAgree(r: Rollup, chain: nat -> Payload, v: L2View, height: nat, lo: nat, hi: nat)
    requires Sees(v, chain, height) && RangeKnown(SlotsOf(r, v), lo, hi)
    ensures forall n :: lo < n <= hi ==> n <= height && v.BlockByNumber(n) == Found(chain(n))
    ensures RangeBatches(SlotsOf(r, v), lo, hi) == RangeBatches(ChainSlots(r, chain), lo, hi)
  {
    forall n | lo < n <= hi
      ensures n <= height && v.BlockByNumber(n) == Found(chain(n))
      ensures SlotsOf(r, v)(n) == ChainSlots(r, chain)(n)
    {
      assert SlotsOf(r, v)(n) == SlotOf(FetchCandidate(r, v, n));
      assert n <= height ==> v.BlockByNumber(n) in {Found(chain(n)), Unavailable};
    }
    RangeAgrees(SlotsOf(r, v), ChainSlots(r, chain), lo, hi);
  }

  lemma ChainEncodable(r: Rollup, chain: nat -> Payload)
    requires WfChain(r, chain)
    ensures forall n :: ChainSlots(r, chain)(n).Full? ==> Encodable(ChainSlots(r, chain)(n).batch)
  {
  }

  lemma LastOnChain(r: Rollup, chain: nat -> Payload, v: L2View, height: nat, resp: Response, hi: nat)
    requires resp.prev.number <= hi && resp.last == LastID(IdsOf(r, v), resp.prev, hi)
             && resp.last.hash != resp.prev.hash
    requires forall n: nat :: resp.prev.number < n <= hi ==> n <= height && v.BlockByNumber(n) == Found(chain(n))
    requires chain(hi).number == hi && RangeKnown(SlotsOf(r, v), resp.prev.number, hi)
    ensures resp.prev.number < hi == resp.last.number <= height && resp.last == IdOf(chain(hi))
  {
    assert resp.prev.number < hi;
    assert v.BlockByNumber(hi) == Found(chain(hi));
    assert SlotsOf(r, v)(hi) == SlotOf(FetchCandidate(r, v, hi));
  }

  lemma AnswerCovers(
    r: Rollup, lim: Limits, chain: nat -> Payload, v: L2View, height: nat, req: Request, resp: Response, hi: nat)
    requires WfChain(r, chain) && Sees(v, chain, height) && req.maxSize == lim.maxSize < TWO_64
    requires IsAnswer(SlotsOf(r, v), IdsOf(r, v), SingleSize, req, resp, hi) && resp.last.hash != resp.prev.hash
    ensures Covers(ChainSlots(r, chain), chain, resp, height)
  {
    SlotsAgree(r, chain, v, height, resp.prev.number, hi);
    LastOnChain(r, chain, v, height, resp, hi);
    ChainEncodable(r, chain);
    AnswerReads(ChainSlots(r, chain), lim, resp, hi);
  }

  /** Whatever a poll finds to record starts at the latest recorded block. */
  lemma PollContinues(r: Rollup, lim: Limits, chain: nat -> Payload, ids: seq<BlockID>, v: L2View, height: nat)
    requires WfChain(r, chain) && Sees(v, chain, height) && WfHistory(chain, ids, height) && lim.maxSize < TWO_64
    ensures var work := FindWork(r, lim, ids, v);
            !work.Idle? ==> work.resp.prev == Latest(ids) && Covers(ChainSlots(r, chain), chain, work.resp, height)
  {
    var req, work := Request(AncestorHashes(ids), lim.minSize, lim.maxSize), FindWork(r, lim, ids, v);
    LatestIsCommon(r, chain, ids, v, height);
    WorkIsAnswer(r, lim, ids, v);
    if !work.Idle? {
      var hi :| IsAnswer(SlotsOf(r, v), IdsOf(r, v), SingleSize, req, work.resp, hi);
      AnswerCovers(r, lim, chain, v, height, req, work.resp, hi);
    }
  }

  lemma AppendedExtends(r: Rollup, chain: nat -> Payload, ids: seq<BlockID>, n: nat, height: nat, maxEntries: nat)
    requires WfChain(r, chain) && WfHistory(chain, ids, height) && Latest(ids).number < n <= height < TWO_64
             && maxEntries >= 1
    ensures var ids' := Appended(ids, IdOf(chain(n)), maxEntries);
            WfHistory(chain, ids', height) && Latest(ids') == IdOf(chain(n))
  {
    var id := IdOf(chain(n));
    assert !HasHash(ids, id.hash);
    var all := ids + [id];
    assert forall i :: 0 <= i < |all| ==> all[i] == IdOf(chain(all[i].number)) && all[i].number <= n;
  }

  // ----- All the polls -----

  lemma ReadPostedCons(read: Bytes -> Option<seq<Batch>>, resp: Response, rest: seq<Response>)
    requires read(resp.bundle).Some? && ReadPosted(read, rest).Some?
    ensures ReadPosted(read, [resp] + rest) == Some(read(resp.bundle).value + ReadPosted(read, rest).value)
  {
    assert ([resp] + rest)[1..] == rest;
  }

  /** A round leaves the history as it is, or extends it by the range it records. */
  lemma RoundContinues(r: Rollup, lim: Limits, chain: nat -> Payload, ids: seq<BlockID>, round: Round)
    requires WfChain(r, chain) && Sees(round.view, chain, round.height) && WfHistory(chain, ids, round.height)
    requires lim.maxSize < TWO_64 && lim.maxEntries >= 1
    ensures var rec := Records(FindWork(r, lim, ids, round.view), round.io);
            var ids' := AfterPoll(ids, rec, lim.maxEntries);
            && WfHistory(chain, ids', round.height)
            && (rec.None? ==> ids' == ids)
            && (rec.Some? ==>
                  && rec.value.prev == Latest(ids) && Latest(ids') == rec.value.last
                  && Covers(ChainSlots(r, chain), chain, rec.value, round.height))
  {
    var rec := Records(FindWork(r, lim, ids, round.view), round.io);
    PollContinues(r, lim, chain, ids, round.view, round.height);
    if rec.Some? {
      AppendedExtends(r, chain, ids, rec.value.last.number, round.height, lim.maxEntries);
    }
  }

  /**
    However the polls fall, whichever of them fail, and however often a transaction is resubmitted:
    the recorded ranges tile the chain up to the latest recorded block, and the posted bundles decode
    to the batches of exactly the non-empty blocks of that stretch, each once and in order.
   */
  lemma {:induction false} PollsTile(
    r: Rollup, lim: Limits, chain: nat -> Payload, ids: seq<BlockID>, rounds: seq<Round>, height: nat)
    requires WfChain(r, chain) && WfHistory(chain, ids, height) && OneChain(chain, rounds, height)
    requires lim.maxSize < TWO_64 && lim.maxEntries >= 1
    ensures var (resps, end) := Recorded(r, lim, ids, rounds);
            && end != []
            && Tiles(resps, Latest(ids), Latest(end))
            && Latest(ids).number <= Latest(end).number
            && ReadPosted(ReadBundle, resps)
              == Some(RangeBatches(ChainSlots(r, chain), Latest(ids).number, Latest(end).number))
    decreases |rounds|
  {
    if rounds != [] {
      var round, slots := rounds[0], ChainSlots(r, chain);
      var rec := Records(FindWork(r, lim, ids, round.view), round.io);
      var ids' := AfterPoll(ids, rec, lim.maxEntries);
      RoundContinues(r, lim, chain, ids, round);
      PollsTile(r, lim, chain, ids', rounds[1..], round.height);
      if rec.Some? {
        var (rest, end) := Recorded(r, lim, ids', rounds[1..]);
        ReadPostedCons(ReadBundle, rec.value, rest);
        RangeSplits(slots, Latest(ids).number, Latest(ids').number, Latest(end).number);
        assert ([rec.value] + rest)[1..] == rest;
      }
    }
  }

  /** From an empty history file the whole chain after the genesis block is posted. */
  lemma SubmitterTilesChain(r: Rollup, lim: Limits, chain: nat -> Payload, rounds: seq<Round>)
    requires WfChain(r, chain) && OneChain(chain, rounds, 0) && lim.maxSize < TWO_64 && lim.maxEntries >= 1
    ensures var (resps, end) := Recorded(r, lim, [IdOf(chain(0))], rounds);
            && end != []
            && Tiles(resps, IdOf(chain(0)), Latest(end))
            && ReadPosted(ReadBundle, resps) == Some(RangeBatches(ChainSlots(r, chain), 0, Latest(end).number))
  {
    PollsTile(r, lim, chain, [IdOf(chain(0))], rounds, 0);
  }

  // ----- The order of the history -----

  /** The entry behind the hash at position k of the ancestors. */
  function AncestorAt(ids: seq<BlockID>, k: nat): BlockID
    requires k < |ids|
  {
    ids[|ids| - 1 - k]
  }

  /**
    The ancestors come with the highest numbers first, as the sorted copy would, exactly when the history is
    ascending.
   */
  lemma AncestorsDescendExact(ids: seq<BlockID>)
    ensures (forall k, l :: 0 <= k < l < |ids| ==> AncestorAt(ids, k).number >= AncestorAt(ids, l).number) <==>
            Ascending(ids)
  {
    if forall k, l :: 0 <= k < l < |ids| ==> AncestorAt(ids, k).number >= AncestorAt(ids, l).number {
      forall i, j | 0 <= i < j < |ids| ensures ids[i].number <= ids[j].number {
        assert AncestorAt(ids, |ids| - 1 - j).number >= AncestorAt(ids, |ids| - 1 - i).number;
      }
    }
  }

  /** The client knows recorded blocks by their recorded numbers. */
  ghost predicate Knows(v: L2View, ids: seq<BlockID>) {
    && WellNumbered(v)
    && forall i :: 0 <= i < |ids| && v.RefByHash(ids[i].hash).Found? ==> v.RefByHash(ids[i].hash).value == ids[i]
  }

  /** The common point is no lower than any recorded block that is canonical. */
  ghost predicate HighestCommon(v: L2View, ids: seq<BlockID>) {
    match CommonPoint(v, AncestorHashes(ids))
    case Found(id) => forall i :: 0 <= i < |ids| && CheckCommon(v, ids[i].hash).Found? ==> ids[i].number <= id.number
    case _ => true
  }

  lemma AncestorsOf(ids: seq<BlockID>, id: BlockID)
    ensures AncestorHashes(ids + [id])[0] == id.hash && AncestorHashes(ids + [id])[1..] == AncestorHashes(ids)
  {
  }

  /** The common point is the newest canonical entry. */
  lemma {:induction false} CommonIsNewest(v: L2View, ids: seq<BlockID>)
    requires Knows(v, ids)
    ensures match CommonPoint(v, AncestorHashes(ids))
            case Found(id) =>
              exists i ::
                && 0 <= i < |ids| && ids[i] == id && CheckCommon(v, id.hash) == Found(id)
                && forall j :: i < j < |ids| ==> CheckCommon(v, ids[j].hash).NotFound?
            case _ => true
  {
    if ids != [] {
      var n := |ids| - 1;
      assert ids == ids[..n] + [ids[n]];
      AncestorsOf(ids[..n], ids[n]);
      CommonIsNewest(v, ids[..n]);
      if CheckCommon(v, ids[n].hash).NotFound? && CommonPoint(v, AncestorHashes(ids[..n])).Found? {
        var id := CommonPoint(v, AncestorHashes(ids[..n])).value;
        var i :| 0 <= i < n && ids[..n][i] == id
          && forall j :: i < j < n ==> CheckCommon(v, ids[..n][j].hash).NotFound?;
        assert ids[i] == id && CheckCommon(v, id.hash) == Found(id);
        assert forall j :: i < j < |ids| ==> CheckCommon(v, ids[j].hash).NotFound?;
      } else if CheckCommon(v, ids[n].hash).Found? {
        assert ids[n] == CommonPoint(v, AncestorHashes(ids)).value;
      }
    }
  }

  /** A client for which exactly two recorded blocks are canonical. */
  function TwoBlocks(a: BlockID, b: BlockID): L2View {
    L2View(
      map[a.number := Found(Payload(a.hash, 0, a.number, 0, 0, 0, [])),
          b.number := Found(Payload(b.hash, 0, b.number, 0, 0, 0, []))],
      map[a.hash := Found(a), b.hash := Found(b)])
  }

  /** A newer entry with a lower number hides an older one with a higher number. */
  lemma LowerEntryHides(ids: seq<BlockID>, i: nat, j: nat)
    requires DistinctHashes(ids) && i < j < |ids| && ids[i].number > ids[j].number
    ensures var v := TwoBlocks(ids[i], ids[j]); Knows(v, ids) && !HighestCommon(v, ids)
  {
    var v := TwoBlocks(ids[i], ids[j]);
    forall k | 0 <= k < |ids|
      ensures CheckCommon(v, ids[k].hash) == if k == i || k == j then Found(ids[k]) else NotFound
    {
    }
    assert Knows(v, ids);
    CommonIsNewest(v, ids);
    FoundAmong(v, ids, j);
    var id := CommonPoint(v, AncestorHashes(ids)).value;
    var k :| 0 <= k < |ids| && ids[k] == id && CheckCommon(v, id.hash) == Found(id)
      && forall l :: k < l < |ids| ==> CheckCommon(v, ids[l].hash).NotFound?;
    assert k == j;
  }

  lemma {:induction false} FoundAmong(v: L2View, ids: seq<BlockID>, j: nat)
    requires j < |ids| && CheckCommon(v, ids[j].hash).Found?
    requires forall k :: 0 <= k < |ids| ==> !CheckCommon(v, ids[k].hash).Unavailable?
    ensures CommonPoint(v, AncestorHashes(ids)).Found?
  {
    var n := |ids| - 1;
    assert ids == ids[..n] + [ids[n]];
    AncestorsOf(ids[..n], ids[n]);
    if j < n {
      FoundAmong(v, ids[..n], j);
    }
  }

  /**
    For every client the common point is the highest recorded canonical block, as the comment in
    Ancestors intends, if and only if the history is ascending.
   */
  lemma HighestCommonExact(ids: seq<BlockID>)
    requires DistinctHashes(ids)
    ensures (forall v :: Knows(v, ids) ==> HighestCommon(v, ids)) <==> Ascending(ids)
  {
    if Ascending(ids) {
      forall v | Knows(v, ids) ensures HighestCommon(v, ids) {
        CommonIsNewest(v, ids);
      }
    } else {
      var i, j :| 0 <= i < j < |ids| && ids[i].number > ids[j].number;
      LowerEntryHides(ids, i, j);
    }
  }

  /**
    Such a history: block 5 was recorded, an L2 reorg dropped it, and block 3 of the new chain was recorded after it.
   */
  lemma ReorgLeavesDescent()
    ensures var genesis, five, three := BlockID(100, 0), BlockID(105, 5), BlockID(203, 3);
            var ids := Appended(Appended([genesis], five, 600), three, 600);
            && ids == [genesis, five, three]
            && !Ascending(ids)
            && CommonPoint(TwoBlocks(five, three), AncestorHashes(ids)) == Found(three)
  {
    var genesis, five, three := BlockID(100, 0), BlockID(105, 5), BlockID(203, 3);
    var ids := [genesis, five, three];
    assert ids[1].number > ids[2].number;
    assert AncestorHashes(ids)[0] == three.hash;
  }
}
