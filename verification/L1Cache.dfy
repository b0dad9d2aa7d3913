/**
  op-node/l1/source.go: the transactions of L1 blocks, cached by block hash. FetchAllTransactions
  takes the cached lists, requests the others in one batch, and puts the answers at the window
  indices they were requested for.
 */
module L1Cache {
  import opened Types

  type TxList = seq<L1Tx>
  type Cache = map<Hash, TxList>

  /** The answer to one block request: a block, data that does not check, or an error. */
  datatype ElemAnswer = Block(hash: Hash, txs: TxList) | BadData | ElemFailed

  /** The answers of the RPC to request k of a batch, which asks for hash h. */
  type Rpc = (nat, Hash) -> ElemAnswer

  /** The RPC answers by hash correctly: a block it delivers is the one with that hash. */
  ghost predicate Correct(truth: Hash -> TxList, rpc: Rpc) {
    forall k, h :: rpc(k, h).Block? ==> rpc(k, h) == Block(h, truth(h))
  }

  ghost predicate TrueCache(truth: Hash -> TxList, cache: Cache) {
    forall h :: h in cache ==> cache[h] == truth(h)
  }

  // ----- FetchAllTransactions -----

  /** The window indices below i that are not in the cache, in order. */
  function Misses(cache: Cache, window: seq<Hash>, i: nat): (m: seq<nat>)
    requires i <= |window|
    ensures forall k :: 0 <= k < |m| ==> m[k] < i
  {
    if i == 0 then []
    else if window[i - 1] in cache then Misses(cache, window, i - 1)
    else Misses(cache, window, i - 1) + [i - 1]
  }

  /** The answer to request k of the batch for the missing blocks. */
  function AnswerTo(cache: Cache, window: seq<Hash>, rpc: Rpc, k: nat): ElemAnswer
    requires k < |Misses(cache, window, |window|)|
  {
    rpc(k, window[Misses(cache, window, |window|)[k]])
  }

  /** The cached list, or the list of the answer to the request made for this index. */
  function ListAt(cache: Cache, window: seq<Hash>, rpc: Rpc, i: nat): TxList
    requires i < |window|
  {
    if window[i] in cache then cache[window[i]]
    else
      var answer := rpc(|Misses(cache, window, i)|, window[i]);
      if answer.Block? then answer.txs else []
  }

  ghost predicate AllAnswered(cache: Cache, window: seq<Hash>, rpc: Rpc) {
    forall k :: 0 <= k < |Misses(cache, window, |window|)| ==> AnswerTo(cache, window, rpc, k).Block?
  }

  /** The cache when the first k answers are processed; evict(k) is what the cache drops to make room. */
  function CacheAfter(cache: Cache, window: seq<Hash>, rpc: Rpc, evict: nat -> set<Hash>, k: nat): Cache
    requires k <= |Misses(cache, window, |window|)|
  {
    if k == 0 then cache
    else
      var before, answer := CacheAfter(cache, window, rpc, evict, k - 1), AnswerTo(cache, window, rpc, k - 1);
      if answer.Block? then before[answer.hash := answer.txs] - evict(k - 1) else before
  }

  /** The requests made for the window indices from i on are those after the ones made before. */
  lemma {:induction false} MissesGrow(cache: Cache, window: seq<Hash>, i: nat, j: nat)
    requires i <= j <= |window|
    ensures Misses(cache, window, i) <= Misses(cache, window, j)
    decreases j
  {
    if i < j {
      MissesGrow(cache, window, i, j - 1);
    }
  }

  /** Request number k is for the index with k misses before it: the remapping is the inverse of the count. */
  lemma {:induction false} MissIndex(cache: Cache, window: seq<Hash>, i: nat, k: nat)
    requires i <= |window| && k < |Misses(cache, window, i)|
    ensures var at := Misses(cache, window, i)[k];
            window[at] !in cache && |Misses(cache, window, at)| == k
  {
    if window[i - 1] in cache || k < |Misses(cache, window, i - 1)| {
      MissIndex(cache, window, i - 1, k);
    }
  }

  /** No index is requested twice, and none that is cached. */
  lemma MissIndicesDiffer(cache: Cache, window: seq<Hash>, i: nat)
    requires i < |Misses(cache, window, |window|)|
    ensures var m := Misses(cache, window, |window|);
            window[m[i]] !in cache && forall k :: 0 <= k < i ==> m[k] != m[i]
  {
    var m := Misses(cache, window, |window|);
    MissIndex(cache, window, |window|, i);
    forall k | 0 <= k < i ensures m[k] != m[i] {
      MissIndex(cache, window, |window|, k);
    }
  }

  lemma MissOf(cache: Cache, window: seq<Hash>, i: nat)
    requires i < |window| && window[i] !in cache
    ensures var k, m := |Misses(cache, window, i)|, Misses(cache, window, |window|);
            k < |m| && m[k] == i
  {
    MissesGrow(cache, window, i + 1, |window|);
  }

  class Source {
    var transactionsCache: Cache

    constructor ()
      ensures transactionsCache == map[]
    {
      transactionsCache := map[];
    }

    /** Add to the cache, which may drop older entries. */
    method Add(h: Hash, txs: TxList, evict: set<Hash>)
      modifies this
      ensures transactionsCache == old(transactionsCache)[h := txs] - evict
    {
      transactionsCache := transactionsCache[h := txs] - evict;
    }

    /** blockCall: a single block, by hash or by number. */
    method BlockCall(answer: ElemAnswer, evict: set<Hash>) returns (res: Option<(Hash, TxList)>)
      modifies this
      ensures transactionsCache == AfterBlock(old(transactionsCache), answer, evict)
      ensures res == if answer.Block? then Some((answer.hash, answer.txs)) else None
    {
      if !answer.Block? {
        return None;
      }
      Add(answer.hash, answer.txs, evict);
      return Some((answer.hash, answer.txs));
    }

    /** The first loop: lists of the cached blocks, and the indices of the others. */
    method Lookup(window: seq<Hash>) returns (allTxLists: seq<TxList>, requestIndices: seq<nat>)
      ensures requestIndices == Misses(transactionsCache, window, |window|)
      ensures |allTxLists| == |window|
      ensures forall i :: 0 <= i < |window| && window[i] in transactionsCache ==>
              allTxLists[i] == transactionsCache[window[i]]
    {
      allTxLists := seq(|window|, _ => []);
      requestIndices := [];
      for i := 0 to |window|
        invariant requestIndices == Misses(transactionsCache, window, i) && |allTxLists| == |window|
        invariant forall j :: 0 <= j < i && window[j] in transactionsCache ==>
                  allTxLists[j] == transactionsCache[window[j]]
      {
        if window[i] in transactionsCache {
          allTxLists := allTxLists[i := transactionsCache[window[i]]];
        } else {
          requestIndices := requestIndices + [i];
        }
      }
    }

    /** The second loop: caches every block delivered and places its list; false on bad data. */
    method Place(window: seq<Hash>, rpc: Rpc, evict: nat -> set<Hash>, lists: seq<TxList>, requestIndices: seq<nat>)
      returns (ok: bool, allTxLists: seq<TxList>)
      requires requestIndices == Misses(transactionsCache, window, |window|) && |lists| == |window|
      modifies this
      ensures |allTxLists| == |window|
      ensures exists k: nat ::
                k <= |requestIndices| && transactionsCache == CacheAfter(old(transactionsCache), window, rpc, evict, k)
      ensures ok <==> forall k :: 0 <= k < |requestIndices| ==>
              AnswerTo(old(transactionsCache), window, rpc, k) != BadData
      ensures forall i :: 0 <= i < |window| && window[i] in old(transactionsCache) ==> allTxLists[i] == lists[i]
      ensures ok ==> forall k :: 0 <= k < |requestIndices| ==>
                var answer := AnswerTo(old(transactionsCache), window, rpc, k);
                  answer.Block? ==> allTxLists[requestIndices[k]] == answer.txs
    {
      ghost var cache := transactionsCache;
      allTxLists := lists;
      for i := 0 to |requestIndices|
        invariant |allTxLists| == |window| && transactionsCache == CacheAfter(cache, window, rpc, evict, i)
        invariant forall k :: 0 <= k < i ==> AnswerTo(cache, window, rpc, k) != BadData
        invariant forall j :: 0 <= j < |window| && window[j] in cache ==> allTxLists[j] == lists[j]
        invariant forall k :: 0 <= k < i ==>
                    var answer := AnswerTo(cache, window, rpc, k);
                      answer.Block? ==> allTxLists[requestIndices[k]] == answer.txs
      {
        var at := requestIndices[i];
        MissIndicesDiffer(cache, window, i);
        var answer := rpc(i, window[at]);
        assert answer == AnswerTo(cache, window, rpc, i);
        if answer.BadData? {
          return false, allTxLists;
        }
        if answer.Block? {
          Add(answer.hash, answer.txs, evict(i));
          allTxLists := allTxLists[at := answer.txs];
        }
      }
      ok := true;
    }

    method FetchAllTransactions(
      window: seq<Hash>, batchOk: bool, rpc: Rpc, evict: nat -> set<Hash>)
      returns (res: Option<seq<TxList>>)
      modifies this
      ensures FetchOutcome(old(transactionsCache), window, batchOk, rpc, res)
      ensures exists k: nat :: k <= |Misses(old(transactionsCache), window, |window|)|
                && transactionsCache == CacheAfter(old(transactionsCache), window, rpc, evict, k)
    {
      ghost var cache := transactionsCache;
      var allTxLists, requestIndices := Lookup(window);
      assert transactionsCache == CacheAfter(cache, window, rpc, evict, 0);
      if |requestIndices| > 0 && !batchOk {
        return None;
      }
      var ok;
      ok, allTxLists := Place(window, rpc, evict, allTxLists, requestIndices);
      if !ok {
        return None;
      }
      for i := 0 to |requestIndices|
        invariant forall k :: 0 <= k < i ==> AnswerTo(cache, window, rpc, k).Block?
      {
        assert rpc(i, window[requestIndices[i]]) == AnswerTo(cache, window, rpc, i);
        if rpc(i, window[requestIndices[i]]).ElemFailed? {
          return None;
        }
      }
      forall i | 0 <= i < |window| ensures allTxLists[i] == ListAt(cache, window, rpc, i) {
        if window[i] !in cache {
          MissOf(cache, window, i);
        }
      }
      return Some(allTxLists);
    }
  }

  /** What FetchAllTransactions returns: the lists exactly when nothing is missing or every request is answered. */
  ghost predicate FetchOutcome(cache: Cache, window: seq<Hash>, batchOk: bool, rpc: Rpc, res: Option<seq<TxList>>) {
    && (res.Some? <==> AllAnswered(cache, window, rpc) && (batchOk || Misses(cache, window, |window|) == []))
    && (res.Some? ==> |res.value| == |window| && forall i :: 0 <= i < |window| ==>
      res.value[i] == ListAt(cache, window, rpc, i))
  }

  function AfterBlock(cache: Cache, answer: ElemAnswer, evict: set<Hash>): Cache {
    if answer.Block? then cache[answer.hash := answer.txs] - evict else cache
  }

  // ----- Every reachable cache -----

  /** What happens to the cache: entries are dropped, a block is fetched, or a window up to its k-th answer. */
  datatype CacheOp =
    | Evict(keys: set<Hash>)
    | FetchBlock(answer: ElemAnswer, evict: set<Hash>)
    | FetchWindow(window: seq<Hash>, rpc: Rpc, evicts: nat -> set<Hash>, k: nat)

  ghost predicate CorrectOp(truth: Hash -> TxList, op: CacheOp) {
    match op
    case Evict(_) => true
    case FetchBlock(answer, _) => answer.Block? ==> answer.txs == truth(answer.hash)
    case FetchWindow(_, rpc, _, _) => Correct(truth, rpc)
  }

  function Apply(cache: Cache, op: CacheOp): Cache {
    match op
    case Evict(keys) => cache - keys
    case FetchBlock(answer, evict) => AfterBlock(cache, answer, evict)
    case FetchWindow(window, rpc, evicts, k) =>
      var n := |Misses(cache, window, |window|)|;
      CacheAfter(cache, window, rpc, evicts, if k < n then k else n)
  }

  function ApplyAll(cache: Cache, ops: seq<CacheOp>): Cache {
    if ops == [] then cache else Apply(ApplyAll(cache, ops[..|ops| - 1]), ops[|ops| - 1])
  }

  lemma {:induction false} CacheAfterTrue(
    truth: Hash -> TxList, cache: Cache, window: seq<Hash>, rpc: Rpc, evict: nat -> set<Hash>, k: nat)
    requires TrueCache(truth, cache) && Correct(truth, rpc) && k <= |Misses(cache, window, |window|)|
    ensures TrueCache(truth, CacheAfter(cache, window, rpc, evict, k))
  {
    if k > 0 {
      CacheAfterTrue(truth, cache, window, rpc, evict, k - 1);
      var h := window[Misses(cache, window, |window|)[k - 1]];
      assert rpc(k - 1, h).Block? ==> rpc(k - 1, h) == Block(h, truth(h));
    }
  }

  lemma {:induction false} ReachableCacheTrue(truth: Hash -> TxList, ops: seq<CacheOp>)
    requires forall i :: 0 <= i < |ops| ==> CorrectOp(truth, ops[i])
    ensures TrueCache(truth, ApplyAll(map[], ops))
  {
    if ops != [] {
      var init, op := ops[..|ops| - 1], ops[|ops| - 1];
      ReachableCacheTrue(truth, init);
      var cache := ApplyAll(map[], init);
      if op.FetchWindow? {
        var n := |Misses(cache, op.window, |op.window|)|;
        CacheAfterTrue(truth, cache, op.window, op.rpc, op.evicts, if op.k < n then op.k else n);
      }
    }
  }

  lemma OutcomeTrue(
    truth: Hash -> TxList, cache: Cache, window: seq<Hash>, batchOk: bool, rpc: Rpc, res: Option<seq<TxList>>)
    requires TrueCache(truth, cache) && Correct(truth, rpc) && FetchOutcome(cache, window, batchOk, rpc, res)
             && res.Some?
    ensures |res.value| == |window| && forall i :: 0 <= i < |window| ==> res.value[i] == truth(window[i])
  {
    forall i | 0 <= i < |window| ensures res.value[i] == truth(window[i]) {
      if window[i] !in cache {
        MissOf(cache, window, i);
        assert AnswerTo(cache, window, rpc, |Misses(cache, window, i)|).Block?;
      }
    }
  }

  /**
    Cache transparency: whatever calls and evictions went before, the lists that come back are those
    of an uncached fetch of the same window, at every index.
   */
  lemma CacheTransparent(truth: Hash -> TxList, ops: seq<CacheOp>, window: seq<Hash>, batchOk: bool, rpc: Rpc,
      res: Option<seq<TxList>>,
      rpc': Rpc, uncached: Option<seq<TxList>>)
    requires forall i :: 0 <= i < |ops| ==> CorrectOp(truth, ops[i])
    requires Correct(truth, rpc) && Correct(truth, rpc')
    requires FetchOutcome(ApplyAll(map[], ops), window, batchOk, rpc, res) && res.Some?
    requires FetchOutcome(map[], window, true, rpc', uncached) && uncached.Some?
    ensures res == uncached
  {
    ReachableCacheTrue(truth, ops);
    OutcomeTrue(truth, ApplyAll(map[], ops), window, batchOk, rpc, res);
    OutcomeTrue(truth, map[], window, true, rpc', uncached);
    assert res.value == uncached.value;
  }
}
