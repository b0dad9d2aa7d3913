/** op-node/l2/util.go, BlockToBatch: the batch a sequencer submits for an L2 block. */
module BlockBatch {
  import opened Types
  import opened Output

  /** The transactions that are not deposits, in order. */
  function NonDeposits(txs: seq<Bytes>): seq<Bytes> {
    if txs == [] then []
    else
      var init := NonDeposits(txs[..|txs| - 1]);
      if IsDeposit(txs[|txs| - 1]) then init else init + [txs[|txs| - 1]]
  }

  datatype BlockError = NoTransactions | FirstNotDeposit | BadL1Info

  /** None for a block with nothing but the L1 info transaction. */
  function BlockToBatch(r: Rollup, p: Payload): Result<Option<Batch>, BlockError> {
    if p.txs == [] then Err(NoTransactions)
    else if !IsDeposit(p.txs[0]) then Err(FirstNotDeposit)
    else if |p.txs| == 1 then Ok(None)
    else
      match r.codec.origin(p.txs[0])
      case None => Err(BadL1Info)
      case Some((id, _)) => Ok(Some(Batch(id.number, p.timestamp, NonDeposits(p.txs))))
  }

  method RunBlockToBatch(r: Rollup, p: Payload) returns (res: Result<Option<Batch>, BlockError>)
    ensures res == BlockToBatch(r, p)
  {
    if p.txs == [] {
      return Err(NoTransactions);
    }
    if !IsDeposit(p.txs[0]) {
      return Err(FirstNotDeposit);
    }
    if |p.txs| == 1 {
      return Ok(None);
    }
    var opaqueTxs: seq<Bytes> := [];
    for i := 0 to |p.txs|
      invariant opaqueTxs == NonDeposits(p.txs[..i])
    {
      assert p.txs[..i + 1][..i] == p.txs[..i];
      if IsDeposit(p.txs[i]) {
        continue;
      }
      opaqueTxs := opaqueTxs + [p.txs[i]];
    }
    assert p.txs[..|p.txs|] == p.txs;
    var info := r.codec.origin(p.txs[0]);
    if info.None? {
      return Err(BadL1Info);
    }
    return Ok(Some(Batch(info.value.0.number, p.timestamp, opaqueTxs)));
  }

  /** Behind k deposits, exactly the rest is not a deposit. */
  lemma {:induction false} NonDepositsAfter(txs: seq<Bytes>, k: nat)
    requires k <= |txs|
    requires forall i :: 0 <= i < k ==> IsDeposit(txs[i])
    requires forall i :: k <= i < |txs| ==> !IsDeposit(txs[i])
    ensures NonDeposits(txs) == txs[k..]
    decreases |txs|
  {
    if txs != [] {
      var n := |txs| - 1;
      if k <= n {
        NonDepositsAfter(txs[..n], k);
        assert txs[k..] == txs[..n][k..] + [txs[n]];
      } else {
        NonDepositsAfter(txs[..n], n);
      }
    }
  }
}
