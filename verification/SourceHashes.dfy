/**
  specs/deposits.md promises that no two deposits share a source hash. Here: all deposit
  transactions on one L2 chain, L1 info and user deposits alike, across all epochs, have pairwise
  distinct source hashes, for every chain that follows the block rules.
 */
module SourceHashes {
  import opened Types
  import opened Engine
  import opened Output
  import opened ChainRules
  import opened L1Info
  import opened Deposits

  // ----- Sources -----

  /** The sources of the forced transactions of a block of L1 origin b. */
  function ForcedSources(r: Rollup, b: L1Block, s: nat, newEpoch: bool): seq<Source> {
    var logs := UserDepositLogs(r.cfg.depositContract, b.receipts);
    [InfoSource(b, s)] + if newEpoch then seq(|logs|, i requires 0 <= i < |logs| => LogSource(logs[i])) else []
  }

  /** The sources of the deposits of block n, in transaction order. */
  function BlockSources(r: Rollup, t: Tree, tip: Hash, n: nat): seq<Source>
    requires n > 0 && RefAt(r, t, tip, n).l1Origin.hash in r.l1
  {
    var ref := RefAt(r, t, tip, n);
    ForcedSources(r, r.l1[ref.l1Origin.hash], ref.sequenceNumber,
      ref.l1Origin.number != RefAt(r, t, tip, n - 1).l1Origin.number)
  }

  /** The receipts of every L1 block passed fetchReceipts' checks. */
  ghost predicate ReceiptsChecked(r: Rollup) {
    forall h :: h in r.l1 ==>
      ReceiptsOk(r.l1[h].ID(), r.l1[h].txs, r.l1[h].receipts) && |AllLogs(r.l1[h].receipts)| <= TWO_64
  }

  lemma LogSourcesOf(r: Rollup, h: Hash, i: nat)
    requires ReceiptsChecked(r) && r.WfL1() && h in r.l1
    requires i < |UserDepositLogs(r.cfg.depositContract, r.l1[h].receipts)|
    ensures var logs := UserDepositLogs(r.cfg.depositContract, r.l1[h].receipts);
            && Increasing(logs)
            && LogSource(logs[i]) == Source(USER_DEPOSIT_DOMAIN, h, logs[i].index)
            && LogSource(logs[i]).Fits()
  {
    var b := r.l1[h];
    var all, logs := AllLogs(b.receipts), UserDepositLogs(r.cfg.depositContract, b.receipts);
    forall n | 0 <= n < |all| ensures all[n].index == n && all[n].blockHash == h {
      LogsNumbered(b.ID(), b.txs, b.receipts, n);
    }
    UserDepositLogsIncreasing(r.cfg.depositContract, b.receipts);
    UserDepositLogsQualify(r.cfg.depositContract, b.receipts);
    assert logs[i] in logs;
  }

  /** No source occurs twice on a chain. */
  lemma SourcesDistinct(r: Rollup, t: Tree, tip: Hash, m: nat, i: nat, n: nat, j: nat)
    requires Ruled(r, t) && ReceiptsChecked(r) && tip in t
    requires r.G().number < m <= n <= t[tip].number
    requires RefAt(r, t, tip, m).l1Origin.hash in r.l1 && RefAt(r, t, tip, n).l1Origin.hash in r.l1
    requires i < |BlockSources(r, t, tip, m)| && j < |BlockSources(r, t, tip, n)|
    requires m != n || i != j
    ensures BlockSources(r, t, tip, m)[i] != BlockSources(r, t, tip, n)[j]
  {
    var hm, hn := RefAt(r, t, tip, m).l1Origin.hash, RefAt(r, t, tip, n).l1Origin.hash;
    if i > 0 {
      LogSourcesOf(r, hm, i - 1);
    }
    if j > 0 {
      LogSourcesOf(r, hn, j - 1);
    }
    if m < n && hm == hn {
      SameOrigin(r, t, tip, m, n);
    }
  }

  // ----- Transactions -----

  /** The forced transactions of block n. */
  function ForcedAt(r: Rollup, t: Tree, tip: Hash, n: nat): seq<Bytes>
    requires n > 0 && RefAt(r, t, tip, n).l1Origin.hash in r.l1
  {
    var ref := RefAt(r, t, tip, n);
    Forced(r, r.l1[ref.l1Origin.hash], ref.sequenceNumber,
      ref.l1Origin.number != RefAt(r, t, tip, n - 1).l1Origin.number)
  }

  /** Block n consists of its forced transactions and then sequenced ones. */
  lemma ChainTx(r: Rollup, t: Tree, tip: Hash, n: nat, i: nat)
    requires Ruled(r, t) && tip in t && r.G().number < n <= t[tip].number
    requires BlockAt(t, tip, n).Some? && i < |BlockAt(t, tip, n).value.txs|
    ensures RefAt(r, t, tip, n).l1Origin.hash in r.l1
    ensures var tx := BlockAt(t, tip, n).value.txs[i];
            if i < |ForcedAt(r, t, tip, n)| then tx == ForcedAt(r, t, tip, n)[i] else IsSequenced(tx)
  {
    RuleOnChain(r, t, tip, n - 1);
    SequenceBounded(r, t, tip, n);
  }

  /** tx is a deposit with source hash h. */
  predicate CarriesHash(tx: Bytes, h: Hash) {
    IsDeposit(tx) && DecodeDeposit(tx).Some? && DecodeDeposit(tx).value.sourceHash == h
  }

  lemma EncodedCarriesHash(d: Deposit)
    requires |EncodeDeposit(d)| < TWO_64
    ensures CarriesHash(EncodeDeposit(d), d.sourceHash)
  {
    DepositRoundTrip(d);
  }

  /** The encodings in use are the concrete ones. */
  ghost predicate Concrete(k: Keccak, selector: Bytes, r: Rollup) {
    |selector| == 4 && r.codec == ConcreteCodec(k, selector, r.cfg.depositContract)
  }

  lemma InfoCarriesHash(k: Keccak, selector: Bytes, r: Rollup, b: L1Block, s: nat)
    requires Concrete(k, selector, r) && |r.codec.info(s, b)| < TWO_64
    ensures CarriesHash(r.codec.info(s, b), InfoSource(b, s).Hash(k))
  {
    EncodedCarriesHash(InfoDeposit(k, selector, s, b));
  }

  lemma UserDepositCarriesHash(k: Keccak, selector: Bytes, r: Rollup, b: L1Block, i: nat)
    requires Concrete(k, selector, r) && i < |r.codec.deposits(b)| && |r.codec.deposits(b)[i]| < TWO_64
    ensures |r.codec.deposits(b)| == |UserDepositLogs(r.cfg.depositContract, b.receipts)|
    ensures CarriesHash(r.codec.deposits(b)[i],
            LogSource(UserDepositLogs(r.cfg.depositContract, b.receipts)[i]).Hash(k))
  {
    var logs := UserDepositLogs(r.cfg.depositContract, b.receipts);
    UserDepositLogsQualify(r.cfg.depositContract, b.receipts);
    assert r.codec.deposits(b) == UserDepositTxs(k, r.cfg.depositContract, b.receipts);
    assert logs[i] in logs;
    assert r.codec.deposits(b)[i] == LogTx(k, logs[i]);
    EncodedCarriesHash(LogDeposit(k, logs[i]));
  }

  lemma ForcedLengths(k: Keccak, selector: Bytes, r: Rollup, b: L1Block, s: nat, newEpoch: bool)
    requires Concrete(k, selector, r)
    ensures |ForcedSources(r, b, s, newEpoch)| == |Forced(r, b, s, newEpoch)|
  {
  }

  /** Every forced transaction is a deposit that carries the hash of its source. */
  lemma ForcedCarriesSource(k: Keccak, selector: Bytes, r: Rollup, b: L1Block, s: nat, newEpoch: bool, i: nat)
    requires Concrete(k, selector, r)
    requires i < |Forced(r, b, s, newEpoch)| && |Forced(r, b, s, newEpoch)[i]| < TWO_64
    ensures |ForcedSources(r, b, s, newEpoch)| == |Forced(r, b, s, newEpoch)|
    ensures CarriesHash(Forced(r, b, s, newEpoch)[i], ForcedSources(r, b, s, newEpoch)[i].Hash(k))
  {
    ForcedLengths(k, selector, r, b, s, newEpoch);
    if i == 0 {
      InfoCarriesHash(k, selector, r, b, s);
    } else {
      UserDepositCarriesHash(k, selector, r, b, i - 1);
    }
  }

  /**
    On a chain that follows the rules, transaction i of block n is a deposit exactly when block n has a source i, and
    then carries its hash.
   */
  lemma DepositCarriesSource(k: Keccak, selector: Bytes, r: Rollup, t: Tree, tip: Hash, n: nat, i: nat)
    requires Concrete(k, selector, r)
    requires Ruled(r, t) && tip in t && r.G().number < n <= t[tip].number
    requires BlockAt(t, tip, n).Some? && i < |BlockAt(t, tip, n).value.txs|
    requires |BlockAt(t, tip, n).value.txs[i]| < TWO_64
    ensures RefAt(r, t, tip, n).l1Origin.hash in r.l1
    ensures var tx := BlockAt(t, tip, n).value.txs[i];
            var sources := BlockSources(r, t, tip, n);
            && (IsDeposit(tx) <==> i < |sources|)
            && (IsDeposit(tx) ==> CarriesHash(tx, sources[i].Hash(k)))
  {
    ChainTx(r, t, tip, n, i);
    var ref := RefAt(r, t, tip, n);
    var b, newEpoch := r.l1[ref.l1Origin.hash], ref.l1Origin.number != RefAt(r, t, tip, n - 1).l1Origin.number;
    ForcedLengths(k, selector, r, b, ref.sequenceNumber, newEpoch);
    if i < |ForcedAt(r, t, tip, n)| {
      ForcedCarriesSource(k, selector, r, b, ref.sequenceNumber, newEpoch, i);
    }
  }

  /**
    On a chain that follows the rules, the first transaction of every block is the L1 info deposit of its
    origin and sequence number, and every further deposit is what the log in its place asks for.
   */
  lemma DepositContentOnChain(k: Keccak, selector: Bytes, r: Rollup, t: Tree, tip: Hash, n: nat, i: nat)
    requires Concrete(k, selector, r)
    requires Ruled(r, t) && tip in t && r.G().number < n <= t[tip].number
    requires BlockAt(t, tip, n).Some? && i < |BlockAt(t, tip, n).value.txs|
    requires |BlockAt(t, tip, n).value.txs[i]| < TWO_64 && IsDeposit(BlockAt(t, tip, n).value.txs[i])
    ensures var tx, ref := BlockAt(t, tip, n).value.txs[i], RefAt(r, t, tip, n);
            && ref.l1Origin.hash in r.l1
            && var b := r.l1[ref.l1Origin.hash];
               if i == 0 then CarriesInfo(k, tx, b, ref.sequenceNumber)
               else
                 var logs := UserDepositLogs(r.cfg.depositContract, b.receipts);
                 i - 1 < |logs| && CarriesLog(k, tx, logs[i - 1])
  {
    ChainTx(r, t, tip, n, i);
    SequenceBounded(r, t, tip, n);
    var ref := RefAt(r, t, tip, n);
    var b := r.l1[ref.l1Origin.hash];
    if i == 0 {
      InfoDepositContent(k, selector, ref.sequenceNumber, b);
    } else {
      assert ForcedAt(r, t, tip, n)[i] == r.codec.deposits(b)[i - 1];
      assert r.codec.deposits(b) == UserDepositTxs(k, r.cfg.depositContract, b.receipts);
      DeriveDepositsContent(k, r.cfg.depositContract, b.receipts, i - 1);
    }
  }

  /**
    Any two different deposit transactions on one L2 chain have different source hashes, provided
    Keccak does not collide on the inputs hashed for these two.
   */
  lemma SourceHashesDistinct(k: Keccak, selector: Bytes, r: Rollup, t: Tree, tip: Hash, m: nat, i: nat, n: nat, j: nat)
    requires Concrete(k, selector, r)
    requires Ruled(r, t) && ReceiptsChecked(r) && tip in t
    requires r.G().number < m <= n <= t[tip].number && (m != n || i != j)
    requires BlockAt(t, tip, m).Some? && i < |BlockAt(t, tip, m).value.txs|
             && |BlockAt(t, tip, m).value.txs[i]| < TWO_64
    requires BlockAt(t, tip, n).Some? && j < |BlockAt(t, tip, n).value.txs|
             && |BlockAt(t, tip, n).value.txs[j]| < TWO_64
    requires IsDeposit(BlockAt(t, tip, m).value.txs[i]) && IsDeposit(BlockAt(t, tip, n).value.txs[j])
    requires NoCollision(k, r, t, tip, m, i, n, j)
    ensures var x, y := DecodeDeposit(BlockAt(t, tip, m).value.txs[i]), DecodeDeposit(BlockAt(t, tip, n).value.txs[j]);
            x.Some? && y.Some? && x.value.sourceHash != y.value.sourceHash
  {
    DepositCarriesSource(k, selector, r, t, tip, m, i);
    DepositCarriesSource(k, selector, r, t, tip, n, j);
    SourcesDistinct(r, t, tip, m, i, n, j);
    var a, b := BlockSources(r, t, tip, m)[i], BlockSources(r, t, tip, n)[j];
    SourceFits(r, t, tip, m, i);
    SourceFits(r, t, tip, n, j);
    assert HasSource(r, t, tip, m, i) && HasSource(r, t, tip, n, j);
    if a.Hash(k) == b.Hash(k) {
      SourceHashInjective(k, a, b);
      assert false;
    }
  }

  /** Block n has a source i. */
  predicate HasSource(r: Rollup, t: Tree, tip: Hash, n: nat, i: nat) {
    n > 0 && RefAt(r, t, tip, n).l1Origin.hash in r.l1 && i < |BlockSources(r, t, tip, n)|
  }

  /** Keccak does not collide on the inputs hashed for deposit i of block m and deposit j of block n. */
  ghost predicate NoCollision(k: Keccak, r: Rollup, t: Tree, tip: Hash, m: nat, i: nat, n: nat, j: nat) {
    HasSource(r, t, tip, m, i) && HasSource(r, t, tip, n, j) ==>
      var a, b := BlockSources(r, t, tip, m)[i], BlockSources(r, t, tip, n)[j];
      CollisionFree(k, {a.Inner(), b.Inner(), a.Outer(k), b.Outer(k)})
  }

  lemma SourceFits(r: Rollup, t: Tree, tip: Hash, n: nat, i: nat)
    requires Ruled(r, t) && ReceiptsChecked(r) && tip in t && r.G().number < n <= t[tip].number
    requires RefAt(r, t, tip, n).l1Origin.hash in r.l1 && i < |BlockSources(r, t, tip, n)|
    ensures BlockSources(r, t, tip, n)[i].Fits()
  {
    SequenceBounded(r, t, tip, n);
    if i > 0 {
      LogSourcesOf(r, RefAt(r, t, tip, n).l1Origin.hash, i - 1);
    }
  }
}
