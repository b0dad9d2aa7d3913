/**
  Deposit transactions derived from L1: source hashes and user deposits
  (op-node/rollup/derive/payload_attributes.go), and the receipt checks their log indices rest
  on (op-node/l1/receipts.go). Keccak-256 is an arbitrary function k.
 */
module Deposits {
  import opened Types
  import opened Numbers
  import opened Rlp
  import opened L1Info
  import opened Output
  import BatchCodec

  type Keccak = Bytes -> Hash

  // ----- Source hashes -----

  const USER_DEPOSIT_DOMAIN: nat := 0
  const L1_INFO_DOMAIN: nat := 1

  /** What a source hash identifies: a log of an L1 block, or an L2 block of the epoch of an L1 block. */
  datatype Source = Source(domain: nat, l1Hash: Hash, index: nat)
  {
    predicate Fits() {
      domain < TWO_64 && index < TWO_64
    }

    function Inner(): Bytes {
      BE(l1Hash, 32) + BE(index, 32)
    }

    function Outer(k: Keccak): Bytes {
      BE(domain, 32) + BE(k(Inner()), 32)
    }

    function Hash(k: Keccak): Hash {
      k(Outer(k))
    }
  }

  /** Keccak has no collision among the given inputs. */
  ghost predicate CollisionFree(k: Keccak, inputs: set<Bytes>) {
    forall x, y :: x in inputs && y in inputs && k(x) == k(y) ==> x == y
  }

  lemma {:induction false} BEInjective(a: nat, b: nat, w: nat)
    requires a < Pow256(w) && b < Pow256(w) && BE(a, w) == BE(b, w)
    ensures a == b
  {
    FromBERoundTrip(a, w);
    FromBERoundTrip(b, w);
  }

  lemma SameHalves(a: Bytes, b: Bytes, c: Bytes, d: Bytes)
    requires |a| == |c| && a + b == c + d
    ensures a == c && b == d
  {
    assert a == (a + b)[..|a|] && c == (c + d)[..|c|];
    assert b == (a + b)[|a|..] && d == (c + d)[|c|..];
  }

  /** Source hashes separate sources: domain, L1 block and index. */
  lemma SourceHashInjective(k: Keccak, a: Source, b: Source)
    requires a.Fits() && b.Fits()
    requires CollisionFree(k, {a.Inner(), b.Inner(), a.Outer(k), b.Outer(k)})
    requires a.Hash(k) == b.Hash(k)
    ensures a == b
  {
    Pow256Values();
    assert a.Outer(k) == b.Outer(k);
    SameHalves(BE(a.domain, 32), BE(k(a.Inner()), 32), BE(b.domain, 32), BE(k(b.Inner()), 32));
    BEInjective(a.domain, b.domain, 32);
    BEInjective(k(a.Inner()), k(b.Inner()), 32);
    assert a.Inner() == b.Inner();
    SameHalves(BE(a.l1Hash, 32), BE(a.index, 32), BE(b.l1Hash, 32), BE(b.index, 32));
    BEInjective(a.l1Hash, b.l1Hash, 32);
    BEInjective(a.index, b.index, 32);
  }

  // ----- Receipts -----

  /** All logs of a block, in order. */
  function AllLogs(receipts: seq<Receipt>): seq<Log> {
    if receipts == [] then [] else AllLogs(receipts[..|receipts| - 1]) + receipts[|receipts| - 1].logs
  }

  predicate LogOk(block: BlockID, txHash: Hash, i: nat, index: nat, log: Log) {
    && log.index == index
    && log.txIndex == i
    && log.blockHash == block.hash
    && log.blockNumber == block.number
    && log.txHash == txHash
    && !log.removed
  }

  /** Receipt i belongs to transaction i of the block, and its logs continue the block's log numbering. */
  predicate ReceiptOk(block: BlockID, txs: seq<L1Tx>, receipts: seq<Receipt>, i: nat)
    requires i < |receipts| == |txs|
  {
    var rec := receipts[i];
    && rec.txIndex == i && rec.blockNumber == block.number && rec.blockHash == block.hash
    && forall j :: 0 <= j < |rec.logs| ==> LogOk(block, txs[i].hash, i, |AllLogs(receipts[..i])| + j, rec.logs[j])
  }

  predicate ReceiptsOk(block: BlockID, txs: seq<L1Tx>, receipts: seq<Receipt>) {
    |receipts| == |txs| && forall i :: 0 <= i < |receipts| ==> ReceiptOk(block, txs, receipts, i)
  }

  /** The receipts that were retrieved; None when one is missing. */
  function Retrieved(receipts: seq<Option<Receipt>>): Option<seq<Receipt>> {
    if exists i :: 0 <= i < |receipts| && receipts[i].None? then None
    else Some(seq(|receipts|, i requires 0 <= i < |receipts| => OrNothing(receipts[i])))
  }

  /** The receipt, or one without logs. */
  function OrNothing(receipt: Option<Receipt>): Receipt {
    if receipt.Some? then receipt.value else Receipt(false, 0, 0, 0, [])
  }

  /** The consistency loop of fetchReceipts over the answers, one per transaction; a receipt may have disappeared. */
  method CheckReceipts(block: BlockID, txs: seq<L1Tx>, answers: seq<Option<Receipt>>) returns (ok: bool)
    requires |answers| == |txs|
    ensures ok <==> Retrieved(answers).Some? && ReceiptsOk(block, txs, Retrieved(answers).value)
  {
    ghost var receipts := seq(|answers|, i requires 0 <= i < |answers| => OrNothing(answers[i]));
    var logIndex := 0;
    for i := 0 to |answers|
      invariant logIndex == |AllLogs(receipts[..i])|
      invariant forall n :: 0 <= n < i ==> answers[n].Some? && ReceiptOk(block, txs, receipts, n)
    {
      if answers[i].None? {
        return false;
      }
      var rec := answers[i].value;
      assert receipts[..i + 1][..i] == receipts[..i];
      if rec.txIndex != i || rec.blockNumber != block.number || rec.blockHash != block.hash {
        assert !ReceiptOk(block, txs, receipts, i);
        return false;
      }
      for j := 0 to |rec.logs|
        invariant logIndex == |AllLogs(receipts[..i])| + j
        invariant forall n :: 0 <= n < j ==> LogOk(block, txs[i].hash, i, |AllLogs(receipts[..i])| + n, rec.logs[n])
      {
        if !LogOk(block, txs[i].hash, i, logIndex, rec.logs[j]) {
          assert !ReceiptOk(block, txs, receipts, i);
          return false;
        }
        logIndex := logIndex + 1;
      }
    }
    return true;
  }

  /** Accepted receipts number the logs of the block 0, 1, 2, ... and all name the block. */
  lemma {:induction false} LogsNumbered(block: BlockID, txs: seq<L1Tx>, receipts: seq<Receipt>, n: nat)
    requires ReceiptsOk(block, txs, receipts) && n < |AllLogs(receipts)|
    ensures AllLogs(receipts)[n].index == n && AllLogs(receipts)[n].blockHash == block.hash
    decreases |receipts|
  {
    var i := |receipts| - 1;
    var init := receipts[..i];
    assert ReceiptOk(block, txs, receipts, i);
    if n < |AllLogs(init)| {
      forall m | 0 <= m < i ensures ReceiptOk(block, txs[..i], init, m) {
        assert ReceiptOk(block, txs, receipts, m);
        assert init[..m] == receipts[..m];
      }
      LogsNumbered(block, txs[..i], init, n);
    }
  }

  // ----- User deposits -----

  predicate IsUserDeposit(contract: Address, log: Log) {
    log.address == contract && log.isDepositEvent && log.body.Some?
  }

  /** The deposit logs among the first n logs of a successful receipt. */
  function DepositLogs(contract: Address, logs: seq<Log>): seq<Log> {
    if logs == [] then []
    else
      var init := DepositLogs(contract, logs[..|logs| - 1]);
      if IsUserDeposit(contract, logs[|logs| - 1]) then init + [logs[|logs| - 1]] else init
  }

  function UserDepositLogs(contract: Address, receipts: seq<Receipt>): seq<Log> {
    if receipts == [] then []
    else
      var last := receipts[|receipts| - 1];
      UserDepositLogs(contract, receipts[..|receipts| - 1])
      + if last.successful then DepositLogs(contract, last.logs) else []
  }

  function LogSource(log: Log): Source {
    Source(USER_DEPOSIT_DOMAIN, log.blockHash, log.index)
  }

  function LogDeposit(k: Keccak, log: Log): Deposit
    requires log.body.Some?
  {
    var b := log.body.value;
    Deposit(LogSource(log).Hash(k), b.from, b.to, b.mint, b.value, b.gas, b.data)
  }

  lemma {:induction false} DepositLogsQualify(contract: Address, logs: seq<Log>)
    ensures forall log :: log in DepositLogs(contract, logs) ==> IsUserDeposit(contract, log) && log in logs
  {
    if logs != [] {
      DepositLogsQualify(contract, logs[..|logs| - 1]);
    }
  }

  lemma {:induction false} UserDepositLogsQualify(contract: Address, receipts: seq<Receipt>)
    ensures forall log :: log in UserDepositLogs(contract, receipts) ==>
            IsUserDeposit(contract, log) && log in AllLogs(receipts)
  {
    if receipts != [] {
      UserDepositLogsQualify(contract, receipts[..|receipts| - 1]);
      DepositLogsQualify(contract, receipts[|receipts| - 1].logs);
    }
  }

  /** The encoded deposit of a log; a log that does not qualify has none. */
  function LogTx(k: Keccak, log: Log): Bytes {
    if log.body.Some? then EncodeDeposit(LogDeposit(k, log)) else []
  }

  function MapLogs(f: Log -> Bytes, logs: seq<Log>): seq<Bytes> {
    seq(|logs|, i requires 0 <= i < |logs| => f(logs[i]))
  }

  /** UserDeposits and DeriveDeposits: the encoded deposit of every qualifying log. */
  function UserDepositTxs(k: Keccak, contract: Address, receipts: seq<Receipt>): seq<Bytes> {
    MapLogs((log: Log) => LogTx(k, log), UserDepositLogs(contract, receipts))
  }

  /** UserDeposits: the two nested loops over receipts and logs. */
  method UserDeposits(contract: Address, receipts: seq<Receipt>) returns (out: seq<Log>)
    ensures out == UserDepositLogs(contract, receipts)
  {
    out := [];
    for i := 0 to |receipts|
      invariant out == UserDepositLogs(contract, receipts[..i])
    {
      assert receipts[..i + 1][..i] == receipts[..i];
      if !receipts[i].successful {
        continue;
      }
      var logs := receipts[i].logs;
      ghost var before := out;
      for j := 0 to |logs|
        invariant out == before + DepositLogs(contract, logs[..j])
      {
        assert logs[..j + 1][..j] == logs[..j];
        if IsUserDeposit(contract, logs[j]) {
          out := out + [logs[j]];
        }
      }
      assert logs[..|logs|] == logs;
    }
    assert receipts[..|receipts|] == receipts;
  }

  method DeriveDeposits(k: Keccak, contract: Address, receipts: seq<Receipt>) returns (txs: seq<Bytes>)
    ensures txs == UserDepositTxs(k, contract, receipts)
    ensures |txs| == |UserDepositLogs(contract, receipts)|
    ensures forall i :: 0 <= i < |txs| && |txs[i]| < TWO_64 ==>
              CarriesLog(k, txs[i], UserDepositLogs(contract, receipts)[i])
  {
    var out := UserDeposits(contract, receipts);
    txs := EncodeLogs((log: Log) => LogTx(k, log), out);
    forall i | 0 <= i < |txs| && |txs[i]| < TWO_64
      ensures CarriesLog(k, txs[i], UserDepositLogs(contract, receipts)[i])
    {
      DeriveDepositsContent(k, contract, receipts, i);
    }
  }

  /** The encoding loop of DeriveDeposits. */
  method EncodeLogs(f: Log -> Bytes, logs: seq<Log>) returns (txs: seq<Bytes>)
    ensures txs == MapLogs(f, logs)
  {
    txs := [];
    for i := 0 to |logs|
      invariant |txs| == i
      invariant forall n :: 0 <= n < i ==> txs[n] == f(logs[n])
    {
      txs := txs + [f(logs[i])];
    }
  }

  /** log is log j of the successful receipt i, a deposit event of the contract whose data decodes. */
  predicate QualifiesAt(contract: Address, receipts: seq<Receipt>, log: Log, i: nat, j: nat) {
    && i < |receipts| && receipts[i].successful
    && j < |receipts[i].logs| && receipts[i].logs[j] == log
    && log.address == contract && log.isDepositEvent && log.body.Some?
  }

  lemma {:induction false} DepositLogsExact(contract: Address, logs: seq<Log>, log: Log)
    ensures log in DepositLogs(contract, logs) <==>
              exists j: nat :: j < |logs| && logs[j] == log && log.address == contract && log.isDepositEvent
                && log.body.Some?
  {
    if logs != [] {
      var n := |logs| - 1;
      DepositLogsExact(contract, logs[..n], log);
      assert forall j :: 0 <= j < n ==> logs[..n][j] == logs[j];
    }
  }

  /** A log qualifies in all receipts but the last, or in the last. */
  lemma QualifiesSplit(contract: Address, receipts: seq<Receipt>, log: Log)
    requires receipts != []
    ensures var n := |receipts| - 1;
            (exists i: nat, j: nat :: QualifiesAt(contract, receipts, log, i, j)) <==>
              || (exists i: nat, j: nat :: QualifiesAt(contract, receipts[..n], log, i, j))
              || (&& receipts[n].successful
                  && exists j: nat ::
                       j < |receipts[n].logs| && receipts[n].logs[j] == log && log.address == contract
                       && log.isDepositEvent && log.body.Some?)
  {
    var n := |receipts| - 1;
    if i: nat, j: nat :| QualifiesAt(contract, receipts, log, i, j) {
      assert i < n ==> QualifiesAt(contract, receipts[..n], log, i, j);
    }
    if i: nat, j: nat :| QualifiesAt(contract, receipts[..n], log, i, j) {
      assert QualifiesAt(contract, receipts, log, i, j);
    }
    forall j: nat | j < |receipts[n].logs| && receipts[n].logs[j] == log
      ensures QualifiesAt(contract, receipts, log, n, j) <==>
              receipts[n].successful && log.address == contract && log.isDepositEvent && log.body.Some?
    {
    }
  }

  /** Exactly the qualifying logs of successful receipts become user deposits. */
  lemma {:induction false} UserDepositLogsExact(contract: Address, receipts: seq<Receipt>, log: Log)
    ensures log in UserDepositLogs(contract, receipts) <==>
              exists i: nat, j: nat :: QualifiesAt(contract, receipts, log, i, j)
  {
    if receipts != [] {
      var n := |receipts| - 1;
      UserDepositLogsExact(contract, receipts[..n], log);
      DepositLogsExact(contract, receipts[n].logs, log);
      QualifiesSplit(contract, receipts, log);
    }
  }

  /** tx is the deposit that the event of the log asks for, with the source hash of specs/deposits.md. */
  predicate CarriesLog(k: Keccak, tx: Bytes, log: Log) {
    && log.body.Some?
    && var body := log.body.value;
       match DecodeDeposit(tx)
       case None => false
       case Some(d) =>
         && d.from == body.from && d.to == body.to && d.mint == body.mint && d.value == body.value
         && d.gas == body.gas && d.data == body.data
         && d.sourceHash == k(BE(0, 32) + BE(k(BE(log.blockHash, 32) + BE(log.index, 32)), 32))
  }

  /** The i-th deposit transaction is what the i-th qualifying log asks for. */
  lemma DeriveDepositsContent(k: Keccak, contract: Address, receipts: seq<Receipt>, i: nat)
    requires i < |UserDepositTxs(k, contract, receipts)| && |UserDepositTxs(k, contract, receipts)[i]| < TWO_64
    ensures |UserDepositLogs(contract, receipts)| == |UserDepositTxs(k, contract, receipts)|
    ensures CarriesLog(k, UserDepositTxs(k, contract, receipts)[i], UserDepositLogs(contract, receipts)[i])
  {
    var logs := UserDepositLogs(contract, receipts);
    UserDepositLogsQualify(contract, receipts);
    assert logs[i] in logs;
    DepositRoundTrip(LogDeposit(k, logs[i]));
  }

  /** In accepted receipts the deposit logs come with strictly increasing indices. */
  ghost predicate Increasing(logs: seq<Log>) {
    forall i, j :: 0 <= i < j < |logs| ==> logs[i].index < logs[j].index
  }

  lemma {:induction false} DepositLogsIncreasing(contract: Address, logs: seq<Log>)
    requires Increasing(logs)
    ensures Increasing(DepositLogs(contract, logs))
  {
    if logs != [] {
      var init := logs[..|logs| - 1];
      DepositLogsIncreasing(contract, init);
      DepositLogsQualify(contract, init);
      var kept := DepositLogs(contract, init);
      assert forall i :: 0 <= i < |kept| ==> kept[i] in kept;
    }
  }

  lemma {:induction false} UserDepositLogsIncreasing(contract: Address, receipts: seq<Receipt>)
    requires Increasing(AllLogs(receipts))
    ensures Increasing(UserDepositLogs(contract, receipts))
  {
    if receipts != [] {
      var init, last := receipts[..|receipts| - 1], receipts[|receipts| - 1];
      var a, b := AllLogs(init), last.logs;
      assert AllLogs(receipts) == a + b;
      assert forall i :: 0 <= i < |a| ==> (a + b)[i] == a[i];
      assert forall i :: 0 <= i < |b| ==> (a + b)[|a| + i] == b[i];
      UserDepositLogsIncreasing(contract, init);
      UserDepositLogsQualify(contract, init);
      DepositLogsIncreasing(contract, b);
      DepositLogsQualify(contract, b);
      JoinIncreasing(UserDepositLogs(contract, init), DepositLogs(contract, b), a, b);
    }
  }

  /** Parts of two stretches of an increasing list, one behind the other, increase. */
  lemma JoinIncreasing(x: seq<Log>, y: seq<Log>, a: seq<Log>, b: seq<Log>)
    requires Increasing(x) && Increasing(y) && Increasing(a + b)
    requires (forall log :: log in x ==> log in a) && (forall log :: log in y ==> log in b)
    ensures Increasing(x + y)
  {
    forall i, j | 0 <= i < |x| && 0 <= j < |y| ensures x[i].index < y[j].index {
      assert x[i] in x && y[j] in y;
      var m :| 0 <= m < |a| && a[m] == x[i];
      var n :| 0 <= n < |b| && b[n] == y[j];
      assert (a + b)[m].index < (a + b)[|a| + n].index;
    }
  }

  // ----- The L1 info transaction and the concrete encodings -----

  /** 0xdeaddeaddeaddeaddeaddeaddeaddeaddead0001 */
  const L1_INFO_DEPOSITER: Address := 0xdeaddeaddeaddeaddeaddeaddeaddeaddead0001
  /** 0x4200000000000000000000000000000000000015 */
  const L1_INFO_PREDEPLOY: Address := 0x4200000000000000000000000000000000000015
  const L1_INFO_GAS: uint64 := 99_999_999

  function InfoSource(b: L1Block, s: nat): Source {
    Source(L1_INFO_DOMAIN, b.hash, s)
  }

  /** L1InfoDeposit */
  function InfoDeposit(k: Keccak, selector: Bytes, s: nat, b: L1Block): Deposit
    requires |selector| == 4
  {
    var data := EncodeInfo(selector, L1BlockInfo(b.number, b.time, b.baseFee, b.hash, s));
    Deposit(InfoSource(b, s).Hash(k), L1_INFO_DEPOSITER, Some(L1_INFO_PREDEPLOY), 0, 0, L1_INFO_GAS, data)
  }

  /** tx is the L1 info deposit of L1 block b and sequence number s, as specs/deposits.md lays it out. */
  predicate CarriesInfo(k: Keccak, tx: Bytes, b: L1Block, s: nat) {
    match DecodeDeposit(tx)
    case None => false
    case Some(d) =>
      && d.from == 0xdeaddeaddeaddeaddeaddeaddeaddeaddead0001
      && d.to == Some(0x4200000000000000000000000000000000000015)
      && d.mint == 0 && d.value == 0 && d.gas == 99_999_999
      && DecodeInfo(d.data) == Some(L1BlockInfo(b.number, b.time, b.baseFee, b.hash, s))
      && d.sourceHash == k(BE(1, 32) + BE(k(BE(b.hash, 32) + BE(s, 32)), 32))
  }

  lemma InfoDepositContent(k: Keccak, selector: Bytes, s: nat, b: L1Block)
    requires |selector| == 4 && s < TWO_64
    ensures CarriesInfo(k, EncodeDeposit(InfoDeposit(k, selector, s, b)), b, s)
  {
    var d := InfoDeposit(k, selector, s, b);
    InfoDepositSize(d);
    DepositRoundTrip(d);
    InfoRoundTrip(selector, L1BlockInfo(b.number, b.time, b.baseFee, b.hash, s));
  }

  /** The L1 origin and sequence number read from a block's first transaction. */
  function OriginFromTx(tx: Bytes): Option<(BlockID, nat)> {
    match DecodeDeposit(tx)
    case None => None
    case Some(d) =>
      match DecodeInfo(d.data)
      case None => None
      case Some(i) => Some((BlockID(i.blockHash, i.number), i.sequenceNumber))
  }

  function ConcreteCodec(k: Keccak, selector: Bytes, contract: Address): Codec
    requires |selector| == 4
  {
    Codec(
      (s: nat, b: L1Block) => EncodeDeposit(InfoDeposit(k, selector, s, b)),
      (b: L1Block) => UserDepositTxs(k, contract, b.receipts),
      OriginFromTx,
      BatchCodec.DecodeBatches)
  }

  lemma HeaderBound(base: byte, n: nat)
    requires n < TWO_64
    ensures |Header(base, n)| <= 9
  {
    HeaderShort(n);
  }

  /** The info transaction is small: its seven fields have bounded sizes. */
  lemma InfoDepositSize(d: Deposit)
    requires |d.data| == INFO_SIZE
    ensures |EncodeDeposit(d)| < TWO_64
  {
    IntFields(d);
    var f := DepositFields(d);
    assert forall i :: 0 <= i < 7 ==> |f[i]| <= INFO_SIZE;
    forall i | 0 <= i < 7 ensures |EncodeString(f[i])| <= 200 {
      HeaderBound(0x80, |f[i]|);
    }
    StringsSize(f);
    HeaderBound(0xc0, |EncodeStrings(f)|);
  }

  lemma {:induction false} StringsSize(ss: seq<Bytes>)
    requires forall i :: 0 <= i < |ss| ==> |EncodeString(ss[i])| <= 200
    ensures |EncodeStrings(ss)| <= 200 * |ss|
  {
    if ss != [] {
      var rest := ss[1..];
      assert forall i :: 0 <= i < |rest| ==> rest[i] == ss[i + 1];
      StringsSize(rest);
    }
  }

  lemma DepositsAreDeposits(k: Keccak, contract: Address, receipts: seq<Receipt>, tx: Bytes)
    requires tx in UserDepositTxs(k, contract, receipts)
    ensures IsDeposit(tx)
  {
    var logs := UserDepositLogs(contract, receipts);
    UserDepositLogsQualify(contract, receipts);
    var i :| 0 <= i < |logs| && tx == LogTx(k, logs[i]);
    assert logs[i] in logs;
  }

  lemma InfoIsReadBack(k: Keccak, selector: Bytes, s: nat, b: L1Block)
    requires |selector| == 4 && s < TWO_64
    ensures var tx := EncodeDeposit(InfoDeposit(k, selector, s, b));
            IsDeposit(tx) && OriginFromTx(tx) == Some((b.ID(), s))
  {
    var d := InfoDeposit(k, selector, s, b);
    InfoDepositSize(d);
    DepositRoundTrip(d);
    InfoRoundTrip(selector, L1BlockInfo(b.number, b.time, b.baseFee, b.hash, s));
  }

  lemma DecodedTimesFit(d: Bytes, b: Batch)
    requires BatchCodec.DecodeBatches(d).Some? && b in BatchCodec.DecodeBatches(d).value
    ensures b.timestamp < TWO_64
  {
    BatchCodec.BundleCanonical(d);
  }

  /** The concrete encodings are sound: the origin and sequence number of every block are read back from it. */
  lemma ConcreteCodecSound(k: Keccak, selector: Bytes, contract: Address)
    requires |selector| == 4
    ensures ConcreteCodec(k, selector, contract).Sound()
  {
    var c := ConcreteCodec(k, selector, contract);
    forall s: nat, b: L1Block | s < TWO_64
      ensures IsDeposit(c.info(s, b)) && c.origin(c.info(s, b)) == Some((b.ID(), s))
    {
      InfoIsReadBack(k, selector, s, b);
    }
    forall b: L1Block, tx: Bytes | tx in c.deposits(b) ensures IsDeposit(tx) {
      DepositsAreDeposits(k, contract, b.receipts, tx);
    }
    forall d: Bytes, b: Batch | c.decode(d).Some? && b in c.decode(d).value ensures b.timestamp < TWO_64 {
      DecodedTimesFit(d, b);
    }
  }
}
