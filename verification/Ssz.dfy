/**
  op-node/l2/ssz.go: the hand-written SSZ encoding of an execution payload, a fixed part with two
  offsets, then the extra data and the transaction list.
 */
module Ssz {
  import opened Types
  import opened Numbers
  import opened Buffers

  const FIXED_PART: nat := 508
  const MAX_TRANSACTIONS: nat := 0x10_0000
  const MAX_EXTRA_DATA: nat := 32

  /** A 256-bit number as four 64-bit limbs, least significant first. */
  datatype Limbs = Limbs(z0: uint64, z1: uint64, z2: uint64, z3: uint64)

  /** l2.ExecutionPayload; the byte arrays have the lengths of Fits. */
  datatype ExecutionPayload = ExecutionPayload(
    parentHash: Bytes, feeRecipient: Bytes, stateRoot: Bytes, receiptsRoot: Bytes, logsBloom: Bytes, prevRandao: Bytes,
    blockNumber: uint64, gasLimit: uint64, gasUsed: uint64, timestamp: uint64,
    baseFeePerGas: Limbs, blockHash: Bytes, extraData: Bytes, transactions: seq<Bytes>)
  {
    predicate Fits() {
      && |parentHash| == 32 && |feeRecipient| == 20 && |stateRoot| == 32 && |receiptsRoot| == 32
      && |logsBloom| == 256 && |prevRandao| == 32 && |blockHash| == 32
    }
  }

  /** What a decoding step ends with: a value, an error, or a panic of the runtime. */
  datatype Checked<+T> = Value(value: T) | Rejected | Panics
  {
    predicate IsFailure() {
      !Value?
    }

    function PropagateFailure<U>(): Checked<U> {
      if Panics? then Panics else Rejected
    }

    function Extract(): T
      requires !IsFailure()
    {
      value
    }
  }

  /** A slice expression of Go: it panics unless its bounds are in order and within the slice. */
  function Slice(d: Bytes, lo: int, hi: int): (r: Checked<Bytes>)
    ensures r.Value? ==> |r.value| == hi - lo
  {
    if 0 <= lo <= hi <= |d| then Value(d[lo..hi]) else Panics
  }

  // ----- The transaction list -----

  function Flat(ss: seq<Bytes>): Bytes {
    if ss == [] then [] else ss[0] + Flat(ss[1..])
  }

  /** The offset of each transaction, the first one starting at the given offset. */
  function Offsets(txs: seq<Bytes>, start: nat): (d: Bytes)
    ensures |d| == 4 * |txs|
  {
    if txs == [] then [] else LE(start, 4) + Offsets(txs[1..], start + |txs[0]|)
  }

  function EncodeTxs(txs: seq<Bytes>): (d: Bytes)
    ensures |d| == 4 * |txs| + |Flat(txs)|
  {
    Offsets(txs, 4 * |txs|) + Flat(txs)
  }

  /** Transactions i and up, the first of them at the given offset. */
  function ReadTxs(d: Bytes, count: nat, i: nat, current: nat): Option<seq<Bytes>>
    requires i <= count && 4 * count <= |d|
    decreases count - i
  {
    if i == count then Some([])
    else
      var next := if i + 1 < count then FromLE(d[4 * (i + 1)..4 * (i + 2)]) else |d|;
      if next < current || next > |d| then None
      else
        match ReadTxs(d, count, i + 1, next)
        case None => None
        case Some(rest) => Some([d[current..next]] + rest)
  }

  function DecodeTxs(d: Bytes): Option<seq<Bytes>> {
    if d == [] then Some([])
    else if |d| < 4 then None
    else
      var first := FromLE(d[..4]);
      if first % 4 != 0 || first > |d| || first / 4 > MAX_TRANSACTIONS then None
      else ReadTxs(d, first / 4, 0, first)
  }

  lemma LE4(n: nat)
    requires n < TWO_32
    ensures FromLE(LE(n, 4)) == n
  {
    Pow256Values();
    FromLERoundTrip(n, 4);
  }

  lemma {:induction false} ReadTxsRoundTrip(d: Bytes, count: nat, i: nat, current: nat, txs: seq<Bytes>)
    requires i <= count && 4 * count <= current <= |d| < TWO_32 && |txs| == count - i
    requires d[4 * i..4 * count] == Offsets(txs, current) && d[current..] == Flat(txs)
    ensures ReadTxs(d, count, i, current) == Some(txs)
    decreases count - i
  {
    if i < count {
      var tx, rest, next := txs[0], txs[1..], current + |txs[0]|;
      assert d[next..] == d[current..][|tx|..] == Flat(rest);
      assert d[current..next] == d[current..][..|tx|] == tx;
      assert d[4 * (i + 1)..4 * count] == d[4 * i..4 * count][4..] == Offsets(rest, next);
      if i + 1 < count {
        assert d[4 * (i + 1)..4 * (i + 2)] == d[4 * (i + 1)..4 * count][..4] == LE(next, 4);
        LE4(next);
      } else {
        assert rest == [];
      }
      ReadTxsRoundTrip(d, count, i + 1, next, rest);
      assert [tx] + rest == txs;
    }
  }

  lemma FirstOffset(txs: seq<Bytes>)
    requires txs != [] && 4 * |txs| < TWO_32
    ensures |EncodeTxs(txs)| >= 4 && FromLE(EncodeTxs(txs)[..4]) == 4 * |txs|
  {
    assert EncodeTxs(txs)[..4] == LE(4 * |txs|, 4);
    LE4(4 * |txs|);
  }

  /** A list round-trips exactly when it is not longer than the limit. */
  lemma TxsRoundTrip(txs: seq<Bytes>)
    requires |EncodeTxs(txs)| < TWO_32
    ensures |txs| <= MAX_TRANSACTIONS ==> DecodeTxs(EncodeTxs(txs)) == Some(txs)
    ensures |txs| > MAX_TRANSACTIONS ==> DecodeTxs(EncodeTxs(txs)) == None
  {
    var d, n := EncodeTxs(txs), |txs|;
    if n > 0 {
      FirstOffset(txs);
      if n <= MAX_TRANSACTIONS {
        assert d[4 * 0..4 * n] == Offsets(txs, 4 * n) && d[4 * n..] == Flat(txs);
        ReadTxsRoundTrip(d, n, 0, 4 * n, txs);
      }
    }
  }

  /** What is read are the bytes of the section, and the offsets are the ones an encoder writes. */
  lemma {:induction false} ReadTxsCanonical(d: Bytes, count: nat, i: nat, current: nat, txs: seq<Bytes>)
    requires i < count && 4 * count <= |d| && current <= |d|
    requires ReadTxs(d, count, i, current) == Some(txs)
    ensures |txs| == count - i
    ensures Flat(txs) == d[current..]
    ensures Offsets(txs, current) == LE(current, 4) + d[4 * (i + 1)..4 * count]
    decreases count - i
  {
    var next := if i + 1 < count then FromLE(d[4 * (i + 1)..4 * (i + 2)]) else |d|;
    var rest := ReadTxs(d, count, i + 1, next).value;
    assert txs == [d[current..next]] + rest;
    assert txs[1..] == rest;
    assert d[current..] == d[current..next] + d[next..];
    if i + 1 < count {
      ReadTxsCanonical(d, count, i + 1, next, rest);
      LERoundTrip(d[4 * (i + 1)..4 * (i + 2)]);
      assert d[4 * (i + 1)..4 * count] == d[4 * (i + 1)..4 * (i + 2)] + d[4 * (i + 2)..4 * count];
    }
  }

  /** An accepted section is the encoding of what it is read as, unless its first offset is zero. */
  lemma TxsCanonical(d: Bytes)
    requires DecodeTxs(d).Some?
    ensures EncodeTxs(DecodeTxs(d).value) == d <==> d == [] || FromLE(d[..4]) != 0
  {
    if d != [] {
      var first, txs := FromLE(d[..4]), DecodeTxs(d).value;
      if first != 0 {
        ReadTxsCanonical(d, first / 4, 0, first, txs);
        LERoundTrip(d[..4]);
        assert d == d[..4] + d[4..first] + d[first..];
      }
    }
  }

  // ----- The whole payload -----

  /** The fields up to prevRandao. */
  function HeadPart(p: ExecutionPayload): Bytes {
    p.parentHash + p.feeRecipient + p.stateRoot + p.receiptsRoot + p.logsBloom + p.prevRandao
  }

  /** Four 64-bit numbers. */
  function Quad(a: nat, b: nat, c: nat, d: nat): (q: Bytes)
    ensures |q| == 32
  {
    LE(a, 8) + LE(b, 8) + LE(c, 8) + LE(d, 8)
  }

  function NumbersPart(p: ExecutionPayload): Bytes {
    Quad(p.blockNumber, p.gasLimit, p.gasUsed, p.timestamp)
  }

  function LimbsPart(z: Limbs): Bytes {
    Quad(z.z0, z.z1, z.z2, z.z3)
  }

  /** The two offsets with the base fee and the block hash between them. */
  function TailPart(p: ExecutionPayload): Bytes {
    LE(FIXED_PART, 4) + LimbsPart(p.baseFeePerGas) + p.blockHash + LE(FIXED_PART + |p.extraData|, 4)
  }

  function FixedPart(p: ExecutionPayload): (d: Bytes)
    requires p.Fits()
    ensures |d| == FIXED_PART
  {
    HeadPart(p) + NumbersPart(p) + TailPart(p)
  }

  /** MarshalSSZ */
  function Encode(p: ExecutionPayload): (d: Bytes)
    requires p.Fits()
    ensures |d| == Size(p)
  {
    FixedPart(p) + p.extraData + EncodeTxs(p.transactions)
  }

  /** The length SizeSSZ computes, before it is cut to 32 bits. */
  function Size(p: ExecutionPayload): nat {
    FIXED_PART + |p.extraData| + 4 * |p.transactions| + |Flat(p.transactions)|
  }

  function ReadUint64(d: Bytes): (n: uint64)
    requires |d| == 8
  {
    LERoundTrip(d);
    Pow256Values();
    FromLE(d)
  }

  function ReadLimbs(d: Bytes): Limbs
    requires |d| == 32
  {
    Limbs(ReadUint64(d[..8]), ReadUint64(d[8..16]), ReadUint64(d[16..24]), ReadUint64(d[24..]))
  }

  function ReadPayload(d: Bytes, extraData: Bytes, txs: seq<Bytes>): (p: ExecutionPayload)
    requires |d| >= FIXED_PART
    ensures p.Fits()
  {
    ExecutionPayload(
      d[..32], d[32..52], d[52..84], d[84..116], d[116..372], d[372..404],
      ReadUint64(d[404..412]), ReadUint64(d[412..420]), ReadUint64(d[420..428]), ReadUint64(d[428..436]),
      ReadLimbs(d[440..472]), d[472..504], extraData, txs)
  }

  function ExtraOffset(d: Bytes): nat
    requires |d| >= FIXED_PART
  {
    FromLE(d[436..440])
  }

  function TxsOffset(d: Bytes): nat
    requires |d| >= FIXED_PART
  {
    FromLE(d[504..508])
  }

  /** What UnmarshalSSZ makes of an input. */
  function Decode(d: Bytes): Checked<ExecutionPayload> {
    if |d| < FIXED_PART then Rejected
    else if ExtraOffset(d) != FIXED_PART then Rejected
    else if TxsOffset(d) > FIXED_PART + MAX_EXTRA_DATA || TxsOffset(d) > |d| then Rejected
    else if TxsOffset(d) < FIXED_PART then Panics
    else
      match DecodeTxs(d[TxsOffset(d)..])
      case None => Rejected
      case Some(txs) => Value(ReadPayload(d, d[FIXED_PART..TxsOffset(d)], txs))
  }

  // ----- The decoder with its slices -----

  function ReadOffset(d: Bytes, at: int): Checked<nat> {
    var bs :- Slice(d, at, at + 4);
    Value(FromLE(bs))
  }

  function ReadNumber(d: Bytes, at: int): Checked<uint64> {
    var bs :- Slice(d, at, at + 8);
    Value(ReadUint64(bs))
  }

  /** The loop of unmarshalTransactions. */
  function UnmarshalLoop(d: Bytes, count: nat, i: nat, offset: nat, current: nat): Checked<seq<Bytes>>
    requires i <= count
    decreases count - i
  {
    if i == count then Value([])
    else
      var next :- if i + 1 < count then ReadOffset(d, offset) else Value(|d|);
      if next < current || next > |d| then Rejected
      else
        var tx :- Slice(d, current, next);
        var rest :- UnmarshalLoop(d, count, i + 1, offset + 4, next);
        Value([tx] + rest)
  }

  /** unmarshalTransactions */
  function UnmarshalTxs(d: Bytes): Checked<seq<Bytes>> {
    if |d| == 0 then Value([])
    else if |d| < 4 then Rejected
    else
      var first :- ReadOffset(d, 0);
      if first % 4 != 0 || first > |d| || first / 4 > MAX_TRANSACTIONS then Rejected
      else UnmarshalLoop(d, first / 4, 0, 4, first)
  }

  /** The fields up to the offset of the extra data. */
  function UnmarshalHead(d: Bytes): Checked<ExecutionPayload> {
    var parentHash :- Slice(d, 0, 32);
    var feeRecipient :- Slice(d, 32, 52);
    var stateRoot :- Slice(d, 52, 84);
    var receiptsRoot :- Slice(d, 84, 116);
    var logsBloom :- Slice(d, 116, 372);
    var prevRandao :- Slice(d, 372, 404);
    var blockNumber :- ReadNumber(d, 404);
    var gasLimit :- ReadNumber(d, 412);
    var gasUsed :- ReadNumber(d, 420);
    var timestamp :- ReadNumber(d, 428);
    Value(ExecutionPayload(parentHash, feeRecipient, stateRoot, receiptsRoot, logsBloom, prevRandao,
                           blockNumber, gasLimit, gasUsed, timestamp, Limbs(0, 0, 0, 0), [], [], []))
  }

  /** UnmarshalSSZ with every one of its slices. */
  function Unmarshal(d: Bytes): Checked<ExecutionPayload> {
    if |d| < FIXED_PART then Rejected
    else
      var p :- UnmarshalHead(d);
      var extraDataOffset :- ReadOffset(d, 436);
      if extraDataOffset != FIXED_PART then Rejected
      else
        var baseFee :- Slice(d, 440, 472);
        var blockHash :- Slice(d, 472, 504);
        var transactionsOffset :- ReadOffset(d, 504);
        if transactionsOffset > extraDataOffset + MAX_EXTRA_DATA || transactionsOffset > |d| then Rejected
        else
          var extraData :- Slice(d, extraDataOffset, transactionsOffset);
          var section :- Slice(d, transactionsOffset, |d|);
          var txs :- UnmarshalTxs(section);
          Value(p.(baseFeePerGas := ReadLimbs(baseFee), blockHash := blockHash, extraData := extraData,
            transactions := txs))
  }

  function FromOption<T>(o: Option<T>): Checked<T> {
    if o.None? then Rejected else Value(o.value)
  }

  /** No slice of the transaction loop can fail. */
  lemma {:induction false} UnmarshalLoopIsRead(d: Bytes, count: nat, i: nat, current: nat)
    requires i <= count && 4 * count <= |d| && current <= |d|
    ensures UnmarshalLoop(d, count, i, 4 * (i + 1), current) == FromOption(ReadTxs(d, count, i, current))
    decreases count - i
  {
    if i < count {
      var next := if i + 1 < count then FromLE(d[4 * (i + 1)..4 * (i + 2)]) else |d|;
      if current <= next <= |d| {
        UnmarshalLoopIsRead(d, count, i + 1, next);
      }
    }
  }

  lemma UnmarshalTxsIsDecode(d: Bytes)
    ensures UnmarshalTxs(d) == FromOption(DecodeTxs(d))
  {
    if |d| >= 4 {
      var first := FromLE(d[..4]);
      assert d[0..4] == d[..4];
      if first % 4 == 0 && first <= |d| {
        UnmarshalLoopIsRead(d, first / 4, 0, first);
      }
    }
  }

  /** Of all slices only that of the extra data can fail. */
  lemma UnmarshalIsDecode(d: Bytes)
    ensures Unmarshal(d) == Decode(d)
  {
    if |d| >= FIXED_PART {
      assert d[0..32] == d[..32];
      assert UnmarshalHead(d).Value?;
      var at := TxsOffset(d);
      if FIXED_PART <= at <= |d| {
        assert d[at..|d|] == d[at..];
        UnmarshalTxsIsDecode(d[at..]);
      }
    }
  }

  /** The decoder panics exactly on a transactions offset that points into the fixed part. */
  lemma DecodePanics(d: Bytes)
    ensures Unmarshal(d).Panics? <==> |d| >= FIXED_PART && ExtraOffset(d) == FIXED_PART && TxsOffset(d) < FIXED_PART
  {
    UnmarshalIsDecode(d);
  }

  function PanicInput(): Bytes {
    Zeros(436) + LE(FIXED_PART, 4) + Zeros(64) + LE(0, 4)
  }

  /** Such an input: zeros but for the offset of the extra data. */
  lemma ZerosPanic()
    ensures |PanicInput()| == FIXED_PART && Unmarshal(PanicInput()).Panics?
  {
    var d := PanicInput();
    assert d[436..440] == LE(FIXED_PART, 4) && d[504..508] == LE(0, 4);
    LE4(FIXED_PART);
    LE4(0);
    DecodePanics(d);
  }

  lemma QuadParts(a: uint64, b: uint64, c: uint64, d: uint64)
    ensures var q := Quad(a, b, c, d);
            ReadUint64(q[..8]) == a && ReadUint64(q[8..16]) == b && ReadUint64(q[16..24]) == c
              && ReadUint64(q[24..]) == d
  {
    var q := Quad(a, b, c, d);
    assert q[..8] == LE(a, 8) && q[8..16] == LE(b, 8) && q[16..24] == LE(c, 8) && q[24..] == LE(d, 8);
    Pow256Values();
    FromLERoundTrip(a, 8);
    FromLERoundTrip(b, 8);
    FromLERoundTrip(c, 8);
    FromLERoundTrip(d, 8);
  }

  /** Four adjacent numbers are read from the bytes that encode them. */
  lemma QuadCanonical(d: Bytes, at: nat)
    requires at + 32 <= |d|
    ensures Quad(ReadUint64(d[at..at + 8]), ReadUint64(d[at + 8..at + 16]), ReadUint64(d[at + 16..at + 24]),
            ReadUint64(d[at + 24..at + 32]))
         == d[at..at + 32]
  {
    LERoundTrip(d[at..at + 8]);
    LERoundTrip(d[at + 8..at + 16]);
    LERoundTrip(d[at + 16..at + 24]);
    LERoundTrip(d[at + 24..at + 32]);
    FourSlices(d, at, at + 8, at + 16, at + 24, at + 32);
  }

  lemma FourSlices(d: Bytes, a: nat, b: nat, c: nat, e: nat, f: nat)
    requires a <= b <= c <= e <= f <= |d|
    ensures d[a..b] + d[b..c] + d[c..e] + d[e..f] == d[a..f]
  {
  }

  /** A slice of the middle one of three pieces. */
  lemma SliceOfMiddle(a: Bytes, b: Bytes, c: Bytes, i: nat, j: nat)
    requires i <= j <= |b|
    ensures (a + b + c)[|a| + i..|a| + j] == b[i..j]
  {
  }

  lemma HeadParts(p: ExecutionPayload, rest: Bytes)
    requires p.Fits()
    ensures var d := HeadPart(p) + rest;
            && |HeadPart(p)| == 404
            && d[..32] == p.parentHash && d[32..52] == p.feeRecipient && d[52..84] == p.stateRoot
            && d[84..116] == p.receiptsRoot && d[116..372] == p.logsBloom && d[372..404] == p.prevRandao
  {
  }

  lemma NumbersParts(p: ExecutionPayload, head: Bytes, rest: Bytes)
    requires |head| == 404
    ensures var d := head + NumbersPart(p) + rest;
            && ReadUint64(d[404..412]) == p.blockNumber && ReadUint64(d[412..420]) == p.gasLimit
            && ReadUint64(d[420..428]) == p.gasUsed && ReadUint64(d[428..436]) == p.timestamp
  {
    var q := NumbersPart(p);
    SliceOfMiddle(head, q, rest, 0, 8);
    SliceOfMiddle(head, q, rest, 8, 16);
    SliceOfMiddle(head, q, rest, 16, 24);
    SliceOfMiddle(head, q, rest, 24, 32);
    assert q[0..8] == q[..8] && q[24..32] == q[24..];
    QuadParts(p.blockNumber, p.gasLimit, p.gasUsed, p.timestamp);
  }

  lemma TailParts(p: ExecutionPayload, head: Bytes, rest: Bytes)
    requires |head| == 436 && p.Fits() && FIXED_PART + |p.extraData| < TWO_32
    ensures var d := head + TailPart(p) + rest;
            && |TailPart(p)| == 72
            && ExtraOffset(d) == FIXED_PART && TxsOffset(d) == FIXED_PART + |p.extraData|
            && ReadLimbs(d[440..472]) == p.baseFeePerGas && d[472..504] == p.blockHash
  {
    var t, z := TailPart(p), LimbsPart(p.baseFeePerGas);
    assert t[..4] == LE(FIXED_PART, 4) && t[4..36] == z && t[36..68] == p.blockHash
           && t[68..72] == LE(FIXED_PART + |p.extraData|, 4);
    SliceOfMiddle(head, t, rest, 0, 4);
    SliceOfMiddle(head, t, rest, 4, 36);
    SliceOfMiddle(head, t, rest, 36, 68);
    SliceOfMiddle(head, t, rest, 68, 72);
    assert t[0..4] == t[..4];
    LE4(FIXED_PART);
    LE4(FIXED_PART + |p.extraData|);
    QuadParts(p.baseFeePerGas.z0, p.baseFeePerGas.z1, p.baseFeePerGas.z2, p.baseFeePerGas.z3);
  }

  lemma FixedRoundTrip(p: ExecutionPayload, rest: Bytes)
    requires p.Fits() && FIXED_PART + |p.extraData| < TWO_32
    ensures var d := FixedPart(p) + rest;
            && ExtraOffset(d) == FIXED_PART && TxsOffset(d) == FIXED_PART + |p.extraData|
            && ReadPayload(d, p.extraData, p.transactions) == p
  {
    var d, h, n, t := FixedPart(p) + rest, HeadPart(p), NumbersPart(p), TailPart(p);
    assert d == h + (n + t + rest) == h + n + (t + rest) == (h + n) + t + rest;
    HeadParts(p, n + t + rest);
    NumbersParts(p, h, t + rest);
    TailParts(p, h + n, rest);
  }

  /**
    A payload below four gigabytes is decoded back exactly when its extra data has at most 32 bytes
    and it has at most 2^20 transactions; any other one is rejected.
   */
  lemma PayloadRoundTrip(p: ExecutionPayload)
    requires p.Fits() && Size(p) < TWO_32
    ensures Decode(Encode(p)) ==
            if |p.extraData| <= MAX_EXTRA_DATA && |p.transactions| <= MAX_TRANSACTIONS then Value(p) else Rejected
  {
    var d, rest, at := Encode(p), p.extraData + EncodeTxs(p.transactions), FIXED_PART + |p.extraData|;
    assert d == FixedPart(p) + rest;
    FixedRoundTrip(p, rest);
    assert d[FIXED_PART..at] == p.extraData && d[at..] == EncodeTxs(p.transactions);
    TxsRoundTrip(p.transactions);
  }

  /** Distinct payloads that the encoder accepts never have the same encoding. */
  lemma EncodeInjective(p: ExecutionPayload, q: ExecutionPayload)
    requires p.Fits() && q.Fits() && Size(p) < TWO_32 && Size(q) < TWO_32
    requires |p.extraData| <= MAX_EXTRA_DATA && |q.extraData| <= MAX_EXTRA_DATA
    requires |p.transactions| <= MAX_TRANSACTIONS && |q.transactions| <= MAX_TRANSACTIONS
    requires Encode(p) == Encode(q)
    ensures p == q
  {
    PayloadRoundTrip(p);
    PayloadRoundTrip(q);
  }

  lemma HeadCanonical(d: Bytes, p: ExecutionPayload)
    requires |d| >= FIXED_PART && p == ReadPayload(d, p.extraData, p.transactions)
    ensures HeadPart(p) == d[..404]
  {
    FourSlices(d, 0, 32, 52, 84, 116);
    FourSlices(d, 0, 116, 372, 404, 404);
    assert d[404..404] == [];
  }

  lemma TailCanonical(d: Bytes, p: ExecutionPayload)
    requires |d| >= FIXED_PART && p == ReadPayload(d, p.extraData, p.transactions)
    requires ExtraOffset(d) == FIXED_PART && TxsOffset(d) == FIXED_PART + |p.extraData|
    ensures TailPart(p) == d[436..508]
  {
    LimbsCanonical(d[440..472]);
    LERoundTrip(d[436..440]);
    LERoundTrip(d[504..508]);
    FourSlices(d, 436, 440, 472, 504, 508);
  }

  lemma LimbsCanonical(d: Bytes)
    requires |d| == 32
    ensures LimbsPart(ReadLimbs(d)) == d
  {
    QuadCanonical(d, 0);
    assert d[0..32] == d && d[0..8] == d[..8] && d[24..32] == d[24..];
  }

  lemma FixedCanonical(d: Bytes, p: ExecutionPayload)
    requires |d| >= FIXED_PART && p == ReadPayload(d, p.extraData, p.transactions)
    requires ExtraOffset(d) == FIXED_PART && TxsOffset(d) == FIXED_PART + |p.extraData|
    ensures FixedPart(p) == d[..FIXED_PART]
  {
    HeadCanonical(d, p);
    QuadCanonical(d, 404);
    TailCanonical(d, p);
    FourSlices(d, 0, 404, 436, 508, 508);
    assert d[508..508] == [];
  }

  /**
    What the decoder accepts encodes to the same bytes exactly when the transaction section is empty
    or its first offset is not zero: a zero first offset hides everything behind it.
   */
  lemma PayloadCanonical(d: Bytes)
    requires Decode(d).Value?
    ensures var p, section := Decode(d).value, d[TxsOffset(d)..];
            && |p.extraData| <= MAX_EXTRA_DATA && |p.transactions| <= MAX_TRANSACTIONS
            && (Encode(p) == d <==> section == [] || FromLE(section[..4]) != 0)
  {
    var p, at := Decode(d).value, TxsOffset(d);
    var section := d[at..];
    FixedCanonical(d, p);
    TxsCanonical(section);
    assert d == d[..FIXED_PART] + d[FIXED_PART..at] + section;
    DecodeTxsLimit(section);
    assert Encode(p) == d[..FIXED_PART] + d[FIXED_PART..at] + EncodeTxs(p.transactions);
    assert Encode(p)[at..] == EncodeTxs(p.transactions);
  }

  lemma DecodeTxsLimit(d: Bytes)
    requires DecodeTxs(d).Some?
    ensures |DecodeTxs(d).value| <= MAX_TRANSACTIONS
  {
    if d != [] && FromLE(d[..4]) != 0 {
      var first := FromLE(d[..4]);
      ReadTxsCanonical(d, first / 4, 0, first, DecodeTxs(d).value);
    }
  }

  /** Bytes behind a zero first offset are dropped without an error. */
  lemma TrailingBytesIgnored(junk: Bytes)
    ensures DecodeTxs([0, 0, 0, 0] + junk) == Some([])
    ensures EncodeTxs([]) != [0, 0, 0, 0] + junk
  {
    var d: Bytes := [0, 0, 0, 0] + junk;
    assert d[..4] == [0, 0, 0, 0] == LE(0, 4) by { ZeroOffset(); }
    LE4(0);
  }

  lemma ZeroOffset()
    ensures LE(0, 4) == [0, 0, 0, 0]
  {
    assert LE(0, 1) == [0] && LE(0, 2) == [0, 0] && LE(0, 3) == [0, 0, 0];
  }
}
