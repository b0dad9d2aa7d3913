/**
  op-node/rollup/derive/l1_block_info.go and the encoding of deposit transactions: how an L2 block
  records its L1 origin.
 */
module L1Info {
  import opened Types
  import opened Numbers
  import opened Rlp
  import opened Buffers

  datatype L1BlockInfo = L1BlockInfo(number: nat, time: nat, baseFee: nat, blockHash: Hash, sequenceNumber: nat)
  {
    predicate Fits() {
      number < TWO_64 && time < TWO_64 && baseFee < TWO_256 && sequenceNumber < TWO_64
    }
  }

  const INFO_SIZE: nat := 4 + 32 + 32 + 32 + 32 + 32

  /** A uint64 in a 32-byte word. */
  function Word(n: nat): (w: Bytes)
    ensures |w| == 32
  {
    Zeros(24) + BE(n, 8)
  }

  /** MarshalBinary: the function selector and five words. */
  function EncodeInfo(selector: Bytes, i: L1BlockInfo): (d: Bytes)
    requires |selector| == 4
    ensures |d| == INFO_SIZE
  {
    selector + Word(i.number) + Word(i.time) + BE(i.baseFee, 32) + BE(i.blockHash, 32) + Word(i.sequenceNumber)
  }

  /** UnmarshalBinary: the selector is not looked at. */
  function DecodeInfo(d: Bytes): Option<L1BlockInfo> {
    if |d| != INFO_SIZE then None
    else if d[4..28] != Zeros(24) || d[36..60] != Zeros(24) || d[132..156] != Zeros(24) then None
    else
      BERoundTrip(d[100..132]);
      Pow256Values();
      Some(L1BlockInfo(FromBE(d[28..36]), FromBE(d[60..68]), FromBE(d[68..100]), FromBE(d[100..132]),
        FromBE(d[156..164])))
  }

  lemma WordParts(n: nat)
    ensures Word(n)[..24] == Zeros(24) && Word(n)[24..] == BE(n, 8)
  {
  }

  /** The pieces of an encoded info call. */
  lemma InfoParts(selector: Bytes, i: L1BlockInfo)
    requires |selector| == 4
    ensures var d := EncodeInfo(selector, i);
            && d[4..28] == d[36..60] == d[132..156] == Zeros(24)
            && d[28..36] == BE(i.number, 8) && d[60..68] == BE(i.time, 8)
            && d[68..100] == BE(i.baseFee, 32) && d[100..132] == BE(i.blockHash, 32)
            && d[156..164] == BE(i.sequenceNumber, 8)
  {
    var d := EncodeInfo(selector, i);
    assert d[4..36] == Word(i.number) && d[36..68] == Word(i.time) && d[132..164] == Word(i.sequenceNumber);
    WordParts(i.number);
    WordParts(i.time);
    WordParts(i.sequenceNumber);
    assert d[4..28] == d[4..36][..24] && d[28..36] == d[4..36][24..];
    assert d[36..60] == d[36..68][..24] && d[60..68] == d[36..68][24..];
    assert d[132..156] == d[132..164][..24] && d[156..164] == d[132..164][24..];
  }

  /** The L1 info a block carries is read back exactly. */
  lemma InfoRoundTrip(selector: Bytes, i: L1BlockInfo)
    requires |selector| == 4 && i.Fits()
    ensures DecodeInfo(EncodeInfo(selector, i)) == Some(i)
  {
    InfoParts(selector, i);
    Pow256Values();
    FromBERoundTrip(i.number, 8);
    FromBERoundTrip(i.time, 8);
    FromBERoundTrip(i.baseFee, 32);
    FromBERoundTrip(i.blockHash, 32);
    FromBERoundTrip(i.sequenceNumber, 8);
  }

  /** Whatever is accepted is the encoding of what it is read as, up to the selector. */
  lemma InfoCanonical(d: Bytes)
    requires DecodeInfo(d).Some?
    ensures DecodeInfo(d).value.Fits() && EncodeInfo(d[..4], DecodeInfo(d).value) == d
  {
    var i := DecodeInfo(d).value;
    WordCanonical(d, 4);
    WordCanonical(d, 36);
    BigCanonical(d[68..100]);
    BigCanonical(d[100..132]);
    WordCanonical(d, 132);
    SixSlices(d, 4, 36, 68, 100, 132);
    assert d[132..164] == d[132..];
  }

  lemma WordCanonical(d: Bytes, at: nat)
    requires at + 32 <= |d| && d[at..at + 24] == Zeros(24)
    ensures var n := FromBE(d[at + 24..at + 32]); n < TWO_64 && Word(n) == d[at..at + 32]
  {
    Pow256Values();
    BERoundTrip(d[at + 24..at + 32]);
    assert d[at..at + 32] == d[at..at + 24] + d[at + 24..at + 32];
  }

  lemma BigCanonical(d: Bytes)
    requires |d| == 32
    ensures FromBE(d) < TWO_256 && BE(FromBE(d), 32) == d
  {
    Pow256Values();
    BERoundTrip(d);
  }

  lemma SixSlices(d: Bytes, a: nat, b: nat, c: nat, e: nat, f: nat)
    requires a <= b <= c <= e <= f <= |d|
    ensures d == d[..a] + d[a..b] + d[b..c] + d[c..e] + d[e..f] + d[f..]
  {
  }

  /** MarshalBinary with its buffer and moving offset. */
  method MarshalInfo(selector: Bytes, i: L1BlockInfo) returns (data: Bytes)
    requires |selector| == 4
    ensures data == EncodeInfo(selector, i)
  {
    var buf := new byte[INFO_SIZE](_ => 0);
    assert buf[..] == [] + Zeros(INFO_SIZE);
    var offset := 0;
    ghost var d0, d1, d2, d3, d4, d5;
    offset, d0 := Put(buf, 0, selector, [], offset);
    offset, d1 := Put(buf, 24, BE(i.number, 8), d0, offset);
    offset, d2 := Put(buf, 24, BE(i.time, 8), d1, offset);
    offset, d3 := Put(buf, 0, BE(i.baseFee, 32), d2, offset);
    offset, d4 := Put(buf, 0, BE(i.blockHash, 32), d3, offset);
    offset, d5 := Put(buf, 24, BE(i.sequenceNumber, 8), d4, offset);
    data := buf[..];
    InfoPieces(selector, i, data);
  }

  /** The pieces one after another are the encoding. */
  lemma InfoPieces(selector: Bytes, i: L1BlockInfo, data: Bytes)
    requires |selector| == 4
    requires data == [] + (Zeros(0) + selector) + Word(i.number) + Word(i.time) + (Zeros(0) + BE(i.baseFee, 32))
                     + (Zeros(0) + BE(i.blockHash, 32)) + Word(i.sequenceNumber) + Zeros(0)
    ensures data == EncodeInfo(selector, i)
  {
    NoPadding(selector);
    NoPadding(BE(i.baseFee, 32));
    NoPadding(BE(i.blockHash, 32));
    assert data == [] + selector + Word(i.number) + Word(i.time) + BE(i.baseFee, 32) + BE(i.blockHash, 32)
                   + Word(i.sequenceNumber);
  }

  lemma NoPadding(bs: Bytes)
    ensures Zeros(0) + bs == bs
  {
  }

  // ----- Deposit transactions -----

  datatype Deposit = Deposit(sourceHash: Hash, from: Address, to: Option<Address>, mint: uint256, value: uint256,
    gas: uint64, data: Bytes)

  function DepositFields(d: Deposit): seq<Bytes> {
    [BE(d.sourceHash, 32), BE(d.from, 20), if d.to.Some? then BE(d.to.value, 20) else [],
     MinBE(d.mint), MinBE(d.value), MinBE(d.gas), d.data]
  }

  function EncodeDeposit(d: Deposit): Bytes {
    [DEPOSIT_TX_TYPE] + EncodeList(EncodeStrings(DepositFields(d)))
  }

  predicate CanonicalInt(b: Bytes, w: nat) {
    |b| <= w && (b != [] ==> b[0] != 0)
  }

  /** The seven strings of a deposit transaction, when the sizes and integers are right. */
  function ReadDeposit(f: seq<Bytes>): Option<Deposit> {
    if |f| != 7 || |f[0]| != 32 || |f[1]| != 20 || (|f[2]| != 0 && |f[2]| != 20) then None
    else if !CanonicalInt(f[3], 32) || !CanonicalInt(f[4], 32) || !CanonicalInt(f[5], 8) then None
    else
      var source, from, to := FromBE(f[0]), FromBE(f[1]), FromBE(f[2]);
      var mint, value, gas := FromBE(f[3]), FromBE(f[4]), FromBE(f[5]);
      if source < TWO_256 && from < TWO_160 && to < TWO_160 && mint < TWO_256 && value < TWO_256 && gas < TWO_64
      then Some(Deposit(source, from, if f[2] == [] then None else Some(to), mint, value, gas, f[6]))
      else None
  }

  function DecodeDeposit(tx: Bytes): Option<Deposit> {
    if !IsDeposit(tx) then None
    else
      match Split(tx[1..])
      case None => None
      case Some(item) =>
        if !item.isList || item.rest != [] then None
        else
          match DecodeStrings(item.content)
          case None => None
          case Some(f) => ReadDeposit(f)
  }

  lemma ReadDepositFields(d: Deposit)
    ensures ReadDeposit(DepositFields(d)) == Some(d)
  {
    FixedFields(d);
    IntFields(d);
    ReadDepositOf(DepositFields(d), d);
  }

  lemma AddressWidth()
    ensures Pow256(20) == TWO_160
  {
    Pow256Add(16, 4);
    Pow256Add(8, 8);
  }

  lemma FixedFields(d: Deposit)
    ensures FromBE(BE(d.sourceHash, 32)) == d.sourceHash && FromBE(BE(d.from, 20)) == d.from
    ensures d.to.Some? ==> FromBE(BE(d.to.value, 20)) == d.to.value
  {
    Pow256Values();
    AddressWidth();
    FromBERoundTrip(d.sourceHash, 32);
    FromBERoundTrip(d.from, 20);
    if d.to.Some? {
      FromBERoundTrip(d.to.value, 20);
    }
  }

  lemma IntFields(d: Deposit)
    ensures CanonicalInt(MinBE(d.mint), 32) && FromBE(MinBE(d.mint)) == d.mint
    ensures CanonicalInt(MinBE(d.value), 32) && FromBE(MinBE(d.value)) == d.value
    ensures CanonicalInt(MinBE(d.gas), 8) && FromBE(MinBE(d.gas)) == d.gas
  {
    Pow256Values();
    IntField(d.mint, 32);
    IntField(d.value, 32);
    IntField(d.gas, 8);
  }

  lemma IntField(n: nat, w: nat)
    requires n < Pow256(w)
    ensures CanonicalInt(MinBE(n), w) && FromBE(MinBE(n)) == n
  {
    MinBERoundTrip(n);
    MinBELength(n, w);
  }

  lemma ReadDepositOf(f: seq<Bytes>, d: Deposit)
    requires |f| == 7 && |f[0]| == 32 && |f[1]| == 20 && |f[2]| == if d.to.Some? then 20 else 0
    requires FromBE(f[0]) == d.sourceHash && FromBE(f[1]) == d.from && (d.to.Some? ==> FromBE(f[2]) == d.to.value)
    requires CanonicalInt(f[3], 32) && CanonicalInt(f[4], 32) && CanonicalInt(f[5], 8)
    requires FromBE(f[3]) == d.mint && FromBE(f[4]) == d.value && FromBE(f[5]) == d.gas && f[6] == d.data
    ensures ReadDeposit(f) == Some(d)
  {
  }

  lemma DepositRoundTrip(d: Deposit)
    requires |EncodeDeposit(d)| < TWO_64
    ensures DecodeDeposit(EncodeDeposit(d)) == Some(d)
  {
    var tx, content := EncodeDeposit(d), EncodeStrings(DepositFields(d));
    assert tx[1..] == EncodeList(content) + [];
    SplitList(content, []);
    StringsRoundTrip(DepositFields(d));
    ReadDepositFields(d);
  }
}
