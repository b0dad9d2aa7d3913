/**
  op-node/rollup/derive/batch.go: the versioned encoding of a bundle of batches, its decoder, and
  how large a bundle is compared with its batches encoded one by one.
 */
module BatchCodec {
  import opened Types
  import opened Numbers
  import opened Rlp

  const BATCH_V1_TYPE: byte := 0
  const BATCH_BUNDLE_V1_TYPE: byte := 0

  function BatchFields(b: Batch): Bytes {
    EncodeUint(b.epoch) + EncodeUint(b.timestamp) + EncodeList(EncodeStrings(b.txs))
  }

  /** encodeTyped */
  function EncodeBatch(b: Batch): Bytes {
    [BATCH_V1_TYPE] + EncodeList(BatchFields(b))
  }

  function EncodeAll(bs: seq<Batch>): seq<Bytes> {
    seq(|bs|, i requires 0 <= i < |bs| => EncodeBatch(bs[i]))
  }

  /** The payload of a bundle: every batch as a string. */
  function BundlePayload(bs: seq<Batch>): Bytes {
    EncodeStrings(EncodeAll(bs))
  }

  function EncodeBatches(bs: seq<Batch>): Bytes {
    [BATCH_BUNDLE_V1_TYPE] + EncodeList(BundlePayload(bs))
  }

  /** decodeTyped: the whole input must be one batch. */
  function DecodeBatch(d: Bytes): Option<Batch> {
    if d == [] || d[0] != BATCH_V1_TYPE then None
    else
      match Split(d[1..])
      case None => None
      case Some(whole) => if !whole.isList || whole.rest != [] then None else DecodeFields(whole.content)
  }

  function DecodeFields(d: Bytes): Option<Batch> {
    match Split(d)
    case None => None
    case Some(epoch) =>
      match Split(epoch.rest)
      case None => None
      case Some(time) =>
        match Split(time.rest)
        case None => None
        case Some(txs) =>
          if epoch.isList || time.isList || !txs.isList || txs.rest != [] then None
          else
            match (DecodeUint(epoch.content), DecodeUint(time.content), DecodeStrings(txs.content))
            case (Some(e), Some(t), Some(list)) => Some(Batch(e, t, list))
            case _ => None
  }

  /** All elements decoded, or None. */
  function MapAll(f: Bytes -> Option<Batch>, ds: seq<Bytes>): Option<seq<Batch>> {
    if ds == [] then Some([])
    else
      var b, bs := f(ds[0]), MapAll(f, ds[1..]);
      if b.Some? && bs.Some? then Some([b.value] + bs.value) else None
  }

  function DecodeAll(ds: seq<Bytes>): Option<seq<Batch>> {
    MapAll(DecodeBatch, ds)
  }

  /** DecodeBatches: bytes after the list are not looked at. */
  function DecodeBatches(d: Bytes): Option<seq<Batch>> {
    if d == [] || d[0] != BATCH_BUNDLE_V1_TYPE then None
    else
      match Split(d[1..])
      case None => None
      case Some(list) =>
        if !list.isList then None
        else
          match DecodeStrings(list.content)
          case None => None
          case Some(ds) => DecodeAll(ds)
  }

  // ----- Round trips -----

  /** The uint64 fields of a batch. */
  predicate Encodable(b: Batch) {
    b.epoch < TWO_64 && b.timestamp < TWO_64
  }

  lemma FieldsRoundTrip(b: Batch)
    requires Encodable(b) && |BatchFields(b)| < TWO_64
    ensures DecodeFields(BatchFields(b)) == Some(b)
  {
    var e, t, l := MinBE(b.epoch), MinBE(b.timestamp), EncodeStrings(b.txs);
    HeaderShort(b.epoch);
    HeaderShort(b.timestamp);
    var rest := EncodeString(t) + EncodeList(l);
    assert BatchFields(b) == EncodeString(e) + rest;
    SplitString(e, rest);
    SplitString(t, EncodeList(l));
    assert EncodeList(l) + [] == EncodeList(l);
    SplitList(l, []);
    UintRoundTrip(b.epoch);
    UintRoundTrip(b.timestamp);
    StringsRoundTrip(b.txs);
  }

  lemma BatchRoundTrip(b: Batch)
    requires Encodable(b) && |EncodeBatch(b)| < TWO_64
    ensures DecodeBatch(EncodeBatch(b)) == Some(b)
  {
    var d := EncodeBatch(b);
    assert d[1..] == EncodeList(BatchFields(b)) + [];
    SplitList(BatchFields(b), []);
    FieldsRoundTrip(b);
  }

  lemma {:induction false} MapAllExact(f: Bytes -> Option<Batch>, ds: seq<Bytes>, bs: seq<Batch>)
    requires |ds| == |bs| && forall i :: 0 <= i < |ds| ==> f(ds[i]) == Some(bs[i])
    ensures MapAll(f, ds) == Some(bs)
    decreases |ds|
  {
    if ds != [] {
      assert forall i :: 0 <= i < |ds| - 1 ==> ds[1..][i] == ds[i + 1] && bs[1..][i] == bs[i + 1];
      MapAllExact(f, ds[1..], bs[1..]);
      assert bs == [bs[0]] + bs[1..];
    }
  }

  lemma {:induction false} MapAllParts(f: Bytes -> Option<Batch>, ds: seq<Bytes>)
    requires MapAll(f, ds).Some?
    ensures |MapAll(f, ds).value| == |ds|
    ensures forall i :: 0 <= i < |ds| ==> f(ds[i]) == Some(MapAll(f, ds).value[i])
    decreases |ds|
  {
    if ds != [] {
      MapAllParts(f, ds[1..]);
      assert forall i :: 0 < i < |ds| ==> ds[i] == ds[1..][i - 1];
    }
  }

  lemma BatchWithinPayload(bs: seq<Batch>, i: nat)
    requires i < |bs|
    ensures |EncodeBatch(bs[i])| <= |BundlePayload(bs)|
  {
    EncodeStringLonger(EncodeBatch(bs[i]));
    ConcatLonger(EncodeString, EncodeAll(bs), i);
  }

  lemma AllRoundTrip(bs: seq<Batch>)
    requires forall b :: b in bs ==> Encodable(b)
    requires |BundlePayload(bs)| < TWO_64
    ensures DecodeAll(EncodeAll(bs)) == Some(bs)
  {
    var ds := EncodeAll(bs);
    forall i | 0 <= i < |ds| ensures DecodeBatch(ds[i]) == Some(bs[i]) {
      BatchWithinPayload(bs, i);
      assert bs[i] in bs;
      BatchRoundTrip(bs[i]);
    }
    MapAllExact(DecodeBatch, ds, bs);
  }

  /** DecodeBatches in terms of its three stages. */
  lemma DecodeStages(d: Bytes, content: Bytes, rest: Bytes, ds: seq<Bytes>)
    requires d != [] && d[0] == BATCH_BUNDLE_V1_TYPE && Split(d[1..]) == Some(Item(true, content, rest))
    requires DecodeStrings(content) == Some(ds)
    ensures DecodeBatches(d) == DecodeAll(ds)
  {
  }

  /** Decoding a bundle returns the encoded batches, whatever follows it in the calldata. */
  lemma BundleRoundTrip(bs: seq<Batch>, trailing: Bytes)
    requires forall b :: b in bs ==> Encodable(b)
    requires |EncodeBatches(bs)| < TWO_64
    ensures DecodeBatches(EncodeBatches(bs) + trailing) == Some(bs)
  {
    BundleStart(bs, trailing);
    BundleDecodes(EncodeBatches(bs) + trailing, bs, trailing);
  }

  lemma BundleStart(bs: seq<Batch>, trailing: Bytes)
    ensures var d := EncodeBatches(bs) + trailing;
            d != [] && d[0] == BATCH_BUNDLE_V1_TYPE && d[1..] == EncodeList(BundlePayload(bs)) + trailing
    ensures |BundlePayload(bs)| <= |EncodeBatches(bs)|
  {
    var list := EncodeList(BundlePayload(bs));
    assert EncodeBatches(bs) == [BATCH_BUNDLE_V1_TYPE] + list;
    VersionedStart(BATCH_BUNDLE_V1_TYPE, list, trailing);
  }

  lemma VersionedStart(version: byte, data: Bytes, trailing: Bytes)
    ensures var d := [version] + data + trailing; d[0] == version && d[1..] == data + trailing
  {
  }

  lemma BundleDecodes(d: Bytes, bs: seq<Batch>, trailing: Bytes)
    requires d != [] && d[0] == BATCH_BUNDLE_V1_TYPE && d[1..] == EncodeList(BundlePayload(bs)) + trailing
    requires (forall b :: b in bs ==> Encodable(b)) && |BundlePayload(bs)| < TWO_64
    ensures DecodeBatches(d) == Some(bs)
  {
    SplitList(BundlePayload(bs), trailing);
    assert DecodeStrings(BundlePayload(bs)) == Some(EncodeAll(bs)) by { StringsRoundTrip(EncodeAll(bs)); }
    DecodeStages(d, BundlePayload(bs), trailing, EncodeAll(bs));
    AllRoundTrip(bs);
  }

  lemma FieldsJoin(d: Bytes, epoch: Item, time: Item, txs: Item, b: Batch)
    requires d == EncodeString(epoch.content) + epoch.rest
    requires epoch.rest == EncodeString(time.content) + time.rest && time.rest == EncodeList(txs.content)
    requires MinBE(b.epoch) == epoch.content && MinBE(b.timestamp) == time.content
             && EncodeStrings(b.txs) == txs.content
    ensures BatchFields(b) == d
  {
    ConcatAssociates(EncodeString(epoch.content), EncodeString(time.content), EncodeList(txs.content));
  }

  lemma ConcatAssociates(a: Bytes, b: Bytes, c: Bytes)
    ensures a + (b + c) == a + b + c
  {
  }

  lemma FieldsCanonical(d: Bytes)
    requires DecodeFields(d).Some?
    ensures Encodable(DecodeFields(d).value) && BatchFields(DecodeFields(d).value) == d
  {
    var epoch := Split(d).value;
    var time := Split(epoch.rest).value;
    var txs := Split(time.rest).value;
    assert d == EncodeString(epoch.content) + epoch.rest by { SplitCanonical(d); }
    assert epoch.rest == EncodeString(time.content) + time.rest by { SplitCanonical(epoch.rest); }
    assert time.rest == EncodeList(txs.content) by {
      SplitCanonical(time.rest);
      assert EncodeList(txs.content) + [] == EncodeList(txs.content);
    }
    var b := DecodeFields(d).value;
    assert MinBE(b.epoch) == epoch.content && b.epoch < TWO_64 by { UintCanonical(epoch.content); }
    assert MinBE(b.timestamp) == time.content && b.timestamp < TWO_64 by { UintCanonical(time.content); }
    assert EncodeStrings(b.txs) == txs.content by { StringsCanonical(txs.content); }
    FieldsJoin(d, epoch, time, txs, b);
  }

  lemma BatchCanonical(d: Bytes)
    requires DecodeBatch(d).Some?
    ensures Encodable(DecodeBatch(d).value) && EncodeBatch(DecodeBatch(d).value) == d
  {
    SplitCanonical(d[1..]);
    FieldsCanonical(Split(d[1..]).value.content);
    assert d == [d[0]] + d[1..];
  }

  lemma AllCanonical(ds: seq<Bytes>)
    requires DecodeAll(ds).Some?
    ensures forall b :: b in DecodeAll(ds).value ==> Encodable(b)
    ensures EncodeAll(DecodeAll(ds).value) == ds
  {
    MapAllParts(DecodeBatch, ds);
    var bs := DecodeAll(ds).value;
    forall i | 0 <= i < |ds| ensures Encodable(bs[i]) && EncodeBatch(bs[i]) == ds[i] {
      assert DecodeBatch(ds[i]) == Some(bs[i]);
      BatchCanonical(ds[i]);
    }
  }

  lemma BundleJoin(d: Bytes, content: Bytes, rest: Bytes, bs: seq<Batch>)
    requires d != [] && d[0] == BATCH_BUNDLE_V1_TYPE && d[1..] == EncodeList(content) + rest
    requires BundlePayload(bs) == content
    ensures EncodeBatches(bs) <= d
  {
    assert d == [d[0]] + EncodeList(content) + rest;
  }

  /** Whatever DecodeBatches accepts starts with the encoding of what it returns. */
  lemma BundleCanonical(d: Bytes)
    requires DecodeBatches(d).Some?
    ensures forall b :: b in DecodeBatches(d).value ==> Encodable(b)
    ensures EncodeBatches(DecodeBatches(d).value) <= d
  {
    var list := Split(d[1..]).value;
    var ds := DecodeStrings(list.content).value;
    assert d[1..] == EncodeList(list.content) + list.rest by { SplitCanonical(d[1..]); }
    assert EncodeStrings(ds) == list.content by { StringsCanonical(list.content); }
    AllCanonical(ds);
    BundleJoin(d, list.content, list.rest, DecodeAll(ds).value);
  }

  // ----- The writer and reader, step by step -----

  lemma PayloadAppend(bs: seq<Batch>, b: Batch)
    ensures BundlePayload(bs + [b]) == BundlePayload(bs) + EncodeString(EncodeBatch(b))
  {
    assert EncodeAll(bs + [b]) == EncodeAll(bs) + [EncodeBatch(b)];
    ConcatAppend(EncodeString, EncodeAll(bs), EncodeBatch(b));
  }

  /** EncodeRLP of one batch, behind those already written. */
  method WriteBatch(payload: Bytes, b: Batch, ghost bs: seq<Batch>) returns (payload': Bytes)
    requires payload == BundlePayload(bs)
    ensures payload' == BundlePayload(bs + [b])
  {
    var buf := [BATCH_V1_TYPE] + EncodeList(BatchFields(b));
    PayloadAppend(bs, b);
    payload' := payload + EncodeString(buf);
  }

  method WriteBatches(bs: seq<Batch>) returns (w: Bytes)
    ensures w == EncodeBatches(bs)
  {
    w := [BATCH_BUNDLE_V1_TYPE];
    var payload: Bytes := [];
    for i := 0 to |bs|
      invariant payload == BundlePayload(bs[..i])
    {
      payload := WriteBatch(payload, bs[i], bs[..i]);
      assert bs[..i + 1] == bs[..i] + [bs[i]];
    }
    assert bs[..|bs|] == bs;
    w := w + EncodeList(payload);
  }

  method ReadAll(f: Bytes -> Option<Batch>, ds: seq<Bytes>) returns (res: Option<seq<Batch>>)
    ensures res == MapAll(f, ds)
  {
    var out: seq<Batch> := [];
    assert ds[0..] == ds;
    assert forall rest: seq<Batch> :: [] + rest == rest;
    for i := 0 to |ds|
      invariant MapAll(f, ds) == match MapAll(f, ds[i..]) { case None => None case Some(rest) => Some(out + rest) }
    {
      assert ds[i..][0] == ds[i] && ds[i..][1..] == ds[i + 1..];
      var b := f(ds[i]);
      if b.None? {
        return None;
      }
      ghost var rest := MapAll(f, ds[i + 1..]);
      assert rest.Some? ==> out + ([b.value] + rest.value) == out + [b.value] + rest.value;
      out := out + [b.value];
    }
    assert out + [] == out;
    return Some(out);
  }

  method ReadBatches(d: Bytes) returns (res: Option<seq<Batch>>)
    ensures res == DecodeBatches(d)
  {
    if d == [] || d[0] != BATCH_BUNDLE_V1_TYPE {
      return None;
    }
    var list := Split(d[1..]);
    if list.None? || !list.value.isList {
      return None;
    }
    var strings := DecodeStrings(list.value.content);
    if strings.None? {
      return None;
    }
    res := ReadAll(DecodeBatch, strings.value);
  }

  // ----- Sizes -----

  /** The size of a batch encoded as a bundle of its own. */
  function SingleSize(b: Batch): nat {
    |EncodeBatches([b])|
  }

  function SumSizes(size: Batch -> nat, bs: seq<Batch>): nat {
    if bs == [] then 0 else SumSizes(size, bs[..|bs| - 1]) + size(bs[|bs| - 1])
  }

  /** The sum of the sizes of the batches, each encoded as a bundle of its own. */
  function SingleSizes(bs: seq<Batch>): nat {
    SumSizes(SingleSize, bs)
  }

  lemma HeaderSubadditive(a: nat, b: nat)
    ensures |Header(0xc0, a + b)| <= |Header(0xc0, a)| + |Header(0xc0, b)|
  {
    var m := if a < b then b else a;
    if a + b >= 56 {
      MinBEMonotone(a + b, 256 * m);
      assert 256 * m / 256 == m;
      assert |MinBE(256 * m)| <= |MinBE(m)| + 1;
      if m < 56 {
        MinBELength(m, 1);
        assert Pow256(1) == 256;
        assert Pow256(0) == 1;
        MinBELength(a + b, 1);
      }
    }
  }

  lemma BundleSize(bs: seq<Batch>)
    ensures |EncodeBatches(bs)| == 1 + |Header(0xc0, |BundlePayload(bs)|)| + |BundlePayload(bs)|
  {
  }

  lemma {:induction false} SingleSizesBoundJoint(bs: seq<Batch>)
    requires bs != []
    ensures SingleSizes(bs) >= |EncodeBatches(bs)|
  {
    var init, last := bs[..|bs| - 1], bs[|bs| - 1];
    assert bs == init + [last];
    if init == [] {
      assert bs == [last];
    } else {
      SingleSizesBoundJoint(init);
      PayloadAppend(init, last);
      PayloadAppend([], last);
      assert [] + [last] == [last];
      BundleSize(bs);
      BundleSize(init);
      BundleSize([last]);
      HeaderSubadditive(|BundlePayload(init)|, |BundlePayload([last])|);
    }
  }

  /** The sizes of the single encodings bound the joint one exactly when there is something to encode. */
  lemma SingleSizesBound(bs: seq<Batch>)
    ensures SingleSizes(bs) >= |EncodeBatches(bs)| <==> bs != []
  {
    if bs != [] {
      SingleSizesBoundJoint(bs);
    }
  }
}
