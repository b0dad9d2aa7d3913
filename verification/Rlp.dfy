/**
  RLP, Appendix B of the Ethereum Yellow Paper, as far as batches and deposits use it: byte
  strings, unsigned integers and lists, with the canonical form that go-ethereum's decoder
  demands. Lengths are those of Go slices, below 2^64.
 */
module Rlp {
  import opened Types
  import opened Numbers

  /** The prefix of a string (base 0x80) or list (base 0xc0) with n bytes of content. */
  function Header(base: byte, n: nat): Bytes {
    if n < 56 then [(base + n) % 256] else LongHeader(base, MinBE(n))
  }

  function LongHeader(base: byte, length: Bytes): Bytes {
    [(base + 55 + |length|) % 256] + length
  }

  function EncodeString(b: Bytes): Bytes {
    if |b| == 1 && b[0] < 0x80 then b else Header(0x80, |b|) + b
  }

  function EncodeList(content: Bytes): Bytes {
    Header(0xc0, |content|) + content
  }

  function EncodeUint(n: nat): Bytes {
    EncodeString(MinBE(n))
  }

  /** The first value of an input: its kind, its content, and what follows it. */
  datatype Item = Item(isList: bool, content: Bytes, rest: Bytes)

  /** The content length a header announces, and the header's own length; None when not canonical. */
  function ReadHeader(base: byte, b: Bytes): Option<(nat, nat)>
    requires b != [] && (base == 0x80 || base == 0xc0) && base <= b[0]
  {
    var t := b[0] - base;
    if t < 56 then Some((t, 1))
    else
      var k := t - 55;
      if |b| < 1 + k || b[1] == 0 then None
      else
        var n := FromBE(b[1..1 + k]);
        if n < 56 then None else Some((n, 1 + k))
  }

  function Split(b: Bytes): (r: Option<Item>)
    ensures r.Some? ==> |r.value.rest| < |b|
  {
    if b == [] then None
    else if b[0] < 0x80 then Some(Item(false, b[..1], b[1..]))
    else
      var base: byte := if b[0] < 0xc0 then 0x80 else 0xc0;
      match ReadHeader(base, b)
      case None => None
      case Some((n, h)) =>
        if |b| < h + n then None
        else if base == 0x80 && n == 1 && b[h] < 0x80 then None
        else Some(Item(base == 0xc0, b[h..h + n], b[h + n..]))
  }

  function DecodeUint(content: Bytes): Option<nat> {
    if |content| > 8 || (content != [] && content[0] == 0) then None else Some(FromBE(content))
  }

  // ----- Decoding undoes encoding -----

  lemma HeaderShort(n: nat)
    requires n < TWO_64
    ensures |MinBE(n)| <= 8
  {
    Pow256Values();
    MinBELength(n, 8);
  }

  lemma ReadLongHeader(base: byte, l: Bytes, rest: Bytes)
    requires (base == 0x80 || base == 0xc0) && 1 <= |l| <= 8 && l[0] != 0 && FromBE(l) >= 56
    ensures var b := LongHeader(base, l) + rest;
            b[0] == base + 55 + |l| && ReadHeader(base, b) == Some((FromBE(l), |LongHeader(base, l)|))
  {
    var b := LongHeader(base, l) + rest;
    assert b[1..1 + |l|] == l;
    assert b[1] == l[0];
  }

  lemma ReadHeaderOfHeader(base: byte, n: nat, rest: Bytes)
    requires (base == 0x80 || base == 0xc0) && n < TWO_64
    ensures var b := Header(base, n) + rest;
            b != [] && base <= b[0] < base + 0x40 && ReadHeader(base, b) == Some((n, |Header(base, n)|))
  {
    if n >= 56 {
      var l := MinBE(n);
      assert 1 <= |l| <= 8 && l[0] != 0 by { HeaderShort(n); }
      assert FromBE(l) == n by { MinBERoundTrip(n); }
      ReadLongHeader(base, l, rest);
    }
  }

  lemma SplitString(s: Bytes, rest: Bytes)
    requires |s| < TWO_64
    ensures Split(EncodeString(s) + rest) == Some(Item(false, s, rest))
  {
    var b := EncodeString(s) + rest;
    if |s| == 1 && s[0] < 0x80 {
      assert b[..1] == s && b[1..] == rest;
    } else {
      var h := Header(0x80, |s|);
      assert b == h + (s + rest);
      ReadHeaderOfHeader(0x80, |s|, s + rest);
      assert b[|h|..|h| + |s|] == s && b[|h| + |s|..] == rest;
      assert |s| == 1 ==> b[|h|] == s[0];
    }
  }

  lemma SplitList(content: Bytes, rest: Bytes)
    requires |content| < TWO_64
    ensures Split(EncodeList(content) + rest) == Some(Item(true, content, rest))
  {
    var b, h := EncodeList(content) + rest, Header(0xc0, |content|);
    assert b == h + (content + rest);
    ReadHeaderOfHeader(0xc0, |content|, content + rest);
    assert b[|h|..|h| + |content|] == content && b[|h| + |content|..] == rest;
  }

  lemma UintRoundTrip(n: nat)
    requires n < TWO_64
    ensures DecodeUint(MinBE(n)) == Some(n)
  {
    HeaderShort(n);
    MinBERoundTrip(n);
  }

  // ----- Only canonical encodings are accepted -----

  lemma ReadHeaderCanonical(base: byte, b: Bytes)
    requires b != [] && (base == 0x80 || base == 0xc0) && base <= b[0] < base + 0x40
    requires ReadHeader(base, b).Some? && |b| >= ReadHeader(base, b).value.1
    ensures var (n, h) := ReadHeader(base, b).value; b[..h] == Header(base, n)
  {
    var t := b[0] - base;
    if t < 56 {
      assert b[..1] == [b[0]];
    } else {
      LongHeaderCanonical(base, b[..t - 54]);
      assert b[..t - 54][1..] == b[1..t - 54];
    }
  }

  lemma LongHeaderCanonical(base: byte, h: Bytes)
    requires |h| >= 2 && base + 55 < 256 && h[0] == base + 54 + |h| && h[1] != 0 && FromBE(h[1..]) >= 56
    ensures h == Header(base, FromBE(h[1..]))
  {
    MinBEUnique(h[1..]);
    assert h == [h[0]] + h[1..];
  }

  lemma HeadedCanonical(base: byte, b: Bytes)
    requires b != [] && (base == 0x80 || base == 0xc0) && base <= b[0] < base + 0x40
    requires ReadHeader(base, b).Some? && |b| >= ReadHeader(base, b).value.0 + ReadHeader(base, b).value.1
    ensures var (n, h) := ReadHeader(base, b).value; b == Header(base, |b[h..h + n]|) + b[h..h + n] + b[h + n..]
  {
    var (n, h) := ReadHeader(base, b).value;
    ReadHeaderCanonical(base, b);
    assert b == b[..h] + b[h..h + n] + b[h + n..];
  }

  /** Whatever Split accepts is the encoding of what it returns. */
  lemma SplitCanonical(b: Bytes)
    requires Split(b).Some?
    ensures var i := Split(b).value;
            b == (if i.isList then EncodeList(i.content) else EncodeString(i.content)) + i.rest
  {
    if b[0] >= 0x80 {
      var base: byte := if b[0] < 0xc0 then 0x80 else 0xc0;
      var (n, h) := ReadHeader(base, b).value;
      HeadedCanonical(base, b);
      assert n == 1 ==> b[h..h + n][0] == b[h];
    } else {
      assert b == b[..1] + b[1..];
    }
  }

  lemma UintCanonical(content: Bytes)
    requires DecodeUint(content).Some?
    ensures DecodeUint(content).value < TWO_64
    ensures MinBE(DecodeUint(content).value) == content
  {
    Pow256Values();
    BERoundTrip(content);
    MinBEUnique(content);
    MinBELength(FromBE(content), 8);
  }

  // ----- Lists of strings -----

  /** The concatenation of f over a list. */
  function Concat(f: Bytes -> Bytes, ss: seq<Bytes>): Bytes {
    if ss == [] then [] else f(ss[0]) + Concat(f, ss[1..])
  }

  lemma {:induction false} ConcatAppend(f: Bytes -> Bytes, ss: seq<Bytes>, s: Bytes)
    ensures Concat(f, ss + [s]) == Concat(f, ss) + f(s)
    decreases |ss|
  {
    if ss == [] {
      assert [] + [s] == [s] && [s][1..] == [];
    } else {
      ConcatAppend(f, ss[1..], s);
      assert (ss + [s])[1..] == ss[1..] + [s];
    }
  }

  lemma {:induction false} ConcatLonger(f: Bytes -> Bytes, ss: seq<Bytes>, i: nat)
    requires i < |ss|
    ensures |f(ss[i])| <= |Concat(f, ss)|
    decreases |ss|
  {
    if i > 0 {
      ConcatLonger(f, ss[1..], i - 1);
    }
  }

  /** The concatenated encodings of the strings. */
  function EncodeStrings(ss: seq<Bytes>): Bytes {
    Concat(EncodeString, ss)
  }

  function DecodeStrings(b: Bytes): Option<seq<Bytes>>
    decreases |b|
  {
    if b == [] then Some([])
    else
      match Split(b)
      case None => None
      case Some(item) =>
        if item.isList then None
        else
          match DecodeStrings(item.rest)
          case None => None
          case Some(ss) => Some([item.content] + ss)
  }

  lemma EncodeStringLonger(s: Bytes)
    ensures |EncodeString(s)| >= |s| && EncodeString(s) != []
  {
  }

  lemma {:induction false} StringsRoundTrip(ss: seq<Bytes>)
    requires |EncodeStrings(ss)| < TWO_64
    ensures DecodeStrings(EncodeStrings(ss)) == Some(ss)
  {
    if ss != [] {
      EncodeStringLonger(ss[0]);
      SplitString(ss[0], EncodeStrings(ss[1..]));
      StringsRoundTrip(ss[1..]);
      assert ss == [ss[0]] + ss[1..];
    }
  }

  lemma {:induction false} StringsCanonical(b: Bytes)
    requires DecodeStrings(b).Some?
    ensures EncodeStrings(DecodeStrings(b).value) == b
    decreases |b|
  {
    if b != [] {
      var item := Split(b).value;
      SplitCanonical(b);
      StringsCanonical(item.rest);
      var ss := DecodeStrings(item.rest).value;
      assert ([item.content] + ss)[1..] == ss;
    }
  }
}
