/** Quotients, and the fixed-width and minimal byte encodings of numbers that encoding/binary and math/big write. */
module Numbers {
  import opened Types

  function Pow256(w: nat): (p: nat)
    ensures p >= 1
  {
    if w == 0 then 1 else 256 * Pow256(w - 1)
  }

  lemma Pow256Values()
    ensures Pow256(4) == TWO_32 && Pow256(8) == TWO_64 && Pow256(32) == TWO_256
  {
    Pow256Add(8, 8);
    Pow256Add(16, 16);
  }

  lemma {:induction false} Pow256Add(a: nat, b: nat)
    ensures Pow256(a + b) == Pow256(a) * Pow256(b)
  {
    if a != 0 {
      Pow256Add(a - 1, b);
    }
  }

  // ----- Multiples and quotients -----

  lemma MulMonotone(a: nat, b: nat, d: nat)
    requires a <= b
    ensures a * d <= b * d
  {
  }

  lemma DivBounds(x: nat, d: nat, k: nat)
    requires d > 0
    ensures k <= x / d <==> k * d <= x
  {
    var q := x / d;
    assert q * d <= x < q * d + d;
    if k <= q {
      MulMonotone(k, q, d);
    } else {
      MulMonotone(q + 1, k, d);
    }
  }

  lemma DivMonotone(x: nat, y: nat, d: nat)
    requires d > 0 && x <= y
    ensures x / d <= y / d
  {
    DivBounds(x, d, x / d);
    DivBounds(y, d, x / d);
  }

  lemma DivStep(x: nat, d: nat)
    requires d > 0
    ensures (x + d) / d == x / d + 1
  {
    var q := x / d;
    DivBounds(x, d, q);
    DivBounds(x, d, q + 1);
    DivBounds(x + d, d, q + 1);
    DivBounds(x + d, d, q + 2);
  }

  lemma Digits(n: nat, k: nat)
    requires n < 256 * k
    ensures n / 256 < k && n == n / 256 * 256 + n % 256
  {
  }

  lemma LowDigit(x: nat, b: byte)
    ensures (x * 256 + b) % 256 == b && (x * 256 + b) / 256 == x
  {
  }

  // ----- Big endian -----

  /** The low w bytes of n, most significant first. */
  function BE(n: nat, w: nat): (bs: Bytes)
    ensures |bs| == w
  {
    if w == 0 then [] else BE(n / 256, w - 1) + [n % 256]
  }

  function FromBE(bs: Bytes): nat {
    if bs == [] then 0 else FromBE(bs[..|bs| - 1]) * 256 + bs[|bs| - 1]
  }

  lemma FromBEAppend(bs: Bytes, b: byte)
    ensures FromBE(bs + [b]) == FromBE(bs) * 256 + b
  {
    assert (bs + [b])[..|bs|] == bs;
  }

  lemma {:induction false} FromBERoundTrip(n: nat, w: nat)
    requires n < Pow256(w)
    ensures FromBE(BE(n, w)) == n
  {
    if w != 0 {
      var q, d: byte := n / 256, n % 256;
      assert q < Pow256(w - 1) && n == q * 256 + d by { Digits(n, Pow256(w - 1)); }
      FromBERoundTrip(q, w - 1);
      FromBEAppend(BE(q, w - 1), d);
    }
  }

  lemma {:induction false} BERoundTrip(bs: Bytes)
    ensures FromBE(bs) < Pow256(|bs|)
    ensures BE(FromBE(bs), |bs|) == bs
  {
    if bs != [] {
      BERoundTrip(bs[..|bs| - 1]);
      LowDigit(FromBE(bs[..|bs| - 1]), bs[|bs| - 1]);
      assert bs == bs[..|bs| - 1] + [bs[|bs| - 1]];
    }
  }

  /** n without leading zero bytes; zero is the empty string. */
  function MinBE(n: nat): (bs: Bytes)
    ensures bs == [] <==> n == 0
    ensures bs != [] ==> bs[0] != 0
  {
    if n == 0 then [] else MinBE(n / 256) + [n % 256]
  }

  lemma {:induction false} MinBERoundTrip(n: nat)
    ensures FromBE(MinBE(n)) == n
  {
    if n != 0 {
      MinBERoundTrip(n / 256);
      assert MinBE(n)[..|MinBE(n)| - 1] == MinBE(n / 256);
    }
  }

  lemma {:induction false} FromBEPositive(bs: Bytes)
    requires bs != [] && bs[0] != 0
    ensures FromBE(bs) > 0
  {
    if |bs| > 1 {
      FromBEPositive(bs[..|bs| - 1]);
    }
  }

  /** A string without a leading zero is the minimal encoding of its number. */
  lemma {:induction false} MinBEUnique(bs: Bytes)
    requires bs == [] || bs[0] != 0
    ensures MinBE(FromBE(bs)) == bs
  {
    if bs != [] {
      FromBEPositive(bs);
      MinBEUnique(bs[..|bs| - 1]);
      assert FromBE(bs) / 256 == FromBE(bs[..|bs| - 1]);
      assert bs == bs[..|bs| - 1] + [bs[|bs| - 1]];
    }
  }

  lemma {:induction false} MinBEMonotone(a: nat, b: nat)
    requires a <= b
    ensures |MinBE(a)| <= |MinBE(b)|
  {
    if a != 0 {
      MinBEMonotone(a / 256, b / 256);
    }
  }

  /** n fits in w bytes exactly when its minimal encoding has at most w. */
  lemma {:induction false} MinBELength(n: nat, w: nat)
    ensures |MinBE(n)| <= w <==> n < Pow256(w)
  {
    if n != 0 && w != 0 {
      MinBELength(n / 256, w - 1);
    }
  }

  // ----- Little endian -----

  function LE(n: nat, w: nat): (bs: Bytes)
    ensures |bs| == w
  {
    if w == 0 then [] else [n % 256] + LE(n / 256, w - 1)
  }

  function FromLE(bs: Bytes): nat {
    if bs == [] then 0 else bs[0] + 256 * FromLE(bs[1..])
  }

  lemma {:induction false} FromLERoundTrip(n: nat, w: nat)
    requires n < Pow256(w)
    ensures FromLE(LE(n, w)) == n
  {
    if w != 0 {
      Digits(n, Pow256(w - 1));
      FromLERoundTrip(n / 256, w - 1);
      assert LE(n, w)[1..] == LE(n / 256, w - 1);
    }
  }

  lemma {:induction false} LERoundTrip(bs: Bytes)
    ensures FromLE(bs) < Pow256(|bs|)
    ensures LE(FromLE(bs), |bs|) == bs
  {
    if bs != [] {
      LERoundTrip(bs[1..]);
      LowDigit(FromLE(bs[1..]), bs[0]);
      assert bs == [bs[0]] + bs[1..];
    }
  }
}
