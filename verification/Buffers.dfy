/** Writing byte strings into a fixed buffer, as the codecs do with copy and PutUint. */
module Buffers {
  import opened Types

  function Zeros(n: nat): (z: Bytes)
    ensures |z| == n
    ensures forall i :: 0 <= i < n ==> z[i] == 0
  {
    seq(n, i => 0)
  }

  /** The sequence with the bytes from at on replaced. */
  function Patch(s: Bytes, at: nat, bs: Bytes): (p: Bytes)
    requires at + |bs| <= |s|
    ensures |p| == |s|
  {
    s[..at] + bs + s[at + |bs|..]
  }

  method Copy(buf: array<byte>, at: nat, bs: Bytes)
    requires at + |bs| <= buf.Length
    modifies buf
    ensures buf[..] == Patch(old(buf[..]), at, bs)
  {
    for i := 0 to |bs|
      invariant buf[..at] == old(buf[..at])
      invariant buf[at..at + i] == bs[..i]
      invariant buf[at + i..] == old(buf[at + i..])
    {
      buf[at + i] := bs[i];
      assert buf[at..at + i + 1] == buf[at..at + i] + [buf[at + i]];
      assert bs[..i + 1] == bs[..i] + [bs[i]];
      assert old(buf[at + i + 1..]) == old(buf[at + i..])[1..];
    }
    assert bs[..|bs|] == bs;
    assert buf[..] == buf[..at] + buf[at..at + |bs|] + buf[at + |bs|..];
  }

  /** The buffer holds the finished bytes, and zeros after them. */
  ghost predicate Holds(buf: array<byte>, done: Bytes)
    reads buf
  {
    |done| <= buf.Length && buf[..] == done + Zeros(buf.Length - |done|)
  }

  /** Appends pad zero bytes and then bs to the finished part of a zeroed buffer. */
  method Put(
    buf: array<byte>, pad: nat, bs: Bytes, ghost done: Bytes, offset: nat)
    returns (next: nat, ghost done': Bytes)
    requires Holds(buf, done) && offset == |done| && offset + pad + |bs| <= buf.Length
    modifies buf
    ensures done' == done + (Zeros(pad) + bs)
    ensures next == |done'| && Holds(buf, done')
  {
    Copy(buf, offset + pad, bs);
    next := offset + pad + |bs|;
    done' := done + (Zeros(pad) + bs);
    assert buf[..] == done' + Zeros(buf.Length - |done'|);
  }
}
