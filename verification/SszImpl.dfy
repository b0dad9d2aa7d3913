/** The loops and buffers of op-node/l2/ssz.go, proved against the codec of Ssz. */
module SszImpl {
  import opened Types
  import opened Numbers
  import opened Buffers
  import opened Ssz

  /** SizeSSZ, in 32-bit arithmetic. */
  method SizeSSZ(p: ExecutionPayload) returns (full: uint32)
    ensures full == Size(p) % TWO_32
  {
    var n := (FIXED_PART + |p.extraData|) % TWO_32;
    n := (n + |p.transactions| * 4) % TWO_32;
    var txs := p.transactions;
    assert txs[0..] == txs;
    for i := 0 to |txs|
      invariant 0 <= n < TWO_32 && Size(p) % TWO_32 == (n + |Flat(txs[i..])|) % TWO_32
    {
      assert txs[i..][0] == txs[i] && txs[i..][1..] == txs[i + 1..];
      AddWraps(n, |txs[i]|, |Flat(txs[i + 1..])|);
      n := (n + |txs[i]|) % TWO_32;
    }
    assert txs[|txs|..] == [];
    full := n;
  }

  lemma AddWraps(a: nat, b: nat, c: nat)
    ensures ((a + b) % TWO_32 + c) % TWO_32 == (a + (b + c)) % TWO_32
  {
  }

  /** The buffer starts with the finished bytes; what a reused buffer holds behind them is arbitrary. */
  ghost predicate Begins(buf: array<byte>, done: Bytes)
    reads buf
  {
    done <= buf[..]
  }

  lemma PatchExtends(s: Bytes, done: Bytes, bs: Bytes)
    requires done <= s && |done| + |bs| <= |s|
    ensures done + bs <= Patch(s, |done|, bs)
  {
  }

  method Append(buf: array<byte>, bs: Bytes, ghost done: Bytes, offset: nat) returns (next: nat, ghost done': Bytes)
    requires Begins(buf, done) && offset == |done| && offset + |bs| <= buf.Length
    modifies buf
    ensures done' == done + bs && next == |done'| && Begins(buf, done')
  {
    PatchExtends(buf[..], done, bs);
    Copy(buf, offset, bs);
    next, done' := offset + |bs|, done + bs;
  }

  /** The bytes before base, then the table of offsets, then the transactions, as far as they are written. */
  ghost predicate Written(s: Bytes, pre: Bytes, table: nat, offs: Bytes, body: Bytes) {
    && |offs| <= table && |pre| + table + |body| <= |s|
    && s[..|pre|] == pre
    && s[|pre|..|pre| + |offs|] == offs
    && s[|pre| + table..|pre| + table + |body|] == body
  }

  lemma OffsetWritten(s: Bytes, pre: Bytes, table: nat, offs: Bytes, body: Bytes, o: Bytes)
    requires Written(s, pre, table, offs, body) && |offs| + |o| <= table
    ensures Written(Patch(s, |pre| + |offs|, o), pre, table, offs + o, body)
  {
  }

  lemma BodyWritten(s: Bytes, pre: Bytes, table: nat, offs: Bytes, body: Bytes, tx: Bytes)
    requires Written(s, pre, table, offs, body) && |pre| + table + |body| + |tx| <= |s|
    ensures Written(Patch(s, |pre| + table + |body|, tx), pre, table, offs, body + tx)
  {
    var s' := Patch(s, |pre| + table + |body|, tx);
    assert s'[..|pre| + table + |body|] == s[..|pre| + table + |body|];
    assert s'[|pre|..|pre| + |offs|] == s[|pre|..|pre| + |offs|];
    assert s'[..|pre|] == s[..|pre|];
  }

  /** enc is the part of the encoding that is written, with what the transactions txs add to it. */
  ghost predicate Pending(enc: Bytes, offs: Bytes, body: Bytes, txs: seq<Bytes>, txOffset: nat) {
    enc == offs + Offsets(txs, txOffset) + (body + Flat(txs))
  }

  lemma PendingMoves(enc: Bytes, offs: Bytes, body: Bytes, txs: seq<Bytes>, txOffset: nat)
    requires Pending(enc, offs, body, txs, txOffset) && txs != []
    ensures Pending(enc, offs + LE(txOffset, 4), body + txs[0], txs[1..], txOffset + |txs[0]|)
    ensures |enc| >= |offs| + 4 * |txs| + |body| + |txs[0]|
  {
    Regroup(offs, LE(txOffset, 4), Offsets(txs[1..], txOffset + |txs[0]|), body, txs[0], Flat(txs[1..]));
  }

  lemma Regroup(offs: Bytes, o: Bytes, os: Bytes, body: Bytes, tx: Bytes, flat: Bytes)
    ensures offs + (o + os) + (body + (tx + flat)) == (offs + o) + os + ((body + tx) + flat)
  {
  }

  lemma PendingStart(txs: seq<Bytes>)
    ensures Pending(EncodeTxs(txs), [], [], txs, 4 * |txs|)
  {
  }

  lemma AllWritten(s: Bytes, pre: Bytes, enc: Bytes, offs: Bytes, body: Bytes, txOffset: nat)
    requires Written(s, pre, |offs|, offs, body) && Pending(enc, offs, body, [], txOffset)
    ensures pre + enc <= s
  {
    var n := |pre| + |offs| + |body|;
    assert enc == offs + body;
    assert s[..n] == s[..|pre|] + s[|pre|..|pre| + |offs|] + s[|pre| + |offs|..n];
  }

  /** The four-byte offsets at the front and the transactions behind them grow together. */
  method MarshalTransactions(buf: array<byte>, base: nat, txs: seq<Bytes>, ghost pre: Bytes, ghost enc: Bytes)
    requires Pending(enc, [], [], txs, 4 * |txs|) && base + |enc| <= buf.Length && |enc| < TWO_32
    requires base == |pre| && pre <= buf[..]
    modifies buf
    ensures pre + enc <= buf[..]
  {
    var offset: nat, txOffset: nat, table: nat := 0, 4 * |txs|, 4 * |txs|;
    ghost var offs: Bytes, body: Bytes, rest := [], [], txs;
    for i := 0 to |txs|
      invariant rest == txs[i..] && offset == |offs| && offset + 4 * |rest| == table && txOffset == table + |body|
      invariant Written(buf[..], pre, table, offs, body)
      invariant Pending(enc, offs, body, rest, txOffset)
    {
      var tx := txs[i];
      offs, body := PutTransaction(buf, base, table, tx, rest, pre, enc, offs, body, offset, txOffset);
      rest := rest[1..];
      offset := offset + 4;
      txOffset := txOffset + |tx|;
    }
    AllWritten(buf[..], pre, enc, offs, body, txOffset);
  }

  /** One transaction: its offset into the table, its bytes behind the earlier ones. */
  method PutTransaction(buf: array<byte>, base: nat, table: nat, tx: Bytes, ghost txs: seq<Bytes>, ghost pre: Bytes,
      ghost enc: Bytes,
      ghost offs: Bytes, ghost body: Bytes, offset: nat, txOffset: nat)
    returns (ghost offs': Bytes, ghost body': Bytes)
    requires txs != [] && tx == txs[0] && Pending(enc, offs, body, txs, txOffset)
    requires base == |pre| && Written(buf[..], pre, table, offs, body) && offset == |offs| && txOffset == table + |body|
    requires offset + 4 * |txs| == table && base + |enc| <= buf.Length
    modifies buf
    ensures |offs'| == |offs| + 4 && |body'| == |body| + |tx|
    ensures Written(buf[..], pre, table, offs', body')
    ensures Pending(enc, offs', body', txs[1..], txOffset + |tx|)
  {
    PendingMoves(enc, offs, body, txs, txOffset);
    var o := LE(txOffset, 4);
    PutOffset(buf, base, table, o, pre, offs, body, offset);
    PutBody(buf, base, table, tx, pre, offs + o, body, txOffset);
    offs', body' := offs + o, body + tx;
  }

  method PutOffset(
    buf: array<byte>, base: nat, ghost table: nat, o: Bytes, ghost pre: Bytes, ghost offs: Bytes, ghost body: Bytes,
    offset: nat)
    requires base == |pre| && Written(buf[..], pre, table, offs, body) && offset == |offs| && offset + |o| <= table
    modifies buf
    ensures Written(buf[..], pre, table, offs + o, body)
  {
    OffsetWritten(buf[..], pre, table, offs, body, o);
    Copy(buf, base + offset, o);
  }

  method PutBody(
    buf: array<byte>, base: nat, ghost table: nat, tx: Bytes, ghost pre: Bytes, ghost offs: Bytes, ghost body: Bytes,
    txOffset: nat)
    requires base == |pre| && Written(buf[..], pre, table, offs, body) && txOffset == table + |body|
    requires base + txOffset + |tx| <= buf.Length
    modifies buf
    ensures Written(buf[..], pre, table, offs, body + tx)
  {
    BodyWritten(buf[..], pre, table, offs, body, tx);
    Copy(buf, base + txOffset, tx);
  }

  /** MarshalSSZ into a buffer of the pool when it is large enough, else into a new one. */
  method MarshalSSZ(p: ExecutionPayload, pool: array<byte>) returns (w: Bytes)
    requires p.Fits() && Size(p) < TWO_32
    modifies pool
    ensures w == Encode(p)
  {
    var scope := SizeSSZ(p);
    var buf := pool;
    if pool.Length < scope {
      buf := new byte[scope](_ => 0);
    }
    var offset := PutFixedPart(p, buf);
    ghost var d;
    offset, d := Append(buf, p.extraData, FixedPart(p), offset);
    PendingStart(p.transactions);
    MarshalTransactions(buf, offset, p.transactions, d, EncodeTxs(p.transactions));
    assert |Encode(p)| == scope;
    w := buf[..scope];
  }

  method PutFixedPart(p: ExecutionPayload, buf: array<byte>) returns (offset: nat)
    requires p.Fits() && FIXED_PART <= buf.Length
    modifies buf
    ensures offset == FIXED_PART && Begins(buf, FixedPart(p))
  {
    offset := PutHead(p, buf);
    ghost var d;
    offset, d := PutQuad(buf, p.blockNumber, p.gasLimit, p.gasUsed, p.timestamp, HeadPart(p), offset);
    offset := PutTail(p, buf, d, offset);
  }

  method PutHead(p: ExecutionPayload, buf: array<byte>) returns (offset: nat)
    requires p.Fits() && FIXED_PART <= buf.Length
    modifies buf
    ensures offset == |HeadPart(p)| && Begins(buf, HeadPart(p))
  {
    ghost var d1, d2, d3, d4, d5, d6;
    offset, d1 := Append(buf, p.parentHash, [], 0);
    offset, d2 := Append(buf, p.feeRecipient, d1, offset);
    offset, d3 := Append(buf, p.stateRoot, d2, offset);
    offset, d4 := Append(buf, p.receiptsRoot, d3, offset);
    offset, d5 := Append(buf, p.logsBloom, d4, offset);
    offset, d6 := Append(buf, p.prevRandao, d5, offset);
    assert [] + p.parentHash == p.parentHash;
  }

  method PutTail(p: ExecutionPayload, buf: array<byte>, ghost done: Bytes, offset: nat) returns (next: nat)
    requires p.Fits() && Begins(buf, done) && offset == |done| && offset + |TailPart(p)| <= buf.Length
    modifies buf
    ensures next == offset + |TailPart(p)| && Begins(buf, done + TailPart(p))
  {
    var z := p.baseFeePerGas;
    ghost var d1, d2, d3, d4;
    next, d1 := Append(buf, LE(FIXED_PART, 4), done, offset);
    next, d2 := PutQuad(buf, z.z0, z.z1, z.z2, z.z3, d1, next);
    next, d3 := Append(buf, p.blockHash, d2, next);
    next, d4 := Append(buf, LE(FIXED_PART + |p.extraData|, 4), d3, next);
    FourPieces(done, LE(FIXED_PART, 4), LimbsPart(z), p.blockHash, LE(FIXED_PART + |p.extraData|, 4));
  }

  lemma FourPieces(done: Bytes, a: Bytes, b: Bytes, c: Bytes, e: Bytes)
    ensures done + a + b + c + e == done + (a + b + c + e)
  {
  }

  method PutQuad(
    buf: array<byte>, a: uint64, b: uint64, c: uint64, e: uint64, ghost done: Bytes, offset: nat)
    returns (next: nat, ghost done': Bytes)
    requires Begins(buf, done) && offset == |done| && offset + 32 <= buf.Length
    modifies buf
    ensures done' == done + Quad(a, b, c, e) && next == |done'| && Begins(buf, done')
  {
    ghost var d1, d2, d3;
    next, d1 := Append(buf, LE(a, 8), done, offset);
    next, d2 := Append(buf, LE(b, 8), d1, next);
    next, d3 := Append(buf, LE(c, 8), d2, next);
    next, done' := Append(buf, LE(e, 8), d3, next);
    FourPieces(done, LE(a, 8), LE(b, 8), LE(c, 8), LE(e, 8));
  }

  /** unmarshalTransactions, slice by slice. */
  method UnmarshalTransactions(d: Bytes) returns (res: Checked<seq<Bytes>>)
    requires |d| < TWO_32
    ensures res == UnmarshalTxs(d)
  {
    var scope := |d|;
    if scope == 0 {
      return Value([]);
    }
    if scope < 4 {
      return Rejected;
    }
    var offset: nat := 0;
    var firstTxOffset :- ReadOffset(d, offset);
    offset := offset + 4;
    if firstTxOffset % 4 != 0 {
      return Rejected;
    }
    if firstTxOffset > scope {
      return Rejected;
    }
    var txCount := firstTxOffset / 4;
    if txCount > MAX_TRANSACTIONS {
      return Rejected;
    }
    var txs: seq<Bytes> := [];
    var currentTxOffset: nat := firstTxOffset;
    PrependNothing(UnmarshalTxs(d));
    for i := 0 to txCount
      invariant offset == 4 * (i + 1)
      invariant UnmarshalTxs(d) == Prepend(txs, UnmarshalLoop(d, txCount, i, offset, currentTxOffset))
    {
      var nextTxOffset: nat := scope;
      if i + 1 < txCount {
        nextTxOffset :- ReadOffset(d, offset);
      }
      offset := offset + 4;
      if nextTxOffset < currentTxOffset || nextTxOffset > scope {
        return Rejected;
      }
      var tx :- Slice(d, currentTxOffset, nextTxOffset);
      LoopTakes(d, txCount, i, offset - 4, currentTxOffset, nextTxOffset, tx);
      PrependMoves(txs, tx, UnmarshalLoop(d, txCount, i + 1, offset, nextTxOffset));
      txs := txs + [tx];
      currentTxOffset := nextTxOffset;
    }
    assert txs + [] == txs;
    return Value(txs);
  }

  /** One round of the loop puts a transaction in front of the others. */
  lemma LoopTakes(d: Bytes, count: nat, i: nat, offset: nat, current: nat, next: nat, tx: Bytes)
    requires i < count && current <= next <= |d| && Slice(d, current, next) == Value(tx)
    requires if i + 1 < count then ReadOffset(d, offset) == Value(next) else next == |d|
    ensures UnmarshalLoop(d, count, i, offset, current)
            == Prepend([tx], UnmarshalLoop(d, count, i + 1, offset + 4, next))
  {
  }

  lemma PrependNothing(rest: Checked<seq<Bytes>>)
    ensures Prepend([], rest) == rest
  {
    if rest.Value? {
      assert [] + rest.value == rest.value;
    }
  }

  lemma PrependMoves(txs: seq<Bytes>, tx: Bytes, rest: Checked<seq<Bytes>>)
    ensures Prepend(txs, Prepend([tx], rest)) == Prepend(txs + [tx], rest)
  {
    if rest.Value? {
      assert txs + ([tx] + rest.value) == (txs + [tx]) + rest.value;
    }
  }

  function Prepend(txs: seq<Bytes>, rest: Checked<seq<Bytes>>): Checked<seq<Bytes>> {
    if rest.Value? then Value(txs + rest.value) else rest
  }

  /** UnmarshalSSZ of scope bytes of a reader, with a running offset. */
  method UnmarshalSSZ(scope: uint32, input: Bytes) returns (res: Checked<ExecutionPayload>)
    ensures res == if |input| < scope then Rejected else Unmarshal(input[..scope])
  {
    if scope < FIXED_PART {
      return Rejected;
    }
    if |input| < scope {
      return Rejected;
    }
    var buf := input[..scope];
    var p :- UnmarshalFixedFields(buf);
    var offset: nat := 436;
    var extraDataOffset :- ReadOffset(buf, offset);
    if extraDataOffset != FIXED_PART {
      return Rejected;
    }
    offset := offset + 4;
    var baseFee :- Slice(buf, offset, offset + 32);
    offset := offset + 32;
    var blockHash :- Slice(buf, offset, offset + 32);
    offset := offset + 32;
    var transactionsOffset :- ReadOffset(buf, offset);
    if transactionsOffset > extraDataOffset + MAX_EXTRA_DATA || transactionsOffset > scope {
      return Rejected;
    }
    var extraData :- Slice(buf, extraDataOffset, transactionsOffset);
    var section :- Slice(buf, transactionsOffset, |buf|);
    var txs :- UnmarshalTransactions(section);
    return Value(p.(baseFeePerGas := ReadLimbs(baseFee), blockHash := blockHash, extraData := extraData,
      transactions := txs));
  }

  /** The fields in front of the first offset. */
  method UnmarshalFixedFields(buf: Bytes) returns (res: Checked<ExecutionPayload>)
    ensures res == UnmarshalHead(buf)
  {
    var offset: nat := 0;
    var parentHash :- Slice(buf, offset, offset + 32);
    offset := offset + 32;
    var feeRecipient :- Slice(buf, offset, offset + 20);
    offset := offset + 20;
    var stateRoot :- Slice(buf, offset, offset + 32);
    offset := offset + 32;
    var receiptsRoot :- Slice(buf, offset, offset + 32);
    offset := offset + 32;
    var logsBloom :- Slice(buf, offset, offset + 256);
    offset := offset + 256;
    var prevRandao :- Slice(buf, offset, offset + 32);
    offset := offset + 32;
    var blockNumber :- ReadNumber(buf, offset);
    offset := offset + 8;
    var gasLimit :- ReadNumber(buf, offset);
    offset := offset + 8;
    var gasUsed :- ReadNumber(buf, offset);
    offset := offset + 8;
    var timestamp :- ReadNumber(buf, offset);
    return Value(ExecutionPayload(parentHash, feeRecipient, stateRoot, receiptsRoot, logsBloom, prevRandao,
                                  blockNumber, gasLimit, gasUsed, timestamp, Limbs(0, 0, 0, 0), [], [], []));
  }
}
