/**
  op-node/rollup/derive/payload_attributes.go: which batches of a sequencing window count,
  and how they become a contiguous run of L2 slots.
 */
module Derivation {
  import opened Types
  import opened Numbers

  /** The inputs of FilterBatches and FillMissingBatches for one epoch. */
  datatype Span = Span(genesisTime: nat, blockTime: nat, epoch: nat, minTime: nat, maxTime: nat)
  {
    /** The first slot of the epoch is a whole number of blocks after genesis. */
    predicate Aligned()
      requires blockTime > 0
    {
      minTime >= genesisTime && (minTime - genesisTime) % blockTime == 0
    }
  }

  /** Subtraction of uint64 values, wrapping below zero. */
  function Sub64(a: nat, b: nat): nat {
    (a - b) % TWO_64
  }

  predicate ValidBatch(w: Span, b: Batch)
    requires w.blockTime > 0
  {
    && b.epoch == w.epoch
    && Sub64(b.timestamp, w.genesisTime) % w.blockTime == 0
    && b.timestamp >= w.minTime
    && b.timestamp < w.maxTime
    && forall tx :: tx in b.txs ==> IsSequenced(tx)
  }

  /** The first valid batch for L2 time t, in the order the batches were read from L1. */
  function FirstValid(w: Span, bs: seq<Batch>, t: nat): Option<Batch>
    requires w.blockTime > 0
  {
    if bs == [] then None
    else if ValidBatch(w, bs[0]) && bs[0].timestamp == t then Some(bs[0])
    else FirstValid(w, bs[1..], t)
  }

  /** The batches that survive filtering: each is the first valid one for its time. */
  function Filtered(w: Span, bs: seq<Batch>): (r: seq<Batch>)
    requires w.blockTime > 0
  {
    if bs == [] then []
    else
      var n := |bs| - 1;
      var kept := Filtered(w, bs[..n]);
      if ValidBatch(w, bs[n]) && FirstValid(w, bs[..n], bs[n].timestamp) == None then kept + [bs[n]] else kept
  }

  lemma {:induction false} FirstValidSplit(w: Span, a: seq<Batch>, b: seq<Batch>, t: nat)
    requires w.blockTime > 0
    ensures FirstValid(w, a + b, t) == if FirstValid(w, a, t).Some? then FirstValid(w, a, t) else FirstValid(w, b, t)
  {
    if a == [] {
      assert a + b == b;
    } else {
      assert (a + b)[1..] == a[1..] + b;
      FirstValidSplit(w, a[1..], b, t);
    }
  }

  /** FirstValid returns a valid batch of the list for that very time, and None only when there is none. */
  lemma {:induction false} FirstValidIsValid(w: Span, bs: seq<Batch>, t: nat)
    requires w.blockTime > 0
    ensures match FirstValid(w, bs, t)
            case Some(b) => b in bs && ValidBatch(w, b) && b.timestamp == t
            case None => forall b :: b in bs && ValidBatch(w, b) ==> b.timestamp != t
  {
    if bs != [] {
      FirstValidIsValid(w, bs[1..], t);
    }
  }

  /** Filtering keeps exactly the first valid batch of every time, and only one batch per time. */
  lemma {:induction false} FilteredIsFirstValid(w: Span, bs: seq<Batch>)
    requires w.blockTime > 0
    ensures forall b :: b in Filtered(w, bs) <==> FirstValid(w, bs, b.timestamp) == Some(b)
    ensures forall i, j :: 0 <= i < j < |Filtered(w, bs)| ==>
            Filtered(w, bs)[i].timestamp != Filtered(w, bs)[j].timestamp
  {
    if bs != [] {
      var n := |bs| - 1;
      var init, last := bs[..n], bs[n];
      assert bs == init + [last];
      FilteredIsFirstValid(w, init);
      forall b ensures b in Filtered(w, bs) <==> FirstValid(w, bs, b.timestamp) == Some(b) {
        FirstValidSplit(w, init, [last], b.timestamp);
        FirstValidIsValid(w, init, b.timestamp);
        assert FirstValid(w, [last], b.timestamp)
            == if ValidBatch(w, last) && last.timestamp == b.timestamp then Some(last) else None;
      }
    }
  }

  /** FilterBatches: one pass that remembers the times already taken. */
  method FilterBatches(w: Span, bs: seq<Batch>) returns (out: seq<Batch>)
    requires w.blockTime > 0
    ensures out == Filtered(w, bs)
  {
    var uniqueTime: set<nat> := {};
    out := [];
    for i := 0 to |bs|
      invariant out == Filtered(w, bs[..i])
      invariant uniqueTime == set b | b in out :: b.timestamp
    {
      var batch := bs[i];
      assert bs[..i + 1][..i] == bs[..i];
      FilteredIsFirstValid(w, bs[..i]);
      FirstValidIsValid(w, bs[..i], batch.timestamp);
      assert batch.timestamp in uniqueTime <==> FirstValid(w, bs[..i], batch.timestamp).Some? by {
        var f := FirstValid(w, bs[..i], batch.timestamp);
        if f.Some? {
          assert f.value in out;
        }
      }
      if ValidBatch(w, batch) && batch.timestamp !in uniqueTime {
        uniqueTime := uniqueTime + {batch.timestamp};
        out := out + [batch];
      }
    }
    assert bs[..|bs|] == bs;
  }

  /** The batch the map of FillMissingBatches holds for time t: the last one written. */
  function LastAt(bs: seq<Batch>, t: nat): Option<Batch> {
    if bs == [] then None
    else if bs[|bs| - 1].timestamp == t then Some(bs[|bs| - 1])
    else LastAt(bs[..|bs| - 1], t)
  }

  function Max(a: nat, b: nat): nat {
    if b > a then b else a
  }

  /** How far the epoch reaches before any batch is looked at: at least one slot, and up to the next L1 time. */
  function FillTime(blockTime: nat, minTime: nat, nextL1Time: nat): (t: nat) {
    if nextL1Time > minTime + blockTime then nextL1Time - blockTime else minTime
  }

  /** newHeadL2Timestamp after the loop over the batches. */
  function HeadTime(bs: seq<Batch>, blockTime: nat, minTime: nat, nextL1Time: nat): (t: nat)
    ensures t >= FillTime(blockTime, minTime, nextL1Time) >= minTime
    ensures forall b :: b in bs ==> b.timestamp <= t
    ensures t == FillTime(blockTime, minTime, nextL1Time) || exists b :: b in bs && b.timestamp == t
  {
    if bs == [] then FillTime(blockTime, minTime, nextL1Time)
    else
      var rest := HeadTime(bs[..|bs| - 1], blockTime, minTime, nextL1Time);
      assert forall b :: b in bs ==> b in bs[..|bs| - 1] || b == bs[|bs| - 1];
      Max(rest, bs[|bs| - 1].timestamp)
  }

  function SlotBatch(bs: seq<Batch>, epoch: nat, t: nat): Batch {
    match LastAt(bs, t)
    case Some(b) => b
    case None => Batch(epoch, t, [])
  }

  /** The number of slots from minTime up to and including headTime. */
  function SlotCount(blockTime: nat, minTime: nat, headTime: nat): nat
    requires blockTime > 0 && headTime >= minTime
  {
    (headTime - minTime) / blockTime + 1
  }

  /** The time of slot i of an epoch whose first slot is at minTime. */
  function SlotTime(minTime: nat, blockTime: nat, i: nat): nat {
    minTime + i * blockTime
  }

  /** The slots of an epoch as a function of their index. */
  function Filled(bs: seq<Batch>, epoch: nat, blockTime: nat, minTime: nat, nextL1Time: nat): seq<Batch>
    requires blockTime > 0
  {
    var n := SlotCount(blockTime, minTime, HeadTime(bs, blockTime, minTime, nextL1Time));
    seq(n, i requires 0 <= i < n => SlotBatch(bs, epoch, SlotTime(minTime, blockTime, i)))
  }

  /** Slot i exists exactly when its time does not pass headTime. */
  lemma SlotExists(blockTime: nat, minTime: nat, headTime: nat, i: nat)
    requires blockTime > 0 && headTime >= minTime
    ensures i < SlotCount(blockTime, minTime, headTime) <==> SlotTime(minTime, blockTime, i) <= headTime
    ensures SlotTime(minTime, blockTime, i + 1) == SlotTime(minTime, blockTime, i) + blockTime
  {
    DivBounds(headTime - minTime, blockTime, i);
  }

  /** The first loop of FillMissingBatches: index the batches by time and find the last time to reach. */
  method IndexBatches(
    bs: seq<Batch>, blockTime: nat, minTime: nat, nextL1Time: nat)
    returns (m: map<nat, Batch>, headTime: nat)
    ensures headTime == HeadTime(bs, blockTime, minTime, nextL1Time)
    ensures forall t: nat :: if t in m then LastAt(bs, t) == Some(m[t]) else LastAt(bs, t) == None
  {
    m := map[];
    headTime := minTime;
    if nextL1Time > headTime + blockTime {
      headTime := nextL1Time - blockTime;
    }
    for i := 0 to |bs|
      invariant headTime == HeadTime(bs[..i], blockTime, minTime, nextL1Time)
      invariant forall t: nat :: if t in m then LastAt(bs[..i], t) == Some(m[t]) else LastAt(bs[..i], t) == None
    {
      var b := bs[i];
      assert bs[..i + 1][..i] == bs[..i];
      m := m[b.timestamp := b];
      if b.timestamp > headTime {
        headTime := b.timestamp;
      }
    }
    assert bs[..|bs|] == bs;
  }

  method FillMissingBatches(
    bs: seq<Batch>, epoch: nat, blockTime: nat, minTime: nat, nextL1Time: nat)
    returns (out: seq<Batch>)
    requires blockTime > 0
    ensures out == Filled(bs, epoch, blockTime, minTime, nextL1Time)
  {
    var m, headTime := IndexBatches(bs, blockTime, minTime, nextL1Time);
    out := [];
    var t := minTime;
    SlotExists(blockTime, minTime, headTime, 0);
    while t <= headTime
      invariant t == SlotTime(minTime, blockTime, |out|)
      invariant |out| <= SlotCount(blockTime, minTime, headTime)
      invariant forall i :: 0 <= i < |out| ==> out[i] == SlotBatch(bs, epoch, SlotTime(minTime, blockTime, i))
      decreases headTime + blockTime - t
    {
      SlotExists(blockTime, minTime, headTime, |out|);
      out := out + [if t in m then m[t] else Batch(epoch, t, [])];
      t := t + blockTime;
    }
    SlotExists(blockTime, minTime, headTime, |out|);
  }

  // ----- The slot specification -----

  /** FilterBatches followed by FillMissingBatches, as insertEpoch runs them. */
  function DeriveSlots(w: Span, bs: seq<Batch>, nextL1Time: nat): seq<Batch>
    requires w.blockTime > 0
  {
    Filled(Filtered(w, bs), w.epoch, w.blockTime, w.minTime, nextL1Time)
  }

  /** What a slot should hold: the first valid batch for its time, or nothing. */
  function SlotContent(w: Span, bs: seq<Batch>, t: nat): Batch
    requires w.blockTime > 0
  {
    match FirstValid(w, bs, t)
    case Some(b) => b
    case None => Batch(w.epoch, t, [])
  }

  lemma {:induction false} LastAtIsThere(bs: seq<Batch>, t: nat)
    ensures match LastAt(bs, t)
            case Some(b) => b in bs && b.timestamp == t
            case None => forall b :: b in bs ==> b.timestamp != t
  {
    if bs != [] {
      var init, last := bs[..|bs| - 1], bs[|bs| - 1];
      LastAtIsThere(init, t);
      assert forall b :: b in bs ==> b in init || b == last;
    }
  }

  /** After filtering, the last batch written to the map for a time is the first valid one. */
  lemma LastAtOfFiltered(w: Span, bs: seq<Batch>, t: nat)
    requires w.blockTime > 0
    ensures LastAt(Filtered(w, bs), t) == FirstValid(w, bs, t)
  {
    FilteredIsFirstValid(w, bs);
    LastAtIsThere(Filtered(w, bs), t);
    FirstValidIsValid(w, bs, t);
    var f := FirstValid(w, bs, t);
    if f.Some? {
      assert f.value in Filtered(w, bs);
    }
  }

  /** Slot i holds the first valid batch for its time, or an empty batch. */
  lemma DeriveSlotAt(w: Span, bs: seq<Batch>, nextL1Time: nat, i: nat)
    requires w.blockTime > 0
    requires i < |DeriveSlots(w, bs, nextL1Time)|
    ensures DeriveSlots(w, bs, nextL1Time)[i] == SlotContent(w, bs, SlotTime(w.minTime, w.blockTime, i))
    ensures DeriveSlots(w, bs, nextL1Time)[i].timestamp == SlotTime(w.minTime, w.blockTime, i)
    ensures DeriveSlots(w, bs, nextL1Time)[i].epoch == w.epoch
    ensures forall tx :: tx in DeriveSlots(w, bs, nextL1Time)[i].txs ==> IsSequenced(tx)
  {
    LastAtOfFiltered(w, bs, SlotTime(w.minTime, w.blockTime, i));
    FirstValidIsValid(w, bs, SlotTime(w.minTime, w.blockTime, i));
  }

  /**
    The refinement: whatever the window holds, the epoch has at least one slot, slot i is
    stamped minTime + i * blockTime, and it holds the first valid batch for that time or an
    empty batch of this epoch.
   */
  lemma DeriveSlotsSpec(w: Span, bs: seq<Batch>, nextL1Time: nat)
    requires w.blockTime > 0
    ensures var out := DeriveSlots(w, bs, nextL1Time);
            && |out| >= 1
            && forall i :: 0 <= i < |out| ==>
                 && out[i] == SlotContent(w, bs, SlotTime(w.minTime, w.blockTime, i))
                 && out[i].timestamp == SlotTime(w.minTime, w.blockTime, i)
                 && out[i].epoch == w.epoch
                 && forall tx :: tx in out[i].txs ==> IsSequenced(tx)
  {
    forall i | 0 <= i < |DeriveSlots(w, bs, nextL1Time)| {
      DeriveSlotAt(w, bs, nextL1Time, i);
    }
  }

  /** The slots end at the last slot time that does not pass the head time. */
  lemma DeriveSlotsLength(w: Span, bs: seq<Batch>, nextL1Time: nat, i: nat)
    requires w.blockTime > 0
    ensures var head := HeadTime(Filtered(w, bs), w.blockTime, w.minTime, nextL1Time);
            i < |DeriveSlots(w, bs, nextL1Time)| <==> SlotTime(w.minTime, w.blockTime, i) <= head
  {
    SlotExists(w.blockTime, w.minTime, HeadTime(Filtered(w, bs), w.blockTime, w.minTime, nextL1Time), i);
  }

  // ----- Alignment: when no batch is lost -----

  lemma MultipleIsFar(m: int, d: nat)
    ensures m >= 1 ==> m * d >= d
    ensures m <= -1 ==> m * d + d <= 0
  {
    if m >= 1 {
      MulMonotone(1, m, d);
    } else if m <= -1 {
      MulMonotone(1, -m, d);
    }
  }

  lemma ModOfMultiple(k: int, d: nat, r: nat)
    requires 0 <= r < d
    ensures (k * d + r) % d == r
    ensures (k * d + r) / d == k
  {
    var x := k * d + r;
    var q := x / d;
    assert x == q * d + x % d;
    assert (q - k) * d == q * d - k * d == r - x % d;
    MultipleIsFar(q - k, d);
  }

  /** Two times with the same offset from a third are a whole number of blocks apart, and conversely. */
  lemma AlignedDifference(x: nat, y: nat, d: nat)
    requires d > 0 && x % d == 0 && y <= x
    ensures (x - y) % d == 0 <==> y % d == 0
  {
    var q, k, r := x / d, y / d, y % d;
    assert x == q * d && y == k * d + r;
    if r == 0 {
      assert x - y == (q - k) * d + 0;
      ModOfMultiple(q - k, d, 0);
    } else {
      assert x - y == (q - k - 1) * d + (d - r);
      ModOfMultiple(q - k - 1, d, d - r);
    }
  }

  /** From the genesis time on, the wrapping subtraction of ValidBatch is the exact one. */
  lemma ValidBatchExact(w: Span, b: Batch)
    requires w.blockTime > 0 && w.minTime >= w.genesisTime && b.timestamp < TWO_64
    ensures ValidBatch(w, b) <==>
              && b.epoch == w.epoch
              && w.minTime <= b.timestamp < w.maxTime
              && (b.timestamp - w.genesisTime) % w.blockTime == 0
              && forall tx :: tx in b.txs ==> IsSequenced(tx)
  {
  }

  /** Before the genesis time the wrap-around shows: 2^64 - 1 is a multiple of 3, but -1 is not. */
  lemma ValidBatchWrapsBeforeGenesis()
    ensures var w := Span(1, 3, 7, 0, 10);
            var b := Batch(7, 0, []);
            ValidBatch(w, b) && (b.timestamp - w.genesisTime) % w.blockTime != 0
  {
    assert Sub64(0, 1) == TWO_64 - 1;
    assert (TWO_64 - 1) % 3 == 0;
  }

  /** The times a whole number of blocks after minTime are exactly the slot times. */
  lemma SlotTimes(minTime: nat, d: nat, t: nat, i: nat)
    requires d > 0 && t >= minTime
    ensures (t - minTime) % d == 0 ==> t == SlotTime(minTime, d, (t - minTime) / d)
    ensures t == SlotTime(minTime, d, i) ==> (t - minTime) % d == 0
  {
    if t == SlotTime(minTime, d, i) {
      assert t - minTime == i * d + 0;
      ModOfMultiple(i, d, 0);
    }
  }

  /** A valid batch is a whole number of blocks after the first slot exactly when that slot is aligned. */
  lemma ValidBatchOffset(w: Span, b: Batch)
    requires w.blockTime > 0 && w.minTime >= w.genesisTime
    requires ValidBatch(w, b) && b.timestamp < TWO_64
    ensures b.timestamp >= w.minTime
    ensures w.Aligned() <==> (b.timestamp - w.minTime) % w.blockTime == 0
  {
    ValidBatchExact(w, b);
    AlignedDifference(b.timestamp - w.genesisTime, w.minTime - w.genesisTime, w.blockTime);
  }

  /** A filtered batch has a slot exactly when it is a whole number of blocks after the first slot. */
  lemma FilteredBatchHasSlot(w: Span, bs: seq<Batch>, nextL1Time: nat, b: Batch)
    requires w.blockTime > 0
    requires b in Filtered(w, bs) && b.timestamp >= w.minTime
    ensures b in DeriveSlots(w, bs, nextL1Time) <==> (b.timestamp - w.minTime) % w.blockTime == 0
  {
    var out, d := DeriveSlots(w, bs, nextL1Time), w.blockTime;
    assert FirstValid(w, bs, b.timestamp) == Some(b) by { FilteredIsFirstValid(w, bs); }
    if (b.timestamp - w.minTime) % d == 0 {
      var i := (b.timestamp - w.minTime) / d;
      SlotTimes(w.minTime, d, b.timestamp, i);
      DeriveSlotsLength(w, bs, nextL1Time, i);
      DeriveSlotAt(w, bs, nextL1Time, i);
      assert out[i] == b;
    } else {
      forall j | 0 <= j < |out| ensures out[j] != b {
        DeriveSlotAt(w, bs, nextL1Time, j);
        SlotTimes(w.minTime, d, b.timestamp, j);
      }
    }
  }

  /** No filtered batch is lost, whatever the window holds, if and only if the first slot is aligned. */
  lemma NoBatchLost(w: Span, bs: seq<Batch>, nextL1Time: nat)
    requires w.blockTime > 0 && w.minTime >= w.genesisTime
    requires forall b :: b in bs ==> b.timestamp < TWO_64
    ensures (forall b :: b in Filtered(w, bs) ==> b in DeriveSlots(w, bs, nextL1Time)) <==>
            Filtered(w, bs) == [] || w.Aligned()
  {
    var kept := Filtered(w, bs);
    FilteredIsFirstValid(w, bs);
    forall b | b in kept ensures b in DeriveSlots(w, bs, nextL1Time) <==> w.Aligned() {
      FirstValidIsValid(w, bs, b.timestamp);
      ValidBatchOffset(w, b);
      FilteredBatchHasSlot(w, bs, nextL1Time, b);
    }
    if kept != [] {
      assert kept[0] in kept;
    }
  }

  // ----- Time bounds of one epoch -----

  /** No derived slot reaches both the drift limit and the next L1 time. */
  lemma SlotsBelowLimit(w: Span, bs: seq<Batch>, nextL1Time: nat, i: nat)
    requires w.blockTime > 0 && w.minTime < w.maxTime
    requires i < |DeriveSlots(w, bs, nextL1Time)|
    ensures SlotTime(w.minTime, w.blockTime, i) < Max(w.maxTime, nextL1Time)
  {
    var kept := Filtered(w, bs);
    DeriveSlotsLength(w, bs, nextL1Time, i);
    FilteredIsFirstValid(w, bs);
    forall b | b in kept ensures b.timestamp < w.maxTime {
      FirstValidIsValid(w, bs, b.timestamp);
    }
  }

  /** The first slot after the epoch: where the next epoch starts. */
  function NextMinTime(w: Span, bs: seq<Batch>, nextL1Time: nat): nat
    requires w.blockTime > 0
  {
    SlotTime(w.minTime, w.blockTime, |DeriveSlots(w, bs, nextL1Time)|)
  }

  /** The next epoch starts less than one block before its L1 origin's time. */
  lemma NextEpochNearOrigin(w: Span, bs: seq<Batch>, nextL1Time: nat)
    requires w.blockTime > 0
    ensures NextMinTime(w, bs, nextL1Time) + w.blockTime > nextL1Time
  {
    DeriveSlotsLength(w, bs, nextL1Time, |DeriveSlots(w, bs, nextL1Time)|);
  }

  /**
    When the next epoch does not start before its L1 origin: the origin is at most one block
    ahead, or falls on a slot, or some valid batch already reaches the last slot before it.
   */
  ghost predicate ReachesNextL1(w: Span, bs: seq<Batch>, nextL1Time: nat)
    requires w.blockTime > 0
  {
    || nextL1Time <= w.minTime + w.blockTime
    || (nextL1Time - w.minTime) % w.blockTime == 0
    || exists b ::
         && b in bs && ValidBatch(w, b)
         && b.timestamp >= SlotTime(w.minTime, w.blockTime, (nextL1Time - w.minTime) / w.blockTime)
  }

  lemma HeadReaches(w: Span, bs: seq<Batch>, nextL1Time: nat, t: nat)
    requires w.blockTime > 0
    ensures t <= HeadTime(Filtered(w, bs), w.blockTime, w.minTime, nextL1Time) <==>
              || t <= FillTime(w.blockTime, w.minTime, nextL1Time)
              || exists b :: b in bs && ValidBatch(w, b) && b.timestamp >= t
  {
    var kept := Filtered(w, bs);
    FilteredIsFirstValid(w, bs);
    forall b | b in kept ensures b in bs && ValidBatch(w, b) {
      FirstValidIsValid(w, bs, b.timestamp);
    }
    forall b | b in bs && ValidBatch(w, b)
      ensures b.timestamp <= HeadTime(kept, w.blockTime, w.minTime, nextL1Time)
    {
      FirstValidIsValid(w, bs, b.timestamp);
      assert FirstValid(w, bs, b.timestamp).value in kept;
    }
  }

  /**
    specs/rollup-node.md says an L2 block is never stamped before its L1 origin. For the first
    block of the next epoch the code meets that exactly under ReachesNextL1.
   */
  lemma NextEpochNotBeforeOrigin(w: Span, bs: seq<Batch>, nextL1Time: nat)
    requires w.blockTime > 0
    ensures NextMinTime(w, bs, nextL1Time) >= nextL1Time <==> ReachesNextL1(w, bs, nextL1Time)
  {
    var n, d := |DeriveSlots(w, bs, nextL1Time)|, w.blockTime;
    DeriveSlotsSpec(w, bs, nextL1Time);
    if nextL1Time <= w.minTime + d {
      MulMonotone(1, n, d);
    } else {
      var last := LastSlotBefore(w.minTime, d, nextL1Time);
      DeriveSlotsLength(w, bs, nextL1Time, last);
      HeadReaches(w, bs, nextL1Time, SlotTime(w.minTime, d, last));
      LastBeforeOrigin(w.minTime, d, nextL1Time, n, last);
    }
  }

  /**
    The last slot before the next L1 time: the verifier fills up to it by itself exactly when that time falls on a
    slot.
   */
  lemma LastSlotBefore(minTime: nat, d: nat, nextL1Time: nat) returns (last: nat)
    requires d > 0 && nextL1Time > minTime + d
    ensures SlotTime(minTime, d, last) < nextL1Time <= SlotTime(minTime, d, last) + d
    ensures SlotTime(minTime, d, last) <= FillTime(d, minTime, nextL1Time) <==> (nextL1Time - minTime) % d == 0
    ensures (nextL1Time - minTime) % d != 0 ==> last == (nextL1Time - minTime) / d
  {
    var gap := nextL1Time - minTime;
    var q := gap / d;
    assert gap == q * d + gap % d;
    DivBounds(gap, d, 1);
    last := if gap % d == 0 then q - 1 else q;
    SlotExists(d, minTime, minTime, last);
  }

  /** The next epoch starts at or after the origin exactly when the last slot before the origin was filled. */
  lemma LastBeforeOrigin(minTime: nat, d: nat, nextL1Time: nat, n: nat, last: nat)
    requires SlotTime(minTime, d, last) < nextL1Time <= SlotTime(minTime, d, last) + d
    ensures SlotTime(minTime, d, n) >= nextL1Time <==> n > last
  {
    if n > last {
      MulMonotone(last + 1, n, d);
    } else {
      MulMonotone(n, last, d);
    }
  }

  /** An input where the documented bound fails: the next epoch starts one second before its L1 origin. */
  lemma NextEpochCanPrecedeOrigin()
    ensures var w := Span(0, 2, 1, 2, 100);
            NextMinTime(w, [], 5) == 4
  {
  }
}
