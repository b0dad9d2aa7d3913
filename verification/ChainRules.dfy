/**
  What every L2 block the driver makes has in common with its parent, whether sequenced
  (op-node/rollup/driver/step.go:78-157) or derived (step.go:161-281): time, L1 origin, sequence
  number and deposits. The rules hold of the engine's whole tree in every run.
 */
module ChainRules {
  import opened Types
  import opened Engine
  import opened Output
  import opened Driver
  import opened DriverRuns
  import Derivation

  /** The transactions a block of L1 origin b must start with. */
  function Forced(r: Rollup, b: L1Block, s: nat, newEpoch: bool): seq<Bytes> {
    [r.codec.info(s, b)] + if newEpoch then r.codec.deposits(b) else []
  }

  /**
    One block time after its parent; the parent's L1 origin with the next sequence number, or an
    origin one higher with sequence number 0; deposits exactly at the start of a new origin; and
    only sequenced transactions after the forced ones.
   */
  ghost predicate BlockRule(r: Rollup, p: Payload, parent: L2Ref) {
    && p.timestamp == parent.time + r.cfg.blockTime
    && p.txs != []
    && r.codec.origin(p.txs[0]).Some?
    && var (id, s) := r.codec.origin(p.txs[0]).value;
       && id.hash in r.l1 && r.l1[id.hash].ID() == id
       && var newEpoch := id.number != parent.l1Origin.number;
          && (if newEpoch then id.number == parent.l1Origin.number + 1 && s == 0
              else id == parent.l1Origin && s == (parent.sequenceNumber + 1) % TWO_64)
          && var forced := Forced(r, r.l1[id.hash], s, newEpoch);
             && forced <= p.txs
             && (forall i :: |forced| <= i < |p.txs| ==> IsSequenced(p.txs[i]))
  }

  ghost predicate RuleAt(r: Rollup, t: Tree, h: Hash) {
    h in t && h != r.G().hash ==>
      && t[h].parentHash in t
      && RefOf(r, t[t[h].parentHash]).Some?
      && BlockRule(r, t[h], RefOf(r, t[t[h].parentHash]).value)
  }

  ghost predicate TreeRule(r: Rollup, t: Tree) {
    forall h {:trigger RuleAt(r, t, h)} :: h in t ==> RuleAt(r, t, h)
  }

  lemma OriginIsReal(r: Rollup, t: Tree, ref: L2Ref)
    requires r.Wf() && WfTree(t, r.G()) && TreeRule(r, t) && Tracks(r, t, ref)
    ensures ref.l1Origin.hash in r.l1 && r.l1[ref.l1Origin.hash].ID() == ref.l1Origin
  {
    assert RuleAt(r, t, ref.hash);
    assert Linked(t, r.G(), ref.hash);
  }

  lemma InsertKeepsRule(r: Rollup, t: Tree, p: Payload, parent: L2Ref)
    requires WfTree(t, r.G()) && TreeRule(r, t) && Insertable(t, r.G(), p) && IsChild(t, r.G(), p)
    requires Tracks(r, t, parent) && p.parentHash == parent.hash && BlockRule(r, p, parent)
    ensures TreeRule(r, t[p.hash := p])
  {
    var t' := t[p.hash := p];
    forall h | h in t' ensures RuleAt(r, t', h) {
      if h == p.hash {
        SameButParent(r, t, parent, p);
      } else {
        assert RuleAt(r, t, h);
      }
    }
  }

  /** The rule does not look at the parent reference's own parent hash. */
  lemma SameButParent(r: Rollup, t: Tree, parent: L2Ref, p: Payload)
    requires Tracks(r, t, parent) && BlockRule(r, p, parent)
    ensures RefOf(r, t[parent.hash]).Some? && BlockRule(r, p, RefOf(r, t[parent.hash]).value)
  {
    var x := RefOf(r, t[parent.hash]).value;
    assert x == parent.(parentHash := x.parentHash);
  }

  // ----- Sequenced blocks -----

  /** The L1 origin the sequencer chose is the parent's or has the next number. */
  ghost predicate OriginChoice(r: Rollup, parent: L2Ref, b: L1Block) {
    && b.hash in r.l1 && r.l1[b.hash] == b
    && (b.ID() == parent.l1Origin || b.number == parent.l1Origin.number + 1)
  }

  lemma SequencedRule(r: Rollup, t: Tree, t': Tree, parent: L2Ref, b: L1Block, p: Payload)
    requires r.Wf() && OriginChoice(r, parent, b)
    requires GrownBy(r, t, t', parent.hash, SequencerAttributes(r, parent, b), p)
    ensures BlockRule(r, p, parent)
  {
    var newEpoch := parent.l1Origin.number != b.number;
    var s := if newEpoch then 0 else (parent.sequenceNumber + 1) % TWO_64;
    var forced := Forced(r, b, s, newEpoch);
    assert SequencerAttributes(r, parent, b).txs == forced <= p.txs;
    assert p.txs[0] == forced[0] == r.codec.info(s, b);
  }

  lemma CreateNewBlockRule(r: Rollup, s: DriverState, info: bool, b: L1Block)
    requires Core(r, s) && TreeRule(r, s.eng.tree) && OriginChoice(r, s.l2Head, b)
    ensures TreeRule(r, CreateNewBlock(r, s.eng, info, s.l2Head, s.l2Safe.hash, b).0.tree)
  {
    if info {
      var t, attrs := s.eng.tree, SequencerAttributes(r, s.l2Head, b);
      InsertHeadBlockTree(r, s.eng, s.l2Head.hash, s.l2Safe.hash, attrs, false);
      var t' := InsertHeadBlock(r, s.eng, s.l2Head.hash, s.l2Safe.hash, attrs, false).0.tree;
      if t' != t {
        var p :| GrownBy(r, t, t', s.l2Head.hash, attrs, p);
        SequencedRule(r, t, t', s.l2Head, b, p);
        InsertKeepsRule(r, t, p, s.l2Head);
      }
    }
  }

  // ----- Derived blocks -----

  /** safe is the block under slot i of the epoch of b: the old safe head, or the block of slot i - 1. */
  ghost predicate UnderSlot(r: Rollup, b: L1Block, minTime: nat, i: nat, safe: L2Ref) {
    && safe.time + r.cfg.blockTime == Derivation.SlotTime(minTime, r.cfg.blockTime, i)
    && (if i == 0 then b.number == safe.l1Origin.number + 1
        else safe.l1Origin == b.ID() && safe.sequenceNumber == (i - 1) % TWO_64)
  }

  ghost predicate IsSlot(r: Rollup, minTime: nat, i: nat, slot: Batch) {
    && slot.timestamp == Derivation.SlotTime(minTime, r.cfg.blockTime, i)
    && forall tx :: tx in slot.txs ==> IsSequenced(tx)
  }

  lemma DerivedRule(
    r: Rollup, t: Tree, t': Tree, b: L1Block, minTime: nat, i: nat, slot: Batch, safe: L2Ref, p: Payload)
    requires r.Wf() && b.hash in r.l1 && r.l1[b.hash] == b
    requires UnderSlot(r, b, minTime, i, safe) && IsSlot(r, minTime, i, slot)
    requires GrownBy(r, t, t', safe.hash, DerivedAttributes(r, b, slot, i), p)
    ensures BlockRule(r, p, safe)
  {
    var s := i % TWO_64;
    assert p.txs == Forced(r, b, s, i == 0) + slot.txs;
    if i > 0 {
      NextSequence(i - 1);
    }
    RuleOfParts(r, b, s, i == 0, slot.txs, safe, p);
  }

  lemma NextSequence(i: nat)
    ensures (i + 1) % TWO_64 == (i % TWO_64 + 1) % TWO_64
  {
  }

  /**
    Forced transactions of the right origin and sequence number, then sequenced ones, one block time after the parent.
   */
  lemma RuleOfParts(r: Rollup, b: L1Block, s: nat, newEpoch: bool, rest: seq<Bytes>, parent: L2Ref, p: Payload)
    requires r.Wf() && b.hash in r.l1 && r.l1[b.hash] == b && s < TWO_64
    requires p.timestamp == parent.time + r.cfg.blockTime && p.txs == Forced(r, b, s, newEpoch) + rest
    requires if newEpoch then b.number == parent.l1Origin.number + 1 && s == 0
             else b.ID() == parent.l1Origin && s == (parent.sequenceNumber + 1) % TWO_64
    requires forall tx :: tx in rest ==> IsSequenced(tx)
    ensures BlockRule(r, p, parent)
  {
    var forced := Forced(r, b, s, newEpoch);
    assert p.txs[0] == forced[0] == r.codec.info(s, b);
    forall k | |forced| <= k < |p.txs| ensures IsSequenced(p.txs[k]) {
      assert p.txs[k] == rest[k - |forced|];
    }
  }

  lemma {:induction false} EpochLoopRule(r: Rollup, s: EpochState, b: L1Block, minTime: nat, slots: seq<Batch>, i: nat)
    requires r.Wf() && b.hash in r.l1 && r.l1[b.hash] == b
    requires RefsTracked(r, s) && TreeRule(r, s.eng.tree)
    requires i <= |slots| && UnderSlot(r, b, minTime, i, s.safe)
    requires forall j :: 0 <= j < |slots| ==> IsSlot(r, minTime, j, slots[j])
    ensures TreeRule(r, EpochLoop(r, s, EpochAttributes(r, b, slots)[i..]).0.eng.tree)
    decreases |slots| - i
  {
    var attrs := EpochAttributes(r, b, slots);
    if i < |slots| {
      var a := DerivedAttributes(r, b, slots[i], i);
      assert attrs[i..][0] == a && attrs[i..][1..] == attrs[i + 1..];
      assert a.txs[0] == r.codec.info(i % TWO_64, b);
      var (s1, ok) := EpochStep(r, s, a);
      EpochStepTree(r, s, a);
      var t, t' := s.eng.tree, s1.eng.tree;
      if t' != t {
        var p :| GrownBy(r, t, t', s.safe.hash, a, p);
        DerivedRule(r, t, t', b, minTime, i, slots[i], s.safe, p);
        InsertKeepsRule(r, t, p, s.safe);
      }
      EpochStepRefs(r, s, b, a);
      if ok {
        assert Derivation.SlotTime(minTime, r.cfg.blockTime, i + 1)
               == Derivation.SlotTime(minTime, r.cfg.blockTime, i) + r.cfg.blockTime by {
          Derivation.SlotExists(r.cfg.blockTime, minTime, minTime, i);
        }
        EpochLoopRule(r, s1, b, minTime, slots, i + 1);
      }
    }
  }

  lemma InsertEpochRule(r: Rollup, s: DriverState, answers: L1Answers, window: seq<BlockID>)
    requires Core(r, s) && TreeRule(r, s.eng.tree)
    ensures TreeRule(r, InsertEpoch(r, s.eng, answers, s.l2Head, s.l2Safe, window).0.tree)
  {
    if |window| == r.cfg.seqWindowSize {
      var (e1, info) := PayloadByHash(s.eng, s.l2Safe.hash);
      if EpochGuard(r, answers, s.l2Safe, window, info.Some?).None? {
        var b := r.l1[window[0].hash];
        var span := EpochSpan(r, window[0].number, s.l2Safe.time, b);
        var slots := EpochSlots(r, s.l2Safe.time, window);
        OriginIsReal(r, s.eng.tree, s.l2Safe);
        Derivation.DeriveSlotsSpec(span, ListsBatches(r, WindowTxs(r, window)), r.l1[window[1].hash].time);
        var s0 := EpochState(e1, s.l2Head, s.l2Safe, false, false);
        EpochLoopRule(r, s0, b, span.minTime, slots, 0);
        assert EpochAttributes(r, b, slots)[0..] == EpochAttributes(r, b, slots);
      }
    }
  }

  // ----- Every step, every run -----

  /** The run invariant with the block rules added. */
  ghost predicate RuleInv(r: Rollup, s: DriverState) {
    Inv(r, s) && TreeRule(r, s.eng.tree) && s.l1Head.hash in r.l1 && r.l1[s.l1Head.hash] == s.l1Head
  }

  /** A payload from a peer is known already or follows the rules itself. */
  ghost predicate PeerFollows(r: Rollup, s: DriverState, ev: Event) {
    match ev
    case UnsafePayload(p) =>
      p.hash in s.eng.tree ||
      (p.parentHash in s.eng.tree && RefOf(r, s.eng.tree[p.parentHash]).Some?
        && BlockRule(r, p, RefOf(r, s.eng.tree[p.parentHash]).value))
    case _ => true
  }

  lemma FindL1OriginChoice(r: Rollup, s: DriverState, current: bool, next: Option<L1Block>)
    requires RuleInv(r, s) && Honest(r, s, NewBlock(current, next, true, true))
    ensures match FindL1Origin(r, s, current, next)
            case None => true
            case Some(b) => OriginChoice(r, s.l2Head, b)
  {
    OriginIsReal(r, s.eng.tree, s.l2Head);
  }

  lemma UnsafePayloadRule(r: Rollup, s: DriverState, p: Payload)
    requires Core(r, s) && TreeRule(r, s.eng.tree) && PeerFollows(r, s, UnsafePayload(p))
    ensures TreeRule(r, HandleUnsafeL2Payload(r, s, p).state.eng.tree)
  {
    var t, t' := s.eng.tree, HandleUnsafeL2Payload(r, s, p).state.eng.tree;
    if t' != t {
      assert t' == t[p.hash := p] && p.hash !in t;
      InsertKeepsRule(r, t, p, RefOf(r, t[p.parentHash]).value);
    }
  }

  lemma NewBlockRule(r: Rollup, s: DriverState, current: bool, next: Option<L1Block>, info: bool, published: bool)
    requires RuleInv(r, s) && Honest(r, s, NewBlock(current, next, true, true))
    ensures TreeRule(r, CreateNewL2Block(r, s, current, next, info, published).state.eng.tree)
  {
    FindL1OriginChoice(r, s, current, next);
    var b := FindL1Origin(r, s, current, next);
    if b.Some? {
      CreateNewBlockRule(r, s, info, b.value);
    }
  }

  lemma EpochRequestRule(r: Rollup, s: DriverState, range: Option<seq<RangeReply>>, answers: L1Answers)
    requires Core(r, s) && TreeRule(r, s.eng.tree)
    ensures TreeRule(r, HandleEpoch(r, s, range, answers).state.eng.tree)
  {
    var ext := ExtendWindow(r, s, range);
    if ext.Some? && |ext.value| >= r.cfg.seqWindowSize {
      InsertEpochRule(r, s, answers, ext.value[..r.cfg.seqWindowSize]);
    }
  }

  /** Only an L1 signal changes the L1 head, to a block of L1. */
  lemma StepL1Head(r: Rollup, s: DriverState, ev: Event)
    requires Core(r, s) && Honest(r, s, ev) && s.l1Head.hash in r.l1 && r.l1[s.l1Head.hash] == s.l1Head
    ensures var head := Step(r, s, ev).state.l1Head; head.hash in r.l1 && r.l1[head.hash] == head
  {
  }

  /** Every step keeps the rules, also the steps that fail half way. */
  lemma StepRule(r: Rollup, s: DriverState, ev: Event)
    requires RuleInv(r, s) && Honest(r, s, ev) && PeerFollows(r, s, ev)
    ensures RuleInv(r, Step(r, s, ev).state)
  {
    StepInv(r, s, ev);
    StepL1Head(r, s, ev);
    match ev
    case L1Signal(newHead, view, fails) =>
      HandleNewL1BlockInv(r, s, newHead, view, fails);
    case NewBlock(current, next, info, published) =>
      NewBlockRule(r, s, current, next, info, published);
    case EpochRequest(range, answers) =>
      EpochRequestRule(r, s, range, answers);
    case UnsafePayload(p) =>
      UnsafePayloadRule(r, s, p);
  }

  ghost predicate FollowingRun(r: Rollup, s: DriverState, evs: seq<Event>)
    requires Inv(r, s) && HonestRun(r, s, evs)
    decreases |evs|
  {
    evs != [] ==>
      PeerFollows(r, s, evs[0]) && (StepInv(r, s, evs[0]); FollowingRun(r, Step(r, s, evs[0]).state, evs[1..]))
  }

  /** In every run whose peers follow the rules, every block of the engine's tree does. */
  lemma {:induction false} RulesInvariant(r: Rollup, s: DriverState, evs: seq<Event>)
    requires RuleInv(r, s) && HonestRun(r, s, evs) && FollowingRun(r, s, evs)
    ensures RuleInv(r, Run(r, s, evs))
    decreases |evs|
  {
    if evs != [] {
      StepInv(r, s, evs[0]);
      StepRule(r, s, evs[0]);
      RulesInvariant(r, Step(r, s, evs[0]).state, evs[1..]);
    }
  }

  // ----- Along one chain -----

  /** A tree that follows the rules. */
  ghost predicate Ruled(r: Rollup, t: Tree) {
    r.Wf() && WfTree(t, r.G()) && TreeRule(r, t)
  }

  /** Above genesis, each block of the chain follows the rule on top of the one below. */
  lemma RuleOnChain(r: Rollup, t: Tree, tip: Hash, n: nat)
    requires Ruled(r, t) && tip in t && r.G().number <= n < t[tip].number
    ensures BlockAt(t, tip, n + 1).Some?
    ensures BlockRule(r, BlockAt(t, tip, n + 1).value, RefAt(r, t, tip, n))
    ensures var p := BlockAt(t, tip, n + 1).value;
            var ref := RefAt(r, t, tip, n + 1);
            r.codec.origin(p.txs[0]) == Some((ref.l1Origin, ref.sequenceNumber)) && p.number == n + 1
  {
    LookupTotal(t, r.G(), tip, n + 1);
    LookupParent(t, r.G(), tip, n);
    var x := Lookup(t, tip, n + 1).value;
    assert RuleAt(r, t, x) && Linked(t, r.G(), x);
  }

  /** The sequence number never exceeds the height above genesis, so it never wraps. */
  lemma {:induction false} SequenceBounded(r: Rollup, t: Tree, tip: Hash, n: nat)
    requires Ruled(r, t) && tip in t && r.G().number <= n <= t[tip].number
    ensures RefAt(r, t, tip, n).sequenceNumber <= n - r.G().number < TWO_64
    ensures RefAt(r, t, tip, n).l1Origin.hash in r.l1
    ensures r.l1[RefAt(r, t, tip, n).l1Origin.hash].ID() == RefAt(r, t, tip, n).l1Origin
    decreases n
  {
    if n == r.G().number {
      LookupTotal(t, r.G(), tip, n);
      assert Linked(t, r.G(), Lookup(t, tip, n).value);
    } else {
      SequenceBounded(r, t, tip, n - 1);
      RuleOnChain(r, t, tip, n - 1);
    }
  }

  /** Block n starts an epoch. */
  ghost predicate StartsEpoch(r: Rollup, t: Tree, tip: Hash, n: nat)
    requires n > 0
  {
    RefAt(r, t, tip, n).l1Origin.number != RefAt(r, t, tip, n - 1).l1Origin.number
  }

  /**
    Going up the chain the origin number never decreases; while the origin stays, the sequence
    number counts the distance; a block that starts an epoch has an origin above all earlier ones.
   */
  lemma {:induction false} OriginProgress(r: Rollup, t: Tree, tip: Hash, m: nat, n: nat)
    requires Ruled(r, t) && tip in t && r.G().number <= m < n <= t[tip].number
    ensures var a, b := RefAt(r, t, tip, m), RefAt(r, t, tip, n);
            && a.l1Origin.number <= b.l1Origin.number
            && (a.l1Origin.number == b.l1Origin.number ==>
              a.l1Origin == b.l1Origin && b.sequenceNumber == a.sequenceNumber + (n - m))
            && (StartsEpoch(r, t, tip, n) ==> a.l1Origin.number < b.l1Origin.number)
    decreases n
  {
    RuleOnChain(r, t, tip, n - 1);
    SequenceBounded(r, t, tip, n - 1);
    if m < n - 1 {
      OriginProgress(r, t, tip, m, n - 1);
    }
  }

  /** Two heights with the same L1 origin hash have different sequence numbers, and at most one starts the epoch. */
  lemma SameOrigin(r: Rollup, t: Tree, tip: Hash, m: nat, n: nat)
    requires Ruled(r, t) && tip in t && r.G().number < m < n <= t[tip].number
    requires RefAt(r, t, tip, m).l1Origin.hash == RefAt(r, t, tip, n).l1Origin.hash
    ensures RefAt(r, t, tip, m).sequenceNumber < RefAt(r, t, tip, n).sequenceNumber
    ensures !StartsEpoch(r, t, tip, n)
  {
    SequenceBounded(r, t, tip, m);
    SequenceBounded(r, t, tip, n);
    OriginProgress(r, t, tip, m, n);
  }

  // ----- The time law -----

  /** The timestamp of every block is fixed by its height. */
  lemma {:induction false} TimeLaw(r: Rollup, t: Tree, h: Hash)
    requires r.cfg.blockTime > 0 && WfTree(t, r.G()) && TreeRule(r, t) && h in t
    requires t[r.G().hash].timestamp == r.cfg.genesis.l2Time
    ensures t[h].number >= r.G().number
    ensures t[h].timestamp == Derivation.SlotTime(r.cfg.genesis.l2Time, r.cfg.blockTime, t[h].number - r.G().number)
    decreases t[h].number
  {
    assert Linked(t, r.G(), h) && RuleAt(r, t, h);
    if h != r.G().hash {
      var p := t[h].parentHash;
      TimeLaw(r, t, p);
      var g := r.cfg.genesis.l2Time;
      Derivation.SlotExists(r.cfg.blockTime, g, g, t[p].number - r.G().number);
    }
  }

  /** In every reachable state the next epoch's first slot is aligned with genesis. */
  lemma SpanIsAligned(r: Rollup, s: DriverState, epoch: nat, b: L1Block)
    requires RuleInv(r, s)
    ensures EpochSpan(r, epoch, s.l2Safe.time, b).Aligned()
  {
    var g, d, n := r.cfg.genesis.l2Time, r.cfg.blockTime, s.l2Safe.number - r.G().number;
    TimeLaw(r, s.eng.tree, s.l2Safe.hash);
    TrackedNumber(r, s.eng.tree, s.l2Safe);
    Derivation.SlotExists(d, g, g, n);
    Derivation.SlotTimes(g, d, s.l2Safe.time + d, n + 1);
  }

  lemma {:induction false} TxsTimesFit(r: Rollup, txs: seq<L1Tx>)
    requires r.codec.Sound()
    ensures forall b :: b in TxsBatches(r, txs) ==> b.timestamp < TWO_64
  {
    if txs != [] {
      TxsTimesFit(r, txs[..|txs| - 1]);
    }
  }

  lemma {:induction false} ListsTimesFit(r: Rollup, lists: seq<seq<L1Tx>>)
    requires r.codec.Sound()
    ensures forall b :: b in ListsBatches(r, lists) ==> b.timestamp < TWO_64
  {
    if lists != [] {
      ListsTimesFit(r, lists[..|lists| - 1]);
      TxsTimesFit(r, lists[|lists| - 1]);
    }
  }

  /** So in every reachable state insertEpoch uses every batch that survives filtering. */
  lemma NoBatchLostInAnyRun(r: Rollup, s: DriverState, window: seq<BlockID>)
    requires RuleInv(r, s) && |window| >= 2 && WindowKnown(r, window)
    ensures var span := EpochSpan(r, window[0].number, s.l2Safe.time, r.l1[window[0].hash]);
            forall b :: b in Derivation.Filtered(span, ListsBatches(r, WindowTxs(r, window))) ==>
              b in EpochSlots(r, s.l2Safe.time, window)
  {
    var span := EpochSpan(r, window[0].number, s.l2Safe.time, r.l1[window[0].hash]);
    SpanIsAligned(r, s, window[0].number, r.l1[window[0].hash]);
    ListsTimesFit(r, WindowTxs(r, window));
    Derivation.NoBatchLost(span, ListsBatches(r, WindowTxs(r, window)), r.l1[window[1].hash].time);
  }

  /** The tip of a derived chain has the timestamp of the last attributes. */
  lemma LastDerivedTime(r: Rollup, t: Tree, tip: L2Ref, base: Hash, n: nat, attrs: seq<Attributes>)
    requires Tracks(r, t, tip) && attrs != [] && DerivedChain(t, tip.hash, base, n, attrs)
    ensures tip.time == attrs[|attrs| - 1].timestamp
  {
    assert DerivedAbove(t, tip.hash, n + (|attrs| - 1), attrs[|attrs| - 1]);
  }

  lemma LastSlotTime(r: Rollup, safeTime: nat, window: seq<BlockID>)
    requires r.cfg.blockTime > 0 && |window| >= 2 && WindowKnown(r, window)
    ensures var attrs, slots := EpochInputs(r, safeTime, window), EpochSlots(r, safeTime, window);
            && |attrs| == |slots| >= 1
            && attrs[|attrs| - 1].timestamp
               == Derivation.SlotTime(safeTime + r.cfg.blockTime, r.cfg.blockTime, |slots| - 1)
  {
    var b := r.l1[window[0].hash];
    var span, bs := EpochSpan(r, window[0].number, safeTime, b), ListsBatches(r, WindowTxs(r, window));
    Derivation.DeriveSlotsSpec(span, bs, r.l1[window[1].hash].time);
  }

  /** An inserted epoch ends at its last slot. */
  lemma InsertedSafeTime(
    r: Rollup, e: State, answers: L1Answers, head: L2Ref, safe: L2Ref, window: seq<BlockID>)
    requires r.cfg.blockTime > 0 && LoopReady(r, EpochState(e, head, safe, false, false))
    ensures var (e', out) := InsertEpoch(r, e, answers, head, safe, window);
            out.Inserted? ==>
              && |window| >= 2 && WindowKnown(r, window)
              && var n, first := |EpochSlots(r, safe.time, window)|, safe.time + r.cfg.blockTime;
                 && n >= 1
                 && out.safe.time == Derivation.SlotTime(first, r.cfg.blockTime, n - 1)
                 && out.safe.time + r.cfg.blockTime == Derivation.SlotTime(first, r.cfg.blockTime, n)
  {
    var (e', out) := InsertEpoch(r, e, answers, head, safe, window);
    InsertEpochContract(r, e, answers, head, safe, window);
    if out.Inserted? {
      DerivedEpochTime(r, e'.tree, out.safe, safe, window);
    }
  }

  lemma DerivedEpochTime(r: Rollup, t: Tree, tip: L2Ref, safe: L2Ref, window: seq<BlockID>)
    requires r.cfg.blockTime > 0 && |window| >= 2 && WindowKnown(r, window) && Tracks(r, t, tip)
    requires DerivedChain(t, tip.hash, safe.hash, safe.number, EpochInputs(r, safe.time, window))
    ensures var n, first := |EpochSlots(r, safe.time, window)|, safe.time + r.cfg.blockTime;
            && n >= 1
            && tip.time == Derivation.SlotTime(first, r.cfg.blockTime, n - 1)
            && tip.time + r.cfg.blockTime == Derivation.SlotTime(first, r.cfg.blockTime, n)
  {
    var attrs, first := EpochInputs(r, safe.time, window), safe.time + r.cfg.blockTime;
    LastSlotTime(r, safe.time, window);
    LastDerivedTime(r, t, tip, safe.hash, safe.number, attrs);
    Derivation.SlotExists(r.cfg.blockTime, first, first, |attrs| - 1);
  }

  /**
    After an epoch was inserted, the block that follows the new safe head is stamped later than
    the next L1 block's time less one block time, and the new safe head itself does not reach
    both the drift limit and the next L1 time.
   */
  lemma EpochTimeBounds(r: Rollup, e: State, answers: L1Answers, head: L2Ref, safe: L2Ref, window: seq<BlockID>)
    requires r.cfg.blockTime > 0 && LoopReady(r, EpochState(e, head, safe, false, false))
    ensures var (e', out) := InsertEpoch(r, e, answers, head, safe, window);
            out.Inserted? ==>
              && |window| >= 2 && WindowKnown(r, window)
              && var next, span := r.l1[window[1].hash].time,
                EpochSpan(r, window[0].number, safe.time, r.l1[window[0].hash]);
                 && out.safe.time + 2 * r.cfg.blockTime > next
                 && out.safe.time < Derivation.Max(span.maxTime, next)
                 && (|| out.safe.time < r.l1[window[0].hash].time + r.cfg.maxSequencerDrift
                     || out.safe.time < safe.time + 2 * r.cfg.blockTime
                     || out.safe.time < next)
  {
    var (e', out) := InsertEpoch(r, e, answers, head, safe, window);
    InsertedSafeTime(r, e, answers, head, safe, window);
    if out.Inserted? {
      EpochEndBounds(r, safe.time, window);
    }
  }

  lemma EpochEndBounds(r: Rollup, safeTime: nat, window: seq<BlockID>)
    requires r.cfg.blockTime > 0 && |window| >= 2 && WindowKnown(r, window)
    requires |EpochSlots(r, safeTime, window)| >= 1
    ensures var next, span := r.l1[window[1].hash].time, EpochSpan(r, window[0].number, safeTime, r.l1[window[0].hash]);
            var n := |EpochSlots(r, safeTime, window)|;
            && Derivation.SlotTime(span.minTime, span.blockTime, n - 1) < Derivation.Max(span.maxTime, next)
            && Derivation.SlotTime(span.minTime, span.blockTime, n) + r.cfg.blockTime > next
            && (|| Derivation.SlotTime(span.minTime, span.blockTime, n - 1)
                   < r.l1[window[0].hash].time + r.cfg.maxSequencerDrift
                || Derivation.SlotTime(span.minTime, span.blockTime, n - 1) < safeTime + 2 * r.cfg.blockTime
                || Derivation.SlotTime(span.minTime, span.blockTime, n - 1) < next)
  {
    var next, span := r.l1[window[1].hash].time, EpochSpan(r, window[0].number, safeTime, r.l1[window[0].hash]);
    var bs := ListsBatches(r, WindowTxs(r, window));
    Derivation.SlotsBelowLimit(span, bs, next, |EpochSlots(r, safeTime, window)| - 1);
    Derivation.NextEpochNearOrigin(span, bs, next);
  }
}
