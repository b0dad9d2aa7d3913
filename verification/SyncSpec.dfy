/**
  What FindL2Heads finds (op-node/rollup/sync/start.go:22-33), under the L2 validity rules of
  that file: every L2 block keeps its parent's L1 origin or moves to a child of it, and the
  canonical L1 chain is a chain.
 */
module SyncSpec {
  import opened Types
  import opened Engine
  import opened Output
  import opened Sync

  /** An L1 chain that stays as it is during one call. */
  function Steady(v: L1View): L1Views {
    (n: nat) => v
  }

  predicate Canonical(v: L1View, id: BlockID) {
    v.head.Some? && id.number <= v.head.value && id.number in v.canon && v.canon[id.number] == id.hash
  }

  /** Canonical, or ahead of the L1 head. */
  predicate Plausible(v: L1View, id: BlockID) {
    Canonical(v, id) || (v.head.Some? && id.number > v.head.value)
  }

  /** Every height up to the L1 head is answered, and each canonical block is the child of the one below. */
  ghost predicate CanonicalChain(r: Rollup, v: L1View) {
    && v.head.Some?
    && (forall n :: 0 <= n <= v.head.value ==> n in v.canon)
    && (forall n :: 0 < n <= v.head.value ==> ParentOf(r, v.canon[n]) == Some(v.canon[n - 1]))
  }

  function ParentOf(r: Rollup, h: Hash): Option<Hash> {
    if h in r.l1 then Some(r.l1[h].parentHash) else None
  }

  function OriginOf(r: Rollup, t: Tree, h: Hash): BlockID {
    if h in t && RefOf(r, t[h]).Some? then RefOf(r, t[h]).value.l1Origin else BlockID(0, 0)
  }

  predicate OriginStep(r: Rollup, child: BlockID, parent: BlockID) {
    child == parent || (ParentOf(r, child.hash) == Some(parent.hash) && child.number == parent.number + 1)
  }

  /** h has a readable, real L1 origin, related to its parent's. */
  predicate OriginLinked(r: Rollup, t: Tree, h: Hash) {
    && h in t
    && RefOf(r, t[h]).Some?
    && OriginOf(r, t, h).hash != 0
    && (h != r.G().hash ==> OriginStep(r, OriginOf(r, t, h), OriginOf(r, t, t[h].parentHash)))
  }

  ghost predicate World(r: Rollup, t: Tree, v: L1View) {
    && r.cfg.Check()
    && r.WfL1()
    && WfTree(t, r.G())
    && t[r.G().hash].timestamp == r.cfg.genesis.l2Time
    && (forall h {:trigger OriginLinked(r, t, h)} :: h in t ==> OriginLinked(r, t, h))
    && CanonicalChain(r, v)
  }

  /** The L1 origin of the block at height n on the chain of tip. */
  function OriginAt(r: Rollup, t: Tree, tip: Hash, n: nat): BlockID {
    RefAt(r, t, tip, n).l1Origin
  }

  lemma OriginOfRef(r: Rollup, t: Tree, tip: Hash, n: L2Ref)
    requires IsAt(r, t, tip, n.number, n)
    ensures OriginAt(r, t, tip, n.number) == n.l1Origin
  {
  }

  /** One block down, the origin stays or moves to its L1 parent; equal hashes mean equal origins. */
  lemma OriginBelow(r: Rollup, t: Tree, v: L1View, tip: Hash, n: nat)
    requires World(r, t, v) && tip in t && r.G().number <= n < t[tip].number
    ensures OriginStep(r, OriginAt(r, t, tip, n + 1), OriginAt(r, t, tip, n))
    ensures OriginAt(r, t, tip, n + 1).hash == OriginAt(r, t, tip, n).hash ==>
            OriginAt(r, t, tip, n + 1) == OriginAt(r, t, tip, n)
    ensures OriginAt(r, t, tip, n).number <= OriginAt(r, t, tip, n + 1).number <= OriginAt(r, t, tip, n).number + 1
  {
    LookupTotal(t, r.G(), tip, n + 1);
    LookupParent(t, r.G(), tip, n);
    var x := Lookup(t, tip, n + 1).value;
    assert OriginLinked(r, t, x);
    assert Linked(t, r.G(), x);
  }

  lemma {:induction false} OriginsMonotone(r: Rollup, t: Tree, v: L1View, tip: Hash, m: nat, n: nat)
    requires World(r, t, v) && tip in t && r.G().number <= m <= n <= t[tip].number
    ensures OriginAt(r, t, tip, m).number <= OriginAt(r, t, tip, n).number
    decreases n - m
  {
    if m < n {
      OriginBelow(r, t, v, tip, m);
      OriginsMonotone(r, t, v, tip, m + 1, n);
    }
  }

  /** Below a block with a canonical origin every origin is canonical. */
  lemma {:induction false} CanonicalBelow(r: Rollup, t: Tree, v: L1View, tip: Hash, m: nat, n: nat)
    requires World(r, t, v) && tip in t && r.G().number <= m <= n <= t[tip].number
    requires Canonical(v, OriginAt(r, t, tip, n))
    ensures Canonical(v, OriginAt(r, t, tip, m))
    decreases n - m
  {
    if m < n {
      OriginBelow(r, t, v, tip, n - 1);
      var up, down := OriginAt(r, t, tip, n), OriginAt(r, t, tip, n - 1);
      if up != down {
        assert ParentOf(r, v.canon[up.number]) == Some(v.canon[up.number - 1]);
      }
      CanonicalBelow(r, t, v, tip, m, n - 1);
    }
  }

  // ----- Loop 1 -----

  /** What loop 1 knows when it looks at height k of the chain of tip. */
  ghost predicate Walked(r: Rollup, t: Tree, v: L1View, tip: Hash, k: nat, prev: Hash, cand: L2Ref)
    requires tip in t
  {
    var top := t[tip].number;
    && r.G().number <= k <= top
    && prev == (if k == top then 0 else OriginAt(r, t, tip, k + 1).hash)
    && (forall m :: k < m <= top ==> !Canonical(v, OriginAt(r, t, tip, m)))
    && (if cand == ZERO_REF then k == top || !Plausible(v, OriginAt(r, t, tip, k + 1))
        else k < cand.number && HighestPlausible(r, t, v, tip, k + 1, cand))
  }

  /** cand is on the chain, all origins from k up to it are plausible, and the one above it is not. */
  ghost predicate HighestPlausible(r: Rollup, t: Tree, v: L1View, tip: Hash, k: nat, cand: L2Ref)
    requires tip in t
  {
    && IsAt(r, t, tip, cand.number, cand)
    && k <= cand.number <= t[tip].number
    && (forall m :: k <= m <= cand.number ==> Plausible(v, OriginAt(r, t, tip, m)))
    && (cand.number == t[tip].number || !Plausible(v, OriginAt(r, t, tip, cand.number + 1)))
  }

  /** n is the highest block of the chain with a canonical origin. */
  ghost predicate HighestCanonical(r: Rollup, t: Tree, v: L1View, tip: Hash, n: L2Ref)
    requires tip in t
  {
    && IsAt(r, t, tip, n.number, n)
    && r.G().number <= n.number <= t[tip].number
    && Canonical(v, OriginAt(r, t, tip, n.number))
    && (forall m :: n.number < m <= t[tip].number ==> !Canonical(v, OriginAt(r, t, tip, m)))
  }

  lemma CheckIsPlausible(r: Rollup, v: L1View, id: BlockID)
    requires CanonicalChain(r, v)
    ensures AheadOrCanonical(v, id) == Some((Plausible(v, id), Canonical(v, id)))
  {
  }

  /** One iteration keeps the knowledge. */
  lemma WalkedStep(r: Rollup, t: Tree, v: L1View, tip: Hash, n: L2Ref, prev: Hash, cand: L2Ref, cand': L2Ref)
    requires World(r, t, v) && tip in t
    requires IsAt(r, t, tip, n.number, n) && Walked(r, t, v, tip, n.number, prev, cand)
    requires cand' == if prev != n.l1Origin.hash then Candidate(n, cand, Plausible(v, n.l1Origin)) else cand
    ensures prev != n.l1Origin.hash && Plausible(v, n.l1Origin) ==>
            cand' != ZERO_REF && HighestPlausible(r, t, v, tip, n.number, cand')
    ensures !Canonical(v, n.l1Origin) || prev == n.l1Origin.hash ==>
              r.G().number < n.number ==> Walked(r, t, v, tip, n.number - 1, n.l1Origin.hash, cand')
  {
    OriginOfRef(r, t, tip, n);
    assert OriginLinked(r, t, n.hash);
    WalkedCandidate(r, t, v, tip, n, prev, cand);
    if !Canonical(v, n.l1Origin) || prev == n.l1Origin.hash {
      if n.number < t[tip].number {
        OriginBelow(r, t, v, tip, n.number);
      }
      assert !Canonical(v, OriginAt(r, t, tip, n.number));
    }
  }

  /** Once n was looked at, the candidate is the highest plausible block from n up, or there is none. */
  lemma WalkedCandidate(r: Rollup, t: Tree, v: L1View, tip: Hash, n: L2Ref, prev: Hash, cand: L2Ref)
    requires World(r, t, v) && tip in t
    requires IsAt(r, t, tip, n.number, n) && Walked(r, t, v, tip, n.number, prev, cand)
    ensures var cand' := if prev != n.l1Origin.hash then Candidate(n, cand, Plausible(v, n.l1Origin)) else cand;
            if Plausible(v, n.l1Origin)
            then cand' != ZERO_REF && HighestPlausible(r, t, v, tip, n.number, cand')
            else cand' == ZERO_REF
  {
    OriginOfRef(r, t, tip, n);
    assert OriginLinked(r, t, n.hash);
    if n.number < t[tip].number {
      OriginBelow(r, t, v, tip, n.number);
    }
    assert n.hash != 0;
  }

  lemma {:induction false} WalkToCanonicalSpec(
    r: Rollup, t: Tree, v: L1View, fails: set<Hash>, tip: Hash, n: L2Ref, prev: Hash, depth: nat, cand: L2Ref)
    requires World(r, t, v) && tip in t
    requires IsAt(r, t, tip, n.number, n) && Walked(r, t, v, tip, n.number, prev, cand)
    ensures match WalkToCanonical(r, t, Steady(v), fails, n, prev, depth, cand)
            case Err(_) => true
            case Ok((k, c)) => HighestCanonical(r, t, v, tip, k) && HighestPlausible(r, t, v, tip, k.number, c)
    decreases n.number
  {
    var newEpoch := prev != n.l1Origin.hash;
    CheckIsPlausible(r, v, n.l1Origin);
    OriginOfRef(r, t, tip, n);
    var cand' := if newEpoch then Candidate(n, cand, Plausible(v, n.l1Origin)) else cand;
    WalkedStep(r, t, v, tip, n, prev, cand, cand');
    if (newEpoch ==> !Canonical(v, n.l1Origin)) && !AtGenesis(r, n) {
      ParentRef(r, t, fails, n);
      var parent := RefByHash(r, t, fails, n.parentHash);
      if parent.Some? && depth + 1 < MAX_REORG_DEPTH {
        IsAtParent(r, t, tip, n, parent.value);
        WalkToCanonicalSpec(r, t, v, fails, tip, parent.value, n.l1Origin.hash, depth + 1, cand');
      }
    }
  }

  // ----- Loop 2 -----

  /**
    safe is at or below height top, and is the highest such block whose origin is exactly
    seqWindowSize - 1 L1 blocks below the origin at top, or genesis when no origin is that low.
   */
  ghost predicate StartsWindow(r: Rollup, t: Tree, tip: Hash, top: nat, safe: L2Ref) {
    var low := OriginAt(r, t, tip, top).number - (r.cfg.seqWindowSize - 1);
    && IsAt(r, t, tip, safe.number, safe)
    && r.G().number <= safe.number <= top
    && (forall m :: safe.number < m <= top ==> OriginAt(r, t, tip, m).number > low)
    && (OriginAt(r, t, tip, safe.number).number == low
        || (safe == GenesisRef(r) && OriginAt(r, t, tip, safe.number).number > low))
  }

  lemma {:induction false} WalkWindowSpec(
    r: Rollup, t: Tree, v: L1View, fails: set<Hash>, tip: Hash, top: nat, n: L2Ref, prev: Hash, depth: nat)
    requires World(r, t, v) && tip in t && top <= t[tip].number
    requires IsAt(r, t, tip, n.number, n) && r.G().number <= n.number <= top
    requires prev == OriginAt(r, t, tip, if n.number == top then top else n.number + 1).hash
    requires var last := OriginAt(r, t, tip, if n.number == top then top else n.number + 1);
             depth == OriginAt(r, t, tip, top).number - last.number + 1
    requires depth < r.cfg.seqWindowSize
    requires forall m :: n.number < m <= top ==>
             OriginAt(r, t, tip, m).number > OriginAt(r, t, tip, top).number - (r.cfg.seqWindowSize - 1)
    ensures match WalkWindow(r, t, fails, n, prev, depth)
            case Err(_) => true
            case Ok(safe) => StartsWindow(r, t, tip, top, safe)
    decreases n.number
  {
    OriginOfRef(r, t, tip, n);
    if n.number < top {
      OriginBelow(r, t, v, tip, n.number);
    }
    var depth' := if n.l1Origin.hash != prev then depth + 1 else depth;
    assert depth' == OriginAt(r, t, tip, top).number - n.l1Origin.number + 1;
    if depth' != r.cfg.seqWindowSize {
      if AtGenesis(r, n) {
        GenesisIsAt(r, t, tip, n);
      } else {
        ParentRef(r, t, fails, n);
        var parent := RefByHash(r, t, fails, n.parentHash);
        if parent.Some? {
          IsAtParent(r, t, tip, n, parent.value);
          WalkWindowSpec(r, t, v, fails, tip, top, parent.value, n.l1Origin.hash, depth');
        }
      }
    }
  }

  // ----- FindL2Heads -----

  /**
    The unsafe result is the highest block of start's chain such that it and all its ancestors
    have a plausible origin; the safe result starts the window that ends at the highest
    canonical origin, lies on the chain of the unsafe result, and has only canonical origins at
    and below it.
   */
  ghost predicate FoundHeads(r: Rollup, t: Tree, v: L1View, tip: Hash, n: L2Ref, h: Heads)
    requires tip in t
  {
    && HighestCanonical(r, t, v, tip, n)
    && HighestPlausible(r, t, v, tip, r.G().number, h.unsafe)
    && n.number <= h.unsafe.number
    && StartsWindow(r, t, tip, n.number, h.safe)
    && (forall m :: r.G().number <= m <= n.number ==> Canonical(v, OriginAt(r, t, tip, m)))
  }

  lemma FindL2HeadsSpec(r: Rollup, t: Tree, v: L1View, fails: set<Hash>, start: L2Ref)
    requires World(r, t, v) && Tracks(r, t, start)
    ensures match FindL2Heads(r, t, Steady(v), fails, start)
            case Err(_) => true
            case Ok(h) =>
              && (exists n :: FoundHeads(r, t, v, start.hash, n, h))
              && Ancestor(t, h.unsafe.hash, start.hash)
              && Ancestor(t, h.safe.hash, h.unsafe.hash)
  {
    var tip := start.hash;
    TrackedNumber(r, t, start);
    FindL2HeadsShape(r, t, Steady(v), fails, start);
    WalkToCanonicalSpec(r, t, v, fails, tip, start, 0, 0, ZERO_REF);
    match WalkToCanonical(r, t, Steady(v), fails, start, 0, 0, ZERO_REF)
    case Err(_) =>
    case Ok((n, cand)) =>
      OriginOfRef(r, t, tip, n);
      WalkWindowSpec(r, t, v, fails, tip, n.number, n, n.l1Origin.hash, 1);
      match WalkWindow(r, t, fails, n, n.l1Origin.hash, 1)
      case Err(_) =>
      case Ok(safe) =>
        forall m | r.G().number <= m <= n.number ensures Canonical(v, OriginAt(r, t, tip, m)) {
          CanonicalBelow(r, t, v, tip, m, n.number);
        }
        assert FoundHeads(r, t, v, tip, n, Heads(cand, safe));
  }

  /** The unsafe result is start itself, or the highest block of its chain with a canonical origin. */
  lemma UnsafeIsStartOrHighestCanonical(r: Rollup, t: Tree, v: L1View, tip: Hash, n: L2Ref, h: Heads)
    requires World(r, t, v) && tip in t
    requires FoundHeads(r, t, v, tip, n, h)
    ensures h.unsafe.number == t[tip].number || (h.unsafe.hash == n.hash && h.unsafe.number == n.number)
  {
    var u := h.unsafe.number;
    if u < t[tip].number {
      OriginsMonotone(r, t, v, tip, u, u + 1);
      assert Plausible(v, OriginAt(r, t, tip, u));
      assert Canonical(v, OriginAt(r, t, tip, u));
    }
  }

  // ----- The documented safe head -----

  /** The sequencing window of the epoch at height m is complete within the canonical L1 chain. */
  ghost predicate WindowComplete(r: Rollup, t: Tree, v: L1View, tip: Hash, m: nat) {
    v.head.Some? && Canonical(v, OriginAt(r, t, tip, m))
      && OriginAt(r, t, tip, m).number + r.cfg.seqWindowSize - 1 <= v.head.value
  }

  /** The safe block as op-node/rollup/sync/start.go documents it: the highest with a complete window, or genesis. */
  ghost predicate DocumentedSafe(r: Rollup, t: Tree, v: L1View, tip: Hash, safe: L2Ref)
    requires tip in t
  {
    && (WindowComplete(r, t, v, tip, safe.number) || safe.number == r.G().number)
    && forall m :: safe.number < m <= t[tip].number ==> !WindowComplete(r, t, v, tip, m)
  }

  /**
    The safe head is counted down from the highest canonical origin n of the L2 chain, not from the
    L1 head. It is the documented one exactly when it is n itself or the block above it still lacks
    L1 blocks.
   */
  lemma DocumentedSafeExact(r: Rollup, t: Tree, v: L1View, tip: Hash, n: L2Ref, h: Heads)
    requires World(r, t, v) && tip in t && FoundHeads(r, t, v, tip, n, h)
    ensures DocumentedSafe(r, t, v, tip, h.safe) <==>
              h.safe.number == n.number
                || OriginAt(r, t, tip, h.safe.number + 1).number + r.cfg.seqWindowSize - 1 > v.head.value
  {
    var s := h.safe.number;
    assert Canonical(v, OriginAt(r, t, tip, n.number)) && Canonical(v, OriginAt(r, t, tip, s));
    assert WindowComplete(r, t, v, tip, s) || s == r.G().number;
    if s < n.number {
      assert Canonical(v, OriginAt(r, t, tip, s + 1));
      if OriginAt(r, t, tip, s + 1).number + r.cfg.seqWindowSize - 1 > v.head.value {
        forall m | s < m <= t[tip].number ensures !WindowComplete(r, t, v, tip, m) {
          if m <= n.number {
            OriginsMonotone(r, t, v, tip, s + 1, m);
          }
        }
      } else {
        assert WindowComplete(r, t, v, tip, s + 1);
      }
    }
  }

  /**
    The same in terms of the chains alone: the found safe head is the documented one exactly when no
    block after genesis has an origin that is within the window below the highest canonical origin
    and nevertheless has a complete window below the L1 head.
   */
  lemma DocumentedSafeFromOrigins(r: Rollup, t: Tree, v: L1View, tip: Hash, n: L2Ref, h: Heads)
    requires World(r, t, v) && tip in t && FoundHeads(r, t, v, tip, n, h)
    ensures var top, W := OriginAt(r, t, tip, n.number).number, r.cfg.seqWindowSize;
            DocumentedSafe(r, t, v, tip, h.safe) <==>
              forall m :: r.G().number < m <= n.number ==>
                !(top < OriginAt(r, t, tip, m).number + W - 1 <= v.head.value)
  {
    var s, top, W := h.safe.number, OriginAt(r, t, tip, n.number).number, r.cfg.seqWindowSize;
    DocumentedSafeExact(r, t, v, tip, n, h);
    forall m | r.G().number < m <= s ensures OriginAt(r, t, tip, m).number + W - 1 <= top {
      OriginsMonotone(r, t, v, tip, m, s);
    }
    if s < n.number {
      assert OriginAt(r, t, tip, s + 1).number + W - 1 > top;
      forall m | s < m <= n.number ensures OriginAt(r, t, tip, s + 1).number <= OriginAt(r, t, tip, m).number {
        OriginsMonotone(r, t, v, tip, s + 1, m);
      }
    }
  }

  /** In particular, when the L2 chain has reached the L1 head. */
  lemma DocumentedAtL1Head(r: Rollup, t: Tree, v: L1View, tip: Hash, n: L2Ref, h: Heads)
    requires World(r, t, v) && tip in t && FoundHeads(r, t, v, tip, n, h)
    requires OriginAt(r, t, tip, n.number).number == v.head.value
    ensures DocumentedSafe(r, t, v, tip, h.safe)
  {
    DocumentedSafeExact(r, t, v, tip, n, h);
    if h.safe.number < n.number {
      assert OriginAt(r, t, tip, h.safe.number + 1).number
             > OriginAt(r, t, tip, n.number).number - (r.cfg.seqWindowSize - 1);
    }
  }

  // A chain of two L2 blocks, with origins 0 and 1, when L1 has reached block 2.

  function SmallL1(n: nat): L1Block
    requires n < 3
  {
    L1Block(10 + n, 9 + n, n, n, 0, 0, [], [])
  }

  const SMALL_L2: Tree := map[
    100 := Payload(100, 99, 0, 0, 0, 0, []),
    101 := Payload(101, 100, 1, 2, 0, 0, [[DEPOSIT_TX_TYPE]])]

  function SmallRollup(): Rollup {
    Rollup(
      Config(Genesis(BlockID(10, 0), BlockID(100, 0), 0), 2, 10, 2, 0, 0, 0, 0),
      map[10 := SmallL1(0), 11 := SmallL1(1), 12 := SmallL1(2)],
      Codec((s: nat, b: L1Block) => [], (b: L1Block) => [],
            (tx: Bytes) => Some((BlockID(11, 1), 0)), (d: Bytes) => None))
  }

  function SmallView(): L1View {
    L1View(Some(2), map[0 := 10, 1 := 11, 2 := 12])
  }

  lemma SmallTree()
    ensures var r, t := SmallRollup(), SMALL_L2;
            WfTree(t, r.G()) && r.cfg.Check() && t[r.G().hash].timestamp == r.cfg.genesis.l2Time
  {
    var r, t := SmallRollup(), SMALL_L2;
    assert Linked(t, r.G(), 100) && Linked(t, r.G(), 101);
  }

  lemma SmallOrigins()
    ensures forall h :: h in SMALL_L2 ==> OriginLinked(SmallRollup(), SMALL_L2, h)
  {
    var r, t := SmallRollup(), SMALL_L2;
    assert OriginOf(r, t, 100) == BlockID(10, 0) && OriginOf(r, t, 101) == BlockID(11, 1);
    assert ParentOf(r, 11) == Some(10);
    assert OriginLinked(r, t, 100) && OriginLinked(r, t, 101);
  }

  lemma SmallChain()
    ensures SmallRollup().WfL1() && CanonicalChain(SmallRollup(), SmallView())
  {
  }

  lemma SmallWorld()
    ensures World(SmallRollup(), SMALL_L2, SmallView())
  {
    SmallTree();
    SmallOrigins();
    SmallChain();
  }

  /** There the window of block 1 is complete, yet the safe head found is genesis. */
  lemma SafeCanLagBehind()
    ensures var r, t, v := SmallRollup(), SMALL_L2, SmallView();
            var start := L2Ref(101, 1, 100, 2, BlockID(11, 1), 0);
            && World(r, t, v) && Tracks(r, t, start)
            && (match FindL2Heads(r, t, Steady(v), {}, start)
                case Ok(h) => h.unsafe == start && h.safe.ID() == r.G() && !DocumentedSafe(r, t, v, start.hash, h.safe)
                case Err(_) => false)
            && WindowComplete(r, t, v, start.hash, 1)
  {
    var r, t, v := SmallRollup(), SMALL_L2, SmallView();
    var start, genesis := L2Ref(101, 1, 100, 2, BlockID(11, 1), 0), L2Ref(100, 0, 99, 0, BlockID(10, 0), 0);
    SmallWorld();
    assert RefByHash(r, t, {}, 100) == Some(genesis);
    assert WalkToCanonical(r, t, Steady(v), {}, start, 0, 0, ZERO_REF) == Ok((start, start));
    assert WalkWindow(r, t, {}, genesis, 11, 1) == Ok(genesis);
    assert WalkWindow(r, t, {}, start, 11, 1) == Ok(genesis);
    assert Lookup(t, 101, 1) == Some(101);
    assert WindowComplete(r, t, v, 101, 1);
  }

  // ----- Running it again -----

  /** A walk that succeeds also succeeds from a smaller depth. */
  lemma {:induction false} SmallerDepth(
    r: Rollup, t: Tree, v: L1View, fails: set<Hash>, n: L2Ref, prev: Hash, depth: nat, depth': nat, cand: L2Ref)
    requires WfTree(t, r.G()) && Tracks(r, t, n) && depth' <= depth
    requires WalkToCanonical(r, t, Steady(v), fails, n, prev, depth, cand).Ok?
    ensures WalkToCanonical(r, t, Steady(v), fails, n, prev, depth', cand)
            == WalkToCanonical(r, t, Steady(v), fails, n, prev, depth, cand)
    decreases n.number
  {
    var newEpoch := prev != n.l1Origin.hash;
    var check := AheadOrCanonical(v, n.l1Origin);
    if !(newEpoch && check.value.1) {
      ParentRef(r, t, fails, n);
      var parent := RefByHash(r, t, fails, n.parentHash);
      var cand' := if newEpoch then Candidate(n, cand, check.value.0) else cand;
      SmallerDepth(r, t, v, fails, parent.value, n.l1Origin.hash, depth + 1, depth' + 1, cand');
    }
  }

  /** The final candidate is the current one or was met on the way down. */
  lemma {:induction false} FinalCandidate(
    r: Rollup, t: Tree, v: L1View, fails: set<Hash>, n: L2Ref, prev: Hash, depth: nat, cand: L2Ref)
    requires WfTree(t, r.G()) && Tracks(r, t, n)
    requires WalkToCanonical(r, t, Steady(v), fails, n, prev, depth, cand).Ok?
    ensures var c := WalkToCanonical(r, t, Steady(v), fails, n, prev, depth, cand).value.1;
            c == cand || c.number <= n.number
    decreases n.number
  {
    var newEpoch := prev != n.l1Origin.hash;
    var check := AheadOrCanonical(v, n.l1Origin);
    if !(newEpoch && check.value.1) {
      ParentRef(r, t, fails, n);
      var parent := RefByHash(r, t, fails, n.parentHash);
      var cand' := if newEpoch then Candidate(n, cand, check.value.0) else cand;
      FinalCandidate(r, t, v, fails, parent.value, n.l1Origin.hash, depth + 1, cand');
    }
  }

  /** The walk from start passes the unsafe result in the state in which a walk from it starts. */
  lemma {:induction false} WalkFromResult(
    r: Rollup, t: Tree, v: L1View, fails: set<Hash>, tip: Hash, n: L2Ref, prev: Hash, depth: nat, cand: L2Ref, u: L2Ref)
    requires World(r, t, v) && tip in t
    requires IsAt(r, t, tip, n.number, n) && Walked(r, t, v, tip, n.number, prev, cand)
    requires WalkToCanonical(r, t, Steady(v), fails, n, prev, depth, cand).Ok?
    requires WalkToCanonical(r, t, Steady(v), fails, n, prev, depth, cand).value.1 == u
    requires u.number <= n.number && Tracks(r, t, u)
    ensures WalkToCanonical(r, t, Steady(v), fails, u, 0, 0, ZERO_REF)
            == WalkToCanonical(r, t, Steady(v), fails, n, prev, depth, cand)
    decreases n.number
  {
    var newEpoch := prev != n.l1Origin.hash;
    CheckIsPlausible(r, v, n.l1Origin);
    OriginOfRef(r, t, tip, n);
    assert OriginLinked(r, t, n.hash);
    var cand' := if newEpoch then Candidate(n, cand, Plausible(v, n.l1Origin)) else cand;
    WalkedStep(r, t, v, tip, n, prev, cand, cand');
    if !(newEpoch && Canonical(v, n.l1Origin)) {
      ParentRef(r, t, fails, n);
      var parent := RefByHash(r, t, fails, n.parentHash).value;
      IsAtParent(r, t, tip, n, parent);
      FinalCandidate(r, t, v, fails, parent, n.l1Origin.hash, depth + 1, cand');
      if u.number < n.number {
        WalkFromResult(r, t, v, fails, tip, parent, n.l1Origin.hash, depth + 1, cand', u);
      } else {
        assert u == n == cand';
        WalkFromHere(r, t, v, fails, n, prev, depth, cand, parent);
      }
    }
  }

  /** At the result itself a fresh walk makes it the candidate and goes on to the same parent. */
  lemma WalkFromHere(
    r: Rollup, t: Tree, v: L1View, fails: set<Hash>, n: L2Ref, prev: Hash, depth: nat, cand: L2Ref, parent: L2Ref)
    requires World(r, t, v) && Tracks(r, t, n) && !AtGenesis(r, n) && n.l1Origin.hash != 0 && n != ZERO_REF
    requires Plausible(v, n.l1Origin) && !Canonical(v, n.l1Origin)
    requires RefByHash(r, t, fails, n.parentHash) == Some(parent) && Tracks(r, t, parent)
    requires n == if prev != n.l1Origin.hash then Candidate(n, cand, Plausible(v, n.l1Origin)) else cand
    requires WalkToCanonical(r, t, Steady(v), fails, n, prev, depth, cand).Ok?
    ensures WalkToCanonical(r, t, Steady(v), fails, n, 0, 0, ZERO_REF)
            == WalkToCanonical(r, t, Steady(v), fails, n, prev, depth, cand)
  {
    CheckIsPlausible(r, v, n.l1Origin);
    SmallerDepth(r, t, v, fails, parent, n.l1Origin.hash, depth + 1, 1, n);
  }

  /** Running FindL2Heads again from the unsafe head it found returns the same pair. */
  lemma FindL2HeadsIdempotent(r: Rollup, t: Tree, v: L1View, fails: set<Hash>, start: L2Ref)
    requires World(r, t, v) && Tracks(r, t, start)
    requires FindL2Heads(r, t, Steady(v), fails, start).Ok?
    ensures var h := FindL2Heads(r, t, Steady(v), fails, start).value;
            Tracks(r, t, h.unsafe) && FindL2Heads(r, t, Steady(v), fails, h.unsafe) == Ok(h)
  {
    TrackedNumber(r, t, start);
    FindL2HeadsShape(r, t, Steady(v), fails, start);
    var h := FindL2Heads(r, t, Steady(v), fails, start).value;
    WalkFromResult(r, t, v, fails, start.hash, start, 0, 0, ZERO_REF, h.unsafe);
  }

  // ----- When it succeeds -----

  /** When every request is answered, the parent of a tracked block above genesis is found. */
  lemma ParentFound(r: Rollup, t: Tree, v: L1View, n: L2Ref)
    requires World(r, t, v) && Tracks(r, t, n) && !AtGenesis(r, n)
    ensures RefByHash(r, t, {}, n.parentHash).Some?
  {
    ParentRef(r, t, {}, n);
    assert OriginLinked(r, t, n.parentHash);
  }

  lemma {:induction false} WalkWindowSucceeds(r: Rollup, t: Tree, v: L1View, n: L2Ref, prev: Hash, depth: nat)
    requires World(r, t, v) && Tracks(r, t, n)
    ensures WalkWindow(r, t, {}, n, prev, depth).Ok?
    decreases n.number
  {
    var depth' := if n.l1Origin.hash != prev then depth + 1 else depth;
    if depth' != r.cfg.seqWindowSize && !AtGenesis(r, n) {
      ParentFound(r, t, v, n);
      ParentRef(r, t, {}, n);
      WalkWindowSucceeds(r, t, v, RefByHash(r, t, {}, n.parentHash).value, n.l1Origin.hash, depth');
    }
  }

  /** Some block less than 500 below the tip has a canonical origin. */
  ghost predicate CanonicalInReach(r: Rollup, t: Tree, v: L1View, tip: Hash)
    requires tip in t
  {
    exists m: nat :: r.G().number <= m <= t[tip].number < m + 500 && Canonical(v, OriginAt(r, t, tip, m))
  }

  lemma {:induction false} WalkReaches(
    r: Rollup, t: Tree, v: L1View, tip: Hash, n: L2Ref, prev: Hash, cand: L2Ref, m: nat)
    requires World(r, t, v) && tip in t
    requires IsAt(r, t, tip, n.number, n) && Walked(r, t, v, tip, n.number, prev, cand)
    requires r.G().number <= m <= n.number && t[tip].number < m + MAX_REORG_DEPTH
    requires Canonical(v, OriginAt(r, t, tip, m))
    ensures WalkToCanonical(r, t, Steady(v), {}, n, prev, t[tip].number - n.number, cand).Ok?
    decreases n.number
  {
    CheckIsPlausible(r, v, n.l1Origin);
    OriginOfRef(r, t, tip, n);
    var cand' := if prev != n.l1Origin.hash then Candidate(n, cand, Plausible(v, n.l1Origin)) else cand;
    WalkedStep(r, t, v, tip, n, prev, cand, cand');
    if prev == n.l1Origin.hash || !Canonical(v, n.l1Origin) {
      NotTheOne(r, t, v, tip, n, prev, cand);
      GenesisIsLast(r, t, n);
      ParentFound(r, t, v, n);
      ParentRef(r, t, {}, n);
      var parent := RefByHash(r, t, {}, n.parentHash).value;
      IsAtParent(r, t, tip, n, parent);
      WalkReaches(r, t, v, tip, parent, n.l1Origin.hash, cand', m);
    }
  }

  /** A block passed by the walk has no canonical origin. */
  lemma NotTheOne(r: Rollup, t: Tree, v: L1View, tip: Hash, n: L2Ref, prev: Hash, cand: L2Ref)
    requires World(r, t, v) && tip in t
    requires IsAt(r, t, tip, n.number, n) && Walked(r, t, v, tip, n.number, prev, cand)
    requires prev == n.l1Origin.hash || !Canonical(v, n.l1Origin)
    ensures !Canonical(v, OriginAt(r, t, tip, n.number))
  {
    OriginOfRef(r, t, tip, n);
    assert OriginLinked(r, t, n.hash);
    if n.number < t[tip].number {
      OriginBelow(r, t, v, tip, n.number);
    }
  }

  lemma GenesisIsLast(r: Rollup, t: Tree, n: L2Ref)
    requires WfTree(t, r.G()) && Tracks(r, t, n) && n.number > r.G().number
    ensures !AtGenesis(r, n)
  {
    TrackedNumber(r, t, n);
  }

  lemma {:induction false} WalkIsShort(
    r: Rollup, t: Tree, vs: L1Views, fails: set<Hash>, n: L2Ref, prev: Hash, depth: nat, cand: L2Ref)
    requires WfTree(t, r.G()) && Tracks(r, t, n) && depth < MAX_REORG_DEPTH
    ensures var res := WalkToCanonical(r, t, vs, fails, n, prev, depth, cand);
            res.Ok? ==> depth + n.number - res.value.0.number < MAX_REORG_DEPTH
    decreases n.number
  {
    var newEpoch := prev != n.l1Origin.hash;
    var check := AheadOrCanonical(vs(n.number), n.l1Origin);
    if !(newEpoch && (check.None? || check.value.1)) && !AtGenesis(r, n) {
      ParentRef(r, t, fails, n);
      var parent := RefByHash(r, t, fails, n.parentHash);
      if parent.Some? && depth + 1 < MAX_REORG_DEPTH {
        var cand' := if newEpoch then Candidate(n, cand, check.value.0) else cand;
        WalkIsShort(r, t, vs, fails, parent.value, n.l1Origin.hash, depth + 1, cand');
      }
    }
  }

  /** While every request is answered, heads are found exactly when a canonical origin is in reach. */
  lemma FindL2HeadsSucceeds(r: Rollup, t: Tree, v: L1View, start: L2Ref)
    requires World(r, t, v) && Tracks(r, t, start)
    ensures FindL2Heads(r, t, Steady(v), {}, start).Ok? <==> CanonicalInReach(r, t, v, start.hash)
  {
    var tip := start.hash;
    TrackedNumber(r, t, start);
    var walk := WalkToCanonical(r, t, Steady(v), {}, start, 0, 0, ZERO_REF);
    WalkToCanonicalSpec(r, t, v, {}, tip, start, 0, 0, ZERO_REF);
    WalkIsShort(r, t, Steady(v), {}, start, 0, 0, ZERO_REF);
    if walk.Ok? {
      var n := walk.value.0;
      OriginOfRef(r, t, tip, n);
      WalkWindowSucceeds(r, t, v, n, n.l1Origin.hash, 1);
    }
    if CanonicalInReach(r, t, v, tip) {
      var m: nat :| r.G().number <= m <= t[tip].number < m + 500 && Canonical(v, OriginAt(r, t, tip, m));
      WalkReaches(r, t, v, tip, start, 0, ZERO_REF, m);
    }
  }
}
