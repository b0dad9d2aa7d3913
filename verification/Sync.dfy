/**
  op-node/rollup/sync/start.go: the two backward walks over the L2 chain that find the unsafe
  and safe heads after the L1 chain changed.
 */
module Sync {
  import opened Types
  import opened Engine
  import opened Output

  const MAX_REORG_DEPTH: nat := 500

  /** What the L1 source answers: the head's number, and the canonical hash by number. Absent means an error. */
  datatype L1View = L1View(head: Option<nat>, canon: map<nat, Hash>)

  /** What L1 answers while the walk is at each L2 height: the source asks anew at every new origin. */
  type L1Views = nat -> L1View

  datatype FindError = WrongChain | TooDeepReorg | L1Unavailable | L2Unavailable

  datatype Heads = Heads(unsafe: L2Ref, safe: L2Ref)

  /** isAheadOrCanonical: (aheadOrCanonical, canonical), or None when an L1 request fails. */
  function AheadOrCanonical(v: L1View, id: BlockID): Option<(bool, bool)> {
    if v.head.None? then None
    else if id.number > v.head.value then Some((true, false))
    else if id.number !in v.canon then None
    else Some((v.canon[id.number] == id.hash, v.canon[id.number] == id.hash))
  }

  /** L2BlockRefByHash, where requests for the hashes in fails go unanswered. */
  function RefByHash(r: Rollup, t: Tree, fails: set<Hash>, h: Hash): Option<L2Ref> {
    if h !in t || h in fails then None else RefOf(r, t[h])
  }

  predicate AtGenesis(r: Rollup, n: L2Ref) {
    n.hash == r.G().hash || n.number == r.G().number
  }

  function GenesisRef(r: Rollup): L2Ref {
    L2Ref(r.G().hash, r.G().number, 0, r.cfg.genesis.l2Time, r.cfg.genesis.l1, 0)
  }

  /** A parent that answers is tracked and one lower. */
  lemma ParentRef(r: Rollup, t: Tree, fails: set<Hash>, n: L2Ref)
    requires WfTree(t, r.G()) && Tracks(r, t, n) && !AtGenesis(r, n)
    ensures n.parentHash in t && n.parentHash == t[n.hash].parentHash
    ensures match RefByHash(r, t, fails, n.parentHash)
            case None => true
            case Some(p) =>
              p.hash == n.parentHash && Tracks(r, t, p) && r.G().number <= p.number && p.number + 1 == n.number
  {
    assert Linked(t, r.G(), n.hash);
    assert Linked(t, r.G(), n.parentHash);
  }

  /** The candidate after n was looked at. */
  function Candidate(n: L2Ref, cand: L2Ref, plausible: bool): L2Ref {
    if !plausible then ZERO_REF else if cand == ZERO_REF then n else cand
  }

  /** Loop 1: the first block found with a canonical origin, and the candidate for the unsafe head. */
  function WalkToCanonical(
    r: Rollup, t: Tree, vs: L1Views, fails: set<Hash>, n: L2Ref, prev: Hash, depth: nat,
    cand: L2Ref): (res: Result<(L2Ref, L2Ref), FindError>)
    requires WfTree(t, r.G()) && Tracks(r, t, n)
    ensures res.Ok? ==> Tracks(r, t, res.value.0) && res.value.0.number <= n.number
    decreases n.number
  {
    var newEpoch := prev != n.l1Origin.hash;
    var check := AheadOrCanonical(vs(n.number), n.l1Origin);
    if newEpoch && check.None? then Err(L1Unavailable)
    else
      var cand' := if newEpoch then Candidate(n, cand, check.value.0) else cand;
      if newEpoch && check.value.1 then Ok((n, cand'))
      else if AtGenesis(r, n) then Err(WrongChain)
      else
        ParentRef(r, t, fails, n);
        match RefByHash(r, t, fails, n.parentHash)
        case None => Err(L2Unavailable)
        case Some(p) =>
          if depth + 1 >= MAX_REORG_DEPTH then Err(TooDeepReorg)
          else WalkToCanonical(r, t, vs, fails, p, n.l1Origin.hash, depth + 1, cand')
  }

  /** Loop 2: walk back until seqWindowSize L1 origins were seen, or to genesis. */
  function WalkWindow(r: Rollup, t: Tree, fails: set<Hash>, n: L2Ref, prev: Hash, depth: nat): Result<L2Ref, FindError>
    requires WfTree(t, r.G()) && Tracks(r, t, n)
    decreases n.number
  {
    var depth' := if n.l1Origin.hash != prev then depth + 1 else depth;
    if depth' == r.cfg.seqWindowSize then Ok(n)
    else if AtGenesis(r, n) then Ok(GenesisRef(r))
    else
      ParentRef(r, t, fails, n);
      match RefByHash(r, t, fails, n.parentHash)
      case None => Err(L2Unavailable)
      case Some(p) => WalkWindow(r, t, fails, p, n.l1Origin.hash, depth')
  }

  function FindL2Heads(r: Rollup, t: Tree, vs: L1Views, fails: set<Hash>, start: L2Ref): Result<Heads, FindError>
    requires WfTree(t, r.G()) && Tracks(r, t, start)
  {
    match WalkToCanonical(r, t, vs, fails, start, 0, 0, ZERO_REF)
    case Err(e) => Err(e)
    case Ok((n, cand)) =>
      match WalkWindow(r, t, fails, n, n.l1Origin.hash, 1)
      case Err(e) => Err(e)
      case Ok(safe) => Ok(Heads(cand, safe))
  }

  /** FindL2Heads, loop by loop. */
  method RunFindL2Heads(
    r: Rollup, t: Tree, vs: L1Views, fails: set<Hash>, start: L2Ref)
    returns (res: Result<Heads, FindError>)
    requires WfTree(t, r.G()) && Tracks(r, t, start)
    ensures res == FindL2Heads(r, t, vs, fails, start)
  {
    var n := start;
    var reorgDepth := 0;
    var prev: Hash := 0;
    var cand := ZERO_REF;
    while true
      invariant Tracks(r, t, n)
      invariant WalkToCanonical(r, t, vs, fails, start, 0, 0, ZERO_REF)
                == WalkToCanonical(r, t, vs, fails, n, prev, reorgDepth, cand)
      decreases n.number
    {
      if prev != n.l1Origin.hash {
        var check := AheadOrCanonical(vs(n.number), n.l1Origin);
        if check.None? {
          return Err(L1Unavailable);
        }
        if !check.value.0 {
          cand := ZERO_REF;
        } else {
          if cand == ZERO_REF {
            cand := n;
          }
          if check.value.1 {
            break;
          }
        }
        prev := n.l1Origin.hash;
      }
      if AtGenesis(r, n) {
        return Err(WrongChain);
      }
      ParentRef(r, t, fails, n);
      var parent := RefByHash(r, t, fails, n.parentHash);
      if parent.None? {
        return Err(L2Unavailable);
      }
      reorgDepth := reorgDepth + 1;
      if reorgDepth >= MAX_REORG_DEPTH {
        return Err(TooDeepReorg);
      }
      n := parent.value;
    }
    assert WalkToCanonical(r, t, vs, fails, start, 0, 0, ZERO_REF) == Ok((n, cand));
    ghost var first := n;
    prev := n.l1Origin.hash;
    var depth := 1;
    while true
      invariant Tracks(r, t, first) && Tracks(r, t, n)
      invariant WalkWindow(r, t, fails, first, first.l1Origin.hash, 1) == WalkWindow(r, t, fails, n, prev, depth)
      decreases n.number
    {
      if n.l1Origin.hash != prev {
        depth := depth + 1;
        prev := n.l1Origin.hash;
      }
      if depth == r.cfg.seqWindowSize {
        return Ok(Heads(cand, n));
      }
      if AtGenesis(r, n) {
        return Ok(Heads(cand, GenesisRef(r)));
      }
      ParentRef(r, t, fails, n);
      var parent := RefByHash(r, t, fails, n.parentHash);
      if parent.None? {
        return Err(L2Unavailable);
      }
      n := parent.value;
    }
  }

  // ----- What holds without any assumption on L1 -----

  /** ref is the block at height n on the chain of tip. */
  ghost predicate IsAt(r: Rollup, t: Tree, tip: Hash, n: nat, ref: L2Ref) {
    Lookup(t, tip, n) == Some(ref.hash) && Tracks(r, t, ref) && ref.number == n
  }

  lemma IsAtParent(r: Rollup, t: Tree, tip: Hash, n: L2Ref, p: L2Ref)
    requires WfTree(t, r.G()) && IsAt(r, t, tip, n.number, n) && !AtGenesis(r, n)
    requires Tracks(r, t, p) && p.hash == n.parentHash && p.number + 1 == n.number
    ensures IsAt(r, t, tip, p.number, p)
  {
    TrackedNumber(r, t, n);
    LookupParent(t, r.G(), tip, p.number);
  }

  lemma GenesisIsAt(r: Rollup, t: Tree, tip: Hash, n: L2Ref)
    requires WfTree(t, r.G()) && t[r.G().hash].timestamp == r.cfg.genesis.l2Time
    requires IsAt(r, t, tip, n.number, n) && AtGenesis(r, n)
    ensures n.hash == r.G().hash && n.number == r.G().number
    ensures IsAt(r, t, tip, n.number, GenesisRef(r))
  {
    assert Linked(t, r.G(), n.hash);
  }

  /** The candidate, once set, is a block of the chain at or above the current one. */
  ghost predicate CandidateAbove(r: Rollup, t: Tree, tip: Hash, k: nat, cand: L2Ref) {
    cand == ZERO_REF || (IsAt(r, t, tip, cand.number, cand) && k <= cand.number)
  }

  lemma {:induction false} WalkToCanonicalShape(
    r: Rollup, t: Tree, vs: L1Views, fails: set<Hash>, tip: Hash, n: L2Ref, prev: Hash, depth: nat, cand: L2Ref)
    requires WfTree(t, r.G()) && IsAt(r, t, tip, n.number, n) && CandidateAbove(r, t, tip, n.number, cand)
    ensures match WalkToCanonical(r, t, vs, fails, n, prev, depth, cand)
            case Err(_) => true
            case Ok((k, c)) =>
              IsAt(r, t, tip, k.number, k) && IsAt(r, t, tip, c.number, c) && k.number <= c.number
    decreases n.number
  {
    var newEpoch := prev != n.l1Origin.hash;
    var check := AheadOrCanonical(vs(n.number), n.l1Origin);
    if (newEpoch ==> check.Some? && !check.value.1) && !AtGenesis(r, n) {
      ParentRef(r, t, fails, n);
      var parent := RefByHash(r, t, fails, n.parentHash);
      if parent.Some? && depth + 1 < MAX_REORG_DEPTH {
        IsAtParent(r, t, tip, n, parent.value);
        var cand' := if newEpoch then Candidate(n, cand, check.value.0) else cand;
        WalkToCanonicalShape(r, t, vs, fails, tip, parent.value, n.l1Origin.hash, depth + 1, cand');
      }
    }
  }

  lemma {:induction false} WalkWindowShape(
    r: Rollup, t: Tree, fails: set<Hash>, tip: Hash, n: L2Ref, prev: Hash, depth: nat)
    requires WfTree(t, r.G()) && t[r.G().hash].timestamp == r.cfg.genesis.l2Time
    requires IsAt(r, t, tip, n.number, n)
    ensures match WalkWindow(r, t, fails, n, prev, depth)
            case Err(_) => true
            case Ok(s) => IsAt(r, t, tip, s.number, s) && s.number <= n.number
    decreases n.number
  {
    var depth' := if n.l1Origin.hash != prev then depth + 1 else depth;
    if AtGenesis(r, n) {
      GenesisIsAt(r, t, tip, n);
    } else if depth' != r.cfg.seqWindowSize {
      ParentRef(r, t, fails, n);
      var parent := RefByHash(r, t, fails, n.parentHash);
      if parent.Some? {
        IsAtParent(r, t, tip, n, parent.value);
        WalkWindowShape(r, t, fails, tip, parent.value, n.l1Origin.hash, depth');
      }
    }
  }

  /**
    Whatever L1 answers along the way, the unsafe result is start or an ancestor, and the safe result is the unsafe
    one or an ancestor.
   */
  lemma FindL2HeadsShape(r: Rollup, t: Tree, vs: L1Views, fails: set<Hash>, start: L2Ref)
    requires WfTree(t, r.G()) && t[r.G().hash].timestamp == r.cfg.genesis.l2Time
    requires Tracks(r, t, start)
    ensures match FindL2Heads(r, t, vs, fails, start)
            case Err(_) => true
            case Ok(h) =>
              && Tracks(r, t, h.unsafe) && Tracks(r, t, h.safe)
              && Ancestor(t, h.unsafe.hash, start.hash)
              && Ancestor(t, h.safe.hash, h.unsafe.hash)
              && h.safe.number <= h.unsafe.number <= start.number
  {
    var tip := start.hash;
    TrackedNumber(r, t, start);
    WalkToCanonicalShape(r, t, vs, fails, tip, start, 0, 0, ZERO_REF);
    match WalkToCanonical(r, t, vs, fails, start, 0, 0, ZERO_REF)
    case Err(_) =>
    case Ok((n, cand)) =>
      WalkWindowShape(r, t, fails, tip, n, n.l1Origin.hash, 1);
      LookupHeight(t, tip, cand.number);
      match WalkWindow(r, t, fails, n, n.l1Origin.hash, 1)
      case Err(_) =>
      case Ok(safe) =>
        LookupHeight(t, tip, safe.number);
        AncestorsOrdered(t, safe.hash, cand.hash, tip);
  }
}
