/**
  op-node/rollup/driver/step.go: how the driver turns attributes into engine blocks, verifies
  the unsafe chain against derived attributes, and inserts one epoch on top of the safe head.
 */
module Output {
  import opened Types
  import opened Engine
  import Derivation

  /**
    The encodings the driver calls: L1InfoDepositBytes, DeriveDeposits, the L1 origin read back
    from a block's first transaction, and DecodeBatches.
   */
  datatype Codec = Codec(
    info: (nat, L1Block) -> Bytes,
    deposits: L1Block -> seq<Bytes>,
    origin: Bytes -> Option<(BlockID, nat)>,
    decode: Bytes -> Option<seq<Batch>>)
  {
    /** The L1 info transaction is a deposit that records origin and sequence number; user deposits are deposits. */
    ghost predicate Sound() {
      && (forall s: nat, b: L1Block :: s < TWO_64 ==> IsDeposit(info(s, b)) && origin(info(s, b)) == Some((b.ID(), s)))
      && (forall b: L1Block, tx: Bytes :: tx in deposits(b) ==> IsDeposit(tx))
      && (forall d: Bytes, b: Batch :: decode(d).Some? && b in decode(d).value ==> b.timestamp < TWO_64)
    }
  }

  /** The configuration, every L1 block there is, by hash, and the encodings. */
  datatype Rollup = Rollup(cfg: Config, l1: map<Hash, L1Block>, codec: Codec)
  {
    ghost predicate WfL1() {
      && (forall h :: h in l1 ==> l1[h].hash == h)
      && (forall h :: h in l1 && l1[h].parentHash in l1 ==> l1[h].number == l1[l1[h].parentHash].number + 1)
    }

    ghost predicate Wf() {
      && cfg.Check()
      && codec.Sound()
      && WfL1()
      && cfg.genesis.l1.hash in l1
      && l1[cfg.genesis.l1.hash].ID() == cfg.genesis.l1
    }

    function G(): BlockID {
      cfg.genesis.l2
    }
  }

  /** l2.PayloadToBlockRef */
  function RefOf(r: Rollup, p: Payload): Option<L2Ref> {
    if p.number == r.G().number then
      if p.hash != r.G().hash then None
      else Some(L2Ref(p.hash, p.number, p.parentHash, p.timestamp, r.cfg.genesis.l1, 0))
    else if p.txs == [] then None
    else
      match r.codec.origin(p.txs[0])
      case None => None
      case Some((id, s)) => Some(L2Ref(p.hash, p.number, p.parentHash, p.timestamp, id, s))
  }

  /** ref describes the block of the tree that has its hash; only the genesis reference may omit the parent. */
  ghost predicate Tracks(r: Rollup, t: Tree, ref: L2Ref) {
    && ref.hash in t
    && match RefOf(r, t[ref.hash])
       case None => false
       case Some(x) => x == ref.(parentHash := x.parentHash) && (x.number != r.G().number ==> x == ref)
  }

  /** The reference of the block at height n on the chain of tip. */
  function RefAt(r: Rollup, t: Tree, tip: Hash, n: nat): L2Ref {
    match Lookup(t, tip, n)
    case None => ZERO_REF
    case Some(h) => if h in t && RefOf(r, t[h]).Some? then RefOf(r, t[h]).value else ZERO_REF
  }

  function BlockAt(t: Tree, tip: Hash, n: nat): Option<Payload> {
    match Lookup(t, tip, n)
    case None => None
    case Some(h) => if h in t then Some(t[h]) else None
  }

  // ----- Attributes -----

  /** The attributes insertEpoch derives for the i-th block of the epoch of L1 block b. */
  function DerivedAttributes(r: Rollup, b: L1Block, batch: Batch, i: nat): Attributes {
    Attributes(
      batch.timestamp,
      b.mixDigest,
      r.cfg.feeRecipient,
      [r.codec.info(i % TWO_64, b)] + (if i == 0 then r.codec.deposits(b) else []) + batch.txs,
      true)
  }

  function EpochAttributes(r: Rollup, b: L1Block, slots: seq<Batch>): seq<Attributes> {
    seq(|slots|, i requires 0 <= i < |slots| => DerivedAttributes(r, b, slots[i], i))
  }

  /** The attributes createNewBlock asks for on top of parent with L1 origin b. */
  function SequencerAttributes(r: Rollup, parent: L2Ref, b: L1Block): Attributes {
    var newEpoch := parent.l1Origin.number != b.number;
    var nextL2Time := parent.time + r.cfg.blockTime;
    Attributes(
      nextL2Time,
      b.mixDigest,
      r.cfg.feeRecipient,
      [r.codec.info(if newEpoch then 0 else (parent.sequenceNumber + 1) % TWO_64, b)]
      + (if newEpoch then r.codec.deposits(b) else []),
      nextL2Time >= b.time + r.cfg.maxSequencerDrift)
  }

  /** attributesMatchBlock: the fee recipient is not compared. */
  predicate AttributesMatch(attrs: Attributes, parent: Hash, p: Payload) {
    && parent == p.parentHash
    && attrs.timestamp == p.timestamp
    && attrs.prevRandao == p.prevRandao
    && attrs.txs == p.txs
  }

  method AttributesMatchBlock(attrs: Attributes, parent: Hash, p: Payload) returns (ok: bool)
    ensures ok <==> AttributesMatch(attrs, parent, p)
  {
    if parent != p.parentHash || attrs.timestamp != p.timestamp || attrs.prevRandao != p.prevRandao
      || |attrs.txs| != |p.txs| {
      return false;
    }
    for i := 0 to |attrs.txs|
      invariant attrs.txs[..i] == p.txs[..i]
    {
      if attrs.txs[i] != p.txs[i] {
        return false;
      }
      assert attrs.txs[..i + 1] == attrs.txs[..i] + [attrs.txs[i]];
    }
    assert attrs.txs == attrs.txs[..|attrs.txs|] && p.txs == p.txs[..|p.txs|];
    return true;
  }

  // ----- Inserting a block -----

  /** No transaction is empty, the first is a deposit, and no deposit follows another kind of transaction. */
  predicate DepositsFirst(txs: seq<Bytes>) {
    && txs != []
    && IsDeposit(txs[0])
    && (forall i :: 0 <= i < |txs| ==> txs[i] != [])
    && (forall i, j :: 0 <= i < j < |txs| && IsDeposit(txs[j]) ==> IsDeposit(txs[i]))
  }

  /** lastDeposit: the index of the last of the deposits at the start; None when an empty transaction is met. */
  method LastDeposit(txs: seq<Bytes>) returns (r: Option<nat>)
    ensures r.Some? && txs != [] ==>
              && r.value < |txs|
              && (forall i :: 0 <= i < r.value ==> IsDeposit(txs[i]))
              && (IsDeposit(txs[0]) ==> IsDeposit(txs[r.value]))
              && (r.value + 1 < |txs| && IsDeposit(txs[0]) ==> txs[r.value + 1] != [] && !IsDeposit(txs[r.value + 1]))
    ensures r.None? ==> exists i :: 0 <= i < |txs| && txs[i] == []
  {
    var last := 0;
    for i := 0 to |txs|
      invariant last == if i == 0 then 0 else i - 1
      invariant forall j :: 0 <= j < i ==> IsDeposit(txs[j])
    {
      if txs[i] == [] {
        return None;
      }
      if IsDeposit(txs[i]) {
        last := i;
      } else {
        break;
      }
    }
    return Some(last);
  }

  /** The checks read the first byte of the first transaction without looking at its length. */
  datatype Sanity = Sane | Insane | Crash

  /** The sanity checks insertHeadBlock makes on a payload before inserting it. */
  method CheckDeposits(txs: seq<Bytes>) returns (res: Sanity)
    ensures res == Sane <==> DepositsFirst(txs)
    ensures res == Crash <==> txs != [] && txs[0] == []
  {
    if txs == [] {
      return Insane;
    }
    if txs[0] == [] {
      return Crash;
    }
    if txs[0][0] != DEPOSIT_TX_TYPE {
      return Insane;
    }
    var last := LastDeposit(txs);
    if last.None? {
      return Insane;
    }
    for i := last.value + 1 to |txs|
      invariant forall j :: last.value < j < i ==> IsSequenced(txs[j])
    {
      if txs[i] == [] {
        return Insane;
      }
      if IsDeposit(txs[i]) {
        assert i > last.value + 1 ==> !IsDeposit(txs[last.value + 1]);
        return Insane;
      }
    }
    return Sane;
  }

  /**
    The attributes of the sequencer and of an epoch start with an L1 info transaction, so what is built from them
    never crashes the checks.
   */
  lemma BuiltNeverCrashes(r: Rollup, attrs: Attributes, parent: Hash, p: Payload)
    requires r.codec.Sound() && BuiltFrom(attrs, parent, p)
    requires (exists ref, b :: attrs == SequencerAttributes(r, ref, b))
             || (exists b, batch, i: nat :: attrs == DerivedAttributes(r, b, batch, i))
    ensures p.txs != [] && p.txs[0] != []
  {
    assert exists s: nat, b :: s < TWO_64 && attrs.txs != [] && attrs.txs[0] == r.codec.info(s, b) by {
      if ref, b :| attrs == SequencerAttributes(r, ref, b) {
        var s := if ref.l1Origin.number != b.number then 0 else (ref.sequenceNumber + 1) % TWO_64;
        assert attrs.txs[0] == r.codec.info(s, b);
      } else {
        var b, batch, i: nat :| attrs == DerivedAttributes(r, b, batch, i);
        assert attrs.txs[0] == r.codec.info(i % TWO_64, b);
      }
    }
    assert p.txs[0] == attrs.txs[0];
  }

  /** insertHeadBlock */
  function InsertHeadBlock(
    r: Rollup, e: State, fcHead: Hash, fcSafe: Hash, attrs: Attributes, updateSafe: bool): (State, Option<Payload>) {
    var (e1, ok1) := ForkchoiceUpdate(e, fcHead, fcSafe);
    if !ok1 then (e1, None) else
    var (e2, payload) := GetPayload(e1, r.G(), attrs);
    if payload.None? || !DepositsFirst(payload.value.txs) then (e2, None) else
    var p := payload.value;
    var (e3, ok3) := NewPayload(e2, r.G(), p);
    if !ok3 then (e3, None) else
    var (e4, ok4) := ForkchoiceUpdate(e3, p.hash, if updateSafe then p.hash else fcSafe);
    (e4, if ok4 then Some(p) else None)
  }

  /** p joined the tree, built from attrs on top of parent. */
  ghost predicate GrownBy(r: Rollup, t: Tree, t': Tree, parent: Hash, attrs: Attributes, p: Payload) {
    && BuiltFrom(attrs, parent, p)
    && DepositsFirst(p.txs)
    && IsChild(t, r.G(), p)
    && Insertable(t, r.G(), p)
    && t' == t[p.hash := p]
  }

  ghost predicate Grown(r: Rollup, t: Tree, t': Tree, parent: Hash, attrs: Attributes) {
    t' == t || exists p :: GrownBy(r, t, t', parent, attrs, p)
  }

  lemma GrownKeepsTree(r: Rollup, t: Tree, t': Tree, parent: Hash, attrs: Attributes)
    requires WfTree(t, r.G()) && Grown(r, t, t', parent, attrs)
    ensures WfTree(t', r.G()) && SubTree(t, t')
  {
    if t' != t {
      var p :| GrownBy(r, t, t', parent, attrs, p);
      InsertKeepsTree(t, r.G(), p);
    }
  }

  /** What insertHeadBlock does to the engine, failing or not: at most one block joins the tree, built as asked. */
  lemma InsertHeadBlockTree(r: Rollup, e: State, fcHead: Hash, fcSafe: Hash, attrs: Attributes, updateSafe: bool)
    requires e.head in e.tree && e.safe in e.tree
    ensures var (e', res) := InsertHeadBlock(r, e, fcHead, fcSafe, attrs, updateSafe);
            && Grown(r, e.tree, e'.tree, fcHead, attrs)
            && e'.head in e'.tree && e'.safe in e'.tree
            && (res.Some? ==>
                  && GrownBy(r, e.tree, e'.tree, fcHead, attrs, res.value)
                  && e'.head == res.value.hash
                  && e'.safe == (if updateSafe then res.value.hash else fcSafe))
  {
    var (e1, ok1) := ForkchoiceUpdate(e, fcHead, fcSafe);
    if ok1 {
      var (e2, payload) := GetPayload(e1, r.G(), attrs);
      if payload.Some? && DepositsFirst(payload.value.txs) {
        var p := payload.value;
        assert GrownBy(r, e.tree, e.tree[p.hash := p], fcHead, attrs, p);
      }
    }
  }

  /**
    Where insertHeadBlock leaves the engine, failing or not: where it was, on fcHead, or on the block built on fcHead.
   */
  lemma InsertHeadBlockHead(r: Rollup, e: State, fcHead: Hash, fcSafe: Hash, attrs: Attributes, updateSafe: bool)
    requires WfTree(e.tree, r.G()) && fcHead in e.tree && Ancestor(e.tree, fcHead, e.head)
    ensures var (e', res) := InsertHeadBlock(r, e, fcHead, fcSafe, attrs, updateSafe);
            Ancestor(e'.tree, fcHead, e'.head)
  {
    var (e', res) := InsertHeadBlock(r, e, fcHead, fcSafe, attrs, updateSafe);
    var (e1, ok1) := ForkchoiceUpdate(e, fcHead, fcSafe);
    if ok1 {
      var (e2, payload) := GetPayload(e1, r.G(), attrs);
      if payload.Some? && DepositsFirst(payload.value.txs) {
        var p := payload.value;
        InsertKeepsTree(e.tree, r.G(), p);
        var t' := e.tree[p.hash := p];
        assert t'[fcHead] == e.tree[fcHead] && Lookup(t', fcHead, t'[fcHead].number) == Some(fcHead);
      }
    }
  }

  /** verifySafeBlock: the payload and whether the unsafe chain was reorganised. */
  function VerifySafeBlock(
    r: Rollup, e: State, fcHead: Hash, attrs: Attributes, parent: BlockID): (State, Option<(Payload, bool)>) {
    var (e1, payload) := PayloadByNumber(e, parent.number + 1);
    if payload.None? || RefOf(r, payload.value).None? then (e1, None)
    else if !AttributesMatch(attrs, parent.hash, payload.value) then
      var (e2, p) := InsertHeadBlock(r, e1, parent.hash, parent.hash, attrs, true);
      (e2, if p.Some? then Some((p.value, true)) else None)
    else
      var (e2, ok) := ForkchoiceUpdate(e1, fcHead, payload.value.hash);
      (e2, if ok then Some((payload.value, false)) else None)
  }

  // ----- The epoch loop -----

  /** The variables of insertEpoch's loop; fc always holds the hashes of head and safe. */
  datatype EpochState = EpochState(eng: State, head: L2Ref, safe: L2Ref, reorg: bool, didReorg: bool)

  /** The payload of one iteration, and the value the reorg flag then has. */
  function EpochPayload(r: Rollup, s: EpochState, attrs: Attributes): (State, Option<Payload>, bool) {
    if s.head.hash != s.safe.hash then
      var (e, v) := VerifySafeBlock(r, s.eng, s.head.hash, attrs, s.safe.ID());
      if v.Some? then (e, Some(v.value.0), v.value.1) else (e, None, s.reorg)
    else
      var (e, p) := InsertHeadBlock(r, s.eng, s.head.hash, s.safe.hash, attrs, true);
      (e, p, s.reorg)
  }

  /** One iteration; false when the iteration returns an error. */
  function EpochStep(r: Rollup, s: EpochState, attrs: Attributes): (EpochState, bool) {
    var (e, payload, reorg) := EpochPayload(r, s, attrs);
    if payload.None? || RefOf(r, payload.value).None? then (s.(eng := e), false)
    else
      var newLast := RefOf(r, payload.value).value;
      var newHead := if reorg || s.head.hash == s.safe.hash then newLast else s.head;
      (EpochState(e, newHead, newLast, reorg, s.didReorg || reorg), true)
  }

  function EpochLoop(r: Rollup, s: EpochState, attrs: seq<Attributes>): (EpochState, bool)
    decreases |attrs|
  {
    if attrs == [] then (s, true)
    else
      var (s1, ok) := EpochStep(r, s, attrs[0]);
      if !ok then (s1, false) else EpochLoop(r, s1, attrs[1..])
  }

  /**
    What the loop needs: both references describe engine blocks, the engine is on l2Head or on a
    descendant of it, and l2Head is at least as high as the safe head, on whatever fork.
   */
  ghost predicate LoopReady(r: Rollup, s: EpochState) {
    && s.eng.Wf(r.G())
    && Tracks(r, s.eng.tree, s.head)
    && Tracks(r, s.eng.tree, s.safe)
    && Ancestor(s.eng.tree, s.head.hash, s.eng.head)
    && s.safe.number <= s.head.number
    && (s.reorg ==> s.head.hash == s.safe.hash)
  }

  /** One successful iteration moves the safe head to a child block that carries the given attributes. */
  ghost predicate StepDone(r: Rollup, s: EpochState, attrs: Attributes, s': EpochState) {
    && LoopReady(r, s')
    && SubTree(s.eng.tree, s'.eng.tree)
    && AttributesMatch(attrs, s.safe.hash, s'.eng.tree[s'.safe.hash])
    && s'.safe.number == s.safe.number + 1
    && Ancestor(s'.eng.tree, s'.safe.hash, s'.head.hash)
    && s'.eng.head == s'.head.hash
    && s'.eng.safe == s'.safe.hash
    && (s'.head == s.head || s'.head == s'.safe)
    && (s.head.hash == s.safe.hash ==> s'.head == s'.safe)
    && (s'.didReorg ==> s.didReorg || s'.head == s'.safe)
  }

  lemma TrackedNumber(r: Rollup, t: Tree, ref: L2Ref)
    requires WfTree(t, r.G()) && Tracks(r, t, ref)
    ensures ref.number == t[ref.hash].number && ref.number >= r.G().number
  {
    assert Linked(t, r.G(), ref.hash);
  }

  lemma TracksGrows(r: Rollup, t: Tree, t': Tree, ref: L2Ref)
    requires SubTree(t, t') && Tracks(r, t, ref)
    ensures Tracks(r, t', ref)
  {
  }

  /** The two branches that build a block: afterwards both heads are the new block. */
  lemma InsertStep(r: Rollup, s: EpochState, fcSafe: Hash, attrs: Attributes, e: State, s': EpochState)
    requires LoopReady(r, s) && e.tree == s.eng.tree && e.head in e.tree && e.safe in e.tree
    requires attrs.noTxPool
    requires var (e', p) := InsertHeadBlock(r, e, s.safe.hash, fcSafe, attrs, true);
             p.Some? && RefOf(r, p.value) == Some(s'.safe) && s'.head == s'.safe && s'.eng == e'
    ensures StepDone(r, s, attrs, s')
  {
    var (e', res) := InsertHeadBlock(r, e, s.safe.hash, fcSafe, attrs, true);
    InsertHeadBlockTree(r, e, s.safe.hash, fcSafe, attrs, true);
    GrownKeepsTree(r, e.tree, e'.tree, s.safe.hash, attrs);
    TrackedNumber(r, s.eng.tree, s.safe);
  }

  /** The branch that only moves the safe head: the block found matches and lies below the unsafe head. */
  lemma MatchStep(r: Rollup, s: EpochState, attrs: Attributes, x: Hash, s': EpochState)
    requires LoopReady(r, s) && s.head.hash != s.safe.hash
    requires Lookup(s.eng.tree, s.eng.head, s.safe.number + 1) == Some(x)
    requires x in s.eng.tree && AttributesMatch(attrs, s.safe.hash, s.eng.tree[x])
    requires RefOf(r, s.eng.tree[x]) == Some(s'.safe)
    requires s'.head == s.head && !s'.reorg && s'.didReorg == s.didReorg
    requires s'.eng.tree == s.eng.tree && s'.eng.head == s.head.hash && s'.eng.safe == x
    ensures StepDone(r, s, attrs, s')
  {
    var t, e, n := s.eng.tree, s.eng.head, s.safe.number;
    TrackedNumber(r, t, s.safe);
    TrackedNumber(r, t, s.head);
    LookupParent(t, r.G(), e, n);
    assert Lookup(t, e, s.head.number) == Some(s.head.hash);
    assert n < s.head.number;
    LookupTransitive(t, e, s.head.number, n + 1);
    assert s'.safe.hash == x;
  }

  /** The contract of one iteration, over all three branches. */
  lemma EpochStepContract(r: Rollup, s: EpochState, attrs: Attributes)
    requires LoopReady(r, s) && attrs.noTxPool
    ensures var (s', ok) := EpochStep(r, s, attrs); ok ==> StepDone(r, s, attrs, s')
  {
    var (s', ok) := EpochStep(r, s, attrs);
    if ok {
      if s.head.hash == s.safe.hash {
        InsertStep(r, s, s.safe.hash, attrs, s.eng, s');
      } else {
        var (e1, found) := PayloadByNumber(s.eng, s.safe.number + 1);
        var x := Lookup(s.eng.tree, s.eng.head, s.safe.number + 1).value;
        assert found == Some(s.eng.tree[x]);
        if AttributesMatch(attrs, s.safe.hash, found.value) {
          MatchStep(r, s, attrs, x, s');
        } else {
          InsertStep(r, s, s.safe.hash, attrs, e1, s');
        }
      }
    }
  }

  lemma VerifySafeBlockTree(r: Rollup, e: State, fcHead: Hash, attrs: Attributes, parent: BlockID)
    requires e.head in e.tree && e.safe in e.tree
    ensures var (e', v) := VerifySafeBlock(r, e, fcHead, attrs, parent);
            && Grown(r, e.tree, e'.tree, parent.hash, attrs)
            && e'.head in e'.tree && e'.safe in e'.tree
  {
    var (e1, found) := PayloadByNumber(e, parent.number + 1);
    if found.Some? && RefOf(r, found.value).Some? {
      if AttributesMatch(attrs, parent.hash, found.value) {
        ForkchoiceKeepsTree(e1, fcHead, found.value.hash);
      } else {
        InsertHeadBlockTree(r, e1, parent.hash, parent.hash, attrs, true);
      }
    }
  }

  lemma ForkchoiceKeepsTree(e: State, head: Hash, safe: Hash)
    requires e.head in e.tree && e.safe in e.tree
    ensures var (e', ok) := ForkchoiceUpdate(e, head, safe); e'.tree == e.tree && e'.head in e.tree && e'.safe in e.tree
  {
  }

  /** Failing or not, an iteration adds at most one block, built from the attributes on the safe head. */
  lemma EpochStepTree(r: Rollup, s: EpochState, attrs: Attributes)
    requires s.eng.head in s.eng.tree && s.eng.safe in s.eng.tree
    ensures var (s', ok) := EpochStep(r, s, attrs);
            && Grown(r, s.eng.tree, s'.eng.tree, s.safe.hash, attrs)
            && s'.eng.head in s'.eng.tree && s'.eng.safe in s'.eng.tree
  {
    if s.head.hash == s.safe.hash {
      InsertHeadBlockTree(r, s.eng, s.head.hash, s.safe.hash, attrs, true);
    } else {
      VerifySafeBlockTree(r, s.eng, s.head.hash, attrs, s.safe.ID());
    }
  }

  /** Failing or not, the loop only adds blocks to the engine's tree. */
  lemma {:induction false} EpochLoopTree(r: Rollup, s: EpochState, attrs: seq<Attributes>)
    requires s.eng.Wf(r.G())
    ensures var (s', ok) := EpochLoop(r, s, attrs); s'.eng.Wf(r.G()) && SubTree(s.eng.tree, s'.eng.tree)
    decreases |attrs|
  {
    if attrs != [] {
      var (s1, ok) := EpochStep(r, s, attrs[0]);
      EpochStepTree(r, s, attrs[0]);
      GrownKeepsTree(r, s.eng.tree, s1.eng.tree, s.safe.hash, attrs[0]);
      if ok {
        EpochLoopTree(r, s1, attrs[1..]);
      }
    }
  }

  /** On the chain of tip, the block above height n carries the attributes. */
  ghost predicate DerivedAbove(t: Tree, tip: Hash, n: nat, attrs: Attributes) {
    && Lookup(t, tip, n).Some?
    && Lookup(t, tip, n + 1).Some?
    && Lookup(t, tip, n + 1).value in t
    && AttributesMatch(attrs, Lookup(t, tip, n).value, t[Lookup(t, tip, n + 1).value])
  }

  /** The chain of tip carries the attributes one by one on top of block base at height n. */
  ghost predicate DerivedChain(t: Tree, tip: Hash, base: Hash, n: nat, attrs: seq<Attributes>) {
    && Lookup(t, tip, n) == Some(base)
    && tip in t && t[tip].number == n + |attrs|
    && forall j :: 0 <= j < |attrs| ==> DerivedAbove(t, tip, n + j, attrs[j])
  }

  ghost predicate EpochDone(r: Rollup, s: EpochState, attrs: seq<Attributes>, s': EpochState) {
    && LoopReady(r, s')
    && SubTree(s.eng.tree, s'.eng.tree)
    && DerivedChain(s'.eng.tree, s'.safe.hash, s.safe.hash, s.safe.number, attrs)
    && s'.safe.number == s.safe.number + |attrs|
    && (s'.head == s.head || s'.head == s'.safe)
    && (s.head.hash == s.safe.hash && attrs != [] ==> s'.head == s'.safe)
    && (s'.didReorg ==> s.didReorg || s'.head == s'.safe)
    && (attrs != [] ==>
          && Ancestor(s'.eng.tree, s'.safe.hash, s'.head.hash)
          && s'.eng.head == s'.head.hash
          && s'.eng.safe == s'.safe.hash)
  }

  /**
    insertEpoch's loop: when it succeeds the new safe head is |attrs| blocks above the old one by
    parent links, the blocks between carry exactly the given attributes in order, the unsafe head
    is the old one or the safe head and never below it, the engine's forkchoice is the returned
    pair, and heads that have met stay equal.
   */
  lemma {:induction false} EpochLoopContract(r: Rollup, s: EpochState, attrs: seq<Attributes>)
    requires LoopReady(r, s)
    requires forall a :: a in attrs ==> a.noTxPool
    ensures var (s', ok) := EpochLoop(r, s, attrs); ok ==> EpochDone(r, s, attrs, s')
    decreases |attrs|
  {
    TrackedNumber(r, s.eng.tree, s.safe);
    if attrs != [] {
      var (s1, ok) := EpochStep(r, s, attrs[0]);
      EpochStepContract(r, s, attrs[0]);
      if ok {
        var (s', ok') := EpochLoop(r, s1, attrs[1..]);
        EpochLoopContract(r, s1, attrs[1..]);
        if ok' {
          ChainExtends(r, s, attrs, s1, s');
        }
      }
    }
  }

  /** Puts the first block in front of the chain the remaining iterations derive. */
  lemma ChainExtends(r: Rollup, s: EpochState, attrs: seq<Attributes>, s1: EpochState, s': EpochState)
    requires LoopReady(r, s) && attrs != []
    requires StepDone(r, s, attrs[0], s1)
    requires EpochDone(r, s1, attrs[1..], s')
    ensures DerivedChain(s'.eng.tree, s'.safe.hash, s.safe.hash, s.safe.number, attrs)
  {
    var t', tip, n := s'.eng.tree, s'.safe.hash, s.safe.number;
    TrackedNumber(r, s.eng.tree, s.safe);
    LookupParent(t', r.G(), tip, n);
    assert t'[s1.safe.hash] == s1.eng.tree[s1.safe.hash];
    forall j | 0 <= j < |attrs| ensures DerivedAbove(t', tip, n + j, attrs[j]) {
      if j > 0 {
        assert attrs[j] == attrs[1..][j - 1];
        assert DerivedAbove(t', tip, n + 1 + (j - 1), attrs[1..][j - 1]);
      }
    }
  }

  // ----- insertEpoch -----

  /** BatchesFromEVMTransactions for one transaction: only the batch sender's calldata to the inbox counts. */
  function TxBatches(r: Rollup, tx: L1Tx): seq<Batch> {
    if tx.to == Some(r.cfg.batchInbox) && tx.sender == Some(r.cfg.batchSender) && r.codec.decode(tx.data).Some?
    then r.codec.decode(tx.data).value
    else []
  }

  function TxsBatches(r: Rollup, txs: seq<L1Tx>): seq<Batch> {
    if txs == [] then [] else TxsBatches(r, txs[..|txs| - 1]) + TxBatches(r, txs[|txs| - 1])
  }

  function ListsBatches(r: Rollup, lists: seq<seq<L1Tx>>): seq<Batch> {
    if lists == [] then [] else ListsBatches(r, lists[..|lists| - 1]) + TxsBatches(r, lists[|lists| - 1])
  }

  method BatchesFromEVMTransactions(r: Rollup, lists: seq<seq<L1Tx>>) returns (out: seq<Batch>)
    ensures out == ListsBatches(r, lists)
  {
    out := [];
    for i := 0 to |lists|
      invariant out == ListsBatches(r, lists[..i])
    {
      assert lists[..i + 1][..i] == lists[..i];
      ghost var before := out;
      var txs := lists[i];
      for j := 0 to |txs|
        invariant out == before + TxsBatches(r, txs[..j])
      {
        assert txs[..j + 1][..j] == txs[..j];
        var tx := txs[j];
        if tx.to != Some(r.cfg.batchInbox) || tx.sender != Some(r.cfg.batchSender) {
          continue;
        }
        var batches := r.codec.decode(tx.data);
        if batches.Some? {
          out := out + batches.value;
        }
      }
      assert txs[..|txs|] == txs;
    }
    assert lists[..|lists|] == lists;
  }

  /** Which of the L1 requests of one call are answered. */
  datatype L1Answers = L1Answers(fetch: bool, next: bool, txs: bool)

  datatype EpochError =
    | WindowTooSmall
    | WrongWindowSize
    | NoSafePayload
    | L1FetchFailed
    | NotOriginChild
    | NextL1Failed
    | TxFetchFailed
    | ChainFailed

  datatype EpochOutcome = Inserted(head: L2Ref, safe: L2Ref, didReorg: bool) | Failed(error: EpochError)

  predicate WindowKnown(r: Rollup, window: seq<BlockID>) {
    forall id :: id in window ==> id.hash in r.l1
  }

  function WindowTxs(r: Rollup, window: seq<BlockID>): seq<seq<L1Tx>>
    requires WindowKnown(r, window)
  {
    seq(|window|, i requires 0 <= i < |window| => r.l1[window[i].hash].txs)
  }

  /** The time limits for the epoch of L1 block b on top of a block stamped safeTime. */
  function EpochSpan(r: Rollup, epoch: nat, safeTime: nat, b: L1Block): Derivation.Span {
    var minTime := safeTime + r.cfg.blockTime;
    var maxTime := Derivation.Max(b.time + r.cfg.maxSequencerDrift, minTime + r.cfg.blockTime);
    Derivation.Span(r.cfg.genesis.l2Time, r.cfg.blockTime, epoch, minTime, maxTime)
  }

  /** The slots of the epoch: a function of the safe block's time and the L1 window alone. */
  function EpochSlots(r: Rollup, safeTime: nat, window: seq<BlockID>): seq<Batch>
    requires r.cfg.blockTime > 0 && |window| >= 2 && WindowKnown(r, window)
  {
    var b := r.l1[window[0].hash];
    Derivation.DeriveSlots(
      EpochSpan(r, window[0].number, safeTime, b),
      ListsBatches(r, WindowTxs(r, window)),
      r.l1[window[1].hash].time)
  }

  function EpochInputs(r: Rollup, safeTime: nat, window: seq<BlockID>): seq<Attributes>
    requires r.cfg.blockTime > 0 && |window| >= 2 && WindowKnown(r, window)
  {
    EpochAttributes(r, r.l1[window[0].hash], EpochSlots(r, safeTime, window))
  }

  /** The checks insertEpoch makes before it touches the chain; None when all pass. */
  function EpochGuard(
    r: Rollup, answers: L1Answers, safe: L2Ref, window: seq<BlockID>, safePayload: bool): Option<EpochError> {
    if |window| <= 1 then Some(WindowTooSmall)
    else if |window| != r.cfg.seqWindowSize then Some(WrongWindowSize)
    else if !safePayload then Some(NoSafePayload)
    else if !answers.fetch || window[0].hash !in r.l1 then Some(L1FetchFailed)
    else if safe.l1Origin.hash != r.l1[window[0].hash].parentHash then Some(NotOriginChild)
    else if !answers.next || window[1].hash !in r.l1 then Some(NextL1Failed)
    else if !answers.txs || !WindowKnown(r, window) then Some(TxFetchFailed)
    else None
  }

  function InsertEpoch(
    r: Rollup, e: State, answers: L1Answers, head: L2Ref, safe: L2Ref, window: seq<BlockID>): (State, EpochOutcome)
    requires r.cfg.blockTime > 0
  {
    if |window| <= 1 || |window| != r.cfg.seqWindowSize
    then (e, Failed(EpochGuard(r, answers, safe, window, true).value))
    else
      var (e1, info) := PayloadByHash(e, safe.hash);
      var guard := EpochGuard(r, answers, safe, window, info.Some?);
      if guard.Some? then (e1, Failed(guard.value))
      else
        var attrs := EpochInputs(r, info.value.timestamp, window);
        var (s, ok) := EpochLoop(r, EpochState(e1, head, safe, false, false), attrs);
        (s.eng, if ok then Inserted(s.head, s.safe, s.didReorg) else Failed(ChainFailed))
  }

  /** The attributes a successful insertEpoch derived, and the loop state it started from and ended in. */
  lemma InsertEpochContract(r: Rollup, e: State, answers: L1Answers, head: L2Ref, safe: L2Ref, window: seq<BlockID>)
    requires r.cfg.blockTime > 0
    requires LoopReady(r, EpochState(e, head, safe, false, false))
    ensures var (e', out) := InsertEpoch(r, e, answers, head, safe, window);
            out.Inserted? ==>
              && |window| == r.cfg.seqWindowSize >= 2 && WindowKnown(r, window)
              && r.l1[window[0].hash].parentHash == safe.l1Origin.hash
              && var attrs := EpochInputs(r, safe.time, window);
                 && |attrs| >= 1
                 && EpochDone(r, EpochState(e, head, safe, false, false), attrs,
                   EpochState(e', out.head, out.safe, false, out.didReorg))
  {
    var (e', out) := InsertEpoch(r, e, answers, head, safe, window);
    if out.Inserted? {
      var (e1, info) := PayloadByHash(e, safe.hash);
      var s0 := EpochState(e1, head, safe, false, false);
      var attrs := EpochInputs(r, safe.time, window);
      assert info.value.timestamp == safe.time;
      Derivation.DeriveSlotsSpec(
        EpochSpan(r, window[0].number, safe.time, r.l1[window[0].hash]),
        ListsBatches(r, WindowTxs(r, window)),
        r.l1[window[1].hash].time);
      EpochLoopContract(r, s0, attrs);
    }
  }

  /**
    Derivation does not depend on the unsafe chain: two successful runs from the same safe block
    and L1 window, whatever the engines, unsafe heads and answers, put equally many blocks on the
    safe head, and block for block these have the same timestamp, randao and transactions.
   */
  lemma DerivationIndependentOfUnsafeChain(
    r: Rollup, window: seq<BlockID>, safe: L2Ref,
    e1: State, a1: L1Answers, head1: L2Ref,
    e2: State, a2: L1Answers, head2: L2Ref, j: nat)
    requires r.cfg.blockTime > 0
    requires LoopReady(r, EpochState(e1, head1, safe, false, false))
    requires LoopReady(r, EpochState(e2, head2, safe, false, false))
    ensures var (e1', out1) := InsertEpoch(r, e1, a1, head1, safe, window);
            var (e2', out2) := InsertEpoch(r, e2, a2, head2, safe, window);
            out1.Inserted? && out2.Inserted? ==>
              && out1.safe.number == out2.safe.number
              && (safe.number + j < out1.safe.number ==>
                    var x1 := Lookup(e1'.tree, out1.safe.hash, safe.number + j + 1);
                    var x2 := Lookup(e2'.tree, out2.safe.hash, safe.number + j + 1);
                    && x1.Some? && x1.value in e1'.tree && x2.Some? && x2.value in e2'.tree
                    && e1'.tree[x1.value].timestamp == e2'.tree[x2.value].timestamp
                    && e1'.tree[x1.value].prevRandao == e2'.tree[x2.value].prevRandao
                    && e1'.tree[x1.value].txs == e2'.tree[x2.value].txs)
  {
    InsertEpochContract(r, e1, a1, head1, safe, window);
    InsertEpochContract(r, e2, a2, head2, safe, window);
    var (e1', out1) := InsertEpoch(r, e1, a1, head1, safe, window);
    var (e2', out2) := InsertEpoch(r, e2, a2, head2, safe, window);
    if out1.Inserted? && out2.Inserted? && safe.number + j < out1.safe.number {
      var attrs := EpochInputs(r, safe.time, window);
      assert DerivedAbove(e1'.tree, out1.safe.hash, safe.number + j, attrs[j]);
      assert DerivedAbove(e2'.tree, out2.safe.hash, safe.number + j, attrs[j]);
    }
  }

  // ----- createNewBlock and processBlock -----

  function CreateNewBlock(
    r: Rollup, e: State, infoOk: bool, head: L2Ref, safe: Hash, b: L1Block): (State, Option<L2Ref>) {
    if !infoOk then (e, None)
    else
      var (e1, p) := InsertHeadBlock(r, e, head.hash, safe, SequencerAttributes(r, head, b), false);
      (e1, if p.Some? then RefOf(r, p.value) else None)
  }

  function ProcessBlock(r: Rollup, e: State, safe: Hash, p: Payload): (State, bool) {
    var (e1, ok1) := NewPayload(e, r.G(), p);
    if !ok1 then (e1, false) else ForkchoiceUpdate(e1, p.hash, safe)
  }
}
