/**
  What holds in every run of the driver (op-node/rollup/driver/state.go): the L1 window stays an
  unbroken chain on the safe head's origin, and the safe head stays at or below the unsafe head.
 */
module DriverRuns {
  import opened Types
  import opened Engine
  import opened Output
  import opened Sync
  import opened Driver
  import Derivation

  // ----- One epoch, failing or not, from any driver state -----

  /** Every attribute list starts with an L1 info transaction of block b. */
  ghost predicate InfoFirst(r: Rollup, b: L1Block, a: Attributes) {
    a.noTxPool && a.txs != [] && r.codec.origin(a.txs[0]).Some? && r.codec.origin(a.txs[0]).value.0 == b.ID()
  }

  lemma EpochInputsInfoFirst(r: Rollup, safeTime: nat, window: seq<BlockID>)
    requires r.Wf() && |window| >= 2 && WindowKnown(r, window)
    ensures EpochInputs(r, safeTime, window) != []
    ensures forall a :: a in EpochInputs(r, safeTime, window) ==> InfoFirst(r, r.l1[window[0].hash], a)
  {
    var b := r.l1[window[0].hash];
    Derivation.DeriveSlotsSpec(
      EpochSpan(r, window[0].number, safeTime, b), ListsBatches(r, WindowTxs(r, window)), r.l1[window[1].hash].time);
    var slots := EpochSlots(r, safeTime, window);
    forall i | 0 <= i < |slots| ensures InfoFirst(r, b, DerivedAttributes(r, b, slots[i], i)) {
      assert DerivedAttributes(r, b, slots[i], i).txs[0] == r.codec.info(i % TWO_64, b);
    }
  }

  ghost predicate RefsTracked(r: Rollup, s: EpochState) {
    s.eng.Wf(r.G()) && Tracks(r, s.eng.tree, s.head) && Tracks(r, s.eng.tree, s.safe)
  }

  /** The block of ref, above genesis, has the timestamp and transactions of the attributes. */
  ghost predicate Carries(r: Rollup, t: Tree, ref: L2Ref, attrs: Attributes) {
    && ref.hash in t
    && t[ref.hash].number > r.G().number
    && t[ref.hash].txs == attrs.txs
    && t[ref.hash].timestamp == attrs.timestamp
    && t[ref.hash].prevRandao == attrs.prevRandao
  }

  lemma EpochStepRefs(r: Rollup, s: EpochState, b: L1Block, attrs: Attributes)
    requires RefsTracked(r, s) && InfoFirst(r, b, attrs)
    ensures var (s', ok) := EpochStep(r, s, attrs);
            && RefsTracked(r, s')
            && (ok ==> Carries(r, s'.eng.tree, s'.safe, attrs) && s'.safe.l1Origin == b.ID())
  {
    var (s', ok) := EpochStep(r, s, attrs);
    EpochStepTree(r, s, attrs);
    GrownKeepsTree(r, s.eng.tree, s'.eng.tree, s.safe.hash, attrs);
    TracksGrows(r, s.eng.tree, s'.eng.tree, s.head);
    TracksGrows(r, s.eng.tree, s'.eng.tree, s.safe);
    if ok {
      EpochPayloadCarries(r, s, attrs);
    }
  }

  /** The payload of an iteration, found or built, is in the tree and carries the attributes. */
  lemma EpochPayloadCarries(r: Rollup, s: EpochState, attrs: Attributes)
    requires RefsTracked(r, s) && attrs.noTxPool
    ensures var (e, payload, reorg) := EpochPayload(r, s, attrs);
            payload.Some? ==>
              && payload.value.hash in e.tree && e.tree[payload.value.hash] == payload.value
              && payload.value.number > r.G().number
              && payload.value.txs == attrs.txs && payload.value.timestamp == attrs.timestamp
                && payload.value.prevRandao == attrs.prevRandao
  {
    TrackedNumber(r, s.eng.tree, s.safe);
    if s.head.hash == s.safe.hash {
      InsertHeadBlockTree(r, s.eng, s.head.hash, s.safe.hash, attrs, true);
    } else {
      var (e1, found) := PayloadByNumber(s.eng, s.safe.number + 1);
      if found.Some? {
        LookupHeight(s.eng.tree, s.eng.head, s.safe.number + 1);
        if !AttributesMatch(attrs, s.safe.hash, found.value) {
          InsertHeadBlockTree(r, e1, s.safe.hash, s.safe.hash, attrs, true);
        }
      }
    }
  }

  lemma {:induction false} EpochLoopRefs(r: Rollup, s: EpochState, b: L1Block, attrs: seq<Attributes>)
    requires RefsTracked(r, s) && forall a :: a in attrs ==> InfoFirst(r, b, a)
    ensures var (s', ok) := EpochLoop(r, s, attrs);
            RefsTracked(r, s') && (ok && attrs != [] ==> s'.safe.l1Origin == b.ID())
    decreases |attrs|
  {
    if attrs != [] {
      var (s1, ok) := EpochStep(r, s, attrs[0]);
      EpochStepRefs(r, s, b, attrs[0]);
      if ok {
        EpochLoopRefs(r, s1, b, attrs[1..]);
      }
    }
  }

  /** The guards of insertEpoch that compare sizes and parents. */
  predicate IsWindowError(e: EpochError) {
    e.WindowTooSmall? || e.WrongWindowSize? || e.NotOriginChild?
  }

  lemma InsertEpochRefs(r: Rollup, s: DriverState, answers: L1Answers, window: seq<BlockID>)
    requires Core(r, s)
    requires |window| == r.cfg.seqWindowSize && WindowLinked(r, s.l2Safe.l1Origin.hash, window)
    ensures var (e', out) := InsertEpoch(r, s.eng, answers, s.l2Head, s.l2Safe, window);
            && e'.Wf(r.G()) && SubTree(s.eng.tree, e'.tree)
            && (match out
                case Failed(err) => !IsWindowError(err)
                case Inserted(head, safe, _) =>
                  Tracks(r, e'.tree, head) && Tracks(r, e'.tree, safe) && safe.l1Origin == window[0])
  {
    assert LinkedAt(r, s.l2Safe.l1Origin.hash, window, 0);
    var (e1, info) := PayloadByHash(s.eng, s.l2Safe.hash);
    var guard := EpochGuard(r, answers, s.l2Safe, window, info.Some?);
    if guard.None? {
      var s0 := EpochState(e1, s.l2Head, s.l2Safe, false, false);
      var attrs := EpochInputs(r, info.value.timestamp, window);
      EpochInputsInfoFirst(r, info.value.timestamp, window);
      EpochLoopRefs(r, s0, r.l1[window[0].hash], attrs);
      EpochLoopTree(r, s0, attrs);
    }
  }

  // ----- The window invariant -----

  /** The invariant of every run: Core, and the window is an unbroken L1 chain on the safe head's origin. */
  ghost predicate Inv(r: Rollup, s: DriverState) {
    Core(r, s) && WindowLinked(r, s.l2Safe.l1Origin.hash, s.window)
  }

  lemma ExtendWindowLinked(r: Rollup, s: DriverState, range: Option<seq<RangeReply>>)
    requires Inv(r, s)
    requires range.Some? ==> forall b :: Header(b) in range.value ==> b.hash in r.l1 && r.l1[b.hash] == b
    ensures match ExtendWindow(r, s, range)
            case None => true
            case Some(window) => WindowLinked(r, s.l2Safe.l1Origin.hash, window)
  {
    var w, origin := s.window, s.l2Safe.l1Origin.hash;
    if |w| < r.cfg.seqWindowSize && range.Some? {
      L1RangeLinked(r, WindowEnd(s), range.value);
      var ids := L1Range(WindowEnd(s), range.value);
      if ids.Some? {
        var all := w + ids.value;
        forall i | 0 <= i < |all| ensures LinkedAt(r, origin, all, i) {
          if i < |w| {
            assert LinkedAt(r, origin, w, i);
          } else {
            assert LinkedAt(r, WindowEnd(s).hash, ids.value, i - |w|);
          }
        }
      }
    }
  }

  lemma HandleEpochInv(r: Rollup, s: DriverState, range: Option<seq<RangeReply>>, answers: L1Answers)
    requires Inv(r, s)
    requires range.Some? ==> forall b :: Header(b) in range.value ==> b.hash in r.l1 && r.l1[b.hash] == b
    ensures var res := HandleEpoch(r, s, range, answers);
            && Inv(r, res.state) && SubTree(s.eng.tree, res.state.eng.tree)
            && (res.error.Some? && res.error.value.EpochFailed? ==> !IsWindowError(res.error.value.epoch))
  {
    ExtendWindowLinked(r, s, range);
    var ext := ExtendWindow(r, s, range);
    var W := r.cfg.seqWindowSize;
    if ext.Some? && |ext.value| >= W {
      var window, origin := ext.value, s.l2Safe.l1Origin.hash;
      forall i | 0 <= i < W ensures LinkedAt(r, origin, window[..W], i) {
        assert LinkedAt(r, origin, window, i);
      }
      InsertEpochRefs(r, s, answers, window[..W]);
      var (e1, out) := InsertEpoch(r, s.eng, answers, s.l2Head, s.l2Safe, window[..W]);
      TracksGrows(r, s.eng.tree, e1.tree, s.l2Head);
      TracksGrows(r, s.eng.tree, e1.tree, s.l2Safe);
      assert e1.tree[r.G().hash] == s.eng.tree[r.G().hash];
      if out.Inserted? {
        forall i | 0 <= i < |window| - 1 ensures LinkedAt(r, window[0].hash, window[1..], i) {
          assert LinkedAt(r, origin, window, i + 1);
        }
      }
    }
  }

  lemma HandleNewL1BlockInv(r: Rollup, s: DriverState, newHead: L1Block, view: L1Views, fails: set<Hash>)
    requires Inv(r, s) && newHead.hash in r.l1 && r.l1[newHead.hash] == newHead
    ensures var res := HandleNewL1Block(r, s, newHead, view, fails);
            && Inv(r, res.state) && res.state.eng.tree == s.eng.tree
            && res.state.l2Safe.number <= s.l2Safe.number
  {
    var origin := s.l2Safe.l1Origin.hash;
    if s.l1Head.hash != newHead.hash {
      if s.l1Head.hash == newHead.parentHash {
        var w := s.window + [newHead.ID()];
        if WindowEnd(s).hash == newHead.parentHash {
          forall i | 0 <= i < |w| ensures LinkedAt(r, origin, w, i) {
            assert i < |s.window| ==> LinkedAt(r, origin, s.window, i);
          }
        }
      } else {
        FindL2HeadsShape(r, s.eng.tree, view, fails, s.l2Head);
      }
    }
  }

  /** A sequenced block: its reference describes it, and it is a child of the old head. */
  lemma CreateNewBlockRef(r: Rollup, s: DriverState, info: bool, b: L1Block)
    requires Core(r, s)
    ensures var (e', ref) := CreateNewBlock(r, s.eng, info, s.l2Head, s.l2Safe.hash, b);
            && e'.Wf(r.G()) && SubTree(s.eng.tree, e'.tree)
            && (ref.Some? ==>
                  && Tracks(r, e'.tree, ref.value)
                  && e'.head == ref.value.hash && e'.safe == s.l2Safe.hash
                  && ref.value.number == s.l2Head.number + 1
                  && Ancestor(e'.tree, s.l2Head.hash, ref.value.hash))
  {
    if info {
      var attrs := SequencerAttributes(r, s.l2Head, b);
      var (e', p) := InsertHeadBlock(r, s.eng, s.l2Head.hash, s.l2Safe.hash, attrs, false);
      InsertHeadBlockTree(r, s.eng, s.l2Head.hash, s.l2Safe.hash, attrs, false);
      GrownKeepsTree(r, s.eng.tree, e'.tree, s.l2Head.hash, attrs);
      TrackedNumber(r, s.eng.tree, s.l2Head);
      if p.Some? {
        assert Lookup(e'.tree, s.l2Head.hash, s.l2Head.number) == Some(s.l2Head.hash);
      }
    }
  }

  lemma ProcessBlockRef(r: Rollup, s: DriverState, p: Payload)
    requires Core(r, s)
    ensures var (e', ok) := ProcessBlock(r, s.eng, s.l2Safe.hash, p);
            && e'.Wf(r.G()) && SubTree(s.eng.tree, e'.tree)
            && (ok ==> p.hash in e'.tree && e'.tree[p.hash] == p && e'.head == p.hash)
  {
    if Insertable(s.eng.tree, r.G(), p) {
      InsertKeepsTree(s.eng.tree, r.G(), p);
    }
  }

  /**
    Every step, failing or not, keeps the invariant, and the size and parent checks of
    insertEpoch never fire.
   */
  lemma StepInv(r: Rollup, s: DriverState, ev: Event)
    requires Inv(r, s) && Honest(r, s, ev)
    ensures var res := Step(r, s, ev);
            && Inv(r, res.state)
            && SubTree(s.eng.tree, res.state.eng.tree)
            && (res.error.Some? && res.error.value.EpochFailed? ==> !IsWindowError(res.error.value.epoch))
  {
    match ev
    case L1Signal(newHead, view, fails) =>
      HandleNewL1BlockInv(r, s, newHead, view, fails);
    case NewBlock(current, next, info, published) =>
      NewBlockInv(r, s, current, next, info, published);
    case EpochRequest(range, answers) =>
      HandleEpochInv(r, s, range, answers);
    case UnsafePayload(p) =>
      UnsafePayloadInv(r, s, p);
  }

  lemma NewBlockInv(r: Rollup, s: DriverState, current: bool, next: Option<L1Block>, info: bool, published: bool)
    requires Inv(r, s)
    ensures var s' := CreateNewL2Block(r, s, current, next, info, published).state;
            Inv(r, s') && SubTree(s.eng.tree, s'.eng.tree)
  {
    var b := FindL1Origin(r, s, current, next);
    if b.Some? {
      CreateNewBlockRef(r, s, info, b.value);
      KeepsTracking(r, s, CreateNewBlock(r, s.eng, info, s.l2Head, s.l2Safe.hash, b.value).0);
    }
  }

  lemma UnsafePayloadInv(r: Rollup, s: DriverState, p: Payload)
    requires Inv(r, s)
    ensures var s' := HandleUnsafeL2Payload(r, s, p).state; Inv(r, s') && SubTree(s.eng.tree, s'.eng.tree)
  {
    ProcessBlockRef(r, s, p);
    KeepsTracking(r, s, ProcessBlock(r, s.eng, s.l2Safe.hash, p).0);
  }

  lemma KeepsTracking(r: Rollup, s: DriverState, e: State)
    requires Core(r, s) && e.Wf(r.G()) && SubTree(s.eng.tree, e.tree)
    ensures Core(r, s.(eng := e))
  {
    TracksGrows(r, s.eng.tree, e.tree, s.l2Head);
    TracksGrows(r, s.eng.tree, e.tree, s.l2Safe);
    assert e.tree[r.G().hash] == s.eng.tree[r.G().hash];
  }

  // ----- The order of the heads -----

  /** The engine is on the unsafe head or a descendant of it, and the safe head is no higher. */
  ghost predicate HeadsOrdered(s: DriverState) {
    Ancestor(s.eng.tree, s.l2Head.hash, s.eng.head) && s.l2Safe.number <= s.l2Head.number
  }

  /** The safe head is the unsafe head or an ancestor of it. */
  ghost predicate SafeBelow(s: DriverState) {
    Ancestor(s.eng.tree, s.l2Safe.hash, s.l2Head.hash)
  }

  /** A failing step leaves the engine on the head it had; publication comes after the heads have moved together. */
  ghost predicate FailsQuietly(r: Rollup, s: DriverState, ev: Event)
    requires Core(r, s)
  {
    Step(r, s, ev).error.Some? && !Step(r, s, ev).error.value.PublishFailed? ==>
      Step(r, s, ev).state.eng.head == s.eng.head
  }

  /** A step that changes neither head, with the engine's head kept and its tree grown, keeps the order. */
  lemma OrderKept(r: Rollup, s: DriverState, s': DriverState)
    requires Core(r, s) && HeadsOrdered(s) && SubTree(s.eng.tree, s'.eng.tree)
    requires s'.l2Head == s.l2Head && s'.l2Safe == s.l2Safe && s'.eng.head == s.eng.head
    ensures HeadsOrdered(s')
    ensures SafeBelow(s) ==> SafeBelow(s')
  {
    AncestorGrows(s.eng.tree, s'.eng.tree, r.G(), s.l2Head.hash, s.eng.head);
    if SafeBelow(s) {
      AncestorGrows(s.eng.tree, s'.eng.tree, r.G(), s.l2Safe.hash, s.l2Head.hash);
    }
  }

  lemma HandleNewL1BlockOrder(r: Rollup, s: DriverState, newHead: L1Block, view: L1Views, fails: set<Hash>)
    requires Inv(r, s) && HeadsOrdered(s) && newHead.hash in r.l1 && r.l1[newHead.hash] == newHead
    requires FailsQuietly(r, s, L1Signal(newHead, view, fails))
    ensures var s' := HandleNewL1Block(r, s, newHead, view, fails).state;
            HeadsOrdered(s') && (SafeBelow(s) ==> SafeBelow(s'))
  {
    var res := HandleNewL1Block(r, s, newHead, view, fails);
    var t := s.eng.tree;
    HandleNewL1BlockInv(r, s, newHead, view, fails);
    if res.state.l2Head == s.l2Head && res.state.l2Safe == s.l2Safe && res.state.eng.head == s.eng.head {
      OrderKept(r, s, res.state);
    } else {
      FindL2HeadsShape(r, t, view, fails, s.l2Head);
      var h := FindL2Heads(r, t, view, fails, s.l2Head).value;
      TrackedNumber(r, t, h.unsafe);
      TrackedNumber(r, t, h.safe);
      TrackedNumber(r, t, s.l2Safe);
      assert Ancestor(t, h.unsafe.hash, h.unsafe.hash);
      if SafeBelow(s) && s.l2Safe.number < h.safe.number {
        AncestorsOrdered(t, s.l2Safe.hash, h.unsafe.hash, s.l2Head.hash);
      }
    }
  }

  lemma CreateNewL2BlockOrder(
    r: Rollup, s: DriverState, current: bool, next: Option<L1Block>, info: bool, published: bool)
    requires Inv(r, s) && HeadsOrdered(s)
    requires FailsQuietly(r, s, NewBlock(current, next, info, published))
    ensures var s' := CreateNewL2Block(r, s, current, next, info, published).state;
            HeadsOrdered(s') && (SafeBelow(s) ==> SafeBelow(s')) && s'.l2Safe == s.l2Safe
  {
    var res := CreateNewL2Block(r, s, current, next, info, published);
    var b := FindL1Origin(r, s, current, next);
    if (res.error.Some? && !res.error.value.PublishFailed?) || res.state == s {
      if b.Some? {
        CreateNewBlockRef(r, s, info, b.value);
      }
      OrderKept(r, s, res.state);
    } else {
      CreateNewBlockRef(r, s, info, b.value);
      var t' := res.state.eng.tree;
      TrackedNumber(r, t', res.state.l2Head);
      assert Ancestor(t', res.state.l2Head.hash, res.state.l2Head.hash);
      if SafeBelow(s) {
        AncestorGrows(s.eng.tree, t', r.G(), s.l2Safe.hash, s.l2Head.hash);
        AncestorTransitive(t', s.l2Safe.hash, s.l2Head.hash, res.state.l2Head.hash);
      }
    }
  }

  lemma HandleEpochOrder(r: Rollup, s: DriverState, range: Option<seq<RangeReply>>, answers: L1Answers)
    requires Inv(r, s) && HeadsOrdered(s)
    requires range.Some? ==> forall b :: Header(b) in range.value ==> b.hash in r.l1 && r.l1[b.hash] == b
    requires FailsQuietly(r, s, EpochRequest(range, answers))
    ensures var s' := HandleEpoch(r, s, range, answers).state;
            HeadsOrdered(s') && (SafeBelow(s) ==> SafeBelow(s')) && s'.l2Safe.number >= s.l2Safe.number
  {
    var res := HandleEpoch(r, s, range, answers);
    HandleEpochInv(r, s, range, answers);
    var ext := ExtendWindow(r, s, range);
    if res.error.Some? || |ext.value| < r.cfg.seqWindowSize {
      OrderKept(r, s, res.state);
    } else {
      InsertEpochContract(r, s.eng, answers, s.l2Head, s.l2Safe, ext.value[..r.cfg.seqWindowSize]);
    }
  }

  lemma HandleUnsafePayloadOrder(r: Rollup, s: DriverState, p: Payload)
    requires Inv(r, s) && HeadsOrdered(s)
    requires FailsQuietly(r, s, UnsafePayload(p))
    ensures var s' := HandleUnsafeL2Payload(r, s, p).state; HeadsOrdered(s') && s'.l2Safe == s.l2Safe
  {
    var res := HandleUnsafeL2Payload(r, s, p);
    ProcessBlockRef(r, s, p);
    if res.error.Some? || res.state == s {
      OrderKept(r, s, res.state);
    }
  }

  /**
    Steps whose failures leave the engine's head alone keep the order of the heads; without
    payloads from peers the safe head stays an ancestor of the unsafe head; and the safe head's
    number only drops when an L1 signal reorganises, and only rises in an epoch request.
   */
  lemma StepOrder(r: Rollup, s: DriverState, ev: Event)
    requires Inv(r, s) && HeadsOrdered(s) && Honest(r, s, ev) && FailsQuietly(r, s, ev)
    ensures var s' := Step(r, s, ev).state;
            && HeadsOrdered(s')
            && (SafeBelow(s) && !ev.UnsafePayload? ==> SafeBelow(s'))
            && (s'.l2Safe.number < s.l2Safe.number ==> ev.L1Signal? && s.l1Head.hash != ev.newHead.parentHash)
            && (s'.l2Safe.number > s.l2Safe.number ==> ev.EpochRequest?)
  {
    match ev
    case L1Signal(newHead, view, fails) => HandleNewL1BlockOrder(r, s, newHead, view, fails);
    case NewBlock(current, next, info, published) => CreateNewL2BlockOrder(r, s, current, next, info, published);
    case EpochRequest(range, answers) => HandleEpochOrder(r, s, range, answers);
    case UnsafePayload(p) => HandleUnsafePayloadOrder(r, s, p);
  }

  /** What a step from s to s' keeps: the window invariant, and the order of the heads when it fails quietly. */
  ghost predicate Keeps(r: Rollup, s: DriverState, ev: Event, s': DriverState) {
    Inv(r, s) && Honest(r, s, ev) ==>
      && Inv(r, s')
      && (HeadsOrdered(s) && FailsQuietly(r, s, ev) ==>
            && HeadsOrdered(s')
            && (SafeBelow(s) && !ev.UnsafePayload? ==> SafeBelow(s')))
  }

  lemma StepKeeps(r: Rollup, s: DriverState, ev: Event)
    ensures Inv(r, s) ==> Keeps(r, s, ev, Step(r, s, ev).state)
  {
    if Inv(r, s) && Honest(r, s, ev) {
      StepInv(r, s, ev);
      if HeadsOrdered(s) && FailsQuietly(r, s, ev) {
        StepOrder(r, s, ev);
      }
    }
  }

  // ----- Whole runs -----

  /** Start: heads found from the engine's head, or genesis when L1 has not reached it. No forkchoice is sent. */
  function Start(r: Rollup, eng: State, l1Head: L1Block, view: L1Views, fails: set<Hash>): Option<DriverState>
    requires eng.Wf(r.G())
  {
    if l1Head.number > r.cfg.genesis.l1.number then
      match RefOf(r, eng.tree[eng.head])
      case None => None
      case Some(head) =>
        match FindL2Heads(r, eng.tree, view, fails, head)
        case Err(_) => None
        case Ok(h) => Some(DriverState(l1Head, h.unsafe, h.safe, [], eng))
    else Some(DriverState(l1Head, GenesisRef(r), GenesisRef(r), [], eng))
  }

  lemma StartInv(r: Rollup, eng: State, l1Head: L1Block, view: L1Views, fails: set<Hash>)
    requires r.Wf() && eng.Wf(r.G()) && eng.tree[r.G().hash].timestamp == r.cfg.genesis.l2Time
    ensures match Start(r, eng, l1Head, view, fails)
            case None => true
            case Some(s) => Inv(r, s) && HeadsOrdered(s) && SafeBelow(s)
  {
    var t := eng.tree;
    if l1Head.number > r.cfg.genesis.l1.number {
      var head := RefOf(r, t[eng.head]);
      if head.Some? {
        FindL2HeadsShape(r, t, view, fails, head.value);
      }
    } else {
      assert Linked(t, r.G(), eng.head);
      LookupTotal(t, r.G(), eng.head, r.G().number);
      assert Linked(t, r.G(), Lookup(t, eng.head, r.G().number).value);
    }
  }

  ghost predicate HonestRun(r: Rollup, s: DriverState, evs: seq<Event>)
    requires Inv(r, s)
    decreases |evs|
  {
    evs != [] ==> Honest(r, s, evs[0]) && (StepInv(r, s, evs[0]); HonestRun(r, Step(r, s, evs[0]).state, evs[1..]))
  }

  ghost function Run(r: Rollup, s: DriverState, evs: seq<Event>): DriverState
    requires Inv(r, s) && HonestRun(r, s, evs)
    decreases |evs|
  {
    if evs == [] then s else StepInv(r, s, evs[0]); Run(r, Step(r, s, evs[0]).state, evs[1..])
  }

  ghost predicate QuietRun(r: Rollup, s: DriverState, evs: seq<Event>)
    requires Inv(r, s) && HonestRun(r, s, evs)
    decreases |evs|
  {
    evs != [] ==> FailsQuietly(r, s, evs[0]) && (StepInv(r, s, evs[0]); QuietRun(r, Step(r, s, evs[0]).state, evs[1..]))
  }

  /**
    In every run, whatever fails, whatever reorganises and whatever peers send, the window is an
    unbroken chain of L1 blocks that starts with a child of the safe head's L1 origin.
   */
  lemma {:induction false} WindowInvariant(r: Rollup, s: DriverState, evs: seq<Event>)
    requires Inv(r, s) && HonestRun(r, s, evs)
    ensures Inv(r, Run(r, s, evs))
    decreases |evs|
  {
    if evs != [] {
      StepInv(r, s, evs[0]);
      WindowInvariant(r, Step(r, s, evs[0]).state, evs[1..]);
    }
  }

  /** The driver starts on this engine, and L1 is honest in all that follows. */
  ghost predicate HonestFromStart(
    r: Rollup, eng: State, l1Head: L1Block, view: L1Views, fails: set<Hash>, evs: seq<Event>)
    requires r.Wf() && eng.Wf(r.G()) && eng.tree[r.G().hash].timestamp == r.cfg.genesis.l2Time
  {
    && Start(r, eng, l1Head, view, fails).Some?
    && (StartInv(r, eng, l1Head, view, fails); HonestRun(r, Start(r, eng, l1Head, view, fails).value, evs))
  }

  ghost function RunFromStart(
    r: Rollup, eng: State, l1Head: L1Block, view: L1Views, fails: set<Hash>, evs: seq<Event>): DriverState
    requires r.Wf() && eng.Wf(r.G()) && eng.tree[r.G().hash].timestamp == r.cfg.genesis.l2Time
    requires HonestFromStart(r, eng, l1Head, view, fails, evs)
  {
    StartInv(r, eng, l1Head, view, fails);
    Run(r, Start(r, eng, l1Head, view, fails).value, evs)
  }

  /** In no run does insertEpoch report a window of the wrong size or one that does not extend the safe origin. */
  lemma WindowGuardsNeverFire(
    r: Rollup, eng: State, l1Head: L1Block, view: L1Views, fails: set<Hash>, evs: seq<Event>,
    range: Option<seq<RangeReply>>, answers: L1Answers)
    requires r.Wf() && eng.Wf(r.G()) && eng.tree[r.G().hash].timestamp == r.cfg.genesis.l2Time
    requires HonestFromStart(r, eng, l1Head, view, fails, evs)
    requires Honest(r, RunFromStart(r, eng, l1Head, view, fails, evs), EpochRequest(range, answers))
    ensures var res := HandleEpoch(r, RunFromStart(r, eng, l1Head, view, fails, evs), range, answers);
            res.error.Some? && res.error.value.EpochFailed? ==> !IsWindowError(res.error.value.epoch)
  {
    StartInv(r, eng, l1Head, view, fails);
    WindowInvariant(r, Start(r, eng, l1Head, view, fails).value, evs);
    HandleEpochInv(r, RunFromStart(r, eng, l1Head, view, fails, evs), range, answers);
  }

  /**
    In every run whose failing steps leave the engine's head alone, the safe head is never higher than the unsafe one.
   */
  lemma {:induction false} SafeNeverAboveUnsafe(r: Rollup, s: DriverState, evs: seq<Event>)
    requires Inv(r, s) && HeadsOrdered(s) && HonestRun(r, s, evs) && QuietRun(r, s, evs)
    ensures HeadsOrdered(Run(r, s, evs))
    decreases |evs|
  {
    if evs != [] {
      StepInv(r, s, evs[0]);
      StepOrder(r, s, evs[0]);
      SafeNeverAboveUnsafe(r, Step(r, s, evs[0]).state, evs[1..]);
    }
  }

  /** Without payloads from peers the safe head is moreover always the unsafe head or an ancestor of it. */
  lemma {:induction false} SafeAlwaysAncestor(r: Rollup, s: DriverState, evs: seq<Event>)
    requires Inv(r, s) && HeadsOrdered(s) && SafeBelow(s) && HonestRun(r, s, evs) && QuietRun(r, s, evs)
    requires forall ev :: ev in evs ==> !ev.UnsafePayload?
    ensures SafeBelow(Run(r, s, evs))
    decreases |evs|
  {
    if evs != [] {
      StepInv(r, s, evs[0]);
      StepOrder(r, s, evs[0]);
      SafeAlwaysAncestor(r, Step(r, s, evs[0]).state, evs[1..]);
    }
  }
}
