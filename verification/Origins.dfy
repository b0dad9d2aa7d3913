/**
  L2 blocks and the time of their L1 origin. specs/rollup-node.md says that no L2 block is stamped before
  its L1 origin, and the sequencer keeps to it. Derivation does not always, and where it does not, it
  replaces what the sequencer has built.
 */
module Origins {
  import opened Types
  import opened Engine
  import opened Output
  import opened Sync
  import opened Driver
  import opened DriverRuns
  import opened ChainRules
  import opened Agreement
  import opened Deposits
  import Derivation

  // ----- Derived blocks -----

  /** No block of an epoch is stamped before its L1 origin if and only if the first one is not. */
  lemma EpochNotBeforeOrigin(r: Rollup, safeTime: nat, window: seq<BlockID>)
    requires r.cfg.blockTime > 0 && |window| >= 2 && WindowKnown(r, window)
    ensures var slots, origin := EpochSlots(r, safeTime, window), r.l1[window[0].hash];
            (forall i :: 0 <= i < |slots| ==> slots[i].timestamp >= origin.time) <==>
              safeTime + r.cfg.blockTime >= origin.time
  {
    var slots, origin := EpochSlots(r, safeTime, window), r.l1[window[0].hash];
    var span := EpochSpan(r, window[0].number, safeTime, origin);
    Derivation.DeriveSlotsSpec(span, ListsBatches(r, WindowTxs(r, window)), r.l1[window[1].hash].time);
    assert slots[0].timestamp == safeTime + r.cfg.blockTime;
    assert forall i :: 0 <= i < |slots| ==> slots[i].timestamp >= span.minTime;
  }

  /** The condition of Derivation.ReachesNextL1, for the epoch of a window on top of a safe block. */
  ghost predicate Reaches(r: Rollup, safeTime: nat, window: seq<BlockID>)
    requires r.cfg.blockTime > 0 && |window| >= 2 && WindowKnown(r, window)
  {
    Derivation.ReachesNextL1(
      EpochSpan(r, window[0].number, safeTime, r.l1[window[0].hash]),
      ListsBatches(r, WindowTxs(r, window)),
      r.l1[window[1].hash].time)
  }

  /**
    For every epoch but the first: it follows an inserted epoch, and its first block is not stamped
    before its L1 origin if and only if that epoch reached it.
   */
  lemma NextBlockNotBeforeOrigin(
    r: Rollup, e: State, answers: L1Answers, head: L2Ref, safe: L2Ref, window: seq<BlockID>)
    requires r.cfg.blockTime > 0 && LoopReady(r, EpochState(e, head, safe, false, false))
    ensures var (e', out) := InsertEpoch(r, e, answers, head, safe, window);
            out.Inserted? ==>
              && |window| >= 2 && WindowKnown(r, window)
              && (out.safe.time + r.cfg.blockTime >= r.l1[window[1].hash].time <==> Reaches(r, safe.time, window))
  {
    var (e', out) := InsertEpoch(r, e, answers, head, safe, window);
    InsertedSafeTime(r, e, answers, head, safe, window);
    if out.Inserted? {
      Derivation.NextEpochNotBeforeOrigin(
        EpochSpan(r, window[0].number, safe.time, r.l1[window[0].hash]),
        ListsBatches(r, WindowTxs(r, window)),
        r.l1[window[1].hash].time);
    }
  }

  /** So for the epoch after an inserted one, all blocks or not, it is the same condition. */
  lemma NextEpochNotBeforeOrigin(
    r: Rollup, e: State, answers: L1Answers, head: L2Ref, safe: L2Ref, window: seq<BlockID>, window': seq<BlockID>)
    requires r.cfg.blockTime > 0 && LoopReady(r, EpochState(e, head, safe, false, false))
    requires |window| >= 2 && WindowKnown(r, window)
    requires |window'| >= 2 && WindowKnown(r, window') && window'[0] == window[1]
    ensures var (e', out) := InsertEpoch(r, e, answers, head, safe, window);
            out.Inserted? ==>
              var slots := EpochSlots(r, out.safe.time, window');
              (forall i :: 0 <= i < |slots| ==> slots[i].timestamp >= r.l1[window'[0].hash].time) <==>
                Reaches(r, safe.time, window)
  {
    var (e', out) := InsertEpoch(r, e, answers, head, safe, window);
    NextBlockNotBeforeOrigin(r, e, answers, head, safe, window);
    if out.Inserted? {
      EpochNotBeforeOrigin(r, out.safe.time, window');
    }
  }

  /** The first epoch follows genesis, and depends on the genesis time alone. */
  lemma FirstEpochNotBeforeOrigin(r: Rollup, window: seq<BlockID>)
    requires r.cfg.blockTime > 0 && |window| >= 2 && WindowKnown(r, window)
    ensures var slots, origin := EpochSlots(r, GenesisRef(r).time, window), r.l1[window[0].hash];
            (forall i :: 0 <= i < |slots| ==> slots[i].timestamp >= origin.time) <==>
              r.cfg.genesis.l2Time + r.cfg.blockTime >= origin.time
  {
    EpochNotBeforeOrigin(r, r.cfg.genesis.l2Time, window);
  }

  // L1 blocks every 12 seconds and L2 blocks every 2, from time 0 on.

  function TwelveSeconds(n: nat): L1Block
    requires n < 3
  {
    L1Block(10 + n, 9 + n, n, 12 * n, 0, 0, [], [])
  }

  function TwoSeconds(k: Keccak, selector: Bytes): Rollup
    requires |selector| == 4
  {
    Rollup(
      Config(Genesis(BlockID(10, 0), BlockID(100, 0), 0), 2, 10, 2, 0, 0, 0, 0),
      map[10 := TwelveSeconds(0), 11 := TwelveSeconds(1), 12 := TwelveSeconds(2)],
      ConcreteCodec(k, selector, 0))
  }

  function AtGenesisState(k: Keccak, selector: Bytes): DriverState
    requires |selector| == 4
  {
    var r, tree := TwoSeconds(k, selector), map[100 := Payload(100, 99, 0, 0, 0, 0, [])];
    DriverState(TwelveSeconds(2), GenesisRef(r), GenesisRef(r), [BlockID(11, 1), BlockID(12, 2)],
      State(tree, 100, 100, []))
  }

  lemma AtGenesisIsReachable(k: Keccak, selector: Bytes)
    requires |selector| == 4
    ensures RuleInv(TwoSeconds(k, selector), AtGenesisState(k, selector))
  {
    var r, s := TwoSeconds(k, selector), AtGenesisState(k, selector);
    ConcreteCodecSound(k, selector, 0);
    assert Linked(s.eng.tree, r.G(), 100) && RuleAt(r, s.eng.tree, 100);
    assert LinkedAt(r, 10, s.window, 0) && LinkedAt(r, 10, s.window, 1);
  }

  /** There the first five blocks of the first epoch, at 2, 4, ..., 10, all precede their origin at 12. */
  lemma FirstEpochCanPrecedeOrigin(k: Keccak, selector: Bytes, i: nat)
    requires |selector| == 4 && i < 5
    ensures var r, s := TwoSeconds(k, selector), AtGenesisState(k, selector);
            && RuleInv(r, s) && WindowKnown(r, s.window)
            && var slots := EpochSlots(r, s.l2Safe.time, s.window);
               i < |slots| && slots[i].timestamp == 2 + 2 * i < r.l1[s.window[0].hash].time
  {
    var r, s := TwoSeconds(k, selector), AtGenesisState(k, selector);
    AtGenesisIsReachable(k, selector);
    var span := EpochSpan(r, 1, 0, TwelveSeconds(1));
    var bs := ListsBatches(r, WindowTxs(r, s.window));
    Derivation.DeriveSlotsLength(span, bs, 24, i);
    Derivation.DeriveSlotAt(span, bs, 24, i);
  }

  // ----- Sequenced blocks -----

  /** What the epoch loop finds above the safe head on another L1 origin is replaced. */
  lemma WrongOriginIsReplaced(r: Rollup, s: EpochState, b: L1Block, attrs: Attributes)
    requires LoopReady(r, s) && InfoFirst(r, b, attrs) && s.head.hash != s.safe.hash
    requires var found := PayloadByNumber(s.eng, s.safe.number + 1).1;
             found.Some? && RefOf(r, found.value).Some? && RefOf(r, found.value).value.l1Origin != b.ID()
    ensures TakesReorg(r, s, attrs)
  {
    TrackedNumber(r, s.eng.tree, s.safe);
    LookupHeight(s.eng.tree, s.eng.head, s.safe.number + 1);
  }

  /** The driver state after an epoch was inserted on a linked window, with the heads together. */
  ghost predicate AfterEpoch(r: Rollup, s: DriverState, answers: L1Answers, window: seq<BlockID>, s': DriverState) {
    && RuleInv(r, s) && LoopReady(r, EpochState(s.eng, s.l2Head, s.l2Safe, false, false))
    && |window| == r.cfg.seqWindowSize && WindowLinked(r, s.l2Safe.l1Origin.hash, window)
    && var (e', out) := InsertEpoch(r, s.eng, answers, s.l2Head, s.l2Safe, window);
       && out.Inserted? && out.head == out.safe
       && s'.l2Head == out.head && s'.eng == e'
       && s'.l1Head.hash != window[0].hash
  }

  /**
    The origin the sequencer then chooses: the next L1 block exactly when the epoch reached it, and
    otherwise the origin of the epoch once more.
   */
  lemma NextOriginExact(r: Rollup, s: DriverState, answers: L1Answers, window: seq<BlockID>, s': DriverState)
    requires AfterEpoch(r, s, answers, window, s')
    ensures |window| >= 2 && WindowKnown(r, window)
    ensures var b, next := r.l1[window[0].hash], r.l1[window[1].hash];
            && b.ID() != next.ID()
            && FindL1Origin(r, s', true, Some(next)) == Some(if Reaches(r, s.l2Safe.time, window) then next else b)
  {
    assert LinkedAt(r, s.l2Safe.l1Origin.hash, window, 0) && LinkedAt(r, s.l2Safe.l1Origin.hash, window, 1);
    InsertEpochRefs(r, s, answers, window);
    NextBlockNotBeforeOrigin(r, s.eng, answers, s.l2Head, s.l2Safe, window);
  }

  /** The block the driver sequences next is on the next L1 origin if and only if the epoch reached it. */
  lemma NextBlockOriginExact(
    r: Rollup, s: DriverState, answers: L1Answers, window: seq<BlockID>, s': DriverState, info: bool, published: bool)
    requires AfterEpoch(r, s, answers, window, s') && Core(r, s')
    requires |window| >= 2 && WindowKnown(r, window)
    requires CreateNewL2Block(r, s', true, Some(r.l1[window[1].hash]), info, published).state.l2Head != s'.l2Head
    ensures var s'' := CreateNewL2Block(r, s', true, Some(r.l1[window[1].hash]), info, published).state;
            s''.l2Head.l1Origin == r.l1[window[1].hash].ID() <==> Reaches(r, s.l2Safe.time, window)
  {
    var next := r.l1[window[1].hash];
    var s'' := CreateNewL2Block(r, s', true, Some(next), info, published).state;
    NextOriginExact(r, s, answers, window, s');
    NewHeadOrigin(r, s', true, Some(next), info, published);
  }

  /** The L1 origin of a sequenced head is the one findL1Origin chose. */
  lemma NewHeadOrigin(r: Rollup, s: DriverState, current: bool, next: Option<L1Block>, info: bool, published: bool)
    requires Core(r, s) && CreateNewL2Block(r, s, current, next, info, published).state.l2Head != s.l2Head
    ensures var s' := CreateNewL2Block(r, s, current, next, info, published).state;
            && FindL1Origin(r, s, current, next).Some?
            && s'.l2Head.l1Origin == FindL1Origin(r, s, current, next).value.ID()
  {
    var s' := CreateNewL2Block(r, s, current, next, info, published).state;
    var b := FindL1Origin(r, s, current, next);
    CreateNewL2BlockSequences(r, s, current, next, info, published);
    CreateNewBlockRef(r, s, info, b.value);
    TrackedNumber(r, s.eng.tree, s.l2Head);
    TrackedNumber(r, s'.eng.tree, s'.l2Head);
    BuiltOrigin(r, s'.eng.tree, s'.l2Head.hash, b.value, s.l2Head.number);
    assert RefAt(r, s'.eng.tree, s'.l2Head.hash, s'.l2Head.number).l1Origin == s'.l2Head.l1Origin;
  }

  /**
    A block sequenced on the safe head for another origin than the next epoch's is replaced: the first
    iteration of that epoch finds it and takes the reorg branch.
   */
  lemma OtherOriginIsReplaced(
    r: Rollup, s: DriverState, current: bool, next: Option<L1Block>, info: bool, published: bool,
    es: EpochState, window: seq<BlockID>)
    requires Core(r, s) && s.l2Safe == s.l2Head && es.safe == s.l2Safe && !es.reorg && !es.didReorg
    requires var s' := CreateNewL2Block(r, s, current, next, info, published).state;
             s'.l2Head != s.l2Head && es.eng == s'.eng && es.head == s'.l2Head
    requires LoopReady(r, es) && PayloadByNumber(es.eng, es.safe.number + 1).1.Some?
    requires |window| >= 2 && WindowKnown(r, window) && es.head.l1Origin != r.l1[window[0].hash].ID()
    ensures var attrs := EpochInputs(r, es.safe.time, window); attrs != [] && TakesReorg(r, es, attrs[0])
  {
    NewHeadFound(r, s, current, next, info, published);
    FirstIterationReplaces(r, es, window);
  }

  /** So when the epoch did not reach the next L1 block, what the driver sequences next is replaced. */
  lemma UnreachedBlockIsReplaced(
    r: Rollup, s: DriverState, answers: L1Answers, window: seq<BlockID>, s': DriverState, info: bool, published: bool,
    es: EpochState, window': seq<BlockID>)
    requires AfterEpoch(r, s, answers, window, s') && Core(r, s')
    requires s'.l2Safe == s'.l2Head && es.safe == s'.l2Safe && !es.reorg && !es.didReorg
    requires |window| >= 2 && WindowKnown(r, window) && !Reaches(r, s.l2Safe.time, window)
    requires var s'' := CreateNewL2Block(r, s', true, Some(r.l1[window[1].hash]), info, published).state;
             s''.l2Head != s'.l2Head && es.eng == s''.eng && es.head == s''.l2Head
    requires LoopReady(r, es) && PayloadByNumber(es.eng, es.safe.number + 1).1.Some?
    requires |window'| >= 2 && WindowKnown(r, window') && window'[0] == window[1]
    ensures var attrs := EpochInputs(r, es.safe.time, window'); attrs != [] && TakesReorg(r, es, attrs[0])
  {
    assert es.head.l1Origin != r.l1[window'[0].hash].ID() by {
      NextBlockOriginExact(r, s, answers, window, s', info, published);
    }
    OtherOriginIsReplaced(r, s', true, Some(r.l1[window[1].hash]), info, published, es, window');
  }

  /** The first iteration of an epoch replaces a block of another origin. */
  lemma FirstIterationReplaces(r: Rollup, es: EpochState, window: seq<BlockID>)
    requires r.Wf() && LoopReady(r, es) && |window| >= 2 && WindowKnown(r, window)
    requires es.head.hash != es.safe.hash && es.head.l1Origin != r.l1[window[0].hash].ID()
    requires var found := PayloadByNumber(es.eng, es.safe.number + 1).1;
             found.Some? && RefOf(r, found.value) == Some(es.head)
    ensures var attrs := EpochInputs(r, es.safe.time, window); attrs != [] && TakesReorg(r, es, attrs[0])
  {
    EpochInputsInfoFirst(r, es.safe.time, window);
    WrongOriginIsReplaced(r, es, r.l1[window[0].hash], EpochInputs(r, es.safe.time, window)[0]);
  }

  /** A sequenced head is what the engine has one height above the old head. */
  lemma NewHeadFound(r: Rollup, s: DriverState, current: bool, next: Option<L1Block>, info: bool, published: bool)
    requires Core(r, s) && CreateNewL2Block(r, s, current, next, info, published).state.l2Head != s.l2Head
    ensures var s' := CreateNewL2Block(r, s, current, next, info, published).state;
            var found := PayloadByNumber(s'.eng, s.l2Head.number + 1).1;
            && s'.l2Safe == s.l2Safe && s'.l2Head.hash != s.l2Head.hash
            && (found.Some? ==> RefOf(r, found.value) == Some(s'.l2Head))
  {
    var s' := CreateNewL2Block(r, s, current, next, info, published).state;
    CreateNewBlockRef(r, s, info, FindL1Origin(r, s, current, next).value);
    TrackedNumber(r, s.eng.tree, s.l2Head);
    TrackedNumber(r, s'.eng.tree, s'.l2Head);
  }
}
