/**
  What each event may do to the driver's heads, its L1 window and the engine's forkchoice
  (op-node/rollup/driver/state.go), outcome by outcome, and what follows for runs.
 */
module DriverLaws {
  import opened Types
  import opened Engine
  import opened Output
  import opened Sync
  import opened SyncSpec
  import opened Driver
  import opened DriverRuns

  // ----- L1 signals -----

  /** The signalled block is neither the L1 head nor a child of it: L1 reorganised, or signals were skipped. */
  predicate OffHead(s: DriverState, newHead: L1Block) {
    newHead.hash != s.l1Head.hash && newHead.parentHash != s.l1Head.hash
  }

  /** The state after a signal off the old head that found the pair h. */
  ghost predicate Rewound(s: DriverState, newHead: L1Block, h: Heads, s': DriverState) {
    && s'.l1Head == newHead && s'.window == []
    && s'.l2Head == h.unsafe
    && (s.l2Safe.number < h.safe.number ==> s'.l2Safe == s.l2Safe)
    && (s.l2Safe.number >= h.safe.number ==> s'.l2Safe == h.safe)
    && s'.eng.tree == s.eng.tree && s'.eng.head == h.unsafe.hash && s'.eng.safe == h.safe.hash
  }

  /**
    A signal off the old head, on a steady L1: it succeeds with the found unsafe head, and with the lower of
    the old and the found safe head, or it fails and leaves heads and window as they were.
   */
  lemma SignalOffHead(r: Rollup, s: DriverState, newHead: L1Block, v: L1View, fails: set<Hash>)
    requires Inv(r, s) && World(r, s.eng.tree, v) && OffHead(s, newHead)
    ensures var res := Step(r, s, L1Signal(newHead, Steady(v), fails));
            match res.error
            case None =>
              exists n, h :: FoundHeads(r, s.eng.tree, v, s.l2Head.hash, n, h) && Rewound(s, newHead, h, res.state)
            case Some(_) => res.state == s.(eng := res.state.eng) && res.state.eng.tree == s.eng.tree
  {
    var res := Step(r, s, L1Signal(newHead, Steady(v), fails));
    FindL2HeadsSpec(r, s.eng.tree, v, fails, s.l2Head);
    FindL2HeadsShape(r, s.eng.tree, Steady(v), fails, s.l2Head);
    if res.error.None? {
      var h := FindL2Heads(r, s.eng.tree, Steady(v), fails, s.l2Head).value;
      var n :| FoundHeads(r, s.eng.tree, v, s.l2Head.hash, n, h);
      assert Rewound(s, newHead, h, res.state);
    }
  }

  /**
    While every request is answered, it succeeds exactly when a canonical origin is in reach and the engine accepts.
   */
  lemma SignalSucceeds(r: Rollup, s: DriverState, newHead: L1Block, v: L1View)
    requires Inv(r, s) && World(r, s.eng.tree, v) && OffHead(s, newHead)
    ensures Step(r, s, L1Signal(newHead, Steady(v), {})).error.None? <==>
            && CanonicalInReach(r, s.eng.tree, v, s.l2Head.hash)
            && s.eng.replies != [] && !s.eng.replies[0].Refused? && !s.eng.replies[0].Lost?
  {
    FindL2HeadsSucceeds(r, s.eng.tree, v, s.l2Head);
    FindL2HeadsShape(r, s.eng.tree, Steady(v), {}, s.l2Head);
  }

  /** There is one such pair: heads found for the same chain and L1 view are the same blocks. */
  lemma FoundOnce(r: Rollup, t: Tree, v: L1View, tip: Hash, n: L2Ref, h: Heads, n': L2Ref, h': Heads)
    requires tip in t && FoundHeads(r, t, v, tip, n, h) && FoundHeads(r, t, v, tip, n', h')
    ensures h.unsafe.ID() == h'.unsafe.ID() && h.safe.ID() == h'.safe.ID()
  {
    assert n.number == n'.number;
    assert h.unsafe.number == h'.unsafe.number;
    var low := OriginAt(r, t, tip, n.number).number - (r.cfg.seqWindowSize - 1);
    assert h.safe.number < h'.safe.number ==> OriginAt(r, t, tip, h'.safe.number).number > low;
    assert h'.safe.number < h.safe.number ==> OriginAt(r, t, tip, h.safe.number).number > low;
  }

  /**
    A signal of the L1 head itself changes nothing. A child of the L1 head becomes the L1 head, and joins the
    window exactly when its parent is what the window ends with, or the safe origin when it is empty.
   */
  lemma SignalOnHead(r: Rollup, s: DriverState, newHead: L1Block, view: L1Views, fails: set<Hash>)
    requires Inv(r, s) && !OffHead(s, newHead)
    ensures var res := Step(r, s, L1Signal(newHead, view, fails));
            && res.error.None?
            && (newHead.hash == s.l1Head.hash ==> res.state == s)
            && (newHead.hash != s.l1Head.hash ==>
                  var end := if |s.window| == 0 then s.l2Safe.l1Origin.hash else s.window[|s.window| - 1].hash;
                  && res.state.l1Head == newHead
                  && res.state.window == (if newHead.parentHash == end then s.window + [newHead.ID()] else s.window)
                  && res.state.l2Head == s.l2Head && res.state.l2Safe == s.l2Safe && res.state.eng == s.eng)
  {
    assert s.window != [] <==> |s.window| > 0;
  }

  // ----- Epoch requests -----

  /**
    ids are the headers an L1Range answer starts with, each the child of the one before; it ends, or is cut by a miss.
   */
  ghost predicate RangeIs(prev: Hash, replies: seq<RangeReply>, ids: seq<BlockID>) {
    && |ids| <= |replies|
    && (forall i {:trigger ids[i]} :: 0 <= i < |ids| ==>
          && replies[i].Header? && replies[i].b.ID() == ids[i]
          && replies[i].b.parentHash == if i == 0 then prev else ids[i - 1].hash)
    && (|ids| == |replies| || replies[|ids|].Missing?)
  }

  /** L1Range returns exactly this list, and an error when there is none. */
  lemma {:induction false} L1RangeExact(prev: BlockID, replies: seq<RangeReply>, ids: seq<BlockID>)
    ensures L1Range(prev, replies) == Some(ids) <==> RangeIs(prev.hash, replies, ids)
    decreases |replies|
  {
    if replies == [] || !replies[0].Header? || prev.hash != replies[0].b.parentHash {
      assert |ids| > 0 ==> ids[0] in ids;
    } else {
      var b := replies[0].b;
      if |ids| > 0 {
        L1RangeExact(b.ID(), replies[1..], ids[1..]);
        if ids[0] == b.ID() {
          assert ids == [b.ID()] + ids[1..];
          RangeShift(prev.hash, replies, ids);
        }
      }
    }
  }

  lemma RangeShift(prev: Hash, replies: seq<RangeReply>, ids: seq<BlockID>)
    requires replies != [] && ids != [] && replies[0].Header?
    requires replies[0].b.ID() == ids[0] && replies[0].b.parentHash == prev
    ensures RangeIs(prev, replies, ids) <==> RangeIs(ids[0].hash, replies[1..], ids[1..])
  {
    var rest, later := replies[1..], ids[1..];
    if RangeIs(prev, replies, ids) {
      forall i | 0 <= i < |later|
        ensures rest[i].Header? && rest[i].b.ID() == later[i]
        ensures rest[i].b.parentHash == if i == 0 then ids[0].hash else later[i - 1].hash
      {
        assert later[i] == ids[i + 1];
      }
    }
    if RangeIs(ids[0].hash, rest, later) {
      forall i | 0 <= i < |ids|
        ensures replies[i].Header? && replies[i].b.ID() == ids[i]
        ensures replies[i].b.parentHash == if i == 0 then prev else ids[i - 1].hash
      {
        assert i > 0 ==> ids[i] == later[i - 1];
      }
    }
  }

  /** Where the window ends: its last entry, or the origin of the safe head. */
  function EndHash(s: DriverState): Hash {
    if |s.window| == 0 then s.l2Safe.l1Origin.hash else s.window[|s.window| - 1].hash
  }

  /** The window an epoch request works on: a full one as it is, a shorter one with an L1Range answer added. */
  ghost predicate Filled(r: Rollup, s: DriverState, range: Option<seq<RangeReply>>, window: seq<BlockID>) {
    if |s.window| >= r.cfg.seqWindowSize then window == s.window
    else range.Some? && exists ids :: RangeIs(EndHash(s), range.value, ids) && window == s.window + ids
  }

  lemma ExtendWindowExact(r: Rollup, s: DriverState, range: Option<seq<RangeReply>>, window: seq<BlockID>)
    ensures ExtendWindow(r, s, range) == Some(window) <==> Filled(r, s, range, window)
  {
    assert EndHash(s) == WindowEnd(s).hash;
    if |s.window| < r.cfg.seqWindowSize && range.Some? {
      var found := L1Range(WindowEnd(s), range.value);
      if found.Some? {
        L1RangeExact(WindowEnd(s), range.value, found.value);
      }
      if ids :| RangeIs(EndHash(s), range.value, ids) && window == s.window + ids {
        L1RangeExact(WindowEnd(s), range.value, ids);
      }
    }
  }

  /**
    An epoch request without a window to work on changes nothing. One whose window stays short keeps what was added to
    it. Otherwise the epoch of the first entry is inserted: on success both heads are the inserted ones and
    the window loses that entry, and on failure the heads stay and the window is dropped.
   */
  lemma EpochRequestExact(r: Rollup, s: DriverState, range: Option<seq<RangeReply>>, answers: L1Answers)
    requires Inv(r, s)
    ensures var res := Step(r, s, EpochRequest(range, answers));
            var W := r.cfg.seqWindowSize;
            && ((forall window :: !Filled(r, s, range, window)) ==> res == StepResult(s, Some(RangeFailed)))
            && forall window :: Filled(r, s, range, window) ==>
                 if |window| < W then res == StepResult(s.(window := window), None)
                 else
                   match InsertEpoch(r, s.eng, answers, s.l2Head, s.l2Safe, window[..W])
                   case (e, Inserted(head, safe, _)) =>
                     res == StepResult(DriverState(s.l1Head, head, safe, window[1..], e), None)
                   case (e, Failed(err)) =>
                     res == StepResult(DriverState(s.l1Head, s.l2Head, s.l2Safe, [], e), Some(EpochFailed(err)))
  {
    var ext := ExtendWindow(r, s, range);
    if ext.Some? {
      ExtendWindowExact(r, s, range, ext.value);
    }
    forall window | Filled(r, s, range, window) ensures ext == Some(window) {
      ExtendWindowExact(r, s, range, window);
    }
  }

  // ----- The safe head -----

  /** The safe head moves up in epoch requests only. */
  lemma SafeRisesByEpochs(r: Rollup, s: DriverState, ev: Event)
    requires Inv(r, s)
    ensures Step(r, s, ev).state.l2Safe.number > s.l2Safe.number ==> ev.EpochRequest?
  {
  }

  /** In a run without epoch requests the safe head never rises, whatever L1 signals and peers bring. */
  lemma {:induction false} SafeRisesByEpochsOnly(r: Rollup, s: DriverState, evs: seq<Event>)
    requires Inv(r, s) && HonestRun(r, s, evs)
    requires forall ev :: ev in evs ==> !ev.EpochRequest?
    ensures Run(r, s, evs).l2Safe.number <= s.l2Safe.number
    decreases |evs|
  {
    if evs != [] {
      StepInv(r, s, evs[0]);
      SafeRisesByEpochs(r, s, evs[0]);
      SafeRisesByEpochsOnly(r, Step(r, s, evs[0]).state, evs[1..]);
    }
  }

  // ----- The engine's safe block -----

  /** The engine holds the driver's safe head for safe. */
  predicate Agrees(s: DriverState) {
    s.eng.safe == s.l2Safe.hash
  }

  /** A sequenced block or a block of a peer may become the engine's head, but it is never its safe block. */
  predicate Unconfirmed(ev: Event) {
    ev.NewBlock? || ev.UnsafePayload?
  }

  lemma CreateNewBlockEngine(r: Rollup, e: State, info: bool, head: L2Ref, safe: Hash, b: L1Block)
    requires e.head in e.tree && e.safe in e.tree
    ensures var (e', ref) := CreateNewBlock(r, e, info, head, safe, b);
            && (e'.safe == e.safe || e'.safe == safe)
            && (ref.Some? ==> e'.safe == safe && e'.head == ref.value.hash)
  {
    if info {
      InsertHeadBlockTree(r, e, head.hash, safe, SequencerAttributes(r, head, b), false);
    }
  }

  lemma ProcessBlockEngine(r: Rollup, e: State, safe: Hash, p: Payload)
    ensures var (e', ok) := ProcessBlock(r, e, safe, p);
            && (e'.safe == e.safe || e'.safe == safe)
            && (ok ==> e'.safe == safe && e'.head == p.hash)
  {
  }

  /** A peer's block, not below the safe head, was taken without an error. */
  ghost predicate Went(r: Rollup, s: DriverState, ev: Event)
    requires Core(r, s)
  {
    ev.UnsafePayload? && ev.payload.number >= s.l2Safe.number && Step(r, s, ev).error.None?
  }

  /**
    After a step that sequenced a block or took one from a peer the engine is on that block and holds the
    driver's safe head for safe; in every other outcome its safe block is the one it had or the
    driver's safe head. Window, L1 head and safe head stay.
   */
  lemma UnconfirmedStep(r: Rollup, s: DriverState, ev: Event)
    requires Inv(r, s) && Unconfirmed(ev)
    ensures var s' := Step(r, s, ev).state;
            && s' == s.(l2Head := s'.l2Head, eng := s'.eng)
            && (s'.l2Head != s.l2Head || Went(r, s, ev) ==>
                  s'.eng.head == s'.l2Head.hash && s'.eng.safe == s.l2Safe.hash)
            && (s'.eng.safe == s.eng.safe || s'.eng.safe == s.l2Safe.hash)
  {
    match ev
    case NewBlock(current, next, info, published) =>
      var b := FindL1Origin(r, s, current, next);
      if b.Some? {
        CreateNewBlockEngine(r, s.eng, info, s.l2Head, s.l2Safe.hash, b.value);
      }
    case UnsafePayload(p) =>
      ProcessBlockEngine(r, s.eng, s.l2Safe.hash, p);
  }

  /** What a step from s to s' may do to the safe head and to the engine's forkchoice. */
  ghost predicate Lawful(r: Rollup, s: DriverState, ev: Event, s': DriverState) {
    Inv(r, s) ==>
      && (s'.l2Safe.number > s.l2Safe.number ==> ev.EpochRequest?)
      && (Unconfirmed(ev) ==>
            && s' == s.(l2Head := s'.l2Head, eng := s'.eng)
            && (s'.l2Head != s.l2Head ==> s'.eng.head == s'.l2Head.hash && s'.eng.safe == s.l2Safe.hash)
            && (s'.eng.safe == s.eng.safe || s'.eng.safe == s.l2Safe.hash))
  }

  lemma StepLawful(r: Rollup, s: DriverState, ev: Event)
    ensures Inv(r, s) ==> Lawful(r, s, ev, Step(r, s, ev).state)
  {
    if Inv(r, s) {
      SafeRisesByEpochs(r, s, ev);
      if Unconfirmed(ev) {
        UnconfirmedStep(r, s, ev);
      }
    }
  }

  /**
    Between L1 signals and epoch requests the engine's safe block never moves, once it is the driver's safe head.
   */
  lemma {:induction false} SafeBlockHeld(r: Rollup, s: DriverState, evs: seq<Event>)
    requires Inv(r, s) && HonestRun(r, s, evs) && Agrees(s)
    requires forall ev :: ev in evs ==> Unconfirmed(ev)
    ensures var s' := Run(r, s, evs); s'.eng.safe == s.eng.safe && s'.l2Safe == s.l2Safe
    decreases |evs|
  {
    if evs != [] {
      StepInv(r, s, evs[0]);
      UnconfirmedStep(r, s, evs[0]);
      SafeBlockHeld(r, Step(r, s, evs[0]).state, evs[1..]);
    }
  }

  function WithReplies(s: DriverState, replies: seq<Reply>): DriverState {
    s.(eng := s.eng.(replies := replies))
  }

  /**
    That is exactly when: whatever the engine answers, sequencing and blocks of peers leave its safe block
    alone if and only if it is the driver's safe head.
   */
  lemma SafeBlockHeldExact(r: Rollup, s: DriverState)
    requires Inv(r, s) && HeadsOrdered(s)
    ensures (forall ev, replies :: Unconfirmed(ev) ==>
               Step(r, WithReplies(s, replies), ev).state.eng.safe == s.eng.safe) <==> Agrees(s)
  {
    forall ev, replies | Unconfirmed(ev) && Agrees(s)
      ensures Step(r, WithReplies(s, replies), ev).state.eng.safe == s.eng.safe
    {
      UnconfirmedStep(r, WithReplies(s, replies), ev);
    }
    if !Agrees(s) {
      var replies := [Accepted, Accepted];
      var again := UnsafePayload(s.eng.tree[s.l2Head.hash]);
      ResentHead(r, s, replies);
      assert Unconfirmed(again) && Step(r, WithReplies(s, replies), again).state.eng.safe != s.eng.safe;
    }
  }

  /** A peer that sends the head again makes the engine take the driver's safe head for safe. */
  lemma ResentHead(r: Rollup, s: DriverState, replies: seq<Reply>)
    requires Inv(r, s) && s.l2Safe.number <= s.l2Head.number && replies == [Accepted, Accepted]
    ensures Step(r, WithReplies(s, replies), UnsafePayload(s.eng.tree[s.l2Head.hash])).state.eng.safe == s.l2Safe.hash
  {
    TrackedNumber(r, s.eng.tree, s.l2Head);
    var p := s.eng.tree[s.l2Head.hash];
    assert Insertable(s.eng.tree, r.G(), p);
    assert replies[1..] == [Accepted];
  }

  /** A signal off the old head leaves the two apart exactly when it found a higher safe head than the driver's. */
  lemma SignalAgreesExact(s: DriverState, newHead: L1Block, h: Heads, s': DriverState)
    requires Rewound(s, newHead, h, s')
    ensures Agrees(s') <==> h.safe.number <= s.l2Safe.number || h.safe.hash == s.l2Safe.hash
  {
  }

  /** An inserted epoch brings them together. */
  lemma EpochAgrees(r: Rollup, s: DriverState, range: Option<seq<RangeReply>>, answers: L1Answers)
    requires Inv(r, s) && HeadsOrdered(s)
    ensures var res := Step(r, s, EpochRequest(range, answers));
            res.state.l2Safe != s.l2Safe ==> Agrees(res.state) && res.state.eng.head == res.state.l2Head.hash
  {
    var ext := ExtendWindow(r, s, range);
    if ext.Some? && |ext.value| >= r.cfg.seqWindowSize {
      InsertEpochContract(r, s.eng, answers, s.l2Head, s.l2Safe, ext.value[..r.cfg.seqWindowSize]);
    }
  }

  // ----- A run in which sequencing moves the engine's safe block -----

  function LineL1(n: nat): L1Block
    requires n < 5
  {
    L1Block(10 + n, 9 + n, n, n, 0, 0, [], [])
  }

  /** Five L1 blocks, a window of two, and any sound encoding. */
  function LineRollup(c: Codec): Rollup {
    Rollup(SmallRollup().cfg,
           map[10 := LineL1(0), 11 := LineL1(1), 12 := LineL1(2), 13 := LineL1(3), 14 := LineL1(4)], c)
  }

  function LineView(): L1View {
    L1View(Some(4), map[0 := 10, 1 := 11, 2 := 12, 3 := 13, 4 := 14])
  }

  /** Three L2 blocks, on the origins 0, 1 and 2. */
  function LineTree(c: Codec): Tree {
    map[100 := Payload(100, 99, 0, 0, 0, 0, []),
        101 := Payload(101, 100, 1, 2, 0, 0, [c.info(0, LineL1(1))]),
        102 := Payload(102, 101, 2, 4, 0, 0, [c.info(0, LineL1(2))])]
  }

  const LINE_HEAD: L2Ref := L2Ref(102, 2, 101, 4, BlockID(12, 2), 0)
  const LINE_MIDDLE: L2Ref := L2Ref(101, 1, 100, 2, BlockID(11, 1), 0)

  /** The head is block 2; driver and engine both take genesis for safe. */
  function LineState(c: Codec): DriverState {
    DriverState(LineL1(2), LINE_HEAD, GenesisRef(LineRollup(c)), [], State(LineTree(c), 102, 100, [Accepted, Accepted]))
  }

  lemma LineInv(c: Codec)
    requires c.Sound()
    ensures Inv(LineRollup(c), LineState(c)) && HeadsOrdered(LineState(c)) && Agrees(LineState(c))
    ensures Tracks(LineRollup(c), LineTree(c), LINE_HEAD) && Tracks(LineRollup(c), LineTree(c), LINE_MIDDLE)
  {
    var r, t := LineRollup(c), LineTree(c);
    assert c.origin(c.info(0, LineL1(1))) == Some((BlockID(11, 1), 0));
    assert c.origin(c.info(0, LineL1(2))) == Some((BlockID(12, 2), 0));
    assert Linked(t, r.G(), 100) && Linked(t, r.G(), 101) && Linked(t, r.G(), 102);
  }

  lemma LineHeads(c: Codec)
    requires c.Sound() && WfTree(LineTree(c), LineRollup(c).G())
    requires Tracks(LineRollup(c), LineTree(c), LINE_HEAD) && Tracks(LineRollup(c), LineTree(c), LINE_MIDDLE)
    ensures FindL2Heads(LineRollup(c), LineTree(c), Steady(LineView()), {}, LINE_HEAD)
            == Ok(Heads(LINE_HEAD, LINE_MIDDLE))
  {
    var r, t := LineRollup(c), LineTree(c);
    assert RefByHash(r, t, {}, 101) == Some(LINE_MIDDLE);
    assert WalkWindow(r, t, {}, LINE_MIDDLE, 12, 1) == Ok(LINE_MIDDLE);
    assert WalkWindow(r, t, {}, LINE_HEAD, 12, 1) == Ok(LINE_MIDDLE);
    assert WalkToCanonical(r, t, Steady(LineView()), {}, LINE_HEAD, 0, 0, ZERO_REF) == Ok((LINE_HEAD, LINE_HEAD));
  }

  /**
    A signal that skips an L1 block finds safe block 1, which becomes the engine's safe block but not the
    driver's; the attempt to sequence that follows takes the engine's safe block back to genesis.
   */
  lemma SequencingCanMoveSafeBlock(c: Codec)
    requires c.Sound()
    ensures var r, s := LineRollup(c), LineState(c);
            var signal, sequence := L1Signal(LineL1(4), Steady(LineView()), {}), NewBlock(true, None, true, true);
            && Inv(r, s) && HeadsOrdered(s) && Agrees(s)
            && Honest(r, s, signal)
            && var s1 := Step(r, s, signal).state;
               && Inv(r, s1) && Honest(r, s1, sequence)
               && s1.l2Safe == s.l2Safe && s1.eng.safe == 101
               && Step(r, s1, sequence).state.eng.safe == 100
  {
    var r, s := LineRollup(c), LineState(c);
    var signal := L1Signal(LineL1(4), Steady(LineView()), {});
    LineInv(c);
    LineHeads(c);
    StepInv(r, s, signal);
    var s1 := DriverState(LineL1(4), LINE_HEAD, s.l2Safe, [], State(LineTree(c), 102, 101, [Accepted]));
    assert [Accepted, Accepted][1..] == [Accepted];
    assert Step(r, s, signal).state == s1;
    assert FindL1Origin(r, s1, true, None) == Some(LineL1(2));
  }

  // ----- The start -----

  /**
    The driver starts, without a call that moves the engine, from the heads found below the engine's head, or
    from genesis while L1 has not passed it.
   */
  lemma StartExact(r: Rollup, eng: State, l1Head: L1Block, v: L1View, fails: set<Hash>)
    requires r.Wf() && eng.Wf(r.G()) && World(r, eng.tree, v)
    ensures match Start(r, eng, l1Head, Steady(v), fails)
            case None => l1Head.number > r.cfg.genesis.l1.number
            case Some(s) =>
              && s.l1Head == l1Head && s.window == [] && s.eng == eng
              && if l1Head.number <= r.cfg.genesis.l1.number
                 then s.l2Head.ID() == r.G() && s.l2Safe.ID() == r.G()
                 else exists n :: FoundHeads(r, eng.tree, v, eng.head, n, Heads(s.l2Head, s.l2Safe))
  {
    if l1Head.number > r.cfg.genesis.l1.number && RefOf(r, eng.tree[eng.head]).Some? {
      FindL2HeadsSpec(r, eng.tree, v, fails, RefOf(r, eng.tree[eng.head]).value);
    }
  }
}
