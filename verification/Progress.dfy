/**
  An engine that accepts every call and builds what it is asked for lets insertEpoch, createNewBlock and
  processBlock (op-node/rollup/driver/step.go) succeed.
 */
module Progress {
  import opened Types
  import opened Engine
  import opened Output
  import opened Driver
  import opened DriverRuns
  import opened Agreement
  import Derivation

  // ----- Sequencing a block -----

  /** The transactions a sequenced block must start with. */
  function ForcedTxs(r: Rollup, head: L2Ref, b: L1Block): seq<Bytes> {
    if head.l1Origin.number == b.number then [r.codec.info((head.sequenceNumber + 1) % TWO_64, b)]
    else [r.codec.info(0, b)] + r.codec.deposits(b)
  }

  /**
    p may follow head with L1 origin b: next number and time, the origin's randao, forced transactions, then the
    pool's.
   */
  ghost predicate MayFollow(r: Rollup, t: Tree, head: L2Ref, b: L1Block, p: Payload) {
    var forced := ForcedTxs(r, head, b);
    && p.parentHash == head.hash && p.number == head.number + 1 < TWO_64
    && p.hash != 0 && (p.hash in t ==> t[p.hash] == p)
    && p.timestamp == head.time + r.cfg.blockTime
    && p.prevRandao == b.mixDigest && p.feeRecipient == r.cfg.feeRecipient
    && forced <= p.txs
    && (forall i :: |forced| <= i < |p.txs| ==> p.txs[i] != [] && p.txs[i][0] != DEPOSIT_TX_TYPE)
    && (p.timestamp >= b.time + r.cfg.maxSequencerDrift ==> p.txs == forced)
  }

  lemma ForcedDeposits(r: Rollup, head: L2Ref, b: L1Block)
    requires r.codec.Sound()
    ensures SequencerAttributes(r, head, b).txs == ForcedTxs(r, head, b) != []
    ensures forall i :: 0 <= i < |ForcedTxs(r, head, b)| ==> IsDeposit(ForcedTxs(r, head, b)[i])
    ensures exists s: nat :: s < TWO_64 && ForcedTxs(r, head, b)[0] == r.codec.info(s, b)
  {
    var forced := ForcedTxs(r, head, b);
    var s := if head.l1Origin.number == b.number then (head.sequenceNumber + 1) % TWO_64 else 0;
    assert forced[0] == r.codec.info(s, b);
    forall i | 0 < i < |forced| ensures IsDeposit(forced[i]) {
      assert forced[i] == r.codec.deposits(b)[i - 1];
      assert forced[i] in r.codec.deposits(b);
    }
  }

  lemma BuiltIsFollower(r: Rollup, e: State, head: L2Ref, b: L1Block, p: Payload)
    requires r.codec.Sound() && WfTree(e.tree, r.G()) && Tracks(r, e.tree, head)
    ensures MayFollow(r, e.tree, head, b, p) <==>
            && BuiltFrom(SequencerAttributes(r, head, b), head.hash, p)
            && IsChild(e.tree, r.G(), p) && Insertable(e.tree, r.G(), p) && DepositsFirst(p.txs)
  {
    ForcedDeposits(r, head, b);
    TrackedNumber(r, e.tree, head);
    var forced := ForcedTxs(r, head, b);
    if forced <= p.txs {
      assert forall i :: 0 <= i < |forced| ==> p.txs[i] == forced[i];
    }
  }

  /** The answers of an engine that builds p and accepts everything. */
  function Building(p: Payload): seq<Reply> {
    [Accepted, Built(p), Accepted, Accepted]
  }

  /** insertHeadBlock on an engine that builds p: it succeeds exactly when p is as asked and insertable. */
  lemma InsertHeadBlockBuilds(
    r: Rollup, e: State, fcHead: Hash, fcSafe: Hash, attrs: Attributes, updateSafe: bool, p: Payload, rest: seq<Reply>)
    requires e.Wf(r.G()) && fcHead in e.tree && fcSafe in e.tree && e.replies == Building(p) + rest
    ensures var (e', res) := InsertHeadBlock(r, e, fcHead, fcSafe, attrs, updateSafe);
            (if BuiltFrom(attrs, fcHead, p) && IsChild(e.tree, r.G(), p) && Insertable(e.tree, r.G(), p)
                && DepositsFirst(p.txs)
             then
               res == Some(p)
               && e' == State(e.tree[p.hash := p], p.hash, if updateSafe then p.hash else fcSafe, rest)
             else res == None && e'.tree == e.tree && e'.head == fcHead && e'.safe == fcSafe)
  {
    assert e.replies[1..] == [Built(p), Accepted, Accepted] + rest;
    assert ([Built(p), Accepted, Accepted] + rest)[1..] == [Accepted, Accepted] + rest;
    assert ([Accepted, Accepted] + rest)[1..] == [Accepted] + rest;
    assert ([Accepted] + rest)[1..] == rest;
  }

  /**
    createNewBlock on such an engine succeeds exactly when p may follow the head; the engine then ends on p, with
    the safe block it was given, and otherwise it stays on the head.
   */
  lemma CreateNewBlockExact(
    r: Rollup, e: State, head: L2Ref, safe: Hash, b: L1Block, p: Payload, rest: seq<Reply>)
    requires r.Wf() && e.Wf(r.G()) && Tracks(r, e.tree, head) && safe in e.tree && e.replies == Building(p) + rest
    ensures var (e', ref) := CreateNewBlock(r, e, true, head, safe, b);
            if MayFollow(r, e.tree, head, b, p)
            then
              && e' == State(e.tree[p.hash := p], p.hash, safe, rest)
              && ref.Some? && ref.value.ID() == BlockID(p.hash, p.number) && ref.value.time == p.timestamp
              && ref.value.l1Origin == b.ID()
              && ref.value.sequenceNumber
                 == (if head.l1Origin.number == b.number then (head.sequenceNumber + 1) % TWO_64 else 0)
            else ref == None && e'.tree == e.tree && e'.head == head.hash && e'.safe == safe
  {
    InsertHeadBlockBuilds(r, e, head.hash, safe, SequencerAttributes(r, head, b), false, p, rest);
    BuiltIsFollower(r, e, head, b, p);
    if MayFollow(r, e.tree, head, b, p) {
      FollowerRef(r, e.tree, head, b, p);
    }
  }

  lemma FollowerRef(r: Rollup, t: Tree, head: L2Ref, b: L1Block, p: Payload)
    requires r.Wf() && WfTree(t, r.G()) && Tracks(r, t, head) && MayFollow(r, t, head, b, p)
    ensures RefOf(r, p) == Some(L2Ref(p.hash, p.number, p.parentHash, p.timestamp, b.ID(),
                                      if head.l1Origin.number == b.number then (head.sequenceNumber + 1) % TWO_64
                                        else 0))
  {
    TrackedNumber(r, t, head);
    assert p.txs[0] == ForcedTxs(r, head, b)[0];
  }

  /** p can join the tree: no other block has its hash, and it is there or a child of a block that is. */
  predicate MayJoin(t: Tree, g: BlockID, p: Payload) {
    && p.hash != 0
    && (p.hash in t ==> t[p.hash] == p)
    && (p.hash !in t ==>
          p.parentHash in t && p.number == t[p.parentHash].number + 1 && g.number < p.number < TWO_64)
  }

  /** processBlock on an accepting engine succeeds exactly when the payload is insertable. */
  lemma ProcessBlockExact(r: Rollup, e: State, safe: Hash, p: Payload, rest: seq<Reply>)
    requires e.Wf(r.G()) && safe in e.tree && e.replies == [Accepted, Accepted] + rest
    ensures var (e', ok) := ProcessBlock(r, e, safe, p);
            && (ok <==> MayJoin(e.tree, r.G(), p))
            && e'.tree == (if ok then e.tree[p.hash := p] else e.tree)
            && (ok ==> e'.head == p.hash && e'.safe == safe && e'.replies == rest)
            && (!ok ==> e' == e.(replies := e.replies[1..]))
  {
    assert e.replies[1..] == [Accepted] + rest;
    assert ([Accepted] + rest)[1..] == rest;
  }

  // ----- The same for the driver's steps -----

  /** The driver may sequence on L1 origin b: not below the rollup's genesis, and its time has come. */
  predicate MaySequence(r: Rollup, s: DriverState, b: L1Block) {
    b.number >= r.cfg.genesis.l1.number && s.l2Head.time + r.cfg.blockTime >= b.time
  }

  /**
    A sequencing step: without an origin, or on one below genesis or still to come, nothing changes. Otherwise, on an
    engine that builds p, p becomes the head exactly when it may follow it, published or not.
   */
  lemma SequenceExact(
    r: Rollup, s: DriverState, current: bool, next: Option<L1Block>, published: bool, p: Payload, rest: seq<Reply>)
    requires Inv(r, s) && s.eng.replies == Building(p) + rest
    ensures var res := Step(r, s, NewBlock(current, next, true, published));
            match FindL1Origin(r, s, current, next)
            case None => res == StepResult(s, Some(NoOrigin))
            case Some(b) =>
              if !MaySequence(r, s, b)
              then res.state == s
              else if MayFollow(r, s.eng.tree, s.l2Head, b, p)
              then
                && res.error == (if published then None else Some(PublishFailed))
                && res.state == s.(l2Head := res.state.l2Head,
                                         eng := State(s.eng.tree[p.hash := p], p.hash, s.l2Safe.hash, rest))
                && RefOf(r, p) == Some(res.state.l2Head)
              else
                && res.error == Some(CreateFailed)
                && res.state == s.(eng := res.state.eng) && res.state.eng.tree == s.eng.tree
  {
    var b := FindL1Origin(r, s, current, next);
    if b.Some? && MaySequence(r, s, b.value) {
      CreateNewBlockExact(r, s.eng, s.l2Head, s.l2Safe.hash, b.value, p, rest);
      CreatedRef(r, s.eng, s.l2Head, s.l2Safe.hash, b.value, p, rest);
    }
  }

  lemma CreatedRef(r: Rollup, e: State, head: L2Ref, safe: Hash, b: L1Block, p: Payload, rest: seq<Reply>)
    requires r.Wf() && e.Wf(r.G()) && Tracks(r, e.tree, head) && safe in e.tree && e.replies == Building(p) + rest
    ensures CreateNewBlock(r, e, true, head, safe, b).1.Some? ==>
              CreateNewBlock(r, e, true, head, safe, b).1 == RefOf(r, p)
  {
    InsertHeadBlockBuilds(r, e, head.hash, safe, SequencerAttributes(r, head, b), false, p, rest);
  }

  /**
    A peer's payload on an accepting engine: ignored below the safe head, and otherwise the new head if it can join.
   */
  lemma PeerPayloadExact(r: Rollup, s: DriverState, p: Payload, rest: seq<Reply>)
    requires Inv(r, s) && s.eng.replies == [Accepted, Accepted] + rest
    ensures var res := Step(r, s, UnsafePayload(p));
            if p.number < s.l2Safe.number then res == StepResult(s, None)
            else
              match RefOf(r, p)
              case None => res == StepResult(s, Some(BadPayload))
              case Some(ref) =>
                if MayJoin(s.eng.tree, r.G(), p)
                then res
                  == StepResult(s.(l2Head := ref, eng := State(s.eng.tree[p.hash := p], p.hash, s.l2Safe.hash, rest)),
                    None)
                else res.error == Some(ProcessFailed) && res.state == s.(eng := s.eng.(replies := s.eng.replies[1..]))
  {
    ProcessBlockExact(r, s.eng, s.l2Safe.hash, p, rest);
  }

  // ----- Inserting an epoch -----

  /** The next answers build some block as asked on top of parent, and accept it. */
  ghost predicate Builds(r: Rollup, e: State, replies: seq<Reply>, parent: Hash, attrs: Attributes) {
    exists p :: BuildsBlock(r, e.tree, replies, parent, attrs, p)
  }

  ghost predicate BuildsBlock(
    r: Rollup, t: Tree, replies: seq<Reply>, parent: Hash, attrs: Attributes, p: Payload) {
    && Building(p) <= replies
    && BuiltFrom(attrs, parent, p) && IsChild(t, r.G(), p) && Insertable(t, r.G(), p)
  }

  /** The engine's chain goes on above the safe head, with a block that carries the attributes. */
  ghost predicate FindsMatch(s: EpochState, attrs: Attributes) {
    var x := Lookup(s.eng.tree, s.eng.head, s.safe.number + 1);
    x.Some? && x.value in s.eng.tree && AttributesMatch(attrs, s.safe.hash, s.eng.tree[x.value])
  }

  /** The engine accepts the calls of one iteration, and builds what it is asked for. */
  ghost predicate WillingStep(r: Rollup, s: EpochState, attrs: Attributes) {
    if s.head.hash == s.safe.hash then Builds(r, s.eng, s.eng.replies, s.safe.hash, attrs)
    else if FindsMatch(s, attrs) then [Accepted, Accepted] <= s.eng.replies
    else [Accepted] <= s.eng.replies && Builds(r, s.eng, s.eng.replies[1..], s.safe.hash, attrs)
  }

  /** The engine is willing throughout. */
  ghost predicate Willing(r: Rollup, s: EpochState, attrs: seq<Attributes>)
    decreases |attrs|
  {
    attrs == [] || (WillingStep(r, s, attrs[0]) && Willing(r, EpochStep(r, s, attrs[0]).0, attrs[1..]))
  }

  /** Every block above genesis has a readable L1 origin. */
  ghost predicate Readable(r: Rollup, t: Tree) {
    forall h :: h in t && t[h].number > r.G().number ==> RefOf(r, t[h]).Some?
  }

  /** The heads are together, or the engine's chain goes on above the safe head. */
  ghost predicate Above(s: EpochState) {
    s.head.hash == s.safe.hash || (s.eng.head in s.eng.tree && s.eng.tree[s.eng.head].number > s.safe.number)
  }

  /** Attributes of an epoch: deposits first, the first one with a readable origin, and no pool. */
  ghost predicate Derivable(r: Rollup, attrs: Attributes) {
    attrs.noTxPool && DepositsFirst(attrs.txs) && r.codec.origin(attrs.txs[0]).Some?
  }

  lemma BuildsInserts(
    r: Rollup, e: State, parent: Hash, attrs: Attributes, p: Payload)
    requires e.Wf(r.G()) && parent in e.tree && Derivable(r, attrs)
    requires BuildsBlock(r, e.tree, e.replies, parent, attrs, p)
    ensures InsertHeadBlock(r, e, parent, parent, attrs, true).1 == Some(p) && RefOf(r, p).Some?
  {
    assert e.replies == Building(p) + e.replies[4..];
    InsertHeadBlockBuilds(r, e, parent, parent, attrs, true, p, e.replies[4..]);
  }

  /** What the epoch loop finds above the safe head is there and readable. */
  lemma FindsAbove(r: Rollup, s: EpochState)
    requires LoopReady(r, s) && Readable(r, s.eng.tree) && Above(s) && s.head.hash != s.safe.hash
    ensures var x := Lookup(s.eng.tree, s.eng.head, s.safe.number + 1);
            x.Some? && x.value in s.eng.tree && RefOf(r, s.eng.tree[x.value]).Some?
  {
    TrackedNumber(r, s.eng.tree, s.safe);
    LookupTotal(s.eng.tree, r.G(), s.eng.head, s.safe.number + 1);
  }

  lemma VerifySucceeds(r: Rollup, s: EpochState, attrs: Attributes)
    requires LoopReady(r, s) && Readable(r, s.eng.tree) && Above(s) && Derivable(r, attrs)
    requires s.head.hash != s.safe.hash && WillingStep(r, s, attrs)
    ensures var res := VerifySafeBlock(r, s.eng, s.head.hash, attrs, s.safe.ID()).1;
            res.Some? && RefOf(r, res.value.0).Some?
  {
    FindsAbove(r, s);
    var (e1, found) := PayloadByNumber(s.eng, s.safe.number + 1);
    assert s.eng.replies[0] == Accepted && e1.replies == s.eng.replies[1..];
    if FindsMatch(s, attrs) {
      assert e1.replies[0] == Accepted;
    } else {
      var p :| BuildsBlock(r, s.eng.tree, e1.replies, s.safe.hash, attrs, p);
      BuildsInserts(r, e1, s.safe.hash, attrs, p);
    }
  }

  lemma StepSucceeds(r: Rollup, s: EpochState, attrs: Attributes)
    requires LoopReady(r, s) && Readable(r, s.eng.tree) && Above(s) && Derivable(r, attrs) && WillingStep(r, s, attrs)
    ensures EpochStep(r, s, attrs).1
  {
    if s.head.hash == s.safe.hash {
      var p :| BuildsBlock(r, s.eng.tree, s.eng.replies, s.safe.hash, attrs, p);
      BuildsInserts(r, s.eng, s.safe.hash, attrs, p);
    } else {
      VerifySucceeds(r, s, attrs);
    }
  }

  /** A successful iteration leaves the tree readable and the heads together or the engine above. */
  lemma StepStaysAbove(r: Rollup, s: EpochState, attrs: Attributes, s': EpochState)
    requires LoopReady(r, s) && Readable(r, s.eng.tree) && Derivable(r, attrs)
    requires StepDone(r, s, attrs, s') && Grown(r, s.eng.tree, s'.eng.tree, s.safe.hash, attrs)
    ensures Readable(r, s'.eng.tree) && Above(s')
  {
    if s'.eng.tree != s.eng.tree {
      var p :| GrownBy(r, s.eng.tree, s'.eng.tree, s.safe.hash, attrs, p);
      assert RefOf(r, p).Some?;
    }
    var t' := s'.eng.tree;
    TrackedNumber(r, t', s'.safe);
    TrackedNumber(r, t', s'.head);
    LookupHeight(t', s'.head.hash, s'.safe.number);
  }

  lemma {:induction false} LoopSucceeds(r: Rollup, s: EpochState, attrs: seq<Attributes>)
    requires LoopReady(r, s) && Readable(r, s.eng.tree) && Above(s) && Willing(r, s, attrs)
    requires forall a :: a in attrs ==> Derivable(r, a)
    ensures EpochLoop(r, s, attrs).1
    decreases |attrs|
  {
    if attrs != [] {
      assert Derivable(r, attrs[0]);
      StepSucceeds(r, s, attrs[0]);
      EpochStepContract(r, s, attrs[0]);
      EpochStepTree(r, s, attrs[0]);
      var s1 := EpochStep(r, s, attrs[0]).0;
      StepStaysAbove(r, s, attrs[0], s1);
      LoopSucceeds(r, s1, attrs[1..]);
    }
  }

  /** What insertEpoch derives can be inserted. */
  lemma InputsDerivable(r: Rollup, safeTime: nat, window: seq<BlockID>)
    requires r.Wf() && |window| >= 2 && WindowKnown(r, window)
    ensures EpochInputs(r, safeTime, window) != []
    ensures forall a :: a in EpochInputs(r, safeTime, window) ==> Derivable(r, a)
  {
    var b := r.l1[window[0].hash];
    EpochInputsInfoFirst(r, safeTime, window);
    var slots := EpochSlots(r, safeTime, window);
    forall i | 0 <= i < |slots| ensures DepositsFirst(DerivedAttributes(r, b, slots[i], i).txs) {
      Derivation.DeriveSlotAt(
        EpochSpan(r, window[0].number, safeTime, b), ListsBatches(r, WindowTxs(r, window)), r.l1[window[1].hash].time,
          i);
      DerivedDepositsFirst(r, b, slots[i], i);
    }
  }

  lemma DerivedDepositsFirst(r: Rollup, b: L1Block, batch: Batch, i: nat)
    requires r.codec.Sound() && forall tx :: tx in batch.txs ==> IsSequenced(tx)
    ensures DepositsFirst(DerivedAttributes(r, b, batch, i).txs)
  {
    var forced := [r.codec.info(i % TWO_64, b)] + (if i == 0 then r.codec.deposits(b) else []);
    var txs := DerivedAttributes(r, b, batch, i).txs;
    assert txs == forced + batch.txs;
    forall k | 0 <= k < |txs| ensures if k < |forced| then IsDeposit(txs[k]) else IsSequenced(txs[k]) {
      if k < |forced| {
        assert k > 0 ==> txs[k] in r.codec.deposits(b);
      } else {
        assert txs[k] in batch.txs;
      }
    }
  }

  /** The L1 requests of an insertEpoch call are answered, and the window passes its checks. */
  ghost predicate WindowPasses(r: Rollup, answers: L1Answers, safe: L2Ref, window: seq<BlockID>) {
    && answers == L1Answers(true, true, true)
    && |window| == r.cfg.seqWindowSize && WindowKnown(r, window)
    && |window| >= 2 && r.l1[window[0].hash].parentHash == safe.l1Origin.hash
  }

  /** The state insertEpoch's loop starts in, once the safe block was read. */
  function LoopStart(e: State, head: L2Ref, safe: L2Ref): EpochState
    requires e.replies != []
  {
    EpochState(e.(replies := e.replies[1..]), head, safe, false, false)
  }

  /**
    On an engine that accepts every call and builds what it is asked for, insertEpoch succeeds exactly when
    the heads are together or the engine's chain goes on above the safe head.
   */
  lemma InsertEpochSucceeds(r: Rollup, e: State, answers: L1Answers, head: L2Ref, safe: L2Ref, window: seq<BlockID>)
    requires r.Wf() && LoopReady(r, EpochState(e, head, safe, false, false)) && Readable(r, e.tree)
    requires WindowPasses(r, answers, safe, window)
    requires [Accepted] <= e.replies && Willing(r, LoopStart(e, head, safe), EpochInputs(r, safe.time, window))
    ensures InsertEpoch(r, e, answers, head, safe, window).1.Inserted? <==>
            head.hash == safe.hash || e.tree[e.head].number > safe.number
  {
    var s := LoopStart(e, head, safe);
    var attrs := EpochInputs(r, safe.time, window);
    InputsDerivable(r, safe.time, window);
    assert PayloadByHash(e, safe.hash).1 == Some(e.tree[safe.hash]) && e.tree[safe.hash].timestamp == safe.time;
    if Above(s) {
      LoopSucceeds(r, s, attrs);
    } else {
      NothingAbove(r, s, attrs[0]);
    }
  }

  /**
    Two heads apart at the height of the engine's head are a dead end: the iteration looks for a block
    above the safe head, finds none, and fails whatever the engine answers.
   */
  lemma NothingAbove(r: Rollup, s: EpochState, attrs: Attributes)
    requires LoopReady(r, s) && !Above(s)
    ensures !EpochStep(r, s, attrs).1
  {
    var n: nat := s.safe.number + 1;
    if Lookup(s.eng.tree, s.eng.head, n).Some? {
      LookupHeight(s.eng.tree, s.eng.head, n);
    }
  }

  /** There no insertEpoch succeeds, whatever engine and L1 answer. */
  lemma DeadEnd(r: Rollup, e: State, answers: L1Answers, head: L2Ref, safe: L2Ref, window: seq<BlockID>)
    requires r.Wf() && LoopReady(r, EpochState(e, head, safe, false, false))
    requires head.hash != safe.hash && e.tree[e.head].number <= safe.number
    ensures InsertEpoch(r, e, answers, head, safe, window).1.Failed?
  {
    var (e1, info) := PayloadByHash(e, safe.hash);
    if |window| >= 2 && WindowKnown(r, window) && info.Some? {
      InputsDerivable(r, info.value.timestamp, window);
      NothingAbove(r, EpochState(e1, head, safe, false, false), EpochInputs(r, info.value.timestamp, window)[0]);
    }
  }

  /**
    The driver gets there when it takes a peer's block that stands beside the safe head: from then on,
      until the heads move,
    every attempt to insert an epoch fails.
   */
  lemma PeerBesideSafeHead(
    r: Rollup, s: DriverState, p: Payload, rest: seq<Reply>, replies: seq<Reply>, answers: L1Answers,
    window: seq<BlockID>)
    requires Inv(r, s) && s.eng.replies == [Accepted, Accepted] + rest
    requires p.number == s.l2Safe.number && p.hash != s.l2Safe.hash && RefOf(r, p).Some?
    requires MayJoin(s.eng.tree, r.G(), p)
    ensures var s' := Step(r, s, UnsafePayload(p)).state;
            && s'.l2Head.hash == p.hash
            && InsertEpoch(r, s'.eng.(replies := replies), answers, s'.l2Head, s'.l2Safe, window).1.Failed?
  {
    PeerPayloadExact(r, s, p, rest);
    StepInv(r, s, UnsafePayload(p));
    var s' := Step(r, s, UnsafePayload(p)).state;
    TrackedNumber(r, s'.eng.tree, s'.l2Head);
    TrackedNumber(r, s'.eng.tree, s'.l2Safe);
    DeadEnd(r, s'.eng.(replies := replies), answers, s'.l2Head, s'.l2Safe, window);
  }

  // ----- Confirming what was sequenced -----

  predicate Accepts(replies: seq<Reply>, n: nat) {
    n <= |replies| && forall i :: 0 <= i < n ==> replies[i] == Accepted
  }

  /** Below the unsafe head a matching block is confirmed by two accepted calls. */
  lemma AcceptingStep(r: Rollup, s: EpochState, attrs: seq<Attributes>)
    requires Confirming(r, s, attrs) && attrs != [] && Derivable(r, attrs[0]) && s.safe.number < s.head.number
    requires Accepts(s.eng.replies, 2)
    ensures var (s1, ok) := EpochStep(r, s, attrs[0]);
            ok && s1.head == s.head && s1.eng.replies == s.eng.replies[2..] && s1.safe.number == s.safe.number + 1
  {
    var t, n := s.eng.tree, s.safe.number;
    TrackedNumber(r, t, s.safe);
    TrackedNumber(r, t, s.head);
    assert DerivedAbove(t, s.head.hash, n + 0, attrs[0]);
    LookupTransitive(t, s.eng.head, s.head.number, n + 1);
    LookupTransitive(t, s.eng.head, s.head.number, n);
    var x := Lookup(t, s.eng.head, n + 1).value;
    LookupHeight(t, s.eng.head, n + 1);
    AcceptingMatch(r, s, attrs[0], x);
  }

  lemma AcceptingMatch(r: Rollup, s: EpochState, attrs: Attributes, x: Hash)
    requires LoopReady(r, s) && !s.reorg && s.head.hash != s.safe.hash && Derivable(r, attrs)
    requires Lookup(s.eng.tree, s.eng.head, s.safe.number + 1) == Some(x) && x in s.eng.tree
    requires s.eng.tree[x].number == s.safe.number + 1 > r.G().number
    requires AttributesMatch(attrs, s.safe.hash, s.eng.tree[x]) && Accepts(s.eng.replies, 2)
    ensures var (s1, ok) := EpochStep(r, s, attrs);
            ok && s1.head == s.head && s1.eng.replies == s.eng.replies[2..] && s1.safe.number == s.safe.number + 1
  {
    var (e1, found) := PayloadByNumber(s.eng, s.safe.number + 1);
    assert found == Some(s.eng.tree[x]) && e1.replies == s.eng.replies[1..];
    assert RefOf(r, s.eng.tree[x]).Some?;
    var (e2, ok) := ForkchoiceUpdate(e1, s.head.hash, x);
    assert ok && e2.replies == s.eng.replies[1..][1..] == s.eng.replies[2..];
  }

  lemma {:induction false} AcceptingLoop(r: Rollup, s: EpochState, attrs: seq<Attributes>)
    requires Confirming(r, s, attrs) && forall a :: a in attrs ==> Derivable(r, a)
    requires s.safe.number + |attrs| <= s.head.number && Accepts(s.eng.replies, 2 * |attrs|)
    ensures var (s', ok) := EpochLoop(r, s, attrs); ok && s'.head == s.head
    decreases |attrs|
  {
    if attrs != [] {
      assert Derivable(r, attrs[0]);
      AcceptingStep(r, s, attrs);
      ConfirmingStep(r, s, attrs);
      AcceptingLoop(r, EpochStep(r, s, attrs[0]).0, attrs[1..]);
    }
  }

  /** When every block above the safe head matches, accepted calls carry insertEpoch through. */
  lemma AcceptedEpochInserts(r: Rollup, e: State, answers: L1Answers, head: L2Ref, safe: L2Ref, window: seq<BlockID>)
    requires r.Wf() && LoopReady(r, EpochState(e, head, safe, false, false)) && Ancestor(e.tree, safe.hash, head.hash)
    requires WindowPasses(r, answers, safe, window)
    requires var attrs := EpochInputs(r, safe.time, window);
             && MatchesAbove(e.tree, head.hash, safe.number, attrs)
             && safe.number + |attrs| <= head.number && Accepts(e.replies, 1 + 2 * |attrs|)
    ensures var out := InsertEpoch(r, e, answers, head, safe, window).1; out.Inserted? && out.head == head
  {
    var attrs := EpochInputs(r, safe.time, window);
    InputsDerivable(r, safe.time, window);
    assert PayloadByHash(e, safe.hash).1 == Some(e.tree[safe.hash]) && e.tree[safe.hash].timestamp == safe.time;
    AcceptingLoop(r, LoopStart(e, head, safe), attrs);
  }

  lemma LandedLength(
    r: Rollup, t: Tree, head: L2Ref, safe: L2Ref, window: seq<BlockID>, k: nat,
    b: L1Block, span: Derivation.Span, bs: seq<Batch>, next: L1Block)
    requires r.Wf() && WfTree(t, r.G()) && Tracks(r, t, head) && Tracks(r, t, safe)
    requires EpochFacts(r, safe, window, b, span, bs, next) && EpochLanded(r, t, head, safe, k, b, span, bs, next)
    requires safe.number + k < head.number
    ensures |EpochInputs(r, safe.time, window)| == k
  {
    TrackedNumber(r, t, safe);
    EpochBlocksLinked(r, safe, window, b, span, bs, next);
    EpochInputsAre(r, safe, window, b, span, bs, next);
    SlotsEndWithEpoch(r, t, head, safe, k, b, span, bs, next);
  }

  /**
    An epoch that was sequenced below the unsafe head and landed on L1 is confirmed by an engine that
    accepts two calls for every block: insertEpoch succeeds, keeps the unsafe head, and the safe head is
    the last block of the epoch.
   */
  lemma AcceptedEpochIsConfirmed(
    r: Rollup, e: State, answers: L1Answers, head: L2Ref, safe: L2Ref, window: seq<BlockID>, k: nat,
    b: L1Block, span: Derivation.Span, bs: seq<Batch>, next: L1Block)
    requires r.Wf() && LoopReady(r, EpochState(e, head, safe, false, false)) && Ancestor(e.tree, safe.hash, head.hash)
    requires EpochFacts(r, safe, window, b, span, bs, next) && EpochLanded(r, e.tree, head, safe, k, b, span, bs, next)
    requires WindowPasses(r, answers, safe, window)
    requires safe.number + k < head.number && Accepts(e.replies, 1 + 2 * k)
    ensures var (e', out) := InsertEpoch(r, e, answers, head, safe, window);
            && out.Inserted? && out.head == head && !out.didReorg
            && out.safe.number == safe.number + k
            && Some(out.safe.hash) == Lookup(e.tree, head.hash, safe.number + k)
            && e'.head == head.hash && e'.safe == out.safe.hash
  {
    UnsafeChainMatches(r, e.tree, head, safe, window, k, b, span, bs, next);
    LandedLength(r, e.tree, head, safe, window, k, b, span, bs, next);
    AcceptedEpochInserts(r, e, answers, head, safe, window);
    InsertEpochContract(r, e, answers, head, safe, window);
    MatchingEpochKeepsHead(r, e, answers, head, safe, window);
    MatchingEpochConfirms(r, e, answers, head, safe, window, k);
  }
}
