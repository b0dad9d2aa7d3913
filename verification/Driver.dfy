/**
  op-node/rollup/driver/state.go: the driver's state, the four events that change it, and what
  holds in every run. Each event carries the answers the L1 and L2 sources give while it is
  handled, so that a run may see reorgs, failures and lost replies at any point.
 */
module Driver {
  import opened Types
  import opened Engine
  import opened Output
  import opened Sync

  datatype DriverState = DriverState(l1Head: L1Block, l2Head: L2Ref, l2Safe: L2Ref, window: seq<BlockID>, eng: State)

  /** One header of an L1Range request: a block, not found, or another error. */
  datatype RangeReply = Header(b: L1Block) | Missing | Broken

  datatype Event =
    | L1Signal(newHead: L1Block, view: L1Views, fails: set<Hash>)
    | NewBlock(current: bool, next: Option<L1Block>, info: bool, published: bool)
    | EpochRequest(range: Option<seq<RangeReply>>, answers: L1Answers)
    | UnsafePayload(payload: Payload)

  datatype StepError =
    | FindFailed(find: FindError)
    | ForkchoiceFailed
    | NoOrigin
    | BeforeOrigin
    | CreateFailed
    | PublishFailed
    | RangeFailed
    | EpochFailed(epoch: EpochError)
    | BadPayload
    | ProcessFailed

  datatype StepResult = StepResult(state: DriverState, error: Option<StepError>)

  // ----- The window of L1 blocks -----

  /** l1WindowBufEnd */
  function WindowEnd(s: DriverState): BlockID {
    if s.window == [] then s.l2Safe.l1Origin else s.window[|s.window| - 1]
  }

  /** Source.L1Range (op-node/l1/source.go): the headers after prev, each checked against the one before. */
  function L1Range(prev: BlockID, replies: seq<RangeReply>): Option<seq<BlockID>>
    decreases |replies|
  {
    if replies == [] then Some([])
    else
      match replies[0]
      case Missing => Some([])
      case Broken => None
      case Header(b) =>
        if prev.hash != b.parentHash then None
        else
          match L1Range(b.ID(), replies[1..])
          case None => None
          case Some(rest) => Some([b.ID()] + rest)
  }

  method RunL1Range(begin: BlockID, replies: seq<RangeReply>) returns (res: Option<seq<BlockID>>)
    ensures res == L1Range(begin, replies)
  {
    var out: seq<BlockID> := [];
    assert replies[0..] == replies;
    assert forall rest: seq<BlockID> :: [] + rest == rest;
    for i := 0 to |replies|
      invariant |out| == i
      invariant var prev := if i == 0 then begin else out[i - 1];
                L1Range(begin, replies) ==
                match L1Range(prev, replies[i..]) { case None => None case Some(rest) => Some(out + rest) }
    {
      assert replies[i..][0] == replies[i] && replies[i..][1..] == replies[i + 1..];
      match replies[i] {
        case Missing =>
          assert out + [] == out;
          return Some(out);
        case Broken =>
          return None;
        case Header(b) =>
          var prev := if i == 0 then begin else out[i - 1];
          if prev.hash != b.parentHash {
            return None;
          }
          ghost var rest := L1Range(b.ID(), replies[i + 1..]);
          assert rest.Some? ==> out + ([b.ID()] + rest.value) == out + [b.ID()] + rest.value;
          out := out + [b.ID()];
      }
    }
    assert out + [] == out;
    return Some(out);
  }

  /** Entry i names an L1 block, the child of the entry before it or of origin. */
  predicate LinkedAt(r: Rollup, origin: Hash, window: seq<BlockID>, i: nat)
    requires i < |window|
  {
    var id := window[i];
    && id.hash in r.l1
    && r.l1[id.hash].ID() == id
    && r.l1[id.hash].parentHash == if i == 0 then origin else window[i - 1].hash
  }

  /** The window is an unbroken chain of L1 blocks that starts with a child of origin. */
  ghost predicate WindowLinked(r: Rollup, origin: Hash, window: seq<BlockID>) {
    forall i :: 0 <= i < |window| ==> LinkedAt(r, origin, window, i)
  }

  lemma {:induction false} L1RangeLinked(r: Rollup, prev: BlockID, replies: seq<RangeReply>)
    requires forall b :: Header(b) in replies ==> b.hash in r.l1 && r.l1[b.hash] == b
    ensures match L1Range(prev, replies)
            case None => true
            case Some(ids) => WindowLinked(r, prev.hash, ids)
    decreases |replies|
  {
    if replies != [] && replies[0].Header? && prev.hash == replies[0].b.parentHash {
      assert replies[0] in replies;
      var b := replies[0].b;
      L1RangeLinked(r, b.ID(), replies[1..]);
      var rest := L1Range(b.ID(), replies[1..]);
      if rest.Some? {
        var ids := [b.ID()] + rest.value;
        forall i | 0 <= i < |ids| ensures LinkedAt(r, prev.hash, ids, i) {
          assert i > 0 ==> LinkedAt(r, b.hash, rest.value, i - 1);
        }
      }
    }
  }

  // ----- The events -----

  /** The engine's tree is well formed and both heads describe blocks of it. */
  ghost predicate Core(r: Rollup, s: DriverState) {
    && r.Wf()
    && s.eng.Wf(r.G())
    && s.eng.tree[r.G().hash].timestamp == r.cfg.genesis.l2Time
    && Tracks(r, s.eng.tree, s.l2Head)
    && Tracks(r, s.eng.tree, s.l2Safe)
  }

  function HandleNewL1Block(r: Rollup, s: DriverState, newHead: L1Block, view: L1Views, fails: set<Hash>): StepResult
    requires Core(r, s)
  {
    if s.l1Head.hash == newHead.hash then StepResult(s, None)
    else if s.l1Head.hash == newHead.parentHash then
      var s1 := s.(l1Head := newHead);
      StepResult(if WindowEnd(s).hash == newHead.parentHash then s1.(window := s.window + [newHead.ID()]) else s1, None)
    else
      match FindL2Heads(r, s.eng.tree, view, fails, s.l2Head)
      case Err(e) => StepResult(s, Some(FindFailed(e)))
      case Ok(h) =>
        var (e1, ok) := ForkchoiceUpdate(s.eng, h.unsafe.hash, h.safe.hash);
        if !ok then StepResult(s.(eng := e1), Some(ForkchoiceFailed))
        else StepResult(DriverState(newHead, h.unsafe, if s.l2Safe.number >= h.safe.number then h.safe else s.l2Safe,
          [], e1), None)
  }

  function FindL1Origin(r: Rollup, s: DriverState, current: bool, next: Option<L1Block>): Option<L1Block> {
    if s.l2Head.l1Origin.hash == s.l1Head.hash then Some(s.l1Head)
    else if !current || s.l2Head.l1Origin.hash !in r.l1 then None
    else
      var cur := r.l1[s.l2Head.l1Origin.hash];
      if next.Some? && s.l2Head.time + r.cfg.blockTime >= next.value.time then next else Some(cur)
  }

  /** The head moves before the block is published to the network, so a failed publication leaves it moved. */
  function CreateNewL2Block(
    r: Rollup, s: DriverState, current: bool, next: Option<L1Block>, info: bool, published: bool): StepResult {
    match FindL1Origin(r, s, current, next)
    case None => StepResult(s, Some(NoOrigin))
    case Some(b) =>
      if b.number < r.cfg.genesis.l1.number then StepResult(s, None)
      else if s.l2Head.time + r.cfg.blockTime < b.time then StepResult(s, Some(BeforeOrigin))
      else
        var (e1, ref) := CreateNewBlock(r, s.eng, info, s.l2Head, s.l2Safe.hash, b);
        if ref.None? then StepResult(s.(eng := e1), Some(CreateFailed))
        else StepResult(s.(eng := e1, l2Head := ref.value), if published then None else Some(PublishFailed))
  }

  /** The window after the attempt to extend it; None when the L1 request fails. */
  function ExtendWindow(r: Rollup, s: DriverState, range: Option<seq<RangeReply>>): Option<seq<BlockID>> {
    if |s.window| >= r.cfg.seqWindowSize then Some(s.window)
    else if range.None? then None
    else
      match L1Range(WindowEnd(s), range.value)
      case None => None
      case Some(ids) => Some(s.window + ids)
  }

  function HandleEpoch(r: Rollup, s: DriverState, range: Option<seq<RangeReply>>, answers: L1Answers): StepResult
    requires r.cfg.blockTime > 0
  {
    match ExtendWindow(r, s, range)
    case None => StepResult(s, Some(RangeFailed))
    case Some(window) =>
      if |window| < r.cfg.seqWindowSize then StepResult(s.(window := window), None)
      else
        var (e1, out) := InsertEpoch(r, s.eng, answers, s.l2Head, s.l2Safe, window[..r.cfg.seqWindowSize]);
        match out
        case Failed(err) => StepResult(s.(window := [], eng := e1), Some(EpochFailed(err)))
        case Inserted(head, safe, didReorg) =>
          StepResult(DriverState(s.l1Head, head, safe, if window == [] then [] else window[1..], e1), None)
  }

  function HandleUnsafeL2Payload(r: Rollup, s: DriverState, p: Payload): StepResult {
    if s.l2Safe.number > p.number then StepResult(s, None)
    else
      match RefOf(r, p)
      case None => StepResult(s, Some(BadPayload))
      case Some(ref) =>
        var (e1, ok) := ProcessBlock(r, s.eng, s.l2Safe.hash, p);
        if ok then StepResult(s.(eng := e1, l2Head := ref), None) else StepResult(s.(eng := e1), Some(ProcessFailed))
  }

  function Step(r: Rollup, s: DriverState, ev: Event): StepResult
    requires Core(r, s)
  {
    match ev
    case L1Signal(newHead, view, fails) => HandleNewL1Block(r, s, newHead, view, fails)
    case NewBlock(current, next, info, published) => CreateNewL2Block(r, s, current, next, info, published)
    case EpochRequest(range, answers) => HandleEpoch(r, s, range, answers)
    case UnsafePayload(p) => HandleUnsafeL2Payload(r, s, p)
  }

  /**
    L1 answers by hash and number are right: every block it returns is the L1 block of that
    hash, and the block after the current origin has the next number.
   */
  ghost predicate Honest(r: Rollup, s: DriverState, ev: Event) {
    match ev
    case L1Signal(newHead, _, _) => newHead.hash in r.l1 && r.l1[newHead.hash] == newHead
    case NewBlock(_, next, _, _) =>
      next.Some? ==>
        && next.value.hash in r.l1 && r.l1[next.value.hash] == next.value
        && (s.l2Head.l1Origin.hash in r.l1 ==> next.value.number == r.l1[s.l2Head.l1Origin.hash].number + 1)
    case EpochRequest(range, _) =>
      range.Some? ==> forall b :: Header(b) in range.value ==> b.hash in r.l1 && r.l1[b.hash] == b
    case UnsafePayload(_) => true
  }
}
