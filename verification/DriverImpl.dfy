/**
  The state struct of op-node/rollup/driver/state.go with its handlers as they run: each method
  assigns the fields, and is tied to the corresponding step of module Driver.
 */
module DriverImpl {
  import opened Types
  import opened Engine
  import opened Output
  import opened OutputImpl
  import opened Sync
  import opened Driver
  import opened DriverRuns
  import opened DriverLaws

  class Loop {
    var l1Head: L1Block
    var l2Head: L2Ref
    var l2SafeHead: L2Ref
    var l1WindowBuf: seq<BlockID>
    const output: Impl

    constructor (output: Impl, s: DriverState)
      requires output.l2 == s.eng
      ensures this.output == output && View() == s
    {
      this.output := output;
      l1Head, l2Head, l2SafeHead, l1WindowBuf := s.l1Head, s.l2Head, s.l2Safe, s.window;
    }

    function View(): DriverState
      reads this, output
    {
      DriverState(l1Head, l2Head, l2SafeHead, l1WindowBuf, output.l2)
    }

    method OnL1Signal(newHead: L1Block, view: L1Views, fails: set<Hash>) returns (err: Option<StepError>)
      requires Core(output.r, View())
      modifies this, output
      ensures StepResult(View(), err) == HandleNewL1Block(output.r, old(View()), newHead, view, fails)
      ensures Keeps(output.r, old(View()), L1Signal(newHead, view, fails), View())
      ensures Lawful(output.r, old(View()), L1Signal(newHead, view, fails), View())
    {
      StepKeeps(output.r, View(), L1Signal(newHead, view, fails));
      StepLawful(output.r, View(), L1Signal(newHead, view, fails));
      if l1Head.hash == newHead.hash {
        return None;
      }
      if l1Head.hash == newHead.parentHash {
        if WindowEnd(View()).hash == newHead.parentHash {
          l1WindowBuf := l1WindowBuf + [newHead.ID()];
        }
        l1Head := newHead;
        return None;
      }
      var found := RunFindL2Heads(output.r, output.l2.tree, view, fails, l2Head);
      if found.Err? {
        return Some(FindFailed(found.error));
      }
      var heads := found.value;
      var (e1, ok) := ForkchoiceUpdate(output.l2, heads.unsafe.hash, heads.safe.hash);
      output.l2 := e1;
      if !ok {
        return Some(ForkchoiceFailed);
      }
      l1Head := newHead;
      l1WindowBuf := [];
      l2Head := heads.unsafe;
      if l2SafeHead.number >= heads.safe.number {
        l2SafeHead := heads.safe;
      }
      return None;
    }

    method OnNewBlock(
      current: bool, next: Option<L1Block>, info: bool, published: bool)
      returns (err: Option<StepError>)
      modifies this, output
      ensures StepResult(View(), err) == CreateNewL2Block(output.r, old(View()), current, next, info, published)
      ensures Keeps(output.r, old(View()), NewBlock(current, next, info, published), View())
      ensures Lawful(output.r, old(View()), NewBlock(current, next, info, published), View())
    {
      StepKeeps(output.r, View(), NewBlock(current, next, info, published));
      StepLawful(output.r, View(), NewBlock(current, next, info, published));
      var origin := FindL1Origin(output.r, View(), current, next);
      if origin.None? {
        return Some(NoOrigin);
      }
      if origin.value.number < output.r.cfg.genesis.l1.number {
        return None;
      }
      if l2Head.time + output.r.cfg.blockTime < origin.value.time {
        return Some(BeforeOrigin);
      }
      var ref := output.RunCreateNewBlock(info, l2Head, l2SafeHead.hash, origin.value);
      if ref.None? {
        return Some(CreateFailed);
      }
      l2Head := ref.value;
      return if published then None else Some(PublishFailed);
    }

    method OnEpochRequest(range: Option<seq<RangeReply>>, answers: L1Answers) returns (err: Option<StepError>)
      requires output.r.cfg.blockTime > 0
      modifies this, output
      ensures StepResult(View(), err) == HandleEpoch(output.r, old(View()), range, answers)
      ensures Keeps(output.r, old(View()), EpochRequest(range, answers), View())
      ensures Lawful(output.r, old(View()), EpochRequest(range, answers), View())
    {
      StepKeeps(output.r, View(), EpochRequest(range, answers));
      StepLawful(output.r, View(), EpochRequest(range, answers));
      var W := output.r.cfg.seqWindowSize;
      var window := l1WindowBuf;
      if |window| < W {
        if range.None? {
          return Some(RangeFailed);
        }
        var nexts := RunL1Range(WindowEnd(View()), range.value);
        if nexts.None? {
          return Some(RangeFailed);
        }
        window := window + nexts.value;
      }
      if |window| < W {
        l1WindowBuf := window;
        return None;
      }
      var out := output.RunInsertEpoch(answers, l2Head, l2SafeHead, window[..W]);
      match out {
        case Failed(e) =>
          l1WindowBuf := [];
          return Some(EpochFailed(e));
        case Inserted(head, safe, didReorg) =>
          l2Head := head;
          l2SafeHead := safe;
          l1WindowBuf := if window == [] then [] else window[1..];
          return None;
      }
    }

    method OnUnsafePayload(p: Payload) returns (err: Option<StepError>)
      modifies this, output
      ensures StepResult(View(), err) == HandleUnsafeL2Payload(output.r, old(View()), p)
      ensures Keeps(output.r, old(View()), UnsafePayload(p), View())
      ensures Lawful(output.r, old(View()), UnsafePayload(p), View())
    {
      StepKeeps(output.r, View(), UnsafePayload(p));
      StepLawful(output.r, View(), UnsafePayload(p));
      if l2SafeHead.number > p.number {
        return None;
      }
      var ref := RefOf(output.r, p);
      if ref.None? {
        return Some(BadPayload);
      }
      var ok := output.RunProcessBlock(l2SafeHead.hash, p);
      if !ok {
        return Some(ProcessFailed);
      }
      l2Head := ref.value;
      return None;
    }
  }
}
