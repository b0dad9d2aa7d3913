/**
  The whole loop: a sequencer builds blocks, the batch submitter polls, bundles and posts them, and
  the verifier reads the posted bundles from its L1 window and confirms the very same blocks.
 */
module EndToEnd {
  import opened Types
  import opened Engine
  import opened Output
  import opened ChainRules
  import opened Agreement
  import opened Posting
  import opened Bundle
  import opened Batcher
  import opened Driver
  import Derivation
  import BatchCodec

  // ----- What the verifier reads of the posted bundles -----

  predicate FromSubmitter(r: Rollup, tx: L1Tx) {
    tx.to == Some(r.cfg.batchInbox) && tx.sender == Some(r.cfg.batchSender)
  }

  /** The calldata the batch sender sent to the inbox, in order. */
  function InboxData(r: Rollup, txs: seq<L1Tx>): seq<Bytes> {
    if txs == [] then []
    else
      var init, tx := InboxData(r, txs[..|txs| - 1]), txs[|txs| - 1];
      if FromSubmitter(r, tx) then init + [tx.data] else init
  }

  function InboxLists(r: Rollup, lists: seq<seq<L1Tx>>): seq<Bytes> {
    if lists == [] then [] else InboxLists(r, lists[..|lists| - 1]) + InboxData(r, lists[|lists| - 1])
  }

  /** The bundles of the responses that are posted. */
  function Bundles(resps: seq<Response>): seq<Bytes> {
    if resps == [] then []
    else if resps[0].bundle == [] then Bundles(resps[1..])
    else [resps[0].bundle] + Bundles(resps[1..])
  }

  /** The batches of a list of calldata, malformed ones skipped. */
  function ReadAllData(read: Bytes -> Option<seq<Batch>>, ds: seq<Bytes>): seq<Batch> {
    if ds == [] then []
    else (if read(ds[0]).Some? then read(ds[0]).value else []) + ReadAllData(read, ds[1..])
  }

  lemma {:induction false} ReadAllSplits(read: Bytes -> Option<seq<Batch>>, a: seq<Bytes>, b: seq<Bytes>)
    ensures ReadAllData(read, a + b) == ReadAllData(read, a) + ReadAllData(read, b)
    decreases |a|
  {
    if a == [] {
      assert a + b == b;
    } else {
      assert (a + b)[1..] == a[1..] + b;
      ReadAllSplits(read, a[1..], b);
    }
  }

  lemma ReadAllOne(read: Bytes -> Option<seq<Batch>>, d: Bytes)
    ensures ReadAllData(read, [d]) == if read(d).Some? then read(d).value else []
  {
    assert [d][1..] == [];
  }

  lemma {:induction false} TxsReadInbox(r: Rollup, txs: seq<L1Tx>)
    ensures TxsBatches(r, txs) == ReadAllData(r.codec.decode, InboxData(r, txs))
  {
    if txs != [] {
      var init, tx := txs[..|txs| - 1], txs[|txs| - 1];
      TxsReadInbox(r, init);
      ReadAllSplits(r.codec.decode, InboxData(r, init), [tx.data]);
      ReadAllOne(r.codec.decode, tx.data);
    }
  }

  lemma {:induction false} ListsReadInbox(r: Rollup, lists: seq<seq<L1Tx>>)
    ensures ListsBatches(r, lists) == ReadAllData(r.codec.decode, InboxLists(r, lists))
  {
    if lists != [] {
      var n := |lists| - 1;
      ListsReadInbox(r, lists[..n]);
      TxsReadInbox(r, lists[n]);
      ReadAllSplits(r.codec.decode, InboxLists(r, lists[..n]), InboxData(r, lists[n]));
    }
  }

  /** read is decode, except that nothing is posted for an empty range. */
  ghost predicate SkipsEmpty(read: Bytes -> Option<seq<Batch>>, decode: Bytes -> Option<seq<Batch>>) {
    forall d :: read(d) == if d == [] then Some([]) else decode(d)
  }

  lemma {:induction false} BundlesRead(
    read: Bytes -> Option<seq<Batch>>, decode: Bytes -> Option<seq<Batch>>, resps: seq<Response>)
    requires SkipsEmpty(read, decode) && ReadPosted(read, resps).Some?
    ensures ReadAllData(decode, Bundles(resps)) == ReadPosted(read, resps).value
    decreases |resps|
  {
    if resps != [] {
      BundlesRead(read, decode, resps[1..]);
      if resps[0].bundle != [] {
        ReadAllSplits(decode, [resps[0].bundle], Bundles(resps[1..]));
        ReadAllOne(decode, resps[0].bundle);
      }
    }
  }

  // ----- The batches of one epoch among those of a stretch of the chain -----

  /** The chain the submitter sees is the chain of tip, from height lo on. */
  ghost predicate ChainOf(t: Tree, tip: Hash, chain: nat -> Payload, lo: nat, hi: nat) {
    forall m :: lo < m <= hi ==> BlockAt(t, tip, m) == Some(chain(m))
  }

  lemma {:induction false} RangeIsSubmissions(r: Rollup, t: Tree, tip: Hash, chain: nat -> Payload, n: nat, k: nat)
    requires ChainOf(t, tip, chain, n, n + k)
    ensures RangeBatches(ChainSlots(r, chain), n, n + k) == Submissions(r, t, tip, n, k)
  {
    if k > 0 {
      RangeIsSubmissions(r, t, tip, chain, n, k - 1);
      assert n + (k - 1) + 1 == n + k;
      assert BlockAt(t, tip, n + k) == Some(chain(n + k));
      SlotIsSubmission(r, chain, n + k);
    }
  }

  lemma SlotIsSubmission(r: Rollup, chain: nat -> Payload, m: nat)
    ensures SlotBatches(ChainSlots(r, chain)(m))
            == match Submission(r, chain(m)) { case None => [] case Some(b) => [b] }
  {
  }

  lemma {:induction false} OfEpochSplits(a: seq<Batch>, b: seq<Batch>, epoch: nat)
    ensures OfEpoch(a + b, epoch) == OfEpoch(a, epoch) + OfEpoch(b, epoch)
    decreases |a|
  {
    if a == [] {
      assert a + b == b;
    } else {
      assert (a + b)[1..] == a[1..] + b;
      OfEpochSplits(a[1..], b, epoch);
    }
  }

  /** Either all batches of a range are of the epoch, or none is. */
  lemma {:induction false} OfEpochRange(slots: nat -> Slot, lo: nat, hi: nat, epoch: nat, all: bool)
    requires forall m :: lo < m <= hi && slots(m).Full? ==> (slots(m).batch.epoch == epoch <==> all)
    ensures OfEpoch(RangeBatches(slots, lo, hi), epoch) == if all then RangeBatches(slots, lo, hi) else []
    decreases hi
  {
    if lo < hi {
      OfEpochRange(slots, lo, hi - 1, epoch, all);
      OfEpochSplits(RangeBatches(slots, lo, hi - 1), SlotBatches(slots(hi)), epoch);
      OfEpochOne(slots(hi), epoch);
    }
  }

  /** When exactly the blocks above n up to mid are of the epoch, so are their batches. */
  lemma OfEpochMiddle(slots: nat -> Slot, lo: nat, n: nat, mid: nat, hi: nat, epoch: nat)
    requires lo <= n <= mid <= hi
    requires forall m :: lo < m <= hi ==> slots(m).Full? ==> (slots(m).batch.epoch == epoch <==> n < m <= mid)
    ensures OfEpoch(RangeBatches(slots, lo, hi), epoch) == RangeBatches(slots, n, mid)
  {
    RangeSplits(slots, lo, n, hi);
    RangeSplits(slots, n, mid, hi);
    OfEpochSplits(RangeBatches(slots, lo, n), RangeBatches(slots, n, hi), epoch);
    OfEpochSplits(RangeBatches(slots, n, mid), RangeBatches(slots, mid, hi), epoch);
    OfEpochRange(slots, lo, n, epoch, false);
    OfEpochRange(slots, n, mid, epoch, true);
    OfEpochRange(slots, mid, hi, epoch, false);
  }

  lemma OfEpochOne(slot: Slot, epoch: nat)
    ensures OfEpoch(SlotBatches(slot), epoch) == if slot.Full? && slot.batch.epoch == epoch then [slot.batch] else []
  {
    if slot.Full? {
      assert [slot.batch][1..] == [];
    }
  }

  /** A batch is tagged with the L1 origin number of its block. */
  lemma SlotEpoch(r: Rollup, t: Tree, tip: Hash, chain: nat -> Payload, m: nat)
    requires Ruled(r, t) && tip in t && r.G().number < m <= t[tip].number && BlockAt(t, tip, m) == Some(chain(m))
    ensures var slot := ChainSlots(r, chain)(m); slot.Full? ==> slot.batch.epoch == RefAt(r, t, tip, m).l1Origin.number
  {
    RuleOnChain(r, t, tip, m - 1);
  }

  /** The blocks n + 1 to n + k are exactly those of the epoch between lo and hi. */
  ghost predicate EpochBlocks(r: Rollup, t: Tree, tip: Hash, lo: nat, n: nat, k: nat, hi: nat, epoch: nat) {
    forall m :: lo < m <= hi ==> (RefAt(r, t, tip, m).l1Origin.number == epoch <==> n < m <= n + k)
  }

  /** Of all batches of a stretch of the chain, those of the epoch are the submissions of its blocks. */
  lemma EpochOfRange(r: Rollup, t: Tree, tip: Hash, chain: nat -> Payload, lo: nat, n: nat, k: nat, hi: nat, epoch: nat)
    requires Ruled(r, t) && tip in t && r.G().number <= lo <= n && n + k <= hi <= t[tip].number
    requires ChainOf(t, tip, chain, lo, hi) && EpochBlocks(r, t, tip, lo, n, k, hi, epoch)
    ensures OfEpoch(RangeBatches(ChainSlots(r, chain), lo, hi), epoch) == Submissions(r, t, tip, n, k)
  {
    var slots := ChainSlots(r, chain);
    forall m | lo < m <= hi ensures slots(m).Full? ==> (slots(m).batch.epoch == epoch <==> n < m <= n + k) {
      SlotEpoch(r, t, tip, chain, m);
    }
    OfEpochMiddle(slots, lo, n, n + k, hi, epoch);
    RangeIsSubmissions(r, t, tip, chain, n, k);
  }

  /** On a chain that follows the rules, the blocks of a sequenced epoch are all the blocks of that origin. */
  lemma SequencedIsWhole(r: Rollup, t: Tree, tip: Hash, b: L1Block, lo: nat, n: nat, k: nat, hi: nat, minTime: nat)
    requires Ruled(r, t) && tip in t && r.G().number <= lo <= n && n + k <= hi <= t[tip].number && k >= 1
    requires SequencedEpoch(r, t, tip, b, n, k, minTime)
    requires n + k == t[tip].number || RefAt(r, t, tip, n + k + 1).l1Origin.number != b.number
    ensures EpochBlocks(r, t, tip, lo, n, k, hi, b.number)
  {
    forall m | lo < m <= hi ensures RefAt(r, t, tip, m).l1Origin.number == b.number <==> n < m <= n + k {
      if m <= n {
        if m < n {
          OriginProgress(r, t, tip, m, n);
        }
      } else if m <= n + k {
        SequencedUnder(r, t, tip, b, n, k, minTime, m - n);
      } else {
        SequencedUnder(r, t, tip, b, n, k, minTime, k);
        OriginProgress(r, t, tip, n + k, n + k + 1);
        if m > n + k + 1 {
          OriginProgress(r, t, tip, n + k + 1, m);
        }
      }
    }
  }

  // ----- The capstone -----

  /** The window's inbox holds exactly what the submitter posted in some stretch of its polls. */
  ghost predicate PostedInWindow(r: Rollup, window: seq<BlockID>, resps: seq<Response>) {
    WindowKnown(r, window) && InboxLists(r, WindowTxs(r, window)) == Bundles(resps)
  }

  /** What the verifier reads from such a window are the batches of the chain between two recorded blocks. */
  lemma WindowReadsChain(
    r: Rollup, lim: Limits, chain: nat -> Payload, ids: seq<BlockID>, rounds: seq<Round>, height: nat,
    window: seq<BlockID>)
    requires WfChain(r, chain) && WfHistory(chain, ids, height) && OneChain(chain, rounds, height)
    requires lim.maxSize < TWO_64 && lim.maxEntries >= 1
    requires r.codec.decode == BatchCodec.DecodeBatches
    requires PostedInWindow(r, window, Recorded(r, lim, ids, rounds).0)
    ensures var end := Recorded(r, lim, ids, rounds).1;
            && end != []
            && ListsBatches(r, WindowTxs(r, window))
              == RangeBatches(ChainSlots(r, chain), Latest(ids).number, Latest(end).number)
  {
    var (resps, end) := Recorded(r, lim, ids, rounds);
    PollsTile(r, lim, chain, ids, rounds, height);
    ListsReadInbox(r, WindowTxs(r, window));
    DecodeSkipsEmpty();
    BundlesRead(ReadBundle, BatchCodec.DecodeBatches, resps);
  }

  lemma DecodeSkipsEmpty()
    ensures SkipsEmpty(ReadBundle, BatchCodec.DecodeBatches)
  {
  }

  /** The epoch of b, its k blocks sequenced on the safe head, all there is of that origin on the unsafe chain. */
  ghost predicate EpochBuilt(
    r: Rollup, t: Tree, head: L2Ref, safe: L2Ref, k: nat, b: L1Block, span: Derivation.Span, next: L1Block) {
    && k >= 1 && safe.number + k <= head.number
    && SequencedEpoch(r, t, head.hash, b, safe.number, k, span.minTime)
    && Derivation.SlotTime(span.minTime, span.blockTime, k) <= TWO_64
    && (SlotSubmission(r, t, head.hash, safe.number, k - 1).Some?
        || Derivation.SlotTime(span.minTime, span.blockTime, k - 1)
          <= Derivation.FillTime(span.blockTime, span.minTime, next.time))
    && MovesOn(r, t, head.hash, next, safe.number + k)
  }

  /**
    The submitter's polls, from a history that ends at or below n to one that reaches height m, on the chain of tip.
   */
  ghost predicate PollsCover(
    r: Rollup, t: Tree, tip: Hash, window: seq<BlockID>, n: nat, m: nat, lim: Limits, chain: nat -> Payload,
    ids: seq<BlockID>, rounds: seq<Round>, height: nat)
    requires tip in t
  {
    && WfChain(r, chain) && WfHistory(chain, ids, height) && OneChain(chain, rounds, height)
    && lim.maxSize < TWO_64 && lim.maxEntries >= 1 && r.codec.decode == BatchCodec.DecodeBatches
    && var (resps, end) := Recorded(r, lim, ids, rounds);
       && PostedInWindow(r, window, resps)
       && r.G().number <= Latest(ids).number <= n
       && end != [] && m <= Latest(end).number <= t[tip].number
       && ChainOf(t, tip, chain, Latest(ids).number, t[tip].number)
  }

  /** The batches of the epoch in a stretch of the chain around it. */
  lemma EpochInStretch(
    r: Rollup, t: Tree, head: L2Ref, safe: L2Ref, k: nat, b: L1Block, span: Derivation.Span, next: L1Block,
    chain: nat -> Payload, lo: nat, hi: nat)
    requires Ruled(r, t) && Tracks(r, t, head)
    requires EpochBuilt(r, t, head, safe, k, b, span, next) && next.number == b.number + 1
    requires r.G().number <= lo <= safe.number && safe.number + k <= hi <= t[head.hash].number
    requires ChainOf(t, head.hash, chain, lo, t[head.hash].number)
    ensures OfEpoch(RangeBatches(ChainSlots(r, chain), lo, hi), b.number)
            == Submissions(r, t, head.hash, safe.number, k)
  {
    TrackedNumber(r, t, head);
    if safe.number + k != head.number {
      MovesOnWhenDue(r, t, head.hash, b, next, safe.number, k, span.minTime);
    }
    SequencedIsWhole(r, t, head.hash, b, lo, safe.number, k, hi, span.minTime);
    EpochOfRange(r, t, head.hash, chain, lo, safe.number, k, hi, b.number);
  }

  /** The window's batches for the epoch are the submissions of its blocks. */
  lemma WindowHoldsEpoch(
    r: Rollup, t: Tree, head: L2Ref, safe: L2Ref, window: seq<BlockID>, k: nat, b: L1Block, span: Derivation.Span,
    next: L1Block,
    lim: Limits, chain: nat -> Payload, ids: seq<BlockID>, rounds: seq<Round>, height: nat)
    requires Ruled(r, t) && Tracks(r, t, head)
    requires EpochBuilt(r, t, head, safe, k, b, span, next) && next.number == b.number + 1
    requires PollsCover(r, t, head.hash, window, safe.number, safe.number + k, lim, chain, ids, rounds, height)
    ensures OfEpoch(ListsBatches(r, WindowTxs(r, window)), b.number) == Submissions(r, t, head.hash, safe.number, k)
  {
    var lo, hi := Latest(ids).number, Latest(Recorded(r, lim, ids, rounds).1).number;
    WindowReadsChain(r, lim, chain, ids, rounds, height, window);
    EpochInStretch(r, t, head, safe, k, b, span, next, chain, lo, hi);
  }

  /**
    However the submitter polled, failed and resubmitted: when its posts of a stretch that covers the
    epoch are what the window holds, insertEpoch confirms the sequenced blocks. Failing or not, the
    engine's chain still contains the whole unsafe chain.
   */
  lemma SubmittedEpochIsConfirmed(
    r: Rollup, s: DriverState, answers: L1Answers, window: seq<BlockID>, k: nat, b: L1Block, span: Derivation.Span,
    bs: seq<Batch>, next: L1Block,
    lim: Limits, chain: nat -> Payload, ids: seq<BlockID>, rounds: seq<Round>, height: nat)
    requires RuleInv(r, s) && LoopReady(r, EpochState(s.eng, s.l2Head, s.l2Safe, false, false))
    requires Ancestor(s.eng.tree, s.l2Safe.hash, s.l2Head.hash)
    requires EpochFacts(r, s.l2Safe, window, b, span, bs, next)
    requires EpochBuilt(r, s.eng.tree, s.l2Head, s.l2Safe, k, b, span, next)
    requires PollsCover(r, s.eng.tree, s.l2Head.hash, window, s.l2Safe.number, s.l2Safe.number + k, lim, chain, ids,
             rounds, height)
    ensures Confirmed(r, s.eng, answers, s.l2Head, s.l2Safe, window, k)
  {
    EpochBlocksLinked(r, s.l2Safe, window, b, span, bs, next);
    WindowHoldsEpoch(r, s.eng.tree, s.l2Head, s.l2Safe, window, k, b, span, next, lim, chain, ids, rounds, height);
    assert EpochPosted(r, s.eng.tree, s.l2Head, s.l2Safe, k, b, span, bs, next);
    PostedEpochIsConfirmed(r, s, answers, window, k, b, span, bs, next);
  }
}
