/**
  Runs of the sequencer: every block it adds to the unsafe chain is built by the driver for its own L1
  origin and stays so while the tree grows, so that the blocks of one origin are a sequenced epoch.
 */
module Sequencing {
  import opened Types
  import opened Engine
  import opened Output
  import opened Sync
  import opened Driver
  import opened DriverRuns
  import opened ChainRules
  import opened Agreement

  /** The block at height m + 1 was sequenced for the L1 origin it records. */
  ghost predicate SequencedOn(r: Rollup, t: Tree, tip: Hash, m: nat) {
    var origin := RefAt(r, t, tip, m + 1).l1Origin;
    origin.hash in r.l1 && r.l1[origin.hash].ID() == origin && SequencedAt(r, t, tip, r.l1[origin.hash], m)
  }

  /** All blocks of the chain of tip above height n were sequenced. */
  ghost predicate SequencedAbove(r: Rollup, t: Tree, tip: Hash, n: nat) {
    tip in t && forall m :: n <= m < t[tip].number ==> SequencedOn(r, t, tip, m)
  }

  /** Growth of the tree and of the chain changes nothing below. */
  lemma SequencedStays(r: Rollup, t: Tree, t': Tree, tip: Hash, tip': Hash, m: nat)
    requires WfTree(t, r.G()) && WfTree(t', r.G()) && SubTree(t, t') && tip in t && Ancestor(t', tip, tip')
    requires r.G().number <= m < t[tip].number && SequencedOn(r, t, tip, m)
    ensures SequencedOn(r, t', tip', m)
  {
    SameLookup(r, t, t', tip, tip', m);
    SameLookup(r, t, t', tip, tip', m + 1);
    LookupTotal(t, r.G(), tip, m);
    LookupTotal(t, r.G(), tip, m + 1);
  }

  lemma SameLookup(r: Rollup, t: Tree, t': Tree, tip: Hash, tip': Hash, n: nat)
    requires WfTree(t, r.G()) && SubTree(t, t') && tip in t && Ancestor(t', tip, tip')
    requires r.G().number <= n <= t[tip].number
    ensures Lookup(t', tip', n) == Lookup(t, tip, n)
  {
    LookupGrows(t, t', r.G(), tip, n);
    LookupTransitive(t', tip', t[tip].number, n);
  }

  lemma AboveStays(r: Rollup, t: Tree, t': Tree, tip: Hash, n: nat)
    requires WfTree(t, r.G()) && WfTree(t', r.G()) && SubTree(t, t') && r.G().number <= n
    requires SequencedAbove(r, t, tip, n)
    ensures SequencedAbove(r, t', tip, n)
  {
    assert Ancestor(t', tip, tip);
    forall m | n <= m < t'[tip].number ensures SequencedOn(r, t', tip, m) {
      SequencedStays(r, t, t', tip, tip, m);
    }
  }

  /** A sequencing step adds a sequenced block, or none. */
  lemma NewBlockAbove(
    r: Rollup, s: DriverState, current: bool, next: Option<L1Block>, info: bool, published: bool, n: nat)
    requires RuleInv(r, s) && Honest(r, s, NewBlock(current, next, info, published))
    requires r.G().number <= n <= s.l2Head.number && SequencedAbove(r, s.eng.tree, s.l2Head.hash, n)
    ensures var s' := CreateNewL2Block(r, s, current, next, info, published).state;
            s'.l2Head.number >= s.l2Head.number && SequencedAbove(r, s'.eng.tree, s'.l2Head.hash, n)
  {
    var s' := CreateNewL2Block(r, s, current, next, info, published).state;
    var t, t' := s.eng.tree, s'.eng.tree;
    NewBlockInv(r, s, current, next, info, published);
    if s'.l2Head == s.l2Head {
      AboveStays(r, t, t', s.l2Head.hash, n);
    } else {
      NewHeadSequenced(r, s, current, next, info, published);
      TrackedNumber(r, t, s.l2Head);
      AboveGrows(r, t, t', s.l2Head.hash, s'.l2Head.hash, n);
    }
  }

  /** One more sequenced block on top. */
  lemma AboveGrows(r: Rollup, t: Tree, t': Tree, tip: Hash, tip': Hash, n: nat)
    requires WfTree(t, r.G()) && WfTree(t', r.G()) && SubTree(t, t') && r.G().number <= n
    requires SequencedAbove(r, t, tip, n) && Ancestor(t', tip, tip')
    requires tip' in t' && t'[tip'].number == t[tip].number + 1 && SequencedOn(r, t', tip', t[tip].number)
    ensures SequencedAbove(r, t', tip', n)
  {
    forall m | n <= m < t'[tip'].number ensures SequencedOn(r, t', tip', m) {
      if m < t[tip].number {
        SequencedStays(r, t, t', tip, tip', m);
      }
    }
  }

  lemma NewHeadSequenced(r: Rollup, s: DriverState, current: bool, next: Option<L1Block>, info: bool, published: bool)
    requires RuleInv(r, s) && Honest(r, s, NewBlock(current, next, info, published))
    requires CreateNewL2Block(r, s, current, next, info, published).state.l2Head != s.l2Head
    ensures var s' := CreateNewL2Block(r, s, current, next, info, published).state;
            && s'.l2Head.hash in s'.eng.tree
              && s'.eng.tree[s'.l2Head.hash].number == s'.l2Head.number == s.l2Head.number + 1
            && Ancestor(s'.eng.tree, s.l2Head.hash, s'.l2Head.hash)
            && SequencedOn(r, s'.eng.tree, s'.l2Head.hash, s.l2Head.number)
  {
    var s' := CreateNewL2Block(r, s, current, next, info, published).state;
    CreateNewL2BlockSequences(r, s, current, next, info, published);
    FindL1OriginChoice(r, s, current, next);
    var b := FindL1Origin(r, s, current, next).value;
    CreateNewBlockRef(r, s, info, b);
    TrackedNumber(r, s.eng.tree, s.l2Head);
    TrackedNumber(r, s'.eng.tree, s'.l2Head);
    BuiltOrigin(r, s'.eng.tree, s'.l2Head.hash, b, s.l2Head.number);
  }

  /** A run in which only sequencing moves the unsafe head. */
  ghost predicate SequencingRun(r: Rollup, s: DriverState, evs: seq<Event>)
    requires Inv(r, s) && HonestRun(r, s, evs)
    decreases |evs|
  {
    evs != [] ==>
      && (evs[0].NewBlock? || Step(r, s, evs[0]).state.l2Head == s.l2Head)
      && (StepInv(r, s, evs[0]); SequencingRun(r, Step(r, s, evs[0]).state, evs[1..]))
  }

  /**
    Over every such run, with L1 extensions, epochs that confirm, failures and failed publications in
    between, all blocks above the height it started from are sequenced.
   */
  lemma {:induction false} RunSequences(r: Rollup, s: DriverState, evs: seq<Event>, n: nat)
    requires RuleInv(r, s) && HonestRun(r, s, evs) && FollowingRun(r, s, evs) && SequencingRun(r, s, evs)
    requires r.G().number <= n <= s.l2Head.number && SequencedAbove(r, s.eng.tree, s.l2Head.hash, n)
    ensures var s' := Run(r, s, evs); s'.l2Head.number >= n && SequencedAbove(r, s'.eng.tree, s'.l2Head.hash, n)
    decreases |evs|
  {
    if evs != [] {
      var s1 := Step(r, s, evs[0]).state;
      StepInv(r, s, evs[0]);
      StepRule(r, s, evs[0]);
      if evs[0].NewBlock? {
        var NewBlock(current, next, info, published) := evs[0];
        NewBlockAbove(r, s, current, next, info, published, n);
      } else {
        AboveStays(r, s.eng.tree, s1.eng.tree, s.l2Head.hash, n);
      }
      RunSequences(r, s1, evs[1..], n);
    }
  }

  /** From any state: what the run adds is sequenced. */
  lemma RunFromHeadSequences(r: Rollup, s: DriverState, evs: seq<Event>)
    requires RuleInv(r, s) && HonestRun(r, s, evs) && FollowingRun(r, s, evs) && SequencingRun(r, s, evs)
    ensures var s' := Run(r, s, evs); SequencedAbove(r, s'.eng.tree, s'.l2Head.hash, s.l2Head.number)
  {
    TrackedNumber(r, s.eng.tree, s.l2Head);
    RunSequences(r, s, evs, s.l2Head.number);
  }

  /** The k blocks above height n that record the next L1 origin b are a sequenced epoch. */
  lemma SequencedEpochOf(r: Rollup, t: Tree, tip: Hash, n: nat, k: nat, b: L1Block)
    requires r.Wf() && SequencedAbove(r, t, tip, n) && n + k <= t[tip].number
    requires b.hash in r.l1 && r.l1[b.hash] == b && b.number == RefAt(r, t, tip, n).l1Origin.number + 1
    requires forall m :: n < m <= n + k ==> RefAt(r, t, tip, m).l1Origin == b.ID()
    ensures SequencedEpoch(r, t, tip, b, n, k, RefAt(r, t, tip, n).time + r.cfg.blockTime)
  {
    forall m | n <= m < n + k ensures SequencedAt(r, t, tip, b, m) {
      assert SequencedOn(r, t, tip, m);
      assert RefAt(r, t, tip, m + 1).l1Origin == b.ID();
    }
  }
}
