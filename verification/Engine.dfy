/**
  The L2 execution engine behind op-node/l2/source.go, as the driver sees it: a growing tree
  of payloads, a forkchoice, and answers that may be refused or lost. The contract of each call
  is that of engine_forkchoiceUpdatedV1, engine_getPayloadV1 and engine_newPayloadV1, extended
  with the transactions and noTxPool attributes of specs/exec-engine.md.
 */
module Engine {
  import opened Types

  type Tree = map<Hash, Payload>

  /** Every block sits under its own hash and, below the rollup genesis, one above its parent. */
  ghost predicate WfTree(t: Tree, g: BlockID) {
    && g.hash in t
    && t[g.hash].number == g.number
    && 0 !in t
    && (forall h :: h in t ==> t[h].hash == h && t[h].number < TWO_64)
    && (forall h {:trigger Linked(t, g, h)} :: h in t ==> Linked(t, g, h))
  }

  /** h is the genesis block or the child of another block of the tree. */
  predicate Linked(t: Tree, g: BlockID, h: Hash) {
    h in t && (h == g.hash || IsChild(t, g, t[h]))
  }

  predicate IsChild(t: Tree, g: BlockID, p: Payload) {
    p.parentHash in t && p.number == t[p.parentHash].number + 1 && p.number > g.number
  }

  ghost predicate SubTree(t: Tree, t': Tree) {
    forall h :: h in t ==> h in t' && t'[h] == t[h]
  }

  /** The block at height n on the chain that ends in h. */
  function Lookup(t: Tree, h: Hash, n: nat): Option<Hash>
    decreases if h in t then t[h].number else 0
  {
    if h !in t then None
    else if t[h].number == n then Some(h)
    else
      var p := t[h].parentHash;
      if t[h].number > n && p in t && t[p].number < t[h].number then Lookup(t, p, n) else None
  }

  /** a is h or an ancestor of h. */
  predicate Ancestor(t: Tree, a: Hash, h: Hash) {
    a in t && Lookup(t, h, t[a].number) == Some(a)
  }

  lemma {:induction false} LookupTotal(t: Tree, g: BlockID, h: Hash, n: nat)
    requires WfTree(t, g) && h in t && g.number <= n <= t[h].number
    ensures Lookup(t, h, n).Some?
    ensures Lookup(t, h, n).value in t && t[Lookup(t, h, n).value].number == n
    decreases t[h].number
  {
    if t[h].number != n {
      assert Linked(t, g, h);
      LookupTotal(t, g, t[h].parentHash, n);
    }
  }

  lemma {:induction false} LookupTransitive(t: Tree, h: Hash, m: nat, n: nat)
    requires n <= m && Lookup(t, h, m).Some?
    ensures Lookup(t, h, n) == Lookup(t, Lookup(t, h, m).value, n)
    decreases if h in t then t[h].number else 0
  {
    if t[h].number != m {
      LookupTransitive(t, t[h].parentHash, m, n);
    }
  }

  /** One height below a block of the chain stands its parent. */
  lemma LookupParent(t: Tree, g: BlockID, h: Hash, n: nat)
    requires WfTree(t, g) && g.number <= n && Lookup(t, h, n + 1).Some?
    ensures var x := Lookup(t, h, n + 1).value;
            x in t && t[x].number == n + 1 && Lookup(t, h, n) == Some(t[x].parentHash)
  {
    var x := Lookup(t, h, n + 1).value;
    LookupHeight(t, h, n + 1);
    LookupTransitive(t, h, n + 1, n);
    assert Linked(t, g, x);
    assert Lookup(t, t[x].parentHash, n) == Some(t[x].parentHash);
  }

  lemma {:induction false} LookupHeight(t: Tree, h: Hash, n: nat)
    requires Lookup(t, h, n).Some?
    ensures h in t && n <= t[h].number
    ensures Lookup(t, h, n).value in t && t[Lookup(t, h, n).value].number == n
    decreases if h in t then t[h].number else 0
  {
    if t[h].number != n {
      LookupHeight(t, t[h].parentHash, n);
    }
  }

  lemma {:induction false} LookupGrows(t: Tree, t': Tree, g: BlockID, h: Hash, n: nat)
    requires WfTree(t, g) && SubTree(t, t') && h in t && g.number <= n
    ensures Lookup(t', h, n) == Lookup(t, h, n)
    decreases t[h].number
  {
    if t[h].number > n {
      assert Linked(t, g, h);
      LookupGrows(t, t', g, t[h].parentHash, n);
    }
  }

  lemma AncestorGrows(t: Tree, t': Tree, g: BlockID, a: Hash, h: Hash)
    requires WfTree(t, g) && SubTree(t, t') && Ancestor(t, a, h)
    ensures Ancestor(t', a, h)
  {
    LookupHeight(t, h, t[a].number);
    assert t[a].number >= g.number by { assert Linked(t, g, a); }
    LookupGrows(t, t', g, h, t[a].number);
  }

  lemma AncestorTransitive(t: Tree, a: Hash, b: Hash, c: Hash)
    requires Ancestor(t, a, b) && Ancestor(t, b, c)
    ensures Ancestor(t, a, c)
  {
    LookupHeight(t, b, t[a].number);
    LookupTransitive(t, c, t[b].number, t[a].number);
  }

  /** Two ancestors of one block are ordered by height. */
  lemma AncestorsOrdered(t: Tree, a: Hash, b: Hash, c: Hash)
    requires Ancestor(t, a, c) && Ancestor(t, b, c) && t[a].number <= t[b].number
    ensures Ancestor(t, a, b)
  {
    LookupTransitive(t, c, t[b].number, t[a].number);
  }

  // ----- The calls -----

  /**
    What the engine does with one call: carry it out, refuse it, or carry it out while the
    answer is lost. Built answers a request for a payload.
   */
  datatype Reply = Accepted | Refused | Lost | Built(payload: Payload)

  datatype State = State(tree: Tree, head: Hash, safe: Hash, replies: seq<Reply>)
  {
    ghost predicate Wf(g: BlockID) {
      WfTree(tree, g) && head in tree && safe in tree
    }
  }

  function Answer(e: State): (State, Reply) {
    if e.replies == [] then (e, Refused) else (e.(replies := e.replies[1..]), e.replies[0])
  }

  function ForkchoiceUpdate(e: State, head: Hash, safe: Hash): (State, bool) {
    var (e1, reply) := Answer(e);
    if head !in e.tree || safe !in e.tree || reply.Refused? then (e1, false)
    else (e1.(head := head, safe := safe), !reply.Lost?)
  }

  function PayloadByNumber(e: State, n: nat): (State, Option<Payload>) {
    var (e1, reply) := Answer(e);
    var h := Lookup(e.tree, e.head, n);
    if h.None? || h.value !in e.tree || reply.Refused? || reply.Lost? then (e1, None)
    else (e1, Some(e.tree[h.value]))
  }

  function PayloadByHash(e: State, h: Hash): (State, Option<Payload>) {
    var (e1, reply) := Answer(e);
    if h !in e.tree || reply.Refused? || reply.Lost? then (e1, None) else (e1, Some(e.tree[h]))
  }

  /** The engine may add a payload: known parent, next number, and no other block under its hash. */
  predicate Insertable(t: Tree, g: BlockID, p: Payload) {
    && (if p.hash in t then t[p.hash] == p else IsChild(t, g, p) && p.number < TWO_64)
    && p.hash != 0
  }

  function NewPayload(e: State, g: BlockID, p: Payload): (State, bool) {
    var (e1, reply) := Answer(e);
    if !Insertable(e.tree, g, p) || reply.Refused? then (e1, false)
    else (e1.(tree := e.tree[p.hash := p]), !reply.Lost?)
  }

  /**
    The payload starts with exactly the given transactions; only without noTxPool may pool
    transactions follow, and these are never deposits.
   */
  predicate BuiltFrom(attrs: Attributes, parent: Hash, p: Payload) {
    && p.parentHash == parent
    && p.timestamp == attrs.timestamp
    && p.prevRandao == attrs.prevRandao
    && p.feeRecipient == attrs.feeRecipient
    && attrs.txs <= p.txs
    && (attrs.noTxPool ==> p.txs == attrs.txs)
    && (forall i :: |attrs.txs| <= i < |p.txs| ==> !IsDeposit(p.txs[i]))
  }

  /** engine_getPayloadV1 for a build started on the current head. */
  function GetPayload(e: State, g: BlockID, attrs: Attributes): (State, Option<Payload>) {
    var (e1, reply) := Answer(e);
    if
      && reply.Built?
      && BuiltFrom(attrs, e.head, reply.payload)
      && IsChild(e.tree, g, reply.payload)
      && Insertable(e.tree, g, reply.payload)
    then (e1, Some(reply.payload))
    else (e1, None)
  }

  lemma InsertKeepsTree(t: Tree, g: BlockID, p: Payload)
    requires WfTree(t, g) && Insertable(t, g, p)
    ensures WfTree(t[p.hash := p], g)
    ensures SubTree(t, t[p.hash := p])
  {
    var t' := t[p.hash := p];
    if p.hash in t {
      assert t' == t;
    } else {
      forall h | h in t' ensures Linked(t', g, h) {
        assert h == p.hash || Linked(t, g, h);
      }
    }
  }
}
