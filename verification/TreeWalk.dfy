/** Facts about the tree's loops: the prefix walk, and the stack walk over all nodes. */
module TreeWalk {
  import opened Types
  import opened TreeModel
  import opened TreeSteps

  // ------------------------------------------------------------------- chunks

  /** The whole blocks of a token sequence; a partial block at the end is dropped. */
  function Chunks(tokens: seq<TokenId>, bt: nat): (cs: seq<Chunk>)
    requires bt > 0
    decreases |tokens|
  {
    if |tokens| < bt then [] else [tokens[..bt]] + Chunks(tokens[bt..], bt)
  }

  function Flatten(cs: seq<Chunk>): seq<TokenId> {
    if cs == [] then [] else cs[0] + Flatten(cs[1..])
  }

  /** Chunking loses nothing but the partial block: what is left over is shorter than a block. */
  lemma {:induction false} ChunksAreWholeBlocks(tokens: seq<TokenId>, bt: nat)
    requires bt > 0
    ensures Flatten(Chunks(tokens, bt)) <= tokens
    ensures |tokens| - |Flatten(Chunks(tokens, bt))| < bt
    ensures forall i :: 0 <= i < |Chunks(tokens, bt)| ==> |Chunks(tokens, bt)[i]| == bt
    ensures |Chunks(tokens, bt)| * bt <= |tokens| < |Chunks(tokens, bt)| * bt + bt
    decreases |tokens|
  {
    if |tokens| >= bt {
      var rest := Chunks(tokens[bt..], bt);
      ChunksAreWholeBlocks(tokens[bt..], bt);
      assert Chunks(tokens, bt)[1..] == rest;
      assert tokens == tokens[..bt] + tokens[bt..];
      assert (1 + |rest|) * bt == bt + |rest| * bt;
    }
  }

  /** `n` blocks of `bt` tokens have room for `len` tokens, and one block less has not. */
  predicate Spans(n: nat, len: nat, bt: nat) {
    len <= n * bt && (n > 0 ==> n * bt < len + bt)
  }

  /** The number of blocks a sequence needs, counting a partial one. */
  function BlocksFor(tokens: seq<TokenId>, bt: nat): (n: nat)
    requires bt > 0
    ensures Spans(n, |tokens|, bt)
  {
    RoundUp(|tokens|, bt);
    (|tokens| + bt - 1) / bt
  }

  lemma RoundUp(len: nat, bt: nat)
    requires bt > 0
    ensures Spans((len + bt - 1) / bt, len, bt)
  {
    var n := (len + bt - 1) / bt;
    assert n * bt <= len + bt - 1 < n * bt + bt;
  }

  /** There is one such number, and it is within `c` blocks exactly when the tokens are. */
  lemma SpansBound(n: nat, len: nat, bt: nat, c: nat)
    requires bt > 0 && Spans(n, len, bt)
    ensures n <= c <==> len <= c * bt
  {
    if n <= c {
      MulMonotone(n, c, bt);
    } else {
      MulMonotone(c + 1, n, bt);
      assert (c + 1) * bt == c * bt + bt;
    }
  }

  lemma BlocksForChunks(tokens: seq<TokenId>, bt: nat)
    requires bt > 0
    ensures |Chunks(tokens, bt)| <= BlocksFor(tokens, bt) <= |Chunks(tokens, bt)| + 1
  {
    ChunksAreWholeBlocks(tokens, bt);
    var c := |Chunks(tokens, bt)|;
    DivBounds(|tokens| + bt - 1, bt, c);
  }

  lemma {:induction false} MulMonotone(a: nat, b: nat, d: nat)
    requires a <= b
    ensures a * d <= b * d
  {
    if a < b {
      MulMonotone(a, b - 1, d);
      assert b * d == (b - 1) * d + d;
    }
  }

  lemma DivBounds(x: nat, d: nat, c: nat)
    requires d > 0 && c * d <= x < (c + 2) * d
    ensures c <= x / d <= c + 1
  {
    var q := x / d;
    assert q * d <= x < (q + 1) * d;
    if q < c {
      MulMonotone(q + 1, c, d);
    } else if q > c + 1 {
      MulMonotone(c + 2, q, d);
    }
  }

  // -------------------------------------------------------------- prefix walk

  /** No child under the next chunk's key, or one that starts with another chunk: the next prefix is not stored. */
  lemma MissMeansAbsent(key: Key, ns: Nodes, idx: map<Path, BlockId>, cur: NodeId, p: Path)
    requires Structure(key, ns) && Indexed(ns, idx) && cur in ns
    requires |p| == |ns[cur].path| + 1 && ns[cur].path <= p
    requires var k := key(Last(p));
             k in ns[cur].children ==>
               var c := ns[cur].children[k]; c in ns && ns[c].tokens != [] && ns[c].tokens[0] != Last(p)
    ensures p !in idx
  {
    if p in idx {
      assert EntryHeld(ns, idx, p);
      var n: nat :| HeldBy(ns, p, n);
      NextStep(key, ns, cur, n, p);
    }
  }

  /** The walk leaves a node's run in the middle: the next prefix is not stored. */
  lemma DivergenceMeansAbsent(key: Key, ns: Nodes, idx: map<Path, BlockId>, c: NodeId, p: Path)
    requires Structure(key, ns) && Indexed(ns, idx)
    requires |p| > 1 && Covers(ns, c, |p| - 1) && |p| <= |ns[c].path|
    requires ButLast(p) == ns[c].path[..|p| - 1] && ns[c].path[|p| - 1] != Last(p)
    ensures p !in idx
  {
    if p in idx {
      assert EntryHeld(ns, idx, p);
      var n: nat :| HeldBy(ns, p, n);
      assert ns[n].path[..|p| - 1] == ButLast(p);
      assert ns[n].path[|p| - 1] == Last(p);
      PrefixIsAncestor(key, ns, c, n, |p| - 1);
    }
  }

  /** `b` is what the index has for the first `i + 1` of `chunks`. */
  ghost predicate EntryIs(idx: map<Path, BlockId>, chunks: Path, i: nat, b: BlockId) {
    i < |chunks| && chunks[..i + 1] in idx && idx[chunks[..i + 1]] == b
  }

  /** The blocks of a run of chunks are what the index has for the prefixes they end. */
  lemma RunIsIndexed(key: Key, ns: Nodes, idx: map<Path, BlockId>, c: NodeId, chunks: Path, pos: nat, common: nat)
    requires Structure(key, ns) && Indexed(ns, idx) && c in ns && c != ROOT
    requires Off(ns[c]) == pos && 0 < common <= |ns[c].tokens| && pos + common <= |chunks|
    requires ns[c].path[..pos + common] == chunks[..pos + common]
    ensures |ns[c].blocks| == |ns[c].tokens| && pos + common <= |ns[c].path|
    ensures forall i :: 0 <= i < common ==> EntryIs(idx, chunks, pos + i, ns[c].blocks[i])
  {
    assert NodeOk(key, ns, c);
    forall i | 0 <= i < common ensures EntryIs(idx, chunks, pos + i, ns[c].blocks[i]) {
      SamePrefix(ns[c].path, chunks, pos + common, pos + i + 1);
      assert EntryOk(ns, idx, c, pos + i + 1);
    }
  }

  /** `blocks` are the index's entries for the leading prefixes of `chunks`. */
  ghost predicate Matched(idx: map<Path, BlockId>, chunks: Path, blocks: seq<BlockId>) {
    |blocks| <= |chunks| && forall i :: 0 <= i < |blocks| ==> EntryIs(idx, chunks, i, blocks[i])
  }

  lemma MatchedMore(idx: map<Path, BlockId>, chunks: Path, blocks: seq<BlockId>, more: seq<BlockId>)
    requires Matched(idx, chunks, blocks) && |blocks| + |more| <= |chunks|
    requires forall i :: 0 <= i < |more| ==> EntryIs(idx, chunks, |blocks| + i, more[i])
    ensures Matched(idx, chunks, blocks + more)
  {
    forall i | 0 <= i < |blocks + more| ensures EntryIs(idx, chunks, i, (blocks + more)[i]) {
      if i >= |blocks| {
        assert EntryIs(idx, chunks, |blocks| + (i - |blocks|), more[i - |blocks|]);
      }
    }
  }

  /** Nothing longer than `pos` chunks is stored along `chunks`. */
  ghost predicate Ends(idx: map<Path, BlockId>, chunks: Path, pos: nat) {
    pos <= |chunks| && (pos < |chunks| ==> chunks[..pos + 1] !in idx)
  }

  /** A walk that matches and ends has found the longest stored prefix, for every key function. */
  lemma LongestMatch(key: Key, ns: Nodes, idx: map<Path, BlockId>, chunks: Path, blocks: seq<BlockId>, k: nat)
    requires Structure(key, ns) && Indexed(ns, idx)
    requires Matched(idx, chunks, blocks) && Ends(idx, chunks, |blocks|)
    requires 0 < k <= |chunks|
    ensures chunks[..k] in idx <==> k <= |blocks|
  {
    if k <= |blocks| {
      assert EntryIs(idx, chunks, k - 1, blocks[k - 1]);
    } else if chunks[..k] in idx {
      assert chunks[..k][..|blocks| + 1] == chunks[..|blocks| + 1];
      PrefixClosed(key, ns, idx, chunks[..k], |blocks| + 1);
    }
  }

  // --------------------------------------------------------------- stack walk

  /** A node is seen or waiting exactly when its parent has been seen. */
  ghost predicate ReachedAt(ns: Nodes, stack: seq<NodeId>, seen: set<NodeId>, n: NodeId) {
    n in ns && n != ROOT ==> ((n in seen || n in stack) <==> ns[n].parent in seen)
  }

  ghost predicate Reached(ns: Nodes, stack: seq<NodeId>, seen: set<NodeId>) {
    && NoDup(stack)
    && (forall x :: x in stack ==> x in ns && x !in seen)
    && seen <= ns.Keys
    && (ROOT in seen || ROOT in stack)
    && (forall n: nat :: ReachedAt(ns, stack, seen, n))
  }

  ghost predicate AreChildren(ns: Nodes, n: NodeId, cs: seq<NodeId>)
    requires n in ns
  {
    && NoDup(cs)
    && (forall c: nat :: c in cs <==> exists k: nat :: k in ns[n].children && ns[n].children[k] == c)
  }

  lemma ChildrenAre(key: Key, ns: Nodes, n: NodeId, cs: seq<NodeId>, c: NodeId)
    requires Structure(key, ns) && n in ns && AreChildren(ns, n, cs)
    ensures c in cs <==> c in ns && c != ROOT && ns[c].parent == n
  {
    if c in cs {
      var k: nat :| k in ns[n].children && ns[n].children[k] == c;
      assert ChildOk(key, ns, n, k);
    }
    if c in ns && c != ROOT && ns[c].parent == n {
      assert NodeOk(key, ns, c);
    }
  }

  /** Popping a node and pushing its children, in any order, goes on reaching everything once. */
  lemma ReachStep(key: Key, ns: Nodes, stack: seq<NodeId>, seen: set<NodeId>, cs: seq<NodeId>)
    requires Structure(key, ns) && Reached(ns, stack, seen) && stack != []
    requires Last(stack) in ns && AreChildren(ns, Last(stack), cs)
    ensures Reached(ns, ButLast(stack) + cs, seen + {Last(stack)})
  {
    var x := Last(stack);
    var stack', seen' := ButLast(stack) + cs, seen + {x};
    NoDupPop(stack);
    forall c | c in cs ensures c in ns && c !in seen && c !in stack && c != x {
      ChildrenAre(key, ns, x, cs, c);
      assert ReachedAt(ns, stack, seen, c);
      PathGrows(key, ns, c);
    }
    forall y ensures y in stack' <==> (y in stack && y != x) || y in cs {
    }
    forall n: nat ensures ReachedAt(ns, stack', seen', n) {
      assert ReachedAt(ns, stack, seen, n);
      ChildrenAre(key, ns, x, cs, n);
    }
    NoDupConcat(ButLast(stack), cs);
  }

  /** When the stack is empty every node has been seen. */
  lemma {:induction false} AllReached(key: Key, ns: Nodes, seen: set<NodeId>, n: NodeId)
    requires Structure(key, ns) && Reached(ns, [], seen) && n in ns
    ensures n in seen
    decreases |ns[n].path|
  {
    if n != ROOT {
      PathGrows(key, ns, n);
      AllReached(key, ns, seen, ns[n].parent);
      assert ReachedAt(ns, [], seen, n);
    }
  }

  // ---------------------------------------------------------------------- LRU

  /** An unpinned leaf that the caller has not rejected. */
  predicate Eligible(ns: Nodes, rejected: set<NodeId>, n: NodeId) {
    n in ns && n != ROOT && ns[n].children == map[] && ns[n].lockCount == 0 && n !in rejected
  }

  /** `best` is the least recently used eligible leaf, or there is none. */
  ghost predicate IsLru(ns: Nodes, rejected: set<NodeId>, best: Option<NodeId>) {
    match best
    case None => forall n: nat :: !Eligible(ns, rejected, n)
    case Some(b) =>
      Eligible(ns, rejected, b) && forall n: nat :: Eligible(ns, rejected, n) ==> ns[b].lastAccess <= ns[n].lastAccess
  }

  /** `best` is the least recently used of the eligible leaves seen so far. */
  ghost predicate BestSeen(ns: Nodes, rejected: set<NodeId>, seen: set<NodeId>, best: Option<NodeId>) {
    match best
    case None => forall n: nat :: n in seen ==> !Eligible(ns, rejected, n)
    case Some(b) =>
      && b in seen && Eligible(ns, rejected, b)
      && forall n: nat :: n in seen && Eligible(ns, rejected, n) ==> ns[b].lastAccess <= ns[n].lastAccess
  }

  lemma BestOfAll(key: Key, ns: Nodes, rejected: set<NodeId>, seen: set<NodeId>, best: Option<NodeId>)
    requires Structure(key, ns) && Reached(ns, [], seen) && BestSeen(ns, rejected, seen, best)
    ensures IsLru(ns, rejected, best)
  {
    forall n: nat | Eligible(ns, rejected, n) ensures n in seen {
      AllReached(key, ns, seen, n);
    }
  }

  /** There is one such leaf, so the order in which children are visited does not matter. */
  lemma LruIsUnique(ns: Nodes, clock: nat, rejected: set<NodeId>, a: Option<NodeId>, b: Option<NodeId>)
    requires Stamped(ns, clock) && IsLru(ns, rejected, a) && IsLru(ns, rejected, b)
    ensures a == b
  {
    if a.Some? && b.Some? {
      assert StampsApart(ns, a.value, b.value);
    }
  }

  /** Below any unpinned node there is an unpinned leaf. */
  lemma {:induction false} UnpinnedLeafBelow(t: Tree, n: NodeId) returns (leaf: NodeId)
    requires Inv(t) && n in t.nodes && n != ROOT && t.nodes[n].lockCount == 0
    ensures Eligible(t.nodes, {}, leaf)
    decreases Deepest(t.nodes) - |t.nodes[n].path|
  {
    if t.nodes[n].children == map[] {
      leaf := n;
    } else {
      var k :| k in t.nodes[n].children;
      var c := t.nodes[n].children[k];
      assert ChildOk(t.key, t.nodes, n, k);
      LocksClimb(t, c);
      PathGrows(t.key, t.nodes, c);
      DeepestBounds(t.nodes, c);
      leaf := UnpinnedLeafBelow(t, c);
    }
  }

  /** A bound on the length of every path. */
  ghost function Deepest(ns: Nodes): (d: nat)
    ensures forall n :: n in ns ==> |ns[n].path| <= d
    decreases |ns|
  {
    if ns == map[] then 0
    else
      var n :| n in ns;
      assert forall m :: m in ns && m != n ==> m in ns - {n} && (ns - {n})[m] == ns[m];
      var rest := Deepest(ns - {n});
      if |ns[n].path| > rest then |ns[n].path| else rest
  }

  lemma DeepestBounds(ns: Nodes, n: NodeId)
    requires n in ns
    ensures |ns[n].path| <= Deepest(ns)
  {
  }
}
