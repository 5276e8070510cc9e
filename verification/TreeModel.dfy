/**
 The prefix tree as an arena of node records keyed by a stable node id, so that a pin
 held across a split keeps naming the same node.

 A node's tokens are a sequence of whole chunks (one chunk is one block's worth of
 tokens). `path` is an auxiliary field: the chunks spelled from the root to the end of
 the node. It is read only to extend it, and no step changes the path of an existing node.

 `key` stands for block_key() and is an arbitrary function throughout: any two chunks may collide.
 */
module TreeModel {
  import opened Types

  type NodeId = nat
  type Key = Chunk -> nat
  type Path = seq<Chunk>

  datatype Node = Node(
    tokens: seq<Chunk>,
    blocks: seq<BlockId>,
    children: map<nat, NodeId>,
    parent: NodeId,
    lockCount: nat,
    lastAccess: nat,
    path: Path)

  type Nodes = map<NodeId, Node>

  const ROOT: NodeId := 0

  // ---------------------------------------------------------------- structure

  ghost predicate RootOk(ns: Nodes) {
    && ROOT in ns
    && ns[ROOT].tokens == [] && ns[ROOT].blocks == [] && ns[ROOT].path == [] && ns[ROOT].lockCount == 0
  }

  /** A node continues its parent's path and hangs off the parent under its first chunk's key. */
  ghost predicate NodeOk(key: Key, ns: Nodes, n: NodeId) {
    n in ns && n != ROOT ==>
      && ns[n].parent in ns
      && ns[n].tokens != []
      && |ns[n].blocks| == |ns[n].tokens|
      && ns[n].path == ns[ns[n].parent].path + ns[n].tokens
      && key(ns[n].tokens[0]) in ns[ns[n].parent].children
      && ns[ns[n].parent].children[key(ns[n].tokens[0])] == n
  }

  ghost predicate ChildOk(key: Key, ns: Nodes, n: NodeId, k: nat) {
    n in ns && k in ns[n].children ==>
      var c := ns[n].children[k];
      && c in ns && c != ROOT && ns[c].parent == n
      && ns[c].tokens != [] && key(ns[c].tokens[0]) == k
  }

  ghost predicate Structure(key: Key, ns: Nodes) {
    && RootOk(ns)
    && (forall n: nat :: NodeOk(key, ns, n))
    && (forall n: nat, k: nat :: ChildOk(key, ns, n, k))
  }

  /** Chunks of a node's path that belong to its ancestors. */
  function Off(nd: Node): int {
    |nd.path| - |nd.tokens|
  }

  /** The entry for the first `k` chunks of n's path is stored in `n` itself. */
  ghost predicate Covers(ns: Nodes, n: NodeId, k: nat) {
    n in ns && n != ROOT && Off(ns[n]) < k <= |ns[n].path|
  }

  lemma PathGrows(key: Key, ns: Nodes, n: NodeId)
    requires Structure(key, ns) && n in ns && n != ROOT
    ensures ns[n].parent in ns && ns[n].parent != n
    ensures 0 <= Off(ns[n]) == |ns[ns[n].parent].path| < |ns[n].path|
    ensures ns[ns[n].parent].path <= ns[n].path
    ensures ns[n].parent == ROOT <==> Off(ns[n]) == 0
  {
    assert NodeOk(key, ns, n) && NodeOk(key, ns, ns[n].parent);
  }

  lemma ParentCovers(key: Key, ns: Nodes, n: NodeId)
    requires Structure(key, ns) && n in ns && n != ROOT && Off(ns[n]) > 0
    ensures ns[n].parent in ns && Covers(ns, ns[n].parent, Off(ns[n]))
    ensures ns[ns[n].parent].path[..Off(ns[n])] == ns[n].path[..Off(ns[n])]
  {
    PathGrows(key, ns, n);
    PathGrows(key, ns, ns[n].parent);
  }

  /** The ancestor-or-self of `n` that stores the entry for the first `k` chunks of its path. */
  ghost function AncestorAt(key: Key, ns: Nodes, n: NodeId, k: nat): (m: NodeId)
    requires Structure(key, ns) && n in ns && 0 < k <= |ns[n].path|
    ensures Covers(ns, m, k) && ns[m].path <= ns[n].path
    decreases |ns[n].path|
  {
    PathGrows(key, ns, n);
    if Off(ns[n]) < k then n else AncestorAt(key, ns, ns[n].parent, k)
  }

  /** One child per key makes the tree a trie: a prefix is stored in one place only. */
  lemma {:induction false} Unique(key: Key, ns: Nodes, n: NodeId, m: NodeId, k: nat)
    requires Structure(key, ns) && Covers(ns, n, k) && Covers(ns, m, k)
    requires ns[n].path[..k] == ns[m].path[..k]
    ensures n == m
    decreases k
  {
    PathGrows(key, ns, n);
    PathGrows(key, ns, m);
    var o, q := Off(ns[n]), Off(ns[m]);
    if o < q {
      SamePrefix(ns[n].path, ns[m].path, k, q);
      ParentCovers(key, ns, m);
      Unique(key, ns, n, ns[m].parent, q);
    } else if q < o {
      SamePrefix(ns[m].path, ns[n].path, k, o);
      ParentCovers(key, ns, n);
      Unique(key, ns, m, ns[n].parent, o);
    } else {
      if o > 0 {
        SamePrefix(ns[n].path, ns[m].path, k, o);
        ParentCovers(key, ns, n);
        ParentCovers(key, ns, m);
        Unique(key, ns, ns[n].parent, ns[m].parent, o);
      }
      Siblings(key, ns, n, m, k);
    }
  }

  lemma SamePrefix(a: Path, b: Path, k: nat, j: nat)
    requires j <= k <= |a| && k <= |b| && a[..k] == b[..k]
    ensures a[..j] == b[..j]
  {
    assert a[..j] == a[..k][..j];
    assert b[..j] == b[..k][..j];
  }

  lemma Siblings(key: Key, ns: Nodes, n: NodeId, m: NodeId, k: nat)
    requires Structure(key, ns) && Covers(ns, n, k) && Covers(ns, m, k)
    requires ns[n].path[..k] == ns[m].path[..k] && ns[n].parent == ns[m].parent
    ensures n == m
  {
    assert NodeOk(key, ns, n) && NodeOk(key, ns, m);
    var o := Off(ns[n]);
    assert ns[n].tokens[0] == ns[n].path[..k][o];
    assert ns[m].tokens[0] == ns[m].path[..k][o];
  }

  /** Being an ancestor-or-self is the same as having a prefix of the path. */
  lemma PrefixIsAncestor(key: Key, ns: Nodes, n: NodeId, q: NodeId, k: nat)
    requires Structure(key, ns) && Covers(ns, n, k) && q in ns
    requires k <= |ns[q].path| && ns[n].path[..k] == ns[q].path[..k]
    ensures ns[n].path <= ns[q].path
  {
    PathGrows(key, ns, n);
    var m := AncestorAt(key, ns, q, k);
    assert ns[m].path[..k] == ns[q].path[..k];
    Unique(key, ns, n, m, k);
  }

  /** Every node of `ns` is a node of `ns'` and ends there where it ends in `ns`. */
  ghost predicate SamePaths(ns: Nodes, ns': Nodes) {
    forall n :: n in ns ==> n in ns' && ns'[n].path == ns[n].path
  }

  lemma SamePathsTwice(a: Nodes, b: Nodes, c: Nodes)
    requires SamePaths(a, b) && SamePaths(b, c)
    ensures SamePaths(a, c)
  {
  }

  // -------------------------------------------------------------------- index

  /** `idx` holds the entry node `n` stores for the first `k` chunks of its path. */
  ghost predicate EntryOk(ns: Nodes, idx: map<Path, BlockId>, n: NodeId, k: nat) {
    Covers(ns, n, k) && |ns[n].blocks| == |ns[n].tokens| <= |ns[n].path| ==>
      && ns[n].path[..k] in idx
      && idx[ns[n].path[..k]] == ns[n].blocks[k - 1 - Off(ns[n])]
  }

  /** Some node stores the entry for `p`. */
  ghost predicate Held(ns: Nodes, p: Path) {
    exists n: nat :: HeldBy(ns, p, n)
  }

  ghost predicate HeldBy(ns: Nodes, p: Path, n: NodeId) {
    Covers(ns, n, |p|) && p <= ns[n].path
  }

  ghost predicate EntryHeld(ns: Nodes, idx: map<Path, BlockId>, p: Path) {
    p in idx ==> Held(ns, p)
  }

  /** `idx` is what the tree abstractly is: the map from stored prefixes to their blocks. */
  ghost predicate Indexed(ns: Nodes, idx: map<Path, BlockId>) {
    && (forall n: nat, k: nat :: EntryOk(ns, idx, n, k))
    && (forall p :: EntryHeld(ns, idx, p))
  }

  /** A path is in the index exactly when it is a non-empty prefix of some node's path; so the index is prefix-closed. */
  lemma PrefixStored(key: Key, ns: Nodes, idx: map<Path, BlockId>, n: NodeId, k: nat)
    requires Structure(key, ns) && Indexed(ns, idx) && n in ns && 0 < k <= |ns[n].path|
    ensures ns[n].path[..k] in idx
  {
    var m := AncestorAt(key, ns, n, k);
    assert NodeOk(key, ns, m) && EntryOk(ns, idx, m, k);
    assert ns[m].path[..k] == ns[n].path[..k];
  }

  lemma PrefixClosed(key: Key, ns: Nodes, idx: map<Path, BlockId>, p: Path, k: nat)
    requires Structure(key, ns) && Indexed(ns, idx) && p in idx && 0 < k <= |p|
    ensures p[..k] in idx
  {
    assert EntryHeld(ns, idx, p);
    var n: nat :| HeldBy(ns, p, n);
    PathGrows(key, ns, n);
    PrefixStored(key, ns, idx, n, k);
    assert p[..k] == ns[n].path[..k];
  }

  // --------------------------------------------------------------------- pins

  /** The pins whose path passes through `n`. */
  ghost function Through(ns: Nodes, pins: map<nat, NodeId>, n: NodeId): set<nat>
    requires n in ns
  {
    set h | h in pins && pins[h] in ns && ns[n].path <= ns[pins[h]].path
  }

  ghost predicate LockOk(ns: Nodes, pins: map<nat, NodeId>, n: NodeId) {
    n in ns && n != ROOT ==> ns[n].lockCount == |Through(ns, pins, n)|
  }

  ghost predicate PinOk(ns: Nodes, pins: map<nat, NodeId>, h: nat) {
    h in pins ==> pins[h] in ns && pins[h] != ROOT
  }

  /** Every lock count is the number of live pins at or below the node. */
  ghost predicate Pinned(ns: Nodes, pins: map<nat, NodeId>) {
    && (forall n: nat :: LockOk(ns, pins, n))
    && (forall h: nat :: PinOk(ns, pins, h))
  }

  // ------------------------------------------------------------------- stamps

  ghost predicate StampOk(ns: Nodes, clock: nat, n: NodeId) {
    n in ns ==> ns[n].lastAccess <= clock
  }

  ghost predicate StampsApart(ns: Nodes, n: NodeId, m: NodeId) {
    n in ns && m in ns && n != m && n != ROOT && m != ROOT ==> ns[n].lastAccess != ns[m].lastAccess
  }

  /** No two nodes were touched at the same time: least recently used is well defined. */
  ghost predicate Stamped(ns: Nodes, clock: nat) {
    && (forall n: nat :: StampOk(ns, clock, n))
    && (forall n: nat, m: nat :: StampsApart(ns, n, m))
  }

  // -------------------------------------------------------------------- state

  datatype Tree = Tree(
    key: Key,
    nodes: Nodes,
    next: NodeId,                     // node ids from here on are unused
    clock: nat,
    stored: nat,
    numNodes: nat,
    index: map<Path, BlockId>,
    pins: map<nat, NodeId>)

  ghost predicate IdUsed(ns: Nodes, next: NodeId, n: NodeId) {
    n in ns ==> n < next
  }

  ghost predicate Inv(t: Tree) {
    && Structure(t.key, t.nodes)
    && Indexed(t.nodes, t.index)
    && Pinned(t.nodes, t.pins)
    && Stamped(t.nodes, t.clock)
    && (forall n: nat :: IdUsed(t.nodes, t.next, n))
    && t.stored == |t.index| && t.numNodes + 1 == |t.nodes|
  }
}
