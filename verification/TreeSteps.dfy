/** The tree's atomic updates, and what each keeps. */
module TreeSteps {
  import opened Types
  import opened TreeModel

  // ------------------------------------------- updates that keep the tree's shape

  /** The same node but for its recency and its pins. */
  ghost predicate SameNode(a: Node, b: Node) {
    a == b.(lockCount := a.lockCount, lastAccess := a.lastAccess)
  }

  ghost predicate SameAt(ns: Nodes, ns': Nodes, n: NodeId) {
    (n in ns <==> n in ns') && (n in ns ==> SameNode(ns[n], ns'[n]))
  }

  ghost predicate SameShape(ns: Nodes, ns': Nodes) {
    (forall n: nat :: SameAt(ns, ns', n)) && (ROOT in ns' ==> ns'[ROOT].lockCount == 0)
  }

  lemma ShapeKeeps(key: Key, ns: Nodes, ns': Nodes, idx: map<Path, BlockId>)
    requires Structure(key, ns) && Indexed(ns, idx) && SameShape(ns, ns')
    ensures Structure(key, ns') && Indexed(ns', idx)
  {
    assert SameAt(ns, ns', ROOT);
    forall n: nat ensures NodeOk(key, ns', n) {
      assert NodeOk(key, ns, n) && SameAt(ns, ns', n);
      if n in ns {
        assert SameAt(ns, ns', ns[n].parent);
      }
    }
    forall n: nat, k: nat ensures ChildOk(key, ns', n, k) {
      assert ChildOk(key, ns, n, k) && SameAt(ns, ns', n);
      if n in ns && k in ns[n].children {
        assert SameAt(ns, ns', ns[n].children[k]);
      }
    }
    forall n: nat, k: nat ensures EntryOk(ns', idx, n, k) {
      assert EntryOk(ns, idx, n, k) && SameAt(ns, ns', n);
    }
    forall p ensures EntryHeld(ns', idx, p) {
      assert EntryHeld(ns, idx, p);
      if n: nat :| HeldBy(ns, p, n) {
        assert SameAt(ns, ns', n) && HeldBy(ns', p, n);
      }
    }
  }

  lemma SameKeys(ns: Nodes, ns': Nodes)
    requires SameShape(ns, ns')
    ensures ns.Keys == ns'.Keys
  {
    forall n: nat ensures n in ns <==> n in ns' {
      assert SameAt(ns, ns', n);
    }
  }

  // -------------------------------------------------------------------- touch

  function Touch(ns: Nodes, n: NodeId, stamp: nat): Nodes
    requires n in ns
  {
    ns[n := ns[n].(lastAccess := stamp)]
  }

  ghost function Touched(t: Tree, n: NodeId): Tree
    requires n in t.nodes
  {
    t.(nodes := Touch(t.nodes, n, t.clock + 1), clock := t.clock + 1)
  }

  lemma TouchInv(t: Tree, n: NodeId)
    requires Inv(t) && n in t.nodes
    ensures Inv(Touched(t, n))
  {
    var ns, ns' := t.nodes, Touched(t, n).nodes;
    forall m: nat ensures SameAt(ns, ns', m) && IdUsed(ns', t.next, m) {
      assert IdUsed(ns, t.next, m);
    }
    ShapeKeeps(t.key, ns, ns', t.index);
    assert ns'.Keys == ns.Keys;
    forall m: nat ensures LockOk(ns', t.pins, m) && PinOk(ns', t.pins, m) {
      assert LockOk(ns, t.pins, m) && PinOk(ns, t.pins, m);
      if m in ns {
        assert Through(ns', t.pins, m) == Through(ns, t.pins, m);
      }
    }
    Restamp(ns, t.clock, n);
  }

  lemma Restamp(ns: Nodes, clock: nat, n: NodeId)
    requires Stamped(ns, clock) && n in ns
    ensures Stamped(Touch(ns, n, clock + 1), clock + 1)
  {
    var c := clock + 1;
    var ns' := Touch(ns, n, c);
    forall m: nat ensures StampOk(ns', c, m) {
      assert StampOk(ns, clock, m);
    }
    forall m: nat, q: nat ensures StampsApart(ns', m, q) {
      assert StampsApart(ns, m, q) && StampOk(ns, clock, m) && StampOk(ns, clock, q);
    }
  }

  // -------------------------------------------------------------------- split

  ghost predicate CanSplit(key: Key, ns: Nodes, n: NodeId, k: nat, h: NodeId) {
    Structure(key, ns) && n in ns && n != ROOT && 0 < k < |ns[n].tokens| && h !in ns
  }

  /** The new parent `h`, covering the first `k` chunks of `n`. */
  function Head(key: Key, nd: Node, n: NodeId, k: nat, stamp: nat): Node
    requires 0 < k < |nd.tokens| == |nd.blocks| <= |nd.path|
  {
    Node(nd.tokens[..k], nd.blocks[..k], map[key(nd.tokens[k]) := n], nd.parent, nd.lockCount, stamp,
         nd.path[..Off(nd) + k])
  }

  function Tail(nd: Node, k: nat, h: NodeId): Node
    requires 0 < k < |nd.tokens| == |nd.blocks|
  {
    nd.(tokens := nd.tokens[k..], blocks := nd.blocks[k..], parent := h)
  }

  /** split_node(): interpose a new parent `h` above `n`; `n` itself keeps the tail and its path. */
  ghost function Split(key: Key, ns: Nodes, n: NodeId, k: nat, h: NodeId, stamp: nat): Nodes
    requires CanSplit(key, ns, n, k, h)
  {
    assert NodeOk(key, ns, n);
    var nd := ns[n];
    var p := nd.parent;
    ns[p := ns[p].(children := ns[p].children[key(nd.tokens[0]) := h])]
      [n := Tail(nd, k, h)]
      [h := Head(key, nd, n, k, stamp)]
  }

  /** What a split changes, and that it changes nothing else. */
  lemma SplitShape(key: Key, ns: Nodes, n: NodeId, k: nat, h: NodeId, stamp: nat)
    requires CanSplit(key, ns, n, k, h)
    ensures var ns', nd := Split(key, ns, n, k, h, stamp), ns[n];
            && nd.parent in ns && nd.parent != n && nd.parent != h && n != h
            && |nd.blocks| == |nd.tokens| <= |nd.path|
            && ns'.Keys == ns.Keys + {h}
            && ns'[n] == Tail(nd, k, h)
            && ns'[h] == Head(key, nd, n, k, stamp)
            && ns'[nd.parent] == ns[nd.parent].(children := ns[nd.parent].children[key(nd.tokens[0]) := h])
            && forall m :: m in ns && m != n && m != nd.parent ==> ns'[m] == ns[m]
    ensures forall m :: m in ns ==> Split(key, ns, n, k, h, stamp)[m].path == ns[m].path
  {
    PathGrows(key, ns, n);
    assert NodeOk(key, ns, n);
  }

  lemma SplitNodes(key: Key, ns: Nodes, n: NodeId, k: nat, h: NodeId, stamp: nat, m: NodeId)
    requires CanSplit(key, ns, n, k, h)
    ensures NodeOk(key, Split(key, ns, n, k, h, stamp), m)
  {
    SplitShape(key, ns, n, k, h, stamp);
    var ns', nd := Split(key, ns, n, k, h, stamp), ns[n];
    assert NodeOk(key, ns, n) && NodeOk(key, ns, m);
    if m == n {
      assert nd.path == nd.path[..Off(nd) + k] + nd.tokens[k..];
    } else if m == h {
      assert nd.path[..Off(nd) + k] == ns[nd.parent].path + nd.tokens[..k];
    } else if m in ns && m != ROOT {
      PathGrows(key, ns, m);
      PathGrows(key, ns, n);
    }
  }

  lemma SplitChildren(key: Key, ns: Nodes, n: NodeId, k: nat, h: NodeId, stamp: nat, m: NodeId, x: nat)
    requires CanSplit(key, ns, n, k, h)
    ensures ChildOk(key, Split(key, ns, n, k, h, stamp), m, x)
  {
    SplitShape(key, ns, n, k, h, stamp);
    assert NodeOk(key, ns, n) && ChildOk(key, ns, m, x);
    if m in ns && x in ns[m].children {
      assert NodeOk(key, ns, ns[m].children[x]);
    }
  }

  lemma SplitStructure(key: Key, ns: Nodes, n: NodeId, k: nat, h: NodeId, stamp: nat)
    requires CanSplit(key, ns, n, k, h)
    ensures Structure(key, Split(key, ns, n, k, h, stamp))
  {
    SplitShape(key, ns, n, k, h, stamp);
    var ns' := Split(key, ns, n, k, h, stamp);
    forall m: nat ensures NodeOk(key, ns', m) {
      SplitNodes(key, ns, n, k, h, stamp, m);
    }
    forall m: nat, x: nat ensures ChildOk(key, ns', m, x) {
      SplitChildren(key, ns, n, k, h, stamp, m, x);
    }
  }

  /** A split moves entries between nodes and leaves the abstract map as it was. */
  lemma SplitIndex(key: Key, ns: Nodes, n: NodeId, k: nat, h: NodeId, stamp: nat, idx: map<Path, BlockId>)
    requires CanSplit(key, ns, n, k, h) && Indexed(ns, idx)
    ensures Indexed(Split(key, ns, n, k, h, stamp), idx)
  {
    SplitShape(key, ns, n, k, h, stamp);
    var ns', nd := Split(key, ns, n, k, h, stamp), ns[n];
    forall m: nat, j: nat ensures EntryOk(ns', idx, m, j) {
      assert EntryOk(ns, idx, m, j) && EntryOk(ns, idx, n, j);
      if m == h && Covers(ns', h, j) {
        assert ns'[h].path[..j] == nd.path[..j];
      }
    }
    forall p ensures EntryHeld(ns', idx, p) {
      assert EntryHeld(ns, idx, p);
      if m: nat :| HeldBy(ns, p, m) {
        if m == n && |p| <= Off(nd) + k {
          assert HeldBy(ns', p, h);
        } else {
          assert HeldBy(ns', p, m);
        }
      }
    }
  }

  /** Every pin that passes through the new parent already passed through the split node. */
  lemma SplitPins(key: Key, ns: Nodes, n: NodeId, k: nat, h: NodeId, stamp: nat, pins: map<nat, NodeId>)
    requires CanSplit(key, ns, n, k, h) && Pinned(ns, pins)
    ensures Pinned(Split(key, ns, n, k, h, stamp), pins)
  {
    SplitShape(key, ns, n, k, h, stamp);
    var ns', nd := Split(key, ns, n, k, h, stamp), ns[n];
    forall x: nat ensures PinOk(ns', pins, x) {
      assert PinOk(ns, pins, x);
    }
    forall m: nat ensures LockOk(ns', pins, m) {
      assert LockOk(ns, pins, m);
      if m in ns {
        assert Through(ns', pins, m) == Through(ns, pins, m) by {
          forall x | x in pins ensures pins[x] in ns { assert PinOk(ns, pins, x); }
        }
      } else if m == h {
        assert LockOk(ns, pins, n);
        SplitThrough(key, ns, n, k, h, stamp, pins);
      }
    }
  }

  lemma SplitThrough(key: Key, ns: Nodes, n: NodeId, k: nat, h: NodeId, stamp: nat, pins: map<nat, NodeId>)
    requires CanSplit(key, ns, n, k, h) && Pinned(ns, pins) && h in Split(key, ns, n, k, h, stamp)
    ensures Through(Split(key, ns, n, k, h, stamp), pins, h) == Through(ns, pins, n)
  {
    SplitShape(key, ns, n, k, h, stamp);
    PathGrows(key, ns, n);
    var nd := ns[n];
    var head := nd.path[..Off(nd) + k];
    forall x: nat | x in pins
      ensures pins[x] in ns && (head <= ns[pins[x]].path <==> nd.path <= ns[pins[x]].path)
    {
      assert PinOk(ns, pins, x);
      if head <= ns[pins[x]].path {
        assert ns[pins[x]].path[..|head|] == head;
        PrefixIsAncestor(key, ns, n, pins[x], |head|);
      }
    }
  }

  lemma SplitStamps(key: Key, ns: Nodes, n: NodeId, k: nat, h: NodeId, clock: nat)
    requires CanSplit(key, ns, n, k, h) && Stamped(ns, clock)
    ensures Stamped(Split(key, ns, n, k, h, clock + 1), clock + 1)
  {
    SplitShape(key, ns, n, k, h, clock + 1);
    var c := clock + 1;
    var ns' := Split(key, ns, n, k, h, c);
    forall m: nat ensures StampOk(ns', c, m) {
      assert StampOk(ns, clock, m);
    }
    forall m: nat, q: nat ensures StampsApart(ns', m, q) {
      assert StampsApart(ns, m, q) && StampOk(ns, clock, m) && StampOk(ns, clock, q);
    }
  }

  /** Split `n` after its first `k` chunks and touch the new parent. */
  ghost function SplitTouched(t: Tree, n: NodeId, k: nat): Tree
    requires CanSplit(t.key, t.nodes, n, k, t.next)
  {
    t.(nodes := Split(t.key, t.nodes, n, k, t.next, t.clock + 1),
       next := t.next + 1, clock := t.clock + 1, numNodes := t.numNodes + 1)
  }

  lemma SplitIds(key: Key, ns: Nodes, n: NodeId, k: nat, h: NodeId, stamp: nat, next: NodeId)
    requires CanSplit(key, ns, n, k, h) && next == h + 1 && forall m: nat :: IdUsed(ns, h, m)
    ensures var ns' := Split(key, ns, n, k, h, stamp);
            (forall m: nat :: IdUsed(ns', next, m)) && |ns'| == |ns| + 1
  {
    var ns' := Split(key, ns, n, k, h, stamp);
    SplitShape(key, ns, n, k, h, stamp);
    forall m: nat ensures IdUsed(ns', next, m) {
      assert IdUsed(ns, h, m);
    }
    assert |ns'.Keys| == |ns.Keys| + 1;
  }

  lemma SplitInv(t: Tree, n: NodeId, k: nat)
    requires Inv(t) && n in t.nodes && n != ROOT && 0 < k < |t.nodes[n].tokens|
    ensures CanSplit(t.key, t.nodes, n, k, t.next)
    ensures Inv(SplitTouched(t, n, k))
  {
    assert IdUsed(t.nodes, t.next, t.next);
    var c := t.clock + 1;
    SplitIds(t.key, t.nodes, n, k, t.next, c, t.next + 1);
    SplitStructure(t.key, t.nodes, n, k, t.next, c);
    SplitIndex(t.key, t.nodes, n, k, t.next, c, t.index);
    SplitPins(t.key, t.nodes, n, k, t.next, c, t.pins);
    SplitStamps(t.key, t.nodes, n, k, t.next, t.clock);
  }

  /** Setting the new parent's recency twice is setting it once. */
  lemma SplitStampTwice(key: Key, ns: Nodes, n: NodeId, k: nat, h: NodeId, a: nat, b: nat)
    requires CanSplit(key, ns, n, k, h)
    ensures h in Split(key, ns, n, k, h, a)
    ensures Touch(Split(key, ns, n, k, h, a), h, b) == Split(key, ns, n, k, h, b)
  {
    SplitShape(key, ns, n, k, h, a);
    SplitShape(key, ns, n, k, h, b);
  }

  lemma SplitPaths(t: Tree, n: NodeId, k: nat)
    requires CanSplit(t.key, t.nodes, n, k, t.next)
    ensures var ns' := SplitTouched(t, n, k).nodes;
            && (forall m :: m in t.nodes ==> m in ns' && ns'[m].path == t.nodes[m].path)
            && 0 <= Off(t.nodes[n]) && Off(t.nodes[n]) + k <= |t.nodes[n].path|
            && t.next in ns' && ns'[t.next].path == t.nodes[n].path[..Off(t.nodes[n]) + k]
  {
    SplitShape(t.key, t.nodes, n, k, t.next, t.clock + 1);
  }

  // --------------------------------------------------------------------- leaf

  ghost predicate CanAddLeaf(key: Key, ns: Nodes, cur: NodeId, toks: seq<Chunk>, blks: seq<BlockId>, h: NodeId) {
    && Structure(key, ns) && cur in ns && h !in ns
    && |toks| == |blks| > 0
    && key(toks[0]) !in ns[cur].children
  }

  ghost function AddLeaf(key: Key, ns: Nodes, cur: NodeId, toks: seq<Chunk>, blks: seq<BlockId>,
                         h: NodeId, stamp: nat): Nodes
    requires CanAddLeaf(key, ns, cur, toks, blks, h)
  {
    ns[cur := ns[cur].(children := ns[cur].children[key(toks[0]) := h])]
      [h := Node(toks, blks, map[], cur, 0, stamp, ns[cur].path + toks)]
  }

  lemma AddLeafStructure(key: Key, ns: Nodes, cur: NodeId, toks: seq<Chunk>, blks: seq<BlockId>, h: NodeId, stamp: nat)
    requires CanAddLeaf(key, ns, cur, toks, blks, h)
    ensures Structure(key, AddLeaf(key, ns, cur, toks, blks, h, stamp))
  {
    var ns' := AddLeaf(key, ns, cur, toks, blks, h, stamp);
    forall m: nat ensures NodeOk(key, ns', m) {
      assert NodeOk(key, ns, m);
    }
    forall m: nat, x: nat ensures ChildOk(key, ns', m, x) {
      assert ChildOk(key, ns, m, x);
    }
  }

  /** The entries for the prefixes of `full` longer than `o`, one per block. */
  ghost function Entries(full: Path, o: nat, blks: seq<BlockId>): map<Path, BlockId>
    requires o + |blks| <= |full|
  {
    if blks == [] then map[]
    else Entries(full, o, ButLast(blks))[full[..o + |blks|] := Last(blks)]
  }

  lemma {:induction false} EntriesHave(full: Path, o: nat, blks: seq<BlockId>, j: nat)
    requires o < j <= o + |blks| <= |full|
    ensures full[..j] in Entries(full, o, blks) && Entries(full, o, blks)[full[..j]] == blks[j - o - 1]
  {
    if j < o + |blks| {
      EntriesHave(full, o, ButLast(blks), j);
      assert |full[..j]| != |full[..o + |blks|]|;
    }
  }

  lemma {:induction false} EntriesOnly(full: Path, o: nat, blks: seq<BlockId>, p: Path)
    requires o + |blks| <= |full| && p in Entries(full, o, blks)
    ensures o < |p| <= o + |blks| && p == full[..|p|]
  {
    if blks != [] && p != full[..o + |blks|] {
      EntriesOnly(full, o, ButLast(blks), p);
    }
  }

  lemma {:induction false} EntriesCount(full: Path, o: nat, blks: seq<BlockId>)
    requires o + |blks| <= |full|
    ensures |Entries(full, o, blks)| == |blks|
  {
    if blks != [] {
      var rest, p := Entries(full, o, ButLast(blks)), full[..o + |blks|];
      EntriesCount(full, o, ButLast(blks));
      if p in rest {
        EntriesOnly(full, o, ButLast(blks), p);
      }
      assert rest[p := Last(blks)].Keys == rest.Keys + {p};
    }
  }

  lemma JoinCount(a: map<Path, BlockId>, b: map<Path, BlockId>)
    requires a.Keys !! b.Keys
    ensures |a + b| == |a| + |b|
  {
    assert (a + b).Keys == a.Keys + b.Keys;
    assert |a.Keys + b.Keys| == |a.Keys| + |b.Keys|;
  }

  /** Nothing below `cur` along the new leaf's chunks was stored: the leaf's entries are all new. */
  lemma LeafIsNew(key: Key, ns: Nodes, idx: map<Path, BlockId>, cur: NodeId, toks: seq<Chunk>, p: Path)
    requires Structure(key, ns) && Indexed(ns, idx) && cur in ns && toks != []
    requires key(toks[0]) !in ns[cur].children
    requires |ns[cur].path| < |p| && p <= ns[cur].path + toks
    ensures p !in idx
  {
    if p in idx {
      assert EntryHeld(ns, idx, p);
      var n: nat :| HeldBy(ns, p, n);
      NextStep(key, ns, cur, n, p);
    }
  }

  /** If a stored prefix extends cur's path, cur has a child under the next chunk's key. */
  lemma NextStep(key: Key, ns: Nodes, cur: NodeId, n: NodeId, p: Path)
    requires Structure(key, ns) && cur in ns && n in ns
    requires |ns[cur].path| < |p| && ns[cur].path <= p <= ns[n].path
    ensures key(p[|ns[cur].path|]) in ns[cur].children
    ensures var c := ns[cur].children[key(p[|ns[cur].path|])];
            c in ns && c != ROOT && Off(ns[c]) == |ns[cur].path| && ns[c].tokens != [] && ns[c].tokens[0] == p[|ns[cur].path|]
            && ns[c].path <= ns[n].path
  {
    var o := |ns[cur].path|;
    var m := AncestorAt(key, ns, n, o + 1);
    PathGrows(key, ns, m);
    assert NodeOk(key, ns, m);
    var q := ns[m].parent;
    if Off(ns[m]) < o {
      assert Covers(ns, m, o);
      CoversOwn(key, ns, cur);
      assert ns[m].path[..o] == ns[cur].path[..o];
      Unique(key, ns, m, cur, o);
    }
    if o > 0 {
      ParentCovers(key, ns, m);
      CoversOwn(key, ns, cur);
      assert ns[m].path[..o] == ns[cur].path[..o];
      Unique(key, ns, q, cur, o);
    } else {
      RootPath(key, ns, cur);
    }
    assert ns[m].tokens[0] == ns[m].path[o] == p[o];
  }

  lemma CoversOwn(key: Key, ns: Nodes, n: NodeId)
    requires Structure(key, ns) && n in ns && ns[n].path != []
    ensures Covers(ns, n, |ns[n].path|) && n != ROOT
  {
    if n != ROOT {
      PathGrows(key, ns, n);
    }
  }

  lemma RootPath(key: Key, ns: Nodes, n: NodeId)
    requires Structure(key, ns) && n in ns && ns[n].path == []
    ensures n == ROOT
  {
    if n != ROOT {
      PathGrows(key, ns, n);
    }
  }

  lemma AddLeafIndex(key: Key, ns: Nodes, cur: NodeId, toks: seq<Chunk>, blks: seq<BlockId>, h: NodeId, stamp: nat,
                     idx: map<Path, BlockId>)
    requires CanAddLeaf(key, ns, cur, toks, blks, h) && Indexed(ns, idx)
    ensures Indexed(AddLeaf(key, ns, cur, toks, blks, h, stamp),
                    idx + Entries(ns[cur].path + toks, |ns[cur].path|, blks))
    ensures idx.Keys !! Entries(ns[cur].path + toks, |ns[cur].path|, blks).Keys
  {
    var ns' := AddLeaf(key, ns, cur, toks, blks, h, stamp);
    var full, o := ns[cur].path + toks, |ns[cur].path|;
    var more := Entries(full, o, blks);
    var idx' := idx + more;
    forall p | p in more ensures p !in idx {
      EntriesOnly(full, o, blks, p);
      LeafIsNew(key, ns, idx, cur, toks, p);
    }
    forall m: nat, j: nat ensures EntryOk(ns', idx', m, j) {
      assert EntryOk(ns, idx, m, j);
      if m == h && Covers(ns', h, j) {
        EntriesHave(full, o, blks, j);
      }
    }
    forall p ensures EntryHeld(ns', idx', p) {
      assert EntryHeld(ns, idx, p);
      if p in more {
        EntriesOnly(full, o, blks, p);
        assert HeldBy(ns', p, h);
      } else if p in idx {
        var m: nat :| HeldBy(ns, p, m);
        assert HeldBy(ns', p, m);
      }
    }
  }

  lemma AddLeafPins(key: Key, ns: Nodes, cur: NodeId, toks: seq<Chunk>, blks: seq<BlockId>, h: NodeId, stamp: nat,
                    pins: map<nat, NodeId>, idx: map<Path, BlockId>)
    requires CanAddLeaf(key, ns, cur, toks, blks, h) && Indexed(ns, idx) && Pinned(ns, pins)
    ensures Pinned(AddLeaf(key, ns, cur, toks, blks, h, stamp), pins)
  {
    var ns' := AddLeaf(key, ns, cur, toks, blks, h, stamp);
    forall x: nat ensures PinOk(ns', pins, x) {
      assert PinOk(ns, pins, x);
    }
    forall x | x in pins ensures pins[x] in ns && ns'[pins[x]].path == ns[pins[x]].path {
      assert PinOk(ns, pins, x);
    }
    forall x | x in pins ensures !(ns'[h].path <= ns[pins[x]].path) {
      var p := ns'[h].path;
      if p <= ns[pins[x]].path {
        assert ns[pins[x]].path[..|p|] == p;
        LeafIsNew(key, ns, idx, cur, toks, p);
        PrefixStored(key, ns, idx, pins[x], |p|);
      }
    }
    forall m: nat ensures LockOk(ns', pins, m) {
      assert LockOk(ns, pins, m);
      if m in ns {
        assert Through(ns', pins, m) == Through(ns, pins, m);
      } else if m == h {
        assert Through(ns', pins, h) == {};
      }
    }
  }

  ghost function LeafAdded(t: Tree, cur: NodeId, toks: seq<Chunk>, blks: seq<BlockId>): Tree
    requires CanAddLeaf(t.key, t.nodes, cur, toks, blks, t.next)
  {
    t.(nodes := AddLeaf(t.key, t.nodes, cur, toks, blks, t.next, t.clock + 1),
       next := t.next + 1, clock := t.clock + 1, numNodes := t.numNodes + 1, stored := t.stored + |blks|,
       index := t.index + Entries(t.nodes[cur].path + toks, |t.nodes[cur].path|, blks))
  }

  lemma AddLeafInv(t: Tree, cur: NodeId, toks: seq<Chunk>, blks: seq<BlockId>)
    requires Inv(t) && cur in t.nodes && |toks| == |blks| > 0 && t.key(toks[0]) !in t.nodes[cur].children
    ensures CanAddLeaf(t.key, t.nodes, cur, toks, blks, t.next)
    ensures Inv(LeafAdded(t, cur, toks, blks))
  {
    assert IdUsed(t.nodes, t.next, t.next);
    assert CanAddLeaf(t.key, t.nodes, cur, toks, blks, t.next);
    LeafAddedInv(t, cur, toks, blks);
  }

  lemma LeafAddedInv(t: Tree, cur: NodeId, toks: seq<Chunk>, blks: seq<BlockId>)
    requires Inv(t) && CanAddLeaf(t.key, t.nodes, cur, toks, blks, t.next)
    ensures Inv(LeafAdded(t, cur, toks, blks))
  {
    hide *;
    LeafAddedNodes(t, cur, toks, blks);
    LeafAddedTotals(t, cur, toks, blks);
    InvFromParts(LeafAdded(t, cur, toks, blks));
  }

  lemma LeafAddedNodes(t: Tree, cur: NodeId, toks: seq<Chunk>, blks: seq<BlockId>)
    requires Inv(t) && CanAddLeaf(t.key, t.nodes, cur, toks, blks, t.next)
    ensures var t' := LeafAdded(t, cur, toks, blks);
            Structure(t'.key, t'.nodes) && Pinned(t'.nodes, t'.pins) && Stamped(t'.nodes, t'.clock)
  {
    hide *;
    InvParts(t);
    AddLeafNodes(t.key, t.nodes, cur, toks, blks, t.next, t.clock, t.pins, t.index);
    LeafAddedFields(t, cur, toks, blks);
  }

  lemma LeafAddedTotals(t: Tree, cur: NodeId, toks: seq<Chunk>, blks: seq<BlockId>)
    requires Inv(t) && CanAddLeaf(t.key, t.nodes, cur, toks, blks, t.next)
    ensures var t' := LeafAdded(t, cur, toks, blks);
            && Indexed(t'.nodes, t'.index) && t'.stored == |t'.index| && t'.numNodes + 1 == |t'.nodes|
            && (forall m: nat :: IdUsed(t'.nodes, t'.next, m))
  {
    hide *;
    InvParts(t);
    AddLeafTotals(t.key, t.nodes, cur, toks, blks, t.next, t.clock + 1, t.index, t.next + 1);
    LeafAddedFields(t, cur, toks, blks);
  }

  /** The invariant taken apart and put together, for proofs that treat its parts as wholes. */
  lemma InvParts(t: Tree)
    requires Inv(t)
    ensures Structure(t.key, t.nodes) && Indexed(t.nodes, t.index) && Pinned(t.nodes, t.pins) && Stamped(t.nodes, t.clock)
    ensures (forall n: nat :: IdUsed(t.nodes, t.next, n)) && t.stored == |t.index| && t.numNodes + 1 == |t.nodes|
  {
  }

  lemma InvFromParts(t: Tree)
    requires Structure(t.key, t.nodes) && Indexed(t.nodes, t.index) && Pinned(t.nodes, t.pins) && Stamped(t.nodes, t.clock)
    requires (forall n: nat :: IdUsed(t.nodes, t.next, n)) && t.stored == |t.index| && t.numNodes + 1 == |t.nodes|
    ensures Inv(t)
  {
  }

  lemma LeafAddedFields(t: Tree, cur: NodeId, toks: seq<Chunk>, blks: seq<BlockId>)
    requires CanAddLeaf(t.key, t.nodes, cur, toks, blks, t.next)
    ensures var t' := LeafAdded(t, cur, toks, blks);
            && t'.key == t.key && t'.pins == t.pins && t'.clock == t.clock + 1 && t'.next == t.next + 1
            && t'.nodes == AddLeaf(t.key, t.nodes, cur, toks, blks, t.next, t.clock + 1)
            && t'.index == t.index + Entries(t.nodes[cur].path + toks, |t.nodes[cur].path|, blks)
            && t'.stored == t.stored + |blks| && t'.numNodes == t.numNodes + 1
  {
    hide Structure, AddLeaf, CanAddLeaf, Entries;
  }

  lemma AddLeafNodes(key: Key, ns: Nodes, cur: NodeId, toks: seq<Chunk>, blks: seq<BlockId>, h: NodeId, clock: nat,
                     pins: map<nat, NodeId>, idx: map<Path, BlockId>)
    requires CanAddLeaf(key, ns, cur, toks, blks, h) && Indexed(ns, idx) && Pinned(ns, pins) && Stamped(ns, clock)
    ensures var ns' := AddLeaf(key, ns, cur, toks, blks, h, clock + 1);
            Structure(key, ns') && Pinned(ns', pins) && Stamped(ns', clock + 1)
  {
    hide *;
    AddLeafStructure(key, ns, cur, toks, blks, h, clock + 1);
    AddLeafPins(key, ns, cur, toks, blks, h, clock + 1, pins, idx);
    AddLeafStamps(key, ns, cur, toks, blks, h, clock);
  }

  lemma AddLeafTotals(key: Key, ns: Nodes, cur: NodeId, toks: seq<Chunk>, blks: seq<BlockId>, h: NodeId, stamp: nat,
                      idx: map<Path, BlockId>, next: NodeId)
    requires CanAddLeaf(key, ns, cur, toks, blks, h) && Indexed(ns, idx)
    requires next == h + 1 && forall m: nat :: IdUsed(ns, h, m)
    ensures var ns', idx' := AddLeaf(key, ns, cur, toks, blks, h, stamp),
                             idx + Entries(ns[cur].path + toks, |ns[cur].path|, blks);
            && Indexed(ns', idx') && |idx'| == |idx| + |blks| && |ns'| == |ns| + 1
            && (forall m: nat :: IdUsed(ns', next, m))
  {
    hide *;
    AddLeafCounted(key, ns, cur, toks, blks, h, stamp, idx);
    AddLeafIds(key, ns, cur, toks, blks, h, stamp, next);
  }

  lemma LeafPaths(t: Tree, cur: NodeId, toks: seq<Chunk>, blks: seq<BlockId>)
    requires CanAddLeaf(t.key, t.nodes, cur, toks, blks, t.next)
    ensures forall m :: m in t.nodes ==>
              m in LeafAdded(t, cur, toks, blks).nodes && LeafAdded(t, cur, toks, blks).nodes[m].path == t.nodes[m].path
  {
  }

  lemma AddLeafCounted(key: Key, ns: Nodes, cur: NodeId, toks: seq<Chunk>, blks: seq<BlockId>, h: NodeId, stamp: nat,
                       idx: map<Path, BlockId>)
    requires CanAddLeaf(key, ns, cur, toks, blks, h) && Indexed(ns, idx)
    ensures var idx' := idx + Entries(ns[cur].path + toks, |ns[cur].path|, blks);
            Indexed(AddLeaf(key, ns, cur, toks, blks, h, stamp), idx') && |idx'| == |idx| + |blks|
  {
    AddLeafIndex(key, ns, cur, toks, blks, h, stamp, idx);
    EntriesCount(ns[cur].path + toks, |ns[cur].path|, blks);
    JoinCount(idx, Entries(ns[cur].path + toks, |ns[cur].path|, blks));
  }

  lemma AddLeafIds(key: Key, ns: Nodes, cur: NodeId, toks: seq<Chunk>, blks: seq<BlockId>, h: NodeId, stamp: nat,
                   next: NodeId)
    requires CanAddLeaf(key, ns, cur, toks, blks, h) && next == h + 1 && forall m: nat :: IdUsed(ns, h, m)
    ensures var ns' := AddLeaf(key, ns, cur, toks, blks, h, stamp);
            (forall m: nat :: IdUsed(ns', next, m)) && |ns'| == |ns| + 1
  {
    var ns' := AddLeaf(key, ns, cur, toks, blks, h, stamp);
    assert ns'.Keys == ns.Keys + {h};
    forall m: nat ensures IdUsed(ns', next, m) {
      assert IdUsed(ns, h, m);
    }
  }

  lemma AddLeafStamps(key: Key, ns: Nodes, cur: NodeId, toks: seq<Chunk>, blks: seq<BlockId>, h: NodeId, clock: nat)
    requires CanAddLeaf(key, ns, cur, toks, blks, h) && Stamped(ns, clock)
    ensures Stamped(AddLeaf(key, ns, cur, toks, blks, h, clock + 1), clock + 1)
  {
    var c := clock + 1;
    var ns' := AddLeaf(key, ns, cur, toks, blks, h, c);
    forall m: nat ensures StampOk(ns', c, m) {
      assert StampOk(ns, clock, m);
    }
    forall m: nat, q: nat ensures StampsApart(ns', m, q) {
      assert StampsApart(ns, m, q) && StampOk(ns, clock, m) && StampOk(ns, clock, q);
    }
  }

  // --------------------------------------------------------------------- drop

  ghost predicate CanDrop(key: Key, ns: Nodes, n: NodeId) {
    Structure(key, ns) && n in ns && n != ROOT && ns[n].children == map[]
  }

  ghost function Drop(key: Key, ns: Nodes, n: NodeId): Nodes
    requires CanDrop(key, ns, n)
  {
    assert NodeOk(key, ns, n);
    var p := ns[n].parent;
    ns[p := ns[p].(children := ns[p].children - {key(ns[n].tokens[0])})] - {n}
  }

  lemma DropShape(key: Key, ns: Nodes, n: NodeId)
    requires CanDrop(key, ns, n)
    ensures Drop(key, ns, n).Keys == ns.Keys - {n}
    ensures forall m :: m in ns && m != n ==>
              var nd := Drop(key, ns, n)[m]; nd == ns[m].(children := nd.children)
  {
    PathGrows(key, ns, n);
  }

  lemma DropStructure(key: Key, ns: Nodes, n: NodeId)
    requires CanDrop(key, ns, n)
    ensures Structure(key, Drop(key, ns, n))
  {
    var ns' := Drop(key, ns, n);
    assert NodeOk(key, ns, n);
    PathGrows(key, ns, n);
    forall m: nat ensures NodeOk(key, ns', m) {
      assert NodeOk(key, ns, m);
    }
    forall m: nat, x: nat ensures ChildOk(key, ns', m, x) {
      assert ChildOk(key, ns, m, x);
    }
  }

  /** The entries a node holds. */
  ghost function Own(nd: Node): map<Path, BlockId>
    requires |nd.blocks| == |nd.tokens| <= |nd.path|
  {
    Entries(nd.path, Off(nd), nd.blocks)
  }

  lemma OwnStored(key: Key, ns: Nodes, idx: map<Path, BlockId>, n: NodeId)
    requires Structure(key, ns) && Indexed(ns, idx) && n in ns && n != ROOT
    ensures |ns[n].blocks| == |ns[n].tokens| <= |ns[n].path|
    ensures Own(ns[n]).Keys <= idx.Keys
    ensures forall p :: p in Own(ns[n]) && p in idx ==> idx[p] == Own(ns[n])[p]
  {
    assert NodeOk(key, ns, n);
    var nd := ns[n];
    forall p | p in Own(nd) ensures p in idx && idx[p] == Own(nd)[p] {
      EntriesOnly(nd.path, Off(nd), nd.blocks, p);
      EntriesHave(nd.path, Off(nd), nd.blocks, |p|);
      assert EntryOk(ns, idx, n, |p|);
    }
  }

  lemma DropKeeps(key: Key, ns: Nodes, n: NodeId, idx: map<Path, BlockId>, m: NodeId, j: nat)
    requires CanDrop(key, ns, n) && Indexed(ns, idx)
    ensures |ns[n].blocks| == |ns[n].tokens| <= |ns[n].path|
    ensures EntryOk(Drop(key, ns, n), idx - Own(ns[n]).Keys, m, j)
  {
    OwnStored(key, ns, idx, n);
    assert EntryOk(ns, idx, m, j) && NodeOk(key, ns, m);
    assert NodeOk(key, ns, n);
    var nd := ns[n];
    if m in ns && m != n && Covers(ns, m, j) {
      var p := ns[m].path[..j];
      assert p in idx;
      if p in Own(nd).Keys {
        EntriesOnly(nd.path, Off(nd), nd.blocks, p);
        Unique(key, ns, m, n, j);
      }
      assert p in idx - Own(nd).Keys;
    }
  }

  lemma DropHolds(key: Key, ns: Nodes, n: NodeId, idx: map<Path, BlockId>, p: Path, m: NodeId)
    requires CanDrop(key, ns, n) && HeldBy(ns, p, m)
    requires |ns[n].blocks| == |ns[n].tokens| <= |ns[n].path| && p !in Own(ns[n])
    ensures HeldBy(Drop(key, ns, n), p, m)
  {
    var nd := ns[n];
    assert NodeOk(key, ns, n);
    if m == n {
      assert p == nd.path[..|p|];
      EntriesHave(nd.path, Off(nd), nd.blocks, |p|);
    }
  }

  lemma DropIndex(key: Key, ns: Nodes, n: NodeId, idx: map<Path, BlockId>)
    requires CanDrop(key, ns, n) && Indexed(ns, idx)
    ensures |ns[n].blocks| == |ns[n].tokens| <= |ns[n].path|
    ensures Indexed(Drop(key, ns, n), idx - Own(ns[n]).Keys)
    ensures |idx - Own(ns[n]).Keys| + |ns[n].blocks| == |idx|
  {
    OwnStored(key, ns, idx, n);
    var ns', nd := Drop(key, ns, n), ns[n];
    var idx' := idx - Own(nd).Keys;
    forall m: nat, j: nat ensures EntryOk(ns', idx', m, j) {
      DropKeeps(key, ns, n, idx, m, j);
    }
    forall p ensures EntryHeld(ns', idx', p) {
      assert EntryHeld(ns, idx, p);
      if p in idx' {
        var m: nat :| HeldBy(ns, p, m);
        DropHolds(key, ns, n, idx, p, m);
      }
    }
    EntriesCount(nd.path, Off(nd), nd.blocks);
    LessCount(idx, Own(nd));
  }

  lemma LessCount(a: map<Path, BlockId>, b: map<Path, BlockId>)
    requires b.Keys <= a.Keys
    ensures |a - b.Keys| + |b| == |a|
  {
    assert (a - b.Keys).Keys == a.Keys - b.Keys;
    assert a.Keys == (a.Keys - b.Keys) + b.Keys;
  }

  lemma DropPins(key: Key, ns: Nodes, n: NodeId, pins: map<nat, NodeId>)
    requires CanDrop(key, ns, n) && Pinned(ns, pins) && ns[n].lockCount == 0
    ensures Pinned(Drop(key, ns, n), pins)
    ensures forall h :: h in pins ==> pins[h] in ns && !(ns[n].path <= ns[pins[h]].path)
  {
    var ns' := Drop(key, ns, n);
    assert LockOk(ns, pins, n) && NodeOk(key, ns, n);
    forall h | h in pins ensures pins[h] in ns && !(ns[n].path <= ns[pins[h]].path) {
      assert PinOk(ns, pins, h);
      assert h !in Through(ns, pins, n);
    }
    forall h: nat ensures PinOk(ns', pins, h) {
      assert PinOk(ns, pins, h);
    }
    forall m: nat ensures LockOk(ns', pins, m) {
      assert LockOk(ns, pins, m);
      if m in ns' {
        assert Through(ns', pins, m) == Through(ns, pins, m);
      }
    }
  }

  ghost function Dropped(t: Tree, n: NodeId): Tree
    requires CanDrop(t.key, t.nodes, n) && |t.nodes[n].blocks| == |t.nodes[n].tokens| <= |t.nodes[n].path|
    requires |t.nodes[n].blocks| <= t.stored && t.numNodes > 0
  {
    t.(nodes := Drop(t.key, t.nodes, n), numNodes := t.numNodes - 1, stored := t.stored - |t.nodes[n].blocks|,
       index := t.index - Own(t.nodes[n]).Keys)
  }

  lemma DropInv(t: Tree, n: NodeId)
    requires Inv(t) && CanDrop(t.key, t.nodes, n) && t.nodes[n].lockCount == 0
    ensures |t.nodes[n].blocks| == |t.nodes[n].tokens| <= |t.nodes[n].path|
    ensures |t.nodes[n].blocks| <= t.stored && t.numNodes > 0
    ensures Inv(Dropped(t, n)) && |Dropped(t, n).nodes| == |t.nodes| - 1
  {
    var ns := t.nodes;
    DropStructure(t.key, ns, n);
    DropIndex(t.key, ns, n, t.index);
    DropPins(t.key, ns, n, t.pins);
    DropIds(t.key, ns, n, t.next, t.clock);
  }

  lemma DropIds(key: Key, ns: Nodes, n: NodeId, next: NodeId, clock: nat)
    requires CanDrop(key, ns, n) && Stamped(ns, clock) && forall m: nat :: IdUsed(ns, next, m)
    ensures var ns' := Drop(key, ns, n);
            (forall m: nat :: IdUsed(ns', next, m)) && |ns'| == |ns| - 1 && |ns| > 1 && Stamped(ns', clock)
  {
    var ns' := Drop(key, ns, n);
    PathGrows(key, ns, n);
    assert ns.Keys == ns'.Keys + {n} && ROOT in ns'.Keys;
    forall m: nat ensures IdUsed(ns', next, m) && StampOk(ns', clock, m) {
      assert IdUsed(ns, next, m) && StampOk(ns, clock, m);
    }
    forall m: nat, q: nat ensures StampsApart(ns', m, q) {
      assert StampsApart(ns, m, q);
    }
  }

  // -------------------------------------------------------------- lock, unlock

  /** Is `m` on the path that lock(n) walks? */
  ghost predicate OnPath(ns: Nodes, n: NodeId, m: NodeId) {
    n in ns && m in ns && m != ROOT && ns[m].path <= ns[n].path
  }

  ghost predicate CountedAt(ns: Nodes, ns': Nodes, n: NodeId, d: int, m: NodeId) {
    && (m in ns <==> m in ns')
    && (m in ns ==>
          && ns'[m] == ns[m].(lockCount := ns'[m].lockCount)
          && ns'[m].lockCount == ns[m].lockCount + if OnPath(ns, n, m) then d else 0)
  }

  /** The counts on the path of `n`, root excepted, change by `d` and nothing else does: lock() and unlock(). */
  ghost predicate Counted(ns: Nodes, ns': Nodes, n: NodeId, d: int) {
    forall m: nat :: CountedAt(ns, ns', n, d, m)
  }

  lemma LockInv(t: Tree, ns': Nodes, n: NodeId, h: nat)
    requires Inv(t) && n in t.nodes && n != ROOT && h !in t.pins && Counted(t.nodes, ns', n, 1)
    ensures Inv(t.(nodes := ns', pins := t.pins[h := n]))
  {
    SameButLocks(t, ns', n, 1);
    LockPins(t.nodes, ns', t.pins, n, h);
  }

  lemma LockPins(ns: Nodes, ns': Nodes, pins: map<nat, NodeId>, n: NodeId, h: nat)
    requires Pinned(ns, pins) && n in ns && n != ROOT && h !in pins && Counted(ns, ns', n, 1)
    ensures Pinned(ns', pins[h := n])
  {
    var pins' := pins[h := n];
    forall m: nat ensures PinOk(ns', pins', m) {
      assert PinOk(ns, pins, m) && CountedAt(ns, ns', n, 1, n);
      if m in pins {
        assert CountedAt(ns, ns', n, 1, pins[m]);
      }
    }
    forall m: nat ensures LockOk(ns', pins', m) {
      assert LockOk(ns, pins, m) && CountedAt(ns, ns', n, 1, m) && CountedAt(ns, ns', n, 1, n);
      if m in ns && m != ROOT {
        forall x | x in pins ensures pins[x] in ns && pins[x] in ns' && ns'[pins[x]].path == ns[pins[x]].path {
          assert PinOk(ns, pins, x) && CountedAt(ns, ns', n, 1, pins[x]);
        }
        assert Through(ns', pins', m) == Through(ns, pins, m) + (if OnPath(ns, n, m) then {h} else {});
      }
    }
  }

  /** The number of pins at or below a pinned node is positive: unlock never underflows. */
  lemma PinsCounted(t: Tree, h: nat, m: NodeId)
    requires Inv(t) && h in t.pins && OnPath(t.nodes, t.pins[h], m)
    ensures t.nodes[m].lockCount > 0
  {
    assert PinOk(t.nodes, t.pins, h) && LockOk(t.nodes, t.pins, m);
    assert h in Through(t.nodes, t.pins, m);
  }

  lemma UnlockInv(t: Tree, ns': Nodes, h: nat)
    requires Inv(t) && h in t.pins && Counted(t.nodes, ns', t.pins[h], -1)
    ensures Inv(t.(nodes := ns', pins := t.pins - {h}))
  {
    SameButLocks(t, ns', t.pins[h], -1);
    UnlockPins(t.nodes, ns', t.pins, h);
  }

  lemma UnlockPins(ns: Nodes, ns': Nodes, pins: map<nat, NodeId>, h: nat)
    requires Pinned(ns, pins) && h in pins && Counted(ns, ns', pins[h], -1)
    ensures Pinned(ns', pins - {h})
  {
    var n, pins' := pins[h], pins - {h};
    assert PinOk(ns, pins, h);
    forall m: nat ensures PinOk(ns', pins', m) {
      assert PinOk(ns, pins, m);
      if m in pins {
        assert CountedAt(ns, ns', n, -1, pins[m]);
      }
    }
    forall m: nat ensures LockOk(ns', pins', m) {
      assert LockOk(ns, pins, m) && CountedAt(ns, ns', n, -1, m);
      if m in ns && m != ROOT {
        forall x | x in pins ensures pins[x] in ns && pins[x] in ns' && ns'[pins[x]].path == ns[pins[x]].path {
          assert PinOk(ns, pins, x) && CountedAt(ns, ns', n, -1, pins[x]);
        }
        assert Through(ns, pins, m) == Through(ns', pins', m) + (if OnPath(ns, n, m) then {h} else {});
      }
    }
  }

  lemma SameButLocks(t: Tree, ns': Nodes, n: NodeId, d: int)
    requires Inv(t) && Counted(t.nodes, ns', n, d)
    ensures Structure(t.key, ns') && Indexed(ns', t.index) && Stamped(ns', t.clock)
    ensures forall m: nat :: IdUsed(ns', t.next, m)
    ensures |ns'| == |t.nodes|
  {
    var ns := t.nodes;
    forall m: nat ensures SameAt(ns, ns', m) && IdUsed(ns', t.next, m) && StampOk(ns', t.clock, m) {
      assert IdUsed(ns, t.next, m) && StampOk(ns, t.clock, m) && CountedAt(ns, ns', n, d, m);
    }
    assert CountedAt(ns, ns', n, d, ROOT);
    ShapeKeeps(t.key, ns, ns', t.index);
    SameKeys(ns, ns');
    forall m: nat, q: nat ensures StampsApart(ns', m, q) {
      assert StampsApart(ns, m, q) && SameAt(ns, ns', m) && SameAt(ns, ns', q);
      assert CountedAt(ns, ns', n, d, m) && CountedAt(ns, ns', n, d, q);
    }
  }

  /** Pins are upward closed: whatever pins a node pins its parent. */
  lemma LocksClimb(t: Tree, n: NodeId)
    requires Inv(t) && n in t.nodes && n != ROOT && t.nodes[n].parent != ROOT
    ensures t.nodes[n].parent in t.nodes && t.nodes[n].lockCount <= t.nodes[t.nodes[n].parent].lockCount
  {
    PathGrows(t.key, t.nodes, n);
    var p := t.nodes[n].parent;
    assert LockOk(t.nodes, t.pins, n) && LockOk(t.nodes, t.pins, p);
    var a, b := Through(t.nodes, t.pins, n), Through(t.nodes, t.pins, p);
    assert a <= b;
    assert b == a + (b - a);
  }

  /** The pins once the pin `src` is called `dst`. */
  ghost function PinMoved(pins: map<nat, NodeId>, src: nat, dst: nat): map<nat, NodeId> {
    if src in pins then (pins - {src})[dst := pins[src]] else pins
  }

  lemma MovePinThrough(ns: Nodes, pins: map<nat, NodeId>, src: nat, dst: nat, n: NodeId)
    requires dst !in pins && src in pins && n in ns
    ensures |Through(ns, PinMoved(pins, src, dst), n)| == |Through(ns, pins, n)|
  {
    var a, b := Through(ns, pins, n), Through(ns, PinMoved(pins, src, dst), n);
    assert a - {src} == b - {dst};
    assert src in a <==> dst in b;
    assert |a - {src}| == |a| - if src in a then 1 else 0;
    assert |b - {dst}| == |b| - if dst in b then 1 else 0;
  }

  /** A renamed pin counts as before. */
  lemma MovePinInv(t: Tree, src: nat, dst: nat)
    requires Inv(t) && dst !in t.pins && src != dst
    ensures Inv(t.(pins := PinMoved(t.pins, src, dst)))
  {
    var ns, pins, pins' := t.nodes, t.pins, PinMoved(t.pins, src, dst);
    forall h: nat ensures PinOk(ns, pins', h) {
      assert PinOk(ns, pins, h) && PinOk(ns, pins, src);
    }
    forall n: nat ensures LockOk(ns, pins', n) {
      assert LockOk(ns, pins, n);
      if n in ns && src in pins {
        MovePinThrough(ns, pins, src, dst, n);
      }
    }
  }
}
