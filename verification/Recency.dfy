/** What a walk leaves behind: the nodes along it are more recent than before, and no other node is. */
module Recency {
  import opened Types
  import opened TreeModel
  import opened TreeSteps
  import opened TreeWalk

  /** Since `ns0` at time `clock0`, node `n` was touched if and only if it lies on the path `p`. */
  ghost predicate RecentAt(ns0: Nodes, clock0: nat, ns: Nodes, p: Path, n: NodeId) {
    n in ns && n != ROOT ==>
      if ns[n].path <= p then ns[n].lastAccess > clock0
      else n in ns0 && ns[n].lastAccess == ns0[n].lastAccess
  }

  ghost predicate Recent(ns0: Nodes, clock0: nat, ns: Nodes, p: Path) {
    forall n: nat :: RecentAt(ns0, clock0, ns, p, n)
  }

  /** How far along `cs` insert() gets: to the new leaf if there is one, and else as far as was stored. */
  ghost function Reach(cs: Path, pos: nat, taken: seq<BlockId>): Path {
    if taken == [] && pos <= |cs| then cs[..pos] else cs
  }

  lemma RecentNone(key: Key, ns: Nodes, clock: nat)
    requires Structure(key, ns)
    ensures Recent(ns, clock, ns, [])
  {
    forall n: nat ensures RecentAt(ns, clock, ns, [], n) {
      if n in ns && n != ROOT {
        PathGrows(key, ns, n);
      }
    }
  }

  /** Between a node and its parent no other node ends. */
  lemma NoneBetween(key: Key, ns: Nodes, c: NodeId, n: NodeId)
    requires Structure(key, ns) && c in ns && c != ROOT && n in ns && n != ROOT && ns[n].path <= ns[c].path
    ensures n == c || |ns[n].path| <= Off(ns[c])
  {
    var k := |ns[n].path|;
    PathGrows(key, ns, n);
    PathGrows(key, ns, c);
    if k > Off(ns[c]) {
      assert ns[n].path[..k] == ns[c].path[..k];
      Unique(key, ns, n, c, k);
    }
  }

  /** Going on to the child `c` and touching it. */
  lemma RecentTouch(key: Key, ns0: Nodes, clock0: nat, ns: Nodes, c: NodeId, stamp: nat)
    requires Structure(key, ns) && c in ns && c != ROOT && 0 <= Off(ns[c]) && stamp > clock0
    requires Recent(ns0, clock0, ns, ns[c].path[..Off(ns[c])])
    ensures Recent(ns0, clock0, Touch(ns, c, stamp), ns[c].path)
  {
    var ns', p, q := Touch(ns, c, stamp), ns[c].path[..Off(ns[c])], ns[c].path;
    forall n: nat ensures RecentAt(ns0, clock0, ns', q, n) {
      assert RecentAt(ns0, clock0, ns, p, n);
      if n in ns && n != ROOT && n != c && ns[n].path <= q {
        NoneBetween(key, ns, c, n);
        assert ns[n].path <= p;
      }
    }
  }

  /** The walk ends inside `c`: the new parent is touched, and `c` is not. */
  lemma RecentSplit(t: Tree, ns0: Nodes, clock0: nat, c: NodeId, k: nat)
    requires CanSplit(t.key, t.nodes, c, k, t.next) && t.clock >= clock0 && 0 <= Off(t.nodes[c])
    requires Recent(ns0, clock0, t.nodes, t.nodes[c].path[..Off(t.nodes[c])])
    requires Off(t.nodes[c]) + k <= |t.nodes[c].path|
    ensures Recent(ns0, clock0, SplitTouched(t, c, k).nodes, t.nodes[c].path[..Off(t.nodes[c]) + k])
  {
    var ns, ns', o := t.nodes, SplitTouched(t, c, k).nodes, Off(t.nodes[c]);
    var p, q := ns[c].path[..o], ns[c].path[..o + k];
    SplitShape(t.key, ns, c, k, t.next, t.clock + 1);
    assert NodeOk(t.key, ns, c);
    forall n: nat ensures RecentAt(ns0, clock0, ns', q, n) {
      assert RecentAt(ns0, clock0, ns, p, n);
      if n in ns && n != ROOT && ns[n].path <= q {
        assert ns[n].path <= ns[c].path;
        NoneBetween(t.key, ns, c, n);
        assert ns[n].path <= p;
      }
    }
  }

  /** Touching the end of the walk once more. */
  lemma RecentAgain(ns0: Nodes, clock0: nat, ns: Nodes, c: NodeId, stamp: nat)
    requires c in ns && stamp > clock0 && Recent(ns0, clock0, ns, ns[c].path)
    ensures Recent(ns0, clock0, Touch(ns, c, stamp), ns[c].path)
  {
    var ns', p := Touch(ns, c, stamp), ns[c].path;
    forall n: nat ensures RecentAt(ns0, clock0, ns', p, n) {
      assert RecentAt(ns0, clock0, ns, p, n);
    }
  }

  /** The new leaf is the most recent of all. */
  lemma RecentLeaf(t: Tree, ns0: Nodes, clock0: nat, cur: NodeId, toks: seq<Chunk>, blks: seq<BlockId>)
    requires Inv(t) && CanAddLeaf(t.key, t.nodes, cur, toks, blks, t.next) && t.clock >= clock0
    requires Recent(ns0, clock0, t.nodes, t.nodes[cur].path)
    ensures Recent(ns0, clock0, LeafAdded(t, cur, toks, blks).nodes, t.nodes[cur].path + toks)
  {
    var ns, ns', p := t.nodes, LeafAdded(t, cur, toks, blks).nodes, t.nodes[cur].path;
    forall n: nat ensures RecentAt(ns0, clock0, ns', p + toks, n) {
      assert RecentAt(ns0, clock0, ns, p, n);
      if n in ns && n != ROOT && ns[n].path <= p + toks {
        NotUnderLeaf(t, cur, toks, n);
      }
    }
  }

  lemma NotUnderLeaf(t: Tree, cur: NodeId, toks: seq<Chunk>, n: NodeId)
    requires Inv(t) && cur in t.nodes && toks != [] && t.key(toks[0]) !in t.nodes[cur].children
    requires n in t.nodes && n != ROOT && t.nodes[n].path <= t.nodes[cur].path + toks
    ensures t.nodes[n].path <= t.nodes[cur].path
  {
    var ns, q := t.nodes, t.nodes[n].path;
    PathGrows(t.key, ns, n);
    PrefixStored(t.key, ns, t.index, n, |q|);
    assert q[..|q|] == q;
    if |q| > |ns[cur].path| {
      LeafIsNew(t.key, ns, t.index, cur, toks, q);
    } else {
      assert q == (ns[cur].path + toks)[..|q|] == ns[cur].path[..|q|];
    }
  }

  /** So whatever was used last is younger than everything else. */
  lemma UsedIsYoungest(ns0: Nodes, clock0: nat, ns: Nodes, p: Path, n: NodeId, m: NodeId)
    requires Recent(ns0, clock0, ns, p) && Stamped(ns0, clock0)
    requires n in ns && m in ns && n != ROOT && m != ROOT && ns[n].path <= p && !(ns[m].path <= p)
    ensures ns[m].lastAccess < ns[n].lastAccess
  {
    assert RecentAt(ns0, clock0, ns, p, n) && RecentAt(ns0, clock0, ns, p, m) && StampOk(ns0, clock0, m);
  }
}
