/** The prefix index as the program has it: nodes updated in place, walked by loops. */
module RadixTree {
  import opened Types
  import opened TreeModel
  import opened TreeSteps
  import opened TreeWalk
  import opened PoolView
  import opened PoolOps
  import opened BlockPool
  import opened Backing
  import opened Eviction
  import opened Recency

  class RadixTree {
    const key: Key
    const blockTokens: nat
    const pool: BlockPool
    var nodes: Nodes
    var next: NodeId
    var clock: nat
    var storedBlocks: nat
    var numNodes: nat
    var collisions: nat
    ghost var index: map<Path, BlockId>
    ghost var pins: map<nat, NodeId>

    ghost function T(): Tree
      reads this
    {
      Tree(key, nodes, next, clock, storedBlocks, numNodes, index, pins)
    }

    ghost predicate Ok()
      reads this
    {
      Inv(T()) && blockTokens > 0
    }

    constructor (key: Key, blockTokens: nat, pool: BlockPool)
      requires blockTokens > 0
      ensures Ok() && index == map[] && pins == map[] && this.pool == pool && this.key == key
      ensures this.blockTokens == blockTokens && collisions == 0
    {
      this.key, this.blockTokens, this.pool := key, blockTokens, pool;
      nodes := map[ROOT := Node([], [], map[], ROOT, 0, 0, [])];
      next, clock, storedBlocks, numNodes, collisions := 1, 0, 0, 0, 0;
      index, pins := map[], map[];
    }

    // ----------------------------------------------------------------- walk

    method Touch(n: NodeId)
      requires n in nodes
      modifies this`nodes, this`clock
      ensures T() == Touched(old(T()), n)
    {
      nodes, clock := TreeSteps.Touch(nodes, n, clock + 1), clock + 1;
    }

    /** Interpose a new parent covering the first `k` chunks of `n`. */
    method SplitNode(n: NodeId, k: nat) returns (head: NodeId)
      requires CanSplit(key, nodes, n, k, next)
      modifies this`nodes, this`next, this`numNodes
      ensures head == old(next)
      ensures T() == old(T()).(nodes := Split(key, old(nodes), n, k, head, old(nodes)[n].lastAccess),
                               next := old(next) + 1, numNodes := old(numNodes) + 1)
    {
      assert NodeOk(key, nodes, n);
      head := next;
      var nd := nodes[n];
      var p := nd.parent;
      nodes := nodes[p := nodes[p].(children := nodes[p].children[key(nd.tokens[0]) := head])]
                    [n := Tail(nd, k, head)]
                    [head := Head(key, nd, n, k, nd.lastAccess)];
      next, numNodes := next + 1, numNodes + 1;
    }

    /** Matching chunks of `run` along `chunks` from `pos`, up to `limit`. */
    method CommonChunks(run: seq<Chunk>, chunks: Path, pos: nat, limit: nat) returns (common: nat)
      requires pos <= limit <= |chunks|
      ensures common <= |run| && pos + common <= limit
      ensures run[..common] == chunks[pos..pos + common]
      ensures common < |run| && pos + common < limit ==> run[common] != chunks[pos + common]
    {
      common := 0;
      while common < |run| && pos + common < limit && run[common] == chunks[pos + common]
        invariant common <= |run| && pos + common <= limit
        invariant run[..common] == chunks[pos..pos + common]
      {
        common := common + 1;
      }
    }

    /** The nodes that were there still are, each ending where it ended. */
    twostate predicate PathsKept()
      reads this
    {
      SamePaths(old(nodes), nodes)
    }

    /**
     The loop shared by match_prefix() and insert(): follow `chunks` down from the root, touching
     each node passed, and splitting the last one if the walk ends inside it.
     */
    method Walk(chunks: Path) returns (cur: NodeId, blocks: seq<BlockId>)
      requires Ok()
      modifies this`nodes, this`next, this`clock, this`numNodes
      ensures Ok() && PathsKept() && clock >= old(clock)
      ensures Matched(index, chunks, blocks) && Ends(index, chunks, |blocks|)
      ensures cur in nodes && nodes[cur].path == chunks[..|blocks|]
      ensures Recent(old(nodes), old(clock), nodes, chunks[..|blocks|])
    {
      hide Inv, Recent, Matched, Ends;
      WalkStart(chunks);
      cur, blocks := ROOT, [];
      var stop := false;
      ghost var ns0, clock0 := nodes, clock;
      while |blocks| < |chunks| && !stop
        invariant Ok() && PathsKept() && clock >= clock0
        invariant Matched(index, chunks, blocks) && |blocks| <= |chunks|
        invariant cur in nodes && nodes[cur].path == chunks[..|blocks|]
        invariant Recent(ns0, clock0, nodes, chunks[..|blocks|])
        invariant stop ==> Ends(index, chunks, |blocks|)
        decreases |chunks| - |blocks|, !stop
      {
        cur, blocks, stop := Descend(chunks, cur, blocks, ns0, clock0);
      }
      WalkEnd(chunks, blocks);
    }

    lemma WalkStart(chunks: Path)
      requires Ok()
      ensures ROOT in nodes && nodes[ROOT].path == [] == chunks[..0]
      ensures Matched(index, chunks, []) && Recent(nodes, clock, nodes, chunks[..0])
    {
      RecentNone(key, nodes, clock);
    }

    lemma WalkEnd(chunks: Path, blocks: seq<BlockId>)
      ensures |blocks| == |chunks| ==> Ends(index, chunks, |blocks|)
    {
    }

    /** One round of the walk: look for the child that continues the match, and enter it. */
    method Descend(chunks: Path, cur0: NodeId, blocks0: seq<BlockId>, ghost ns0: Nodes, ghost clock0: nat)
      returns (cur: NodeId, blocks: seq<BlockId>, stop: bool)
      requires Ok() && |blocks0| < |chunks| && Matched(index, chunks, blocks0)
      requires cur0 in nodes && nodes[cur0].path == chunks[..|blocks0|]
      requires clock >= clock0 && Recent(ns0, clock0, nodes, chunks[..|blocks0|])
      modifies this`nodes, this`next, this`clock, this`numNodes
      ensures Ok() && PathsKept() && clock >= clock0
      ensures Matched(index, chunks, blocks) && (stop ==> Ends(index, chunks, |blocks|))
      ensures |blocks| <= |chunks| && cur in nodes && nodes[cur].path == chunks[..|blocks|]
      ensures Recent(ns0, clock0, nodes, chunks[..|blocks|])
      ensures (stop || |blocks| > |blocks0|) && |blocks| >= |blocks0|
    {
      cur, blocks, stop := cur0, blocks0, true;
      var pos := |blocks|;
      var k := key(chunks[pos]);
      if k !in nodes[cur].children {
        MissMeansAbsent(key, nodes, index, cur, chunks[..pos + 1]);
        return;
      }
      var child := nodes[cur].children[k];
      assert ChildOk(key, nodes, cur, k) && NodeOk(key, nodes, child);
      var common := CommonChunks(nodes[child].tokens, chunks, pos, |chunks|);
      if common == 0 {
        MissMeansAbsent(key, nodes, index, cur, chunks[..pos + 1]);
        return;
      }
      RunMatched(cur, child, chunks, blocks, common);
      hide Inv, Recent, Matched;
      blocks := blocks + nodes[child].blocks[..common];
      cur, stop := Enter(child, common, chunks, ns0, clock0);
    }

    /** Enter `child`, of which the first `common` chunks matched: all the way, or splitting it there. */
    method Enter(child: NodeId, common: nat, chunks: Path, ghost ns0: Nodes, ghost clock0: nat)
      returns (cur: NodeId, stop: bool)
      requires Ok() && child in nodes && child != ROOT && 0 < common <= |nodes[child].tokens|
      requires 0 <= Off(nodes[child]) && Off(nodes[child]) + common <= |chunks|
      requires nodes[child].path[..Off(nodes[child]) + common] == chunks[..Off(nodes[child]) + common]
      requires common < |nodes[child].tokens| && Off(nodes[child]) + common < |chunks| ==>
                 nodes[child].tokens[common] != chunks[Off(nodes[child]) + common]
      requires clock >= clock0 && Recent(ns0, clock0, nodes, chunks[..Off(nodes[child])])
      modifies this`nodes, this`next, this`clock, this`numNodes
      ensures Ok() && PathsKept() && clock >= clock0
      ensures var pos := old(Off(nodes[child])) + common;
              && (stop ==> Ends(index, chunks, pos))
              && cur in nodes && nodes[cur].path == chunks[..pos]
              && Recent(ns0, clock0, nodes, chunks[..pos])
    {
      hide Inv, Recent;
      SamePrefix(nodes[child].path, chunks, Off(nodes[child]) + common, Off(nodes[child]));
      if common < |nodes[child].tokens| {
        cur := SplitHere(child, common, chunks, ns0, clock0);
        stop := true;
      } else {
        assert nodes[child].path[..|nodes[child].path|] == nodes[child].path;
        TouchInv(T(), child);
        TouchOnWalk(child, ns0, clock0);
        Touch(child);
        cur, stop := child, false;
      }
    }

    lemma TouchOnWalk(child: NodeId, ns0: Nodes, clock0: nat)
      requires Ok() && child in nodes && child != ROOT && clock >= clock0 && 0 <= Off(nodes[child])
      requires Recent(ns0, clock0, nodes, nodes[child].path[..Off(nodes[child])])
      ensures Recent(ns0, clock0, TreeSteps.Touch(nodes, child, clock + 1), nodes[child].path)
    {
      RecentTouch(key, ns0, clock0, nodes, child, clock + 1);
    }

    /** The chunks just compared spell the child's path, and its blocks continue the match. */
    lemma RunMatched(cur: NodeId, child: NodeId, chunks: Path, blocks: seq<BlockId>, common: nat)
      requires Ok() && cur in nodes && child in nodes && child != ROOT && nodes[child].parent == cur
      requires Matched(index, chunks, blocks) && nodes[cur].path == chunks[..|blocks|]
      requires 0 < common <= |nodes[child].tokens| && |blocks| + common <= |chunks|
      requires nodes[child].tokens[..common] == chunks[|blocks|..|blocks| + common]
      ensures |nodes[child].blocks| == |nodes[child].tokens| && Off(nodes[child]) == |blocks|
      ensures nodes[child].path[..|blocks| + common] == chunks[..|blocks| + common]
      ensures Matched(index, chunks, blocks + nodes[child].blocks[..common])
    {
      var nd, pos := nodes[child], |blocks|;
      assert NodeOk(key, nodes, child);
      assert nd.path[..pos + common] == chunks[..pos] + nd.tokens[..common];
      assert chunks[..pos + common] == chunks[..pos] + chunks[pos..pos + common];
      RunIsIndexed(key, nodes, index, child, chunks, pos, common);
      MatchedMore(index, chunks, blocks, nd.blocks[..common]);
    }

    /** The walk ends inside `child`: split it so that the returned node covers the match exactly. */
    method SplitHere(child: NodeId, common: nat, chunks: Path, ghost ns0: Nodes, ghost clock0: nat)
      returns (head: NodeId)
      requires Ok() && child in nodes && child != ROOT && 0 < common < |nodes[child].tokens|
      requires 0 <= Off(nodes[child]) && Off(nodes[child]) + common <= |chunks|
      requires nodes[child].path[..Off(nodes[child]) + common] == chunks[..Off(nodes[child]) + common]
      requires Off(nodes[child]) + common < |chunks| ==>
                 nodes[child].tokens[common] != chunks[Off(nodes[child]) + common]
      requires clock >= clock0 && Recent(ns0, clock0, nodes, nodes[child].path[..Off(nodes[child])])
      modifies this`nodes, this`next, this`clock, this`numNodes
      ensures Ok() && PathsKept() && clock >= clock0
      ensures Ends(index, chunks, old(Off(nodes[child])) + common)
      ensures head in nodes && nodes[head].path == chunks[..old(Off(nodes[child])) + common]
      ensures Recent(ns0, clock0, nodes, chunks[..old(Off(nodes[child])) + common])
    {
      hide Inv, Recent, Ends, Split, CanSplit, SamePaths, SplitTouched, Structure;
      SplitEnds(child, common, chunks);
      SplitEffect(child, common, ns0, clock0);
      ghost var t := T();
      SplitClock(t, child, common);
      head := SplitAndTouch(child, common);
    }

    static lemma SplitClock(t: Tree, n: NodeId, k: nat)
      requires CanSplit(t.key, t.nodes, n, k, t.next)
      ensures SplitTouched(t, n, k).clock > t.clock && SplitTouched(t, n, k).index == t.index
    {
    }

    lemma SplitEffect(child: NodeId, common: nat, ns0: Nodes, clock0: nat)
      requires Ok() && child in nodes && child != ROOT && 0 < common < |nodes[child].tokens|
      requires 0 <= Off(nodes[child]) && clock >= clock0
      requires Recent(ns0, clock0, nodes, nodes[child].path[..Off(nodes[child])])
      ensures CanSplit(key, nodes, child, common, next) && Inv(SplitTouched(T(), child, common))
      ensures Off(nodes[child]) + common <= |nodes[child].path|
      ensures var t', p := SplitTouched(T(), child, common), nodes[child].path[..Off(nodes[child]) + common];
              && SamePaths(nodes, t'.nodes)
              && next in t'.nodes && t'.nodes[next].path == p && Recent(ns0, clock0, t'.nodes, p)
    {
      hide Inv, Recent;
      SplitInv(T(), child, common);
      SplitPaths(T(), child, common);
      RecentSplit(T(), ns0, clock0, child, common);
    }

    lemma SplitEnds(child: NodeId, common: nat, chunks: Path)
      requires Ok() && child in nodes && child != ROOT && 0 < common < |nodes[child].tokens|
      requires 0 <= Off(nodes[child]) && Off(nodes[child]) + common <= |chunks|
      requires nodes[child].path[..Off(nodes[child]) + common] == chunks[..Off(nodes[child]) + common]
      requires Off(nodes[child]) + common < |chunks| ==>
                 nodes[child].tokens[common] != chunks[Off(nodes[child]) + common]
      ensures Ends(index, chunks, Off(nodes[child]) + common)
    {
      var pos := Off(nodes[child]) + common;
      assert NodeOk(key, nodes, child);
      if pos < |chunks| {
        DivergenceMeansAbsent(key, nodes, index, child, chunks[..pos + 1]);
      }
    }

    method SplitAndTouch(n: NodeId, k: nat) returns (head: NodeId)
      requires CanSplit(key, nodes, n, k, next)
      modifies this`nodes, this`next, this`clock, this`numNodes
      ensures head == old(next) && T() == SplitTouched(old(T()), n, k)
    {
      SplitStampTwice(key, nodes, n, k, next, nodes[n].lastAccess, clock + 1);
      head := SplitNode(n, k);
      Touch(head);
    }

    /**
     Longest block-aligned prefix of `tokens` in the index, its blocks, and a node that ends exactly
     where the match does. The index is not changed, no node moves, and the nodes along the match
     are now the most recent.
     */
    method MatchPrefix(tokens: seq<TokenId>) returns (blocks: seq<BlockId>, node: Option<NodeId>)
      requires Ok()
      modifies this`nodes, this`next, this`clock, this`numNodes
      ensures Ok() && PathsKept()
      ensures Matched(index, Chunks(tokens, blockTokens), blocks)
      ensures LongestIn(index, Chunks(tokens, blockTokens), |blocks|)
      ensures Recent(old(nodes), old(clock), nodes, Chunks(tokens, blockTokens)[..|blocks|])
      ensures node.Some? <==> blocks != []
      ensures node.Some? ==>
                && node.value in nodes && node.value != ROOT
                && nodes[node.value].path == Chunks(tokens, blockTokens)[..|blocks|]
    {
      hide Recent;
      var chunks := Chunks(tokens, blockTokens);
      var cur;
      cur, blocks := Walk(chunks);
      MatchIsLongest(chunks, blocks);
      node := if blocks == [] then None else Some(cur);
    }

    // ----------------------------------------------------------------- pins

    /** Pin `node` and every ancestor, under the name `h`. */
    method Lock(node: NodeId, ghost h: nat)
      requires Ok() && node in nodes && node != ROOT && h !in pins
      modifies this`nodes, this`pins
      ensures Ok() && PathsKept() && nodes.Keys == old(nodes).Keys
      ensures pins == old(pins)[h := node]
    {
      ghost var t := T();
      AddAlongPath(node, 1);
      LockInv(t, nodes, node, h);
      pins := pins[h := node];
      KeepsPaths(t.nodes, nodes, node, 1);
    }

    /** Give up the pin `h`, which must be a live one; no count goes below zero. */
    method Unlock(node: NodeId, ghost h: nat)
      requires Ok() && h in pins && pins[h] == node
      modifies this`nodes, this`pins
      ensures Ok() && PathsKept() && nodes.Keys == old(nodes).Keys
      ensures pins == old(pins) - {h}
    {
      ghost var t := T();
      assert PinOk(nodes, pins, h);
      forall m | OnPath(nodes, node, m) ensures nodes[m].lockCount >= 1 {
        PinsCounted(T(), h, m);
      }
      AddAlongPath(node, -1);
      UnlockInv(t, nodes, h);
      pins := pins - {h};
      KeepsPaths(t.nodes, nodes, node, -1);
    }

    /** The pin `src` is from now on the pin of `dst`: a handle has moved. */
    ghost method MovePin(src: nat, dst: nat)
      requires Ok() && dst !in pins && src != dst
      modifies this`pins
      ensures Ok() && pins == PinMoved(old(pins), src, dst)
    {
      MovePinInv(T(), src, dst);
      pins := PinMoved(pins, src, dst);
    }

    /** The loop of lock() and unlock(): climb from `node` to the root, adding `d` to each count. */
    method AddAlongPath(node: NodeId, d: int)
      requires Ok() && node in nodes && forall m :: OnPath(nodes, node, m) ==> nodes[m].lockCount + d >= 0
      modifies this`nodes
      ensures Counted(old(nodes), nodes, node, d)
    {
      ghost var ns := nodes;
      var n := node;
      while n != ROOT
        invariant n in ns && ns[n].path <= ns[node].path
        invariant nodes.Keys == ns.Keys
        invariant forall m: nat :: ClimbedAt(ns, nodes, node, d, |ns[n].path|, m)
        decreases |ns[n].path|
      {
        assert ClimbedAt(ns, nodes, node, d, |ns[n].path|, n);
        PathGrows(key, ns, n);
        var p := nodes[n].parent;
        ghost var before := nodes;
        nodes := nodes[n := nodes[n].(lockCount := nodes[n].lockCount + d)];
        forall m: nat ensures ClimbedAt(ns, nodes, node, d, |ns[p].path|, m) {
          assert ClimbedAt(ns, before, node, d, |ns[n].path|, m);
          ClimbStep(key, ns, node, n, m);
        }
        n := p;
      }
      forall m: nat ensures CountedAt(ns, nodes, node, d, m) {
        assert ClimbedAt(ns, nodes, node, d, |ns[ROOT].path|, m);
        if m in ns && m != ROOT {
          PathGrows(key, ns, m);
        }
      }
    }

    // --------------------------------------------------------------- insert

    ghost predicate Valid()
      reads this, pool
    {
      Ok() && pool.Valid() && Backed(index, pool.view)
    }

    /**
     Extend the index by the whole blocks of `tokens` that it lacks: `pos` of them it has, the blocks
     in `taken` it adopts. Refused exactly when another chunk holds the key.
     */
    method Insert(tokens: seq<TokenId>, blocks: seq<BlockId>)
      returns (adopted: nat, ghost pos: nat, ghost taken: seq<BlockId>)
      requires Valid() && NoDup(blocks)
      requires forall i :: 0 <= i < |blocks| ==> blocks[i] in pool.view.tier
      requires forall i: nat :: Adoptable(index, Limited(tokens, blocks), blocks, i)
      modifies this, pool
      ensures Valid() && PathsKept() && pins == old(pins) && pool.Still()
      ensures Inserted(key, old(index), index, old(pool.view), pool.view,
                       Limited(tokens, blocks), blocks, pos, taken)
      ensures adopted == |taken|
      ensures Recent(old(nodes), old(clock), nodes, Reach(Limited(tokens, blocks), pos, taken))
      ensures collisions == old(collisions) + if Refuses(key, old(index), Limited(tokens, blocks), pos) then 1 else 0
    {
      hide Inv, BlockPool.Valid, Backed, Inserted, Recent, Ends, LongestIn, Refuses;
      ghost var ns0, clock0 := nodes, clock;
      var cs := Limited(tokens, blocks);
      var cur, matched := Walk(cs);
      pos := |matched|;
      MatchIsLongest(cs, matched);
      if |matched| == |cs| {
        InsertedNothing(key, index, pool.view, cs, blocks);
        TouchAgain(cur, ns0, clock0);
        adopted, taken := 0, [];
      } else {
        adopted, taken := InsertAt(cur, cs, |matched|, blocks, ns0, clock0);
      }
    }

    /** Everything is there already: only the end of the walk is touched. */
    method TouchAgain(cur: NodeId, ghost ns0: Nodes, ghost clock0: nat)
      requires Ok() && cur in nodes && clock >= clock0 && Recent(ns0, clock0, nodes, nodes[cur].path)
      modifies this`nodes, this`clock
      ensures Ok() && PathsKept() && cur in nodes && Recent(ns0, clock0, nodes, old(nodes)[cur].path)
    {
      hide Inv, Recent;
      TouchInv(T(), cur);
      RecentAgain(ns0, clock0, nodes, cur, clock + 1);
      Touch(cur);
    }

    method InsertAt(cur: NodeId, cs: Path, pos: nat, blocks: seq<BlockId>, ghost ns0: Nodes, ghost clock0: nat)
      returns (adopted: nat, ghost taken: seq<BlockId>)
      requires Valid() && NoDup(blocks)
      requires forall i :: 0 <= i < |blocks| ==> blocks[i] in pool.view.tier
      requires forall i: nat :: Adoptable(index, cs, blocks, i)
      requires cur in nodes && pos < |cs| <= |blocks| && nodes[cur].path == cs[..pos] && LongestIn(index, cs, pos)
      requires clock >= clock0 && Recent(ns0, clock0, nodes, cs[..pos])
      modifies this, pool
      ensures Valid() && PathsKept() && pins == old(pins) && pool.Still()
      ensures Inserted(key, old(index), index, old(pool.view), pool.view, cs, blocks, pos, taken)
      ensures adopted == |taken| && Recent(ns0, clock0, nodes, Reach(cs, pos, taken))
      ensures collisions == old(collisions) + if Refuses(key, old(index), cs, pos) then 1 else 0
    {
      hide Recent;
      assert cs[..pos + 1] == cs[..pos] + [cs[pos]];
      TakenMeansCollision(key, nodes, index, cur, cs[pos]);
      if key(cs[pos]) in nodes[cur].children {
        AdoptNothing(index, pool.view, cs, pos);
        collisions := collisions + 1;
        adopted, taken := 0, [];
      } else {
        forall i | pos <= i < |cs| ensures !Stored(index, blocks[i]) {
          assert Adoptable(index, cs, blocks, i);
        }
        var rest := blocks[pos..|cs|];
        AdoptSuffix(cur, cs, pos, rest, ns0, clock0);
        adopted, taken := |rest|, rest;
      }
    }

    lemma MatchIsLongest(cs: Path, matched: seq<BlockId>)
      requires Ok() && Matched(index, cs, matched) && Ends(index, cs, |matched|)
      ensures LongestIn(index, cs, |matched|)
    {
      forall k | 0 < k <= |cs| ensures cs[..k] in index <==> k <= |matched| {
        LongestMatch(key, nodes, index, cs, matched, k);
      }
    }

    /** The blocks both `tokens` and `blocks` have: a partial block is never stored. */
    function Limited(tokens: seq<TokenId>, blocks: seq<BlockId>): (cs: Path)
      requires blockTokens > 0
      ensures |cs| <= |blocks| && cs <= Chunks(tokens, blockTokens)
    {
      var chunks := Chunks(tokens, blockTokens);
      if |chunks| <= |blocks| then chunks else chunks[..|blocks|]
    }

    /** Hang a new leaf off `cur` for the rest of `cs`, and take a reference on each of its blocks. */
    method AdoptSuffix(cur: NodeId, cs: Path, pos: nat, blks: seq<BlockId>, ghost ns0: Nodes, ghost clock0: nat)
      requires Valid() && cur in nodes && pos < |cs| && nodes[cur].path == cs[..pos] && |blks| == |cs| - pos
      requires key(cs[pos]) !in nodes[cur].children
      requires clock >= clock0 && Recent(ns0, clock0, nodes, cs[..pos])
      requires NoDup(blks) && forall i :: 0 <= i < |blks| ==> blks[i] in pool.view.tier && !Stored(index, blks[i])
      modifies this, pool
      ensures Valid() && PathsKept() && pins == old(pins) && collisions == old(collisions)
      ensures index == old(index) + Entries(cs, pos, blks) && pool.Still()
      ensures Adopted(old(pool.view), pool.view, Ids(blks)) && Recent(ns0, clock0, nodes, cs)
    {
      hide Inv, BlockPool.Valid, Backed, Recent;
      ghost var v, idx := pool.view, index;
      var toks := cs[pos..];
      assert nodes[cur].path + toks == cs;
      AddLeafInv(T(), cur, toks, blks);
      LeafPaths(T(), cur, toks, blks);
      RecentLeaf(T(), ns0, clock0, cur, toks, blks);
      HangLeaf(cur, toks, blks);
      IncrefAll(blks);
      AdoptBacked(idx, v, pool.view, cs, pos, blks);
    }

    method HangLeaf(cur: NodeId, toks: seq<Chunk>, blks: seq<BlockId>)
      requires CanAddLeaf(key, nodes, cur, toks, blks, next)
      modifies this`nodes, this`next, this`clock, this`numNodes, this`storedBlocks, this`index
      ensures T() == LeafAdded(old(T()), cur, toks, blks)
    {
      ghost var path := nodes[cur].path;
      nodes := nodes[cur := nodes[cur].(children := nodes[cur].children[key(toks[0]) := next])]
                    [next := Node(toks, blks, map[], cur, 0, clock + 1, nodes[cur].path + toks)];
      next, clock, numNodes, storedBlocks := next + 1, clock + 1, numNodes + 1, storedBlocks + |blks|;
      index := index + Entries(path + toks, |path|, blks);
    }

    method IncrefAll(blks: seq<BlockId>)
      requires pool.Valid() && NoDup(blks) && forall i :: 0 <= i < |blks| ==> blks[i] in pool.view.tier
      modifies pool
      ensures pool.Valid() && Adopted(old(pool.view), pool.view, Ids(blks)) && pool.Still()
    {
      ghost var v := pool.view;
      var i := 0;
      while i < |blks|
        invariant i <= |blks| && pool.Valid() && Adopted(v, pool.view, Ids(blks[..i]))
        invariant pool.Still()
      {
        pool.WorkersRun();
        assert blks[..i + 1] == blks[..i] + [blks[i]];
        pool.Incref(blks[i]);
        i := i + 1;
      }
      assert blks[..|blks|] == blks;
    }

    // ------------------------------------------------------------- eviction

    /** The children of `n`, in whatever order the map yields them. */
    method ChildList(n: NodeId) returns (cs: seq<NodeId>)
      requires Ok() && n in nodes
      ensures AreChildren(nodes, n, cs)
    {
      cs := ChildrenOf(nodes[n], T(), n);
    }

    static method ChildrenOf(nd: Node, ghost t: Tree, ghost n: NodeId) returns (cs: seq<NodeId>)
      requires Inv(t) && n in t.nodes && t.nodes[n] == nd
      ensures AreChildren(t.nodes, n, cs)
    {
      cs := [];
      var rest := nd.children.Keys;
      while rest != {}
        invariant rest <= nd.children.Keys && NoDup(cs)
        invariant forall c: nat :: c in cs <==>
                    exists k: nat :: k in nd.children && k !in rest && nd.children[k] == c
        decreases rest
      {
        var k :| k in rest;
        forall j: nat | j in nd.children && j != k ensures nd.children[j] != nd.children[k] {
          assert ChildOk(t.key, t.nodes, n, j) && ChildOk(t.key, t.nodes, n, k);
        }
        NoDupPush(cs, nd.children[k]);
        cs, rest := cs + [nd.children[k]], rest - {k};
      }
    }

    /** Least recently used unpinned leaf outside `rejected`, found by a walk over every node. */
    method FindLruLeaf(rejected: set<NodeId>) returns (best: Option<NodeId>)
      requires Ok()
      ensures IsLru(nodes, rejected, best)
    {
      best := None;
      var stack := [ROOT];
      ghost var seen: set<NodeId> := {};
      while stack != []
        invariant Reached(nodes, stack, seen) && BestSeen(nodes, rejected, seen, best)
        decreases nodes.Keys - seen
      {
        var n := Last(stack);
        var cs := ChildList(n);
        ReachStep(key, nodes, stack, seen, cs);
        if Eligible(nodes, rejected, n) && (best.None? || nodes[n].lastAccess < nodes[best.value].lastAccess) {
          best := Some(n);
        }
        stack, seen := ButLast(stack) + cs, seen + {n};
      }
      BestOfAll(key, nodes, rejected, seen, best);
    }

    method TreeIsSoleOwner(n: NodeId) returns (sole: bool)
      requires Valid() && n in nodes && n != ROOT
      ensures sole <==> Sole(pool.view, nodes[n].blocks)
    {
      NodeBlocks(T(), pool.view, n);
      var bs := nodes[n].blocks;
      var i := 0;
      while i < |bs|
        invariant i <= |bs| && Sole(pool.view, bs[..i])
      {
        assert ShowsBlock(pool.State(), pool.view, bs[i]);
        var rc := pool.Refcount(bs[i]);
        if rc != 1 {
          return false;
        }
        i := i + 1;
      }
      assert bs[..|bs|] == bs;
      sole := true;
    }

    /** Drop an unpinned leaf that only the tree holds: its entries go, and its blocks are freed. */
    method DropLeaf(victim: NodeId) returns (freed: nat)
      requires Valid() && Eligible(nodes, {}, victim) && Sole(pool.view, nodes[victim].blocks)
      modifies this, pool
      ensures Valid() && collisions == old(collisions) && OnlyDropped() && pool.Still()
      ensures CanDrop(key, old(nodes), victim) && nodes.Keys == old(nodes).Keys - {victim}
      ensures var nd := old(nodes)[victim];
              && |nd.blocks| == |nd.tokens| <= |nd.path| && freed == |nd.blocks| > 0
              && nodes == Drop(key, old(nodes), victim) && pins == old(pins)
              && index == old(index) - Own(nd).Keys && |index| + |nd.blocks| == |old(index)|
              && Shed(old(pool.view), pool.view, Ids(nd.blocks))
    {
      hide BlockPool.Valid, Backed, Shed;
      ghost var t, v := T(), pool.view;
      var bs := nodes[victim].blocks;
      NodeBlocks(t, v, victim);
      DropInv(t, victim);
      freed := FreeAll(bs);
      DropBacked(t, v, pool.view, victim);
      Unhang(victim);
      DropPaths(key, t.nodes, victim);
    }

    method FreeAll(bs: seq<BlockId>) returns (freed: nat)
      requires pool.Valid() && NoDup(bs) && Sole(pool.view, bs)
      requires forall i :: 0 <= i < |bs| ==> bs[i] in pool.view.tier
      modifies pool
      ensures pool.Valid() && freed == |bs| && Shed(old(pool.view), pool.view, Ids(bs))
      ensures pool.Still()
    {
      hide BlockPool.Valid, Shed;
      ghost var v := pool.view;
      ShedNothing(v);
      assert Ids(bs[..0]) == {};
      freed := 0;
      var i := 0;
      while i < |bs|
        invariant i <= |bs| && freed == i && pool.Valid() && Shed(v, pool.view, Ids(bs[..i]))
        invariant pool.Still()
      {
        ShedNext(v, pool.view, bs, i);
        pool.WorkersRun();
        var gone := pool.Decref(bs[i]);
        if gone { freed := freed + 1; }
        i := i + 1;
      }
      assert bs[..|bs|] == bs;
    }

    method Unhang(n: NodeId)
      requires CanDrop(key, nodes, n) && |nodes[n].blocks| == |nodes[n].tokens| <= |nodes[n].path|
      requires |nodes[n].blocks| <= storedBlocks && numNodes > 0
      modifies this`nodes, this`numNodes, this`storedBlocks, this`index
      ensures T() == Dropped(old(T()), n)
    {
      assert NodeOk(key, nodes, n);
      ghost var own := Own(nodes[n]).Keys;
      var nd := nodes[n];
      storedBlocks, numNodes := storedBlocks - |nd.blocks|, numNodes - 1;
      nodes := nodes[nd.parent := nodes[nd.parent].(children := nodes[nd.parent].children - {key(nd.tokens[0])})] - {n};
      index := index - own;
    }

    /** What is left of the tree: no node is new, and none that is left has moved. */
    twostate predicate OnlyDropped()
      reads this
    {
      SamePaths(nodes, old(nodes))
    }

    /**
     Free blocks by dropping least recently used unpinned leaves, until `num` are freed or no leaf
     that only the tree holds is left. `gone` are the blocks freed; `victims` the leaves dropped, in
     order, the tree going through the states of `trace`.
     */
    method Evict(num: nat)
      returns (freed: nat, ghost gone: set<BlockId>, ghost trace: seq<Nodes>, ghost victims: seq<NodeId>)
      requires Valid()
      modifies this, pool
      ensures pool.Still()
      ensures Valid() && OnlyDropped() && pins == old(pins)
      ensures freed + |index| == |old(index)| && Evicting(old(index), index, old(pool.view), pool.view, gone)
      ensures EvictRun(key, old(pool.view), num, trace, victims)
      ensures trace[0] == old(nodes) && Last(trace) == nodes && freed == Freed(trace, victims, |victims|)
      ensures freed >= num || Exhausted(nodes, pool.view)
    {
      hide Inv, BlockPool.Valid, Backed, Evicting, Exhausted, DropRun, AllShared;
      ghost var v, idx := pool.view, index;
      EvictingStart(idx, v);
      RunStart(key, v, nodes);
      freed, gone, trace, victims := 0, {}, [nodes], [];
      var rejected, more := {}, true;
      assert AllShared(nodes, pool.view, rejected) by { NoneShared(nodes, pool.view); }
      while freed < num && more
        invariant Valid() && OnlyDropped() && pins == old(pins) && pool.Still()
        invariant freed + |index| == |idx| && Evicting(idx, index, v, pool.view, gone)
        invariant AllShared(nodes, pool.view, rejected)
        invariant more || Exhausted(nodes, pool.view)
        invariant Logged(key, v, num, trace, victims, freed) && trace[0] == old(nodes) && Last(trace) == nodes
        decreases nodes.Keys - rejected, more
      {
        var victim := FindLruLeaf(rejected);
        if victim.None? {
          RejectedAll(nodes, pool.view, rejected);
          more := false;
        } else {
          rejected, freed, gone, trace, victims :=
            EvictOrReject(victim.value, num, rejected, freed, gone, trace, victims, v, idx);
        }
      }
      if !more {
        ExhaustedSame(T(), idx, v, pool.view, gone);
      }
    }

    /** Drop the leaf `n` if only the tree holds its blocks; otherwise set it aside. */
    method EvictOrReject(n: NodeId, num: nat, rejected0: set<NodeId>, freed0: nat, ghost gone0: set<BlockId>,
                         ghost trace0: seq<Nodes>, ghost victims0: seq<NodeId>,
                         ghost v: View, ghost idx: map<Path, BlockId>)
      returns (rejected: set<NodeId>, freed: nat, ghost gone: set<BlockId>,
               ghost trace: seq<Nodes>, ghost victims: seq<NodeId>)
      requires Valid() && IsLru(nodes, rejected0, Some(n)) && AllShared(nodes, pool.view, rejected0)
      requires freed0 + |index| == |idx| && Evicting(idx, index, v, pool.view, gone0) && freed0 < num
      requires trace0 != [] && Logged(key, v, num, trace0, victims0, freed0) && Last(trace0) == nodes
      modifies this, pool
      ensures pool.Still()
      ensures Valid() && OnlyDropped() && pins == old(pins) && AllShared(nodes, pool.view, rejected)
      ensures freed + |index| == |idx| && Evicting(idx, index, v, pool.view, gone)
      ensures nodes.Keys - rejected == old(nodes).Keys - rejected0 - {n}
      ensures trace != [] && Logged(key, v, num, trace, victims, freed)
      ensures Last(trace) == nodes && trace[0] == trace0[0]
    {
      hide Inv, BlockPool.Valid, Backed, Evicting, Sole, AllShared, Logged;
      rejected, freed, gone, trace, victims := rejected0, freed0, gone0, trace0, victims0;
      var sole := TreeIsSoleOwner(n);
      if sole {
        LruIsOldestSole(T(), idx, v, pool.view, gone, rejected, n);
        freed, gone, trace := DropAndLog(n, num, rejected, freed, gone, trace, victims, v, idx);
        victims := victims + [n];
      } else {
        RejectShared(nodes, pool.view, rejected, n);
        rejected := rejected + {n};
      }
    }

    method DropAndLog(n: NodeId, ghost num: nat, ghost rejected: set<NodeId>, freed0: nat, ghost gone0: set<BlockId>,
                      ghost trace0: seq<Nodes>, ghost victims: seq<NodeId>, ghost v: View, ghost idx: map<Path, BlockId>)
      returns (freed: nat, ghost gone: set<BlockId>, ghost trace: seq<Nodes>)
      requires Valid() && AllShared(nodes, pool.view, rejected)
      requires OldestSole(nodes, v, n) && Eligible(nodes, {}, n) && Sole(pool.view, nodes[n].blocks)
      requires freed0 + |index| == |idx| && Evicting(idx, index, v, pool.view, gone0) && freed0 < num
      requires trace0 != [] && Logged(key, v, num, trace0, victims, freed0) && Last(trace0) == nodes
      modifies this, pool
      ensures pool.Still()
      ensures Valid() && OnlyDropped() && pins == old(pins) && AllShared(nodes, pool.view, rejected)
      ensures freed + |index| == |idx| && Evicting(idx, index, v, pool.view, gone)
      ensures nodes.Keys == old(nodes).Keys - {n}
      ensures Logged(key, v, num, trace, victims + [n], freed)
      ensures trace != [] && Last(trace) == nodes && trace[0] == trace0[0]
    {
      ghost var t, m := T(), pool.view;
      hide Inv, BlockPool.Valid, Backed, Evicting, Sole, Shed, AllShared, Logged, OldestSole, OnlyDropped, Drop;
      var k := DropLeaf(n);
      gone, trace := DropLogged(t, n, idx, v, m, pool.view, gone0, rejected, num, trace0, victims, freed0);
      freed := freed0 + k;
    }

    // ------------------------------------------------------------- demotion

    /**
     Up to `num` compute-tier blocks from unpinned leaves, coldest leaves first: distinct, at rest, and
     held by the tree alone. Fewer only when there are no more such blocks. Nothing is moved.
     */
    method PickDemotionVictims(num: nat) returns (out: seq<BlockId>)
      requires Valid()
      ensures |out| <= num && NoDup(out)
      ensures forall i :: 0 <= i < |out| ==> Victim(nodes, pool.view, out[i])
      ensures |out| < num ==> forall id: nat :: Victim(nodes, pool.view, id) ==> id in out
      ensures ColdestFirst(nodes, pool.view, out) && Ordered(nodes, out)
    {
      hide Inv, BlockPool.Valid, Backed, Victim, Picked, AllPicked, Cold, ColdestFirst, Ordered, Sifted;
      out := [];
      var rejected, more := {}, true;
      PickNothing(nodes, pool.view);
      while |out| < num && more
        invariant |out| <= num && Picked(nodes, pool.view, rejected, out)
        invariant |out| < num ==> AllPicked(nodes, pool.view, rejected, out)
        invariant Cold(nodes, rejected) && ColdestFirst(nodes, pool.view, out) && Ordered(nodes, out)
        invariant more || forall id: nat :: Victim(nodes, pool.view, id) ==> id in out
        decreases nodes.Keys - rejected, more
      {
        var victim := FindLruLeaf(rejected);
        if victim.None? {
          PickedEverything(nodes, pool.view, rejected, out);
          more := false;
        } else {
          var n := victim.value;
          var seen, some := Sift(n, num - |out|);
          PickMore(T(), pool.view, rejected, out, n, seen, some);
          SiftedFrom(pool.view, nodes[n].blocks, seen, some);
          PickCold(T(), pool.view, rejected, out, n, some);
          out, rejected := out + some, rejected + {n};
        }
      }
      PickedVictims(nodes, pool.view, rejected, out);
      PickedDistinct(nodes, pool.view, rejected, out);
    }

    /** The demotable blocks of leaf `n`, at most `room` of them; `seen` blocks were looked at. */
    method Sift(n: NodeId, room: nat) returns (seen: nat, some: seq<BlockId>)
      requires Valid() && n in nodes && n != ROOT && room > 0
      ensures Sifted(pool.view, nodes[n].blocks, seen, some) && |some| <= room
      ensures seen == |nodes[n].blocks| || |some| == room
    {
      NodeBlocks(T(), pool.view, n);
      hide Inv, BlockPool.Valid, Backed, Sifted;
      var bs := nodes[n].blocks;
      seen, some := 0, [];
      SiftNone(pool.view, bs);
      while seen < |bs| && |some| < room
        invariant seen <= |bs| && |some| <= room && Sifted(pool.view, bs, seen, some)
      {
        SiftOne(pool.view, bs, seen, some);
        var ok := IsDemotable(bs[seen]);
        if ok {
          some := some + [bs[seen]];
        }
        seen := seen + 1;
      }
    }

    method IsDemotable(id: BlockId) returns (ok: bool)
      requires pool.Valid() && id in pool.view.tier
      ensures ok <==> Demotable(pool.view, id)
    {
      assert ShowsBlock(pool.State(), pool.view, id);
      var tier := pool.BlockTier(id);
      var rc := pool.Refcount(id);
      var busy := pool.Migrating(id);
      ok := tier == 0 && rc == 1 && !busy;
    }

    // ------------------------------------------------------------- teardown

    /** The destructor: take the nodes apart one at a time, giving back every stored block once. */
    method Teardown()
      requires Valid()
      modifies this`nodes, pool
      ensures pool.Valid() && nodes == map[]
      ensures Released(old(pool.view), pool.view, BlocksOf(old(nodes), old(nodes).Keys))
    {
      ghost var t, v := T(), pool.view;
      TeardownStart();
      hide Inv, BlockPool.Valid, Backed, Released, Reached;
      var pending := [ROOT];
      ghost var seen: set<NodeId> := {};
      assert nodes == t.nodes - seen;
      while pending != []
        invariant pool.Valid() && Released(v, pool.view, BlocksOf(t.nodes, seen))
        invariant Reached(t.nodes, pending, seen) && nodes == t.nodes - seen && seen <= t.nodes.Keys
        decreases t.nodes.Keys - seen
      {
        pending, seen := Dismantle(pending, seen, t, v);
      }
      SeenAll(t, seen);
    }

    lemma TeardownStart()
      requires Valid()
      ensures forall id: nat :: id in pool.view.tier ==> id < |pool.view.rc| && pool.view.rc[id] > 0
      ensures Released(pool.view, pool.view, BlocksOf(nodes, {})) && Reached(nodes, [ROOT], {})
    {
      forall id: nat | id in pool.view.tier ensures id < |pool.view.rc| && pool.view.rc[id] > 0 {
        assert ShowsBlock(pool.State(), pool.view, id);
      }
      ReleaseNone(pool.view);
      assert BlocksOf(nodes, {}) == {};
      assert forall n: nat :: ReachedAt(nodes, [ROOT], {}, n);
    }

    static lemma SeenAll(t: Tree, seen: set<NodeId>)
      requires Inv(t) && Reached(t.nodes, [], seen)
      ensures seen == t.nodes.Keys
    {
      forall n | n in t.nodes ensures n in seen {
        AllReached(t.key, t.nodes, seen, n);
      }
    }

    method Dismantle(pending0: seq<NodeId>, ghost seen0: set<NodeId>, ghost t: Tree, ghost v: View)
      returns (pending: seq<NodeId>, ghost seen: set<NodeId>)
      requires Inv(t) && t.key == key && Backed(t.index, v) && pool.Valid()
      requires forall id: nat :: id in v.tier ==> id < |v.rc| && v.rc[id] > 0
      requires Released(v, pool.view, BlocksOf(t.nodes, seen0))
      requires pending0 != [] && Reached(t.nodes, pending0, seen0) && nodes == t.nodes - seen0
      modifies this`nodes, pool
      ensures pool.Valid() && Released(v, pool.view, BlocksOf(t.nodes, seen))
      ensures Reached(t.nodes, pending, seen) && nodes == t.nodes - seen
      ensures Last(pending0) in t.nodes && Last(pending0) !in seen0 && seen == seen0 + {Last(pending0)}
    {
      var n := Last(pending0);
      BlocksOfNext(t, v, seen0, n);
      hide BlockPool.Valid, Backed, Released;
      ReleaseBlocks(nodes[n].blocks, BlocksOf(t.nodes, seen0), v);
      var cs := ChildrenOf(nodes[n], t, n);
      ReachStep(key, t.nodes, pending0, seen0, cs);
      pending, seen := ButLast(pending0) + cs, seen0 + {n};
      nodes := nodes - {n};
    }

    method ReleaseBlocks(bs: seq<BlockId>, ghost ids: set<BlockId>, ghost v: View)
      requires pool.Valid() && NoDup(bs) && Released(v, pool.view, ids)
      requires forall i :: 0 <= i < |bs| ==> bs[i] in v.tier && bs[i] < |v.rc| && v.rc[bs[i]] > 0 && bs[i] !in ids
      modifies pool
      ensures pool.Valid() && Released(v, pool.view, ids + Ids(bs))
    {
      hide BlockPool.Valid, Released;
      var i := 0;
      assert ids + Ids(bs[..0]) == ids;
      while i < |bs|
        invariant i <= |bs| && pool.Valid() && Released(v, pool.view, ids + Ids(bs[..i]))
      {
        pool.WorkersRun();
        ReleaseNext(v, pool.view, ids, bs, i);
        var freed := pool.Decref(bs[i]);
        i := i + 1;
      }
      assert bs[..|bs|] == bs;
    }
  }

  /** The climb has passed the nodes on the path longer than `floor`, and no others. */
  ghost predicate ClimbedAt(ns: Nodes, ns': Nodes, node: NodeId, d: int, floor: nat, m: NodeId) {
    && (m in ns <==> m in ns')
    && (m in ns ==>
          && ns'[m] == ns[m].(lockCount := ns'[m].lockCount)
          && ns'[m].lockCount == ns[m].lockCount + if OnPath(ns, node, m) && |ns[m].path| > floor then d else 0)
  }

  /** Between a node and its parent there is no other node of the path. */
  lemma ClimbStep(key: Key, ns: Nodes, node: NodeId, n: NodeId, m: NodeId)
    requires Structure(key, ns) && node in ns && n in ns && n != ROOT && ns[n].path <= ns[node].path
    ensures OnPath(ns, node, n)
    ensures OnPath(ns, node, m) && Off(ns[n]) < |ns[m].path| <= |ns[n].path| ==> m == n
  {
    if OnPath(ns, node, m) && Off(ns[n]) < |ns[m].path| <= |ns[n].path| {
      var k := |ns[m].path|;
      PathGrows(key, ns, m);
      assert ns[m].path[..k] == ns[node].path[..k] == ns[n].path[..k];
      Unique(key, ns, n, m, k);
    }
  }

  lemma KeepsPaths(ns: Nodes, ns': Nodes, n: NodeId, d: int)
    requires Counted(ns, ns', n, d)
    ensures ns'.Keys == ns.Keys && forall m :: m in ns ==> m in ns' && ns'[m].path == ns[m].path
  {
    forall m: nat ensures m in ns <==> m in ns' ensures m in ns ==> m in ns' && ns'[m].path == ns[m].path {
      assert CountedAt(ns, ns', n, d, m);
    }
  }
}
