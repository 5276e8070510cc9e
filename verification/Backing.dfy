/** How the prefix index and the pool fit together: which blocks the index holds, and giving them back. */
module Backing {
  import opened Types
  import opened TreeModel
  import opened TreeSteps
  import opened TreeWalk
  import opened PoolView
  import opened PoolOps

  ghost predicate OneHome(idx: map<Path, BlockId>, p: Path, q: Path) {
    p in idx && q in idx && idx[p] == idx[q] ==> p == q
  }

  /** No block is stored twice, and every stored block is allocated. */
  ghost predicate Backed(idx: map<Path, BlockId>, v: View) {
    && (forall p, q :: OneHome(idx, p, q))
    && (forall p :: p in idx ==> idx[p] in v.tier)
  }

  ghost predicate Stored(idx: map<Path, BlockId>, id: BlockId) {
    exists p :: p in idx && idx[p] == id
  }

  function Ids(bs: seq<BlockId>): (s: set<BlockId>)
    ensures forall b :: b in s <==> b in bs
  {
    set b | b in bs
  }

  /** The blocks in `gone` were freed, and nothing else happened to any block. */
  ghost predicate Shed(v: View, v': View, gone: set<BlockId>) {
    && v'.tier == v.tier - gone && v'.target == v.target - gone && v'.val == v.val - gone
    && |v'.rc| == |v.rc| && (forall id :: 0 <= id < |v.rc| ==> v'.rc[id] == if id in gone then 0 else v.rc[id])
    && |v'.free| == |v.free| && (forall t :: 0 <= t < |v.free| ==> v'.free[t] >= v.free[t])
    && Room(v') == Room(v)
  }

  lemma ShedNothing(v: View)
    ensures Shed(v, v, {})
  {
  }

  lemma ShedRoom(v: View, v': View, gone: set<BlockId>)
    requires Shed(v, v', gone)
    ensures Room(v') == Room(v)
  {
  }

  /** Each block freed frees at most one compute slot. */
  lemma ShedFree(v: View, v': View, gone: set<BlockId>)
    requires Shed(v, v', gone) && |v.free| > 0
    ensures v'.free[0] <= v.free[0] + |gone|
  {
    var r, r' := Resident(v), Resident(v');
    assert r <= r' + gone;
    assert r' + gone == r + ((r' + gone) - r);
    assert |r' + gone| <= |r'| + |gone|;
  }

  lemma ShedOne(v: View, m: View, gone: set<BlockId>, id: BlockId)
    requires Shed(v, m, gone)
    requires id < |m.rc| && id in m.tier && m.tier[id] < |m.free| && m.rc[id] == 1
    ensures Shed(v, VDecref(m, id), gone + {id})
  {
    var v' := VDecref(m, id);
    RoomDecref(m, id);
    assert v'.tier == v.tier - (gone + {id});
    assert v'.target == v.target - (gone + {id});
    assert v'.val == v.val - (gone + {id});
  }

  /** Freeing blocks one after the other, each held once. */
  lemma ShedNext(v: View, m: View, bs: seq<BlockId>, i: nat)
    requires NoDup(bs) && Sole(v, bs) && i < |bs| && bs[i] in v.tier && Shed(v, m, Ids(bs[..i]))
    ensures bs[i] in m.tier && bs[i] < |m.rc| && m.rc[bs[i]] == 1
    ensures m.tier[bs[i]] < |m.free| ==> Shed(v, VDecref(m, bs[i]), Ids(bs[..i + 1]))
  {
    assert bs[i] !in bs[..i];
    assert Ids(bs[..i + 1]) == Ids(bs[..i]) + {bs[i]};
    if m.tier[bs[i]] < |m.free| {
      ShedOne(v, m, Ids(bs[..i]), bs[i]);
    }
  }

  lemma ShedTwice(v: View, m: View, v': View, a: set<BlockId>, b: set<BlockId>)
    requires Shed(v, m, a) && Shed(m, v', b)
    ensures Shed(v, v', a + b)
  {
    assert v'.tier == v.tier - (a + b);
    assert v'.target == v.target - (a + b);
    assert v'.val == v.val - (a + b);
  }

  /** A node's blocks are pairwise distinct, and stored. */
  lemma NodeBlocks(t: Tree, v: View, n: NodeId)
    requires Inv(t) && Backed(t.index, v) && n in t.nodes && n != ROOT
    ensures |t.nodes[n].blocks| == |t.nodes[n].tokens| > 0 && 0 <= Off(t.nodes[n])
    ensures NoDup(t.nodes[n].blocks)
    ensures forall i :: 0 <= i < |t.nodes[n].blocks| ==> t.nodes[n].blocks[i] in v.tier
    ensures forall i :: 0 <= i < |t.nodes[n].blocks| ==>
              EntryIs(t.index, t.nodes[n].path, Off(t.nodes[n]) + i, t.nodes[n].blocks[i])
  {
    var nd := t.nodes[n];
    assert NodeOk(t.key, t.nodes, n);
    PathGrows(t.key, t.nodes, n);
    forall i | 0 <= i < |nd.blocks| ensures EntryIs(t.index, nd.path, Off(nd) + i, nd.blocks[i]) {
      assert EntryOk(t.nodes, t.index, n, Off(nd) + i + 1);
    }
    forall i, j | 0 <= i < j < |nd.blocks| ensures nd.blocks[i] != nd.blocks[j] {
      assert EntryIs(t.index, nd.path, Off(nd) + i, nd.blocks[i]);
      assert EntryIs(t.index, nd.path, Off(nd) + j, nd.blocks[j]);
      assert OneHome(t.index, nd.path[..Off(nd) + i + 1], nd.path[..Off(nd) + j + 1]);
      assert |nd.path[..Off(nd) + i + 1]| != |nd.path[..Off(nd) + j + 1]|;
    }
    forall i | 0 <= i < |nd.blocks| ensures nd.blocks[i] in v.tier {
      assert EntryIs(t.index, nd.path, Off(nd) + i, nd.blocks[i]);
    }
  }

  /** Dropping a node's entries and freeing exactly its blocks keeps the index backed. */
  lemma DropBacked(t: Tree, v: View, v': View, n: NodeId)
    requires Inv(t) && Backed(t.index, v) && n in t.nodes && n != ROOT
    requires |t.nodes[n].blocks| == |t.nodes[n].tokens| <= |t.nodes[n].path|
    requires Shed(v, v', Ids(t.nodes[n].blocks))
    ensures Backed(t.index - Own(t.nodes[n]).Keys, v')
  {
    var nd, idx' := t.nodes[n], t.index - Own(t.nodes[n]).Keys;
    NodeBlocks(t, v, n);
    forall p, q ensures OneHome(idx', p, q) {
      assert OneHome(t.index, p, q);
    }
    forall p | p in idx' ensures idx'[p] !in nd.blocks {
      if idx'[p] in nd.blocks {
        var i :| 0 <= i < |nd.blocks| && nd.blocks[i] == idx'[p];
        assert EntryIs(t.index, nd.path, Off(nd) + i, nd.blocks[i]);
        assert OneHome(t.index, p, nd.path[..Off(nd) + i + 1]);
        EntriesHave(nd.path, Off(nd), nd.blocks, Off(nd) + i + 1);
      }
    }
  }

  /** The counts of the blocks in `ids` went up by one, and nothing else changed. */
  ghost predicate Adopted(v: View, v': View, ids: set<BlockId>) {
    && v' == v.(rc := v'.rc) && |v'.rc| == |v.rc|
    && forall id :: 0 <= id < |v.rc| ==> v'.rc[id] == v.rc[id] + if id in ids then 1 else 0
  }

  /** Entries for blocks stored nowhere else keep the index backed. */
  lemma AdoptBacked(idx: map<Path, BlockId>, v: View, v': View, full: Path, o: nat, blks: seq<BlockId>)
    requires Backed(idx, v) && o + |blks| <= |full| && v'.tier == v.tier
    requires NoDup(blks) && forall i :: 0 <= i < |blks| ==> blks[i] in v.tier && !Stored(idx, blks[i])
    ensures Backed(idx + Entries(full, o, blks), v')
  {
    var more := Entries(full, o, blks);
    var idx' := idx + more;
    forall p | p in more ensures o < |p| <= o + |blks| && p == full[..|p|] && more[p] == blks[|p| - o - 1] {
      EntriesOnly(full, o, blks, p);
      EntriesHave(full, o, blks, |p|);
    }
    forall p, q ensures OneHome(idx', p, q) {
      assert OneHome(idx, p, q);
    }
  }

  /** A child under the key of chunk `c` but starting with another chunk. */
  ghost predicate Collides(key: Key, idx: map<Path, BlockId>, base: Path, c: Chunk, other: Chunk) {
    base + [other] in idx && key(other) == key(c) && other != c
  }

  /** After a walk that ends at `cur`, the key slot is taken exactly when some stored chunk collides. */
  lemma TakenMeansCollision(key: Key, ns: Nodes, idx: map<Path, BlockId>, cur: NodeId, c: Chunk)
    requires Structure(key, ns) && Indexed(ns, idx) && cur in ns && ns[cur].path + [c] !in idx
    ensures key(c) in ns[cur].children <==> exists other :: Collides(key, idx, ns[cur].path, c, other)
  {
    var base := ns[cur].path;
    if key(c) in ns[cur].children {
      var n := ns[cur].children[key(c)];
      assert ChildOk(key, ns, cur, key(c)) && NodeOk(key, ns, n);
      var other := ns[n].tokens[0];
      assert ns[n].path[..|base| + 1] == base + [other];
      assert EntryOk(ns, idx, n, |base| + 1);
      assert Collides(key, idx, base, c, other);
    }
    if other :| Collides(key, idx, base, c, other) {
      var p := base + [other];
      assert EntryHeld(ns, idx, p);
      var n: nat :| HeldBy(ns, p, n);
      NextStep(key, ns, cur, n, p);
    }
  }

  ghost predicate Refuses(key: Key, idx: map<Path, BlockId>, cs: Path, pos: nat) {
    pos < |cs| && exists c :: Collides(key, idx, cs[..pos], cs[pos], c)
  }

  /** `pos` is how much of `cs` is stored. */
  ghost predicate LongestIn(idx: map<Path, BlockId>, cs: Path, pos: nat) {
    pos <= |cs| && forall k :: 0 < k <= |cs| ==> (cs[..k] in idx <==> k <= pos)
  }

  /** A block offered for a prefix that is not stored must not be stored elsewhere. */
  ghost predicate Adoptable(idx: map<Path, BlockId>, cs: Path, blocks: seq<BlockId>, i: nat) {
    i < |cs| && i < |blocks| ==> cs[..i + 1] in idx || !Stored(idx, blocks[i])
  }

  lemma AdoptNothing(idx: map<Path, BlockId>, v: View, cs: Path, pos: nat)
    requires pos <= |cs|
    ensures idx == idx + Entries(cs, pos, []) && Adopted(v, v, Ids([]))
  {
  }

  /** What insert() makes of `cs`, of which `pos` chunks were stored: it extends the map, or refuses. */
  ghost predicate Inserted(key: Key, idx: map<Path, BlockId>, idx': map<Path, BlockId>, v: View, v': View,
                           cs: Path, blocks: seq<BlockId>, pos: nat, taken: seq<BlockId>) {
    && LongestIn(idx, cs, pos) && |cs| <= |blocks|
    && taken == (if Refuses(key, idx, cs, pos) then [] else blocks[pos..|cs|])
    && idx' == idx + Entries(cs, pos, taken)
    && Adopted(v, v', Ids(taken))
  }

  lemma InsertedNothing(key: Key, idx: map<Path, BlockId>, v: View, cs: Path, blocks: seq<BlockId>)
    requires LongestIn(idx, cs, |cs|) && |cs| <= |blocks|
    ensures Inserted(key, idx, idx, v, v, cs, blocks, |cs|, []) && !Refuses(key, idx, cs, |cs|)
  {
    AdoptNothing(idx, v, cs, |cs|);
  }

  // ----------------------------------------------------------------- eviction

  /** Nobody but the tree holds any of these blocks. */
  ghost predicate Sole(v: View, bs: seq<BlockId>) {
    forall i :: 0 <= i < |bs| ==> bs[i] < |v.rc| && v.rc[bs[i]] == 1
  }

  /** Blocks of different nodes are different. */
  lemma BlocksApart(t: Tree, v: View, n: NodeId, m: NodeId, id: BlockId)
    requires Inv(t) && Backed(t.index, v) && n in t.nodes && m in t.nodes && n != ROOT && m != ROOT
    requires id in t.nodes[n].blocks && id in t.nodes[m].blocks
    ensures n == m
  {
    NodeBlocks(t, v, n);
    NodeBlocks(t, v, m);
    var a, b := t.nodes[n], t.nodes[m];
    var i :| 0 <= i < |a.blocks| && a.blocks[i] == id;
    var j :| 0 <= j < |b.blocks| && b.blocks[j] == id;
    assert EntryIs(t.index, a.path, Off(a) + i, a.blocks[i]) && EntryIs(t.index, b.path, Off(b) + j, b.blocks[j]);
    var p, q := a.path[..Off(a) + i + 1], b.path[..Off(b) + j + 1];
    assert OneHome(t.index, p, q);
    assert |p| == |q|;
    Unique(t.key, t.nodes, n, m, |p|);
  }

  /** The index lost entries and changed none. */
  ghost predicate Within(idx': map<Path, BlockId>, idx: map<Path, BlockId>) {
    forall p :: p in idx' ==> p in idx && idx'[p] == idx[p]
  }

  lemma WithinSelf(idx: map<Path, BlockId>)
    ensures Within(idx, idx)
  {
  }

  lemma WithinTwice(idx'': map<Path, BlockId>, idx': map<Path, BlockId>, idx: map<Path, BlockId>)
    requires Within(idx'', idx') && Within(idx', idx)
    ensures Within(idx'', idx)
  {
  }

  lemma WithinFull(idx': map<Path, BlockId>, idx: map<Path, BlockId>)
    requires Within(idx', idx) && |idx'| == |idx|
    ensures idx' == idx
  {
    var a, b := idx'.Keys, idx.Keys;
    assert |a| == |idx'| && |b| == |idx|;
    assert b == a + (b - a);
  }

  /** The blocks in `gone` are those that left the index. */
  ghost predicate GoneFrom(idx: map<Path, BlockId>, idx': map<Path, BlockId>, gone: set<BlockId>) {
    forall id: nat :: id in gone <==> Stored(idx, id) && !Stored(idx', id)
  }

  lemma DropGone(t: Tree, v: View, n: NodeId, idx: map<Path, BlockId>, gone: set<BlockId>)
    requires Inv(t) && Backed(t.index, v) && n in t.nodes && n != ROOT
    requires |t.nodes[n].blocks| == |t.nodes[n].tokens| <= |t.nodes[n].path|
    requires Within(t.index, idx) && GoneFrom(idx, t.index, gone)
    ensures Within(t.index - Own(t.nodes[n]).Keys, idx)
    ensures GoneFrom(idx, t.index - Own(t.nodes[n]).Keys, gone + Ids(t.nodes[n].blocks))
  {
    var nd, idx' := t.nodes[n], t.index - Own(t.nodes[n]).Keys;
    NodeBlocks(t, v, n);
    assert forall p :: p in idx' ==> p in t.index && t.index[p] == idx'[p];
    forall id | id in nd.blocks ensures Stored(idx, id) && !Stored(idx', id) {
      var i :| 0 <= i < |nd.blocks| && nd.blocks[i] == id;
      var q := nd.path[..Off(nd) + i + 1];
      assert EntryIs(t.index, nd.path, Off(nd) + i, nd.blocks[i]);
      assert q in idx && idx[q] == id;
      EntriesHave(nd.path, Off(nd), nd.blocks, Off(nd) + i + 1);
      assert forall p :: p in idx' ==> OneHome(t.index, p, q);
    }
    hide Inv, Backed;
    forall id: nat | Stored(t.index, id) && !Stored(idx', id) ensures id in nd.blocks {
      var p :| p in t.index && t.index[p] == id;
      assert p in Own(nd);
      EntriesOnly(nd.path, Off(nd), nd.blocks, p);
      EntriesHave(nd.path, Off(nd), nd.blocks, |p|);
      assert EntryIs(t.index, nd.path, |p| - 1, nd.blocks[|p| - Off(nd) - 1]);
    }
  }

  /** What an eviction that started from `idx` and `v` has done so far. */
  ghost predicate Evicting(idx: map<Path, BlockId>, idx': map<Path, BlockId>, v: View, v': View, gone: set<BlockId>) {
    Within(idx', idx) && GoneFrom(idx, idx', gone) && Shed(v, v', gone)
  }

  lemma EvictingStart(idx: map<Path, BlockId>, v: View)
    ensures Evicting(idx, idx, v, v, {})
  {
  }

  lemma EvictingMore(t: Tree, n: NodeId, idx: map<Path, BlockId>, v: View, m: View, v': View, gone: set<BlockId>)
    requires Inv(t) && Backed(t.index, m) && n in t.nodes && n != ROOT
    requires |t.nodes[n].blocks| == |t.nodes[n].tokens| <= |t.nodes[n].path|
    requires Evicting(idx, t.index, v, m, gone) && Shed(m, v', Ids(t.nodes[n].blocks))
    ensures Evicting(idx, t.index - Own(t.nodes[n]).Keys, v, v', gone + Ids(t.nodes[n].blocks))
  {
    DropGone(t, m, n, idx, gone);
    ShedTwice(v, m, v', gone, Ids(t.nodes[n].blocks));
  }

  /** Each rejected node still there has a block that somebody else holds. */
  ghost predicate AllShared(ns: Nodes, v: View, rejected: set<NodeId>) {
    forall n: nat :: n in rejected && n in ns ==> !Sole(v, ns[n].blocks)
  }

  /** No leaf that only the tree holds is left to drop. */
  ghost predicate Exhausted(ns: Nodes, v: View) {
    forall n: nat :: Eligible(ns, {}, n) ==> !Sole(v, ns[n].blocks)
  }

  lemma RejectedAll(ns: Nodes, v: View, rejected: set<NodeId>)
    requires AllShared(ns, v, rejected) && IsLru(ns, rejected, None)
    ensures Exhausted(ns, v)
  {
    forall n: nat | Eligible(ns, {}, n) ensures !Sole(v, ns[n].blocks) {
      assert !Eligible(ns, rejected, n);
    }
  }

  lemma SharedStay(key: Key, ns: Nodes, n: NodeId, v: View, v': View, rejected: set<NodeId>)
    requires CanDrop(key, ns, n) && Sole(v, ns[n].blocks) && Shed(v, v', Ids(ns[n].blocks))
    requires AllShared(ns, v, rejected)
    ensures AllShared(Drop(key, ns, n), v', rejected)
  {
    var ns' := Drop(key, ns, n);
    DropShape(key, ns, n);
    forall m: nat | m in rejected && m in ns' ensures !Sole(v', ns'[m].blocks) {
      var bs := ns[m].blocks;
      var i :| 0 <= i < |bs| && !(bs[i] < |v.rc| && v.rc[bs[i]] == 1);
      assert bs[i] !in ns[n].blocks;
      assert ns'[m].blocks[i] == bs[i];
    }
  }

  // ----------------------------------------------------------------- demotion

  /** A block worth demoting: in the compute tier, at rest, and held by the tree alone. */
  ghost predicate Demotable(v: View, id: BlockId) {
    id in v.tier && v.tier[id] == 0 && id !in v.target && id < |v.rc| && v.rc[id] == 1
  }

  /** `id` belongs to the unpinned leaf `n`. */
  ghost predicate InLeaf(ns: Nodes, n: NodeId, id: BlockId) {
    Eligible(ns, {}, n) && id in ns[n].blocks
  }

  ghost predicate Victim(ns: Nodes, v: View, id: BlockId) {
    Demotable(v, id) && exists n: nat :: InLeaf(ns, n, id)
  }

  /** `out` has distinct demotable blocks, all from leaves in `rejected`. */
  ghost predicate Picked(ns: Nodes, v: View, rejected: set<NodeId>, out: seq<BlockId>) {
    && NoDup(out)
    && (forall i :: 0 <= i < |out| ==> Demotable(v, out[i]) && FromLeaf(ns, rejected, out[i]))
  }

  ghost predicate FromLeaf(ns: Nodes, among: set<NodeId>, id: BlockId) {
    exists n: nat :: n in among && InLeaf(ns, n, id)
  }

  /** Every demotable block of the leaves in `rejected` is in `out`. */
  ghost predicate AllPicked(ns: Nodes, v: View, rejected: set<NodeId>, out: seq<BlockId>) {
    forall n: nat, id: nat :: n in rejected && InLeaf(ns, n, id) && Demotable(v, id) ==> id in out
  }

  lemma PickNothing(ns: Nodes, v: View)
    ensures Picked(ns, v, {}, []) && AllPicked(ns, v, {}, []) && Cold(ns, {}) && ColdestFirst(ns, v, []) && Ordered(ns, [])
  {
  }

  lemma PickedDistinct(ns: Nodes, v: View, rejected: set<NodeId>, out: seq<BlockId>)
    requires Picked(ns, v, rejected, out)
    ensures NoDup(out)
  {
  }

  lemma PickedVictims(ns: Nodes, v: View, rejected: set<NodeId>, out: seq<BlockId>)
    requires Picked(ns, v, rejected, out)
    ensures forall i :: 0 <= i < |out| ==> Victim(ns, v, out[i])
  {
  }

  /** Having picked from every eligible leaf, there is no victim left out. */
  lemma PickedEverything(ns: Nodes, v: View, rejected: set<NodeId>, out: seq<BlockId>)
    requires AllPicked(ns, v, rejected, out) && IsLru(ns, rejected, None)
    ensures forall id: nat :: Victim(ns, v, id) ==> id in out
  {
    forall id: nat | Victim(ns, v, id) ensures id in out {
      var n: nat :| InLeaf(ns, n, id);
      assert !Eligible(ns, rejected, n);
    }
  }

  /** A block of a leaf not yet picked from has not been picked. */
  lemma NotYetPicked(t: Tree, v: View, rejected: set<NodeId>, out: seq<BlockId>, n: NodeId, id: BlockId)
    requires Inv(t) && Backed(t.index, v) && Picked(t.nodes, v, rejected, out)
    requires n in t.nodes && n != ROOT && n !in rejected && id in t.nodes[n].blocks
    ensures id !in out
  {
    if id in out {
      var i :| 0 <= i < |out| && out[i] == id;
      assert FromLeaf(t.nodes, rejected, out[i]);
      var m: nat :| m in rejected && InLeaf(t.nodes, m, id);
      BlocksApart(t, v, n, m, id);
    }
  }

  /** The first `i` blocks of leaf `n` have been looked at: `more` are the demotable ones. */
  ghost predicate Sifted(v: View, bs: seq<BlockId>, i: nat, more: seq<BlockId>) {
    && i <= |bs| && NoDup(more)
    && (forall k :: 0 <= k < |more| ==> more[k] in bs[..i] && Demotable(v, more[k]))
    && (forall k :: 0 <= k < i && Demotable(v, bs[k]) ==> bs[k] in more)
  }

  lemma SiftNone(v: View, bs: seq<BlockId>)
    ensures Sifted(v, bs, 0, [])
  {
  }

  lemma SiftedFrom(v: View, bs: seq<BlockId>, i: nat, more: seq<BlockId>)
    requires Sifted(v, bs, i, more)
    ensures forall k :: 0 <= k < |more| ==> more[k] in bs
  {
  }

  lemma SiftOne(v: View, bs: seq<BlockId>, i: nat, more: seq<BlockId>)
    requires Sifted(v, bs, i, more) && i < |bs| && NoDup(bs)
    ensures Sifted(v, bs, i + 1, if Demotable(v, bs[i]) then more + [bs[i]] else more)
  {
    assert bs[i] !in bs[..i];
    assert bs[..i + 1] == bs[..i] + [bs[i]];
    if Demotable(v, bs[i]) {
      NoDupPush(more, bs[i]);
    }
  }

  /** Add what was sifted from leaf `n`; `i` is the number of its blocks looked at. */
  lemma PickMore(t: Tree, v: View, rejected: set<NodeId>, out: seq<BlockId>, n: NodeId, i: nat, more: seq<BlockId>)
    requires Inv(t) && Backed(t.index, v) && Eligible(t.nodes, rejected, n)
    requires Picked(t.nodes, v, rejected, out) && Sifted(v, t.nodes[n].blocks, i, more)
    ensures Picked(t.nodes, v, rejected + {n}, out + more)
    ensures AllPicked(t.nodes, v, rejected, out) && i == |t.nodes[n].blocks| ==>
              AllPicked(t.nodes, v, rejected + {n}, out + more)
  {
    var ns, bs := t.nodes, t.nodes[n].blocks;
    forall k | 0 <= k < |more| ensures more[k] in bs && more[k] !in out && InLeaf(ns, n, more[k]) {
      assert more[k] in bs[..i];
      NotYetPicked(t, v, rejected, out, n, more[k]);
    }
    NoDupConcat(out, more);
    forall k | 0 <= k < |out + more|
      ensures Demotable(v, (out + more)[k]) && FromLeaf(ns, rejected + {n}, (out + more)[k])
    {
      if k < |out| {
        assert FromLeaf(ns, rejected, out[k]);
      } else {
        assert InLeaf(ns, n, more[k - |out|]);
      }
    }
    if AllPicked(ns, v, rejected, out) && i == |bs| {
      forall m: nat, id: nat | m in rejected + {n} && InLeaf(ns, m, id) && Demotable(v, id) ensures id in out + more {
        if m == n {
          var k :| 0 <= k < |bs| && bs[k] == id;
        }
      }
    }
  }

  /** What has been picked from is no more recent than any eligible leaf that has not. */
  ghost predicate ColdPair(ns: Nodes, rejected: set<NodeId>, n: NodeId, m: NodeId) {
    n in rejected && n in ns && Eligible(ns, rejected, m) ==> ns[n].lastAccess <= ns[m].lastAccess
  }

  ghost predicate Cold(ns: Nodes, rejected: set<NodeId>) {
    forall n: nat, m: nat :: ColdPair(ns, rejected, n, m)
  }

  /** If `x` was picked, and `y` could have been and was not, the leaf of `x` is no more recent. */
  ghost predicate ColderAt(ns: Nodes, v: View, out: seq<BlockId>, n: NodeId, x: BlockId, m: NodeId, y: BlockId) {
    x in out && InLeaf(ns, n, x) && y !in out && InLeaf(ns, m, y) && Demotable(v, y) ==>
      ns[n].lastAccess <= ns[m].lastAccess
  }

  /** The picks are the coldest there are. */
  ghost predicate ColdestFirst(ns: Nodes, v: View, out: seq<BlockId>) {
    forall n: nat, x: nat, m: nat, y: nat :: ColderAt(ns, v, out, n, x, m, y)
  }

  /** The picks come in order of recency, the coldest leaf first. */
  ghost predicate OrderedAt(ns: Nodes, out: seq<BlockId>, i: nat, j: nat, n: NodeId, m: NodeId) {
    i < j < |out| && InLeaf(ns, n, out[i]) && InLeaf(ns, m, out[j]) ==> ns[n].lastAccess <= ns[m].lastAccess
  }

  ghost predicate Ordered(ns: Nodes, out: seq<BlockId>) {
    forall i: nat, j: nat, n: nat, m: nat :: OrderedAt(ns, out, i, j, n, m)
  }

  /** What of the picks is demoted, if not all, is the coldest of what could be: the rest of them is no colder. */
  ghost predicate ColdChoiceAt(ns: Nodes, v: View, demoted: seq<BlockId>, n: NodeId, x: BlockId, m: NodeId, y: BlockId) {
    x in demoted && InLeaf(ns, n, x) && InLeaf(ns, m, y) && Demotable(v, y) ==> ns[n].lastAccess <= ns[m].lastAccess
  }

  /** No block that could still be demoted is in a colder leaf than one that was. */
  ghost predicate ColdChoice(ns: Nodes, v: View, demoted: seq<BlockId>) {
    forall n: nat, x: nat, m: nat, y: nat :: ColdChoiceAt(ns, v, demoted, n, x, m, y)
  }

  /** `v'` is after the first `k` picks were demoted: those are not demotable any more, and nothing else became so. */
  lemma PrefixIsCold(ns: Nodes, v: View, v': View, out: seq<BlockId>, k: nat)
    requires k <= |out| && ColdestFirst(ns, v, out) && Ordered(ns, out)
    requires forall y: nat :: Demotable(v', y) ==> Demotable(v, y) && y !in out[..k]
    ensures ColdChoice(ns, v', out[..k])
  {
    var some := out[..k];
    forall n: nat, x: nat, m: nat, y: nat ensures ColdChoiceAt(ns, v', some, n, x, m, y) {
      if x in some && InLeaf(ns, n, x) && InLeaf(ns, m, y) && Demotable(v', y) {
        var i :| 0 <= i < k && out[i] == x;
        if y in out {
          var j :| 0 <= j < |out| && out[j] == y;
          assert out[..k][i] == x;
          assert OrderedAt(ns, out, i, j, n, m);
        } else {
          assert ColderAt(ns, v, out, n, x, m, y);
        }
      }
    }
  }

  lemma PickedFrom(t: Tree, v: View, rejected: set<NodeId>, out: seq<BlockId>, n: NodeId, x: BlockId)
    requires Inv(t) && Backed(t.index, v) && Picked(t.nodes, v, rejected, out) && x in out && InLeaf(t.nodes, n, x)
    ensures n in rejected
  {
    var i :| 0 <= i < |out| && out[i] == x;
    assert FromLeaf(t.nodes, rejected, out[i]);
    var m: nat :| m in rejected && InLeaf(t.nodes, m, x);
    BlocksApart(t, v, n, m, x);
  }

  lemma PickOrdered(t: Tree, v: View, rejected: set<NodeId>, out: seq<BlockId>, n: NodeId, more: seq<BlockId>)
    requires Inv(t) && Backed(t.index, v) && IsLru(t.nodes, rejected, Some(n)) && Cold(t.nodes, rejected)
    requires Picked(t.nodes, v, rejected + {n}, out + more)
    requires Ordered(t.nodes, out) && forall k :: 0 <= k < |more| ==> more[k] in t.nodes[n].blocks
    ensures Ordered(t.nodes, out + more)
  {
    var ns, all := t.nodes, out + more;
    forall i: nat, j: nat, a: nat, b: nat ensures OrderedAt(ns, all, i, j, a, b) {
      if i < j < |all| && InLeaf(ns, a, all[i]) && InLeaf(ns, b, all[j]) {
        if j < |out| {
          assert OrderedAt(ns, out, i, j, a, b);
        } else {
          BlocksApart(t, v, b, n, all[j]);
          PickedFrom(t, v, rejected + {n}, all, a, all[i]);
          assert ColdPair(ns, rejected, a, n);
        }
      }
    }
  }

  lemma PickCold(t: Tree, v: View, rejected: set<NodeId>, out: seq<BlockId>, n: NodeId, more: seq<BlockId>)
    requires Inv(t) && Backed(t.index, v) && IsLru(t.nodes, rejected, Some(n)) && Cold(t.nodes, rejected)
    requires AllPicked(t.nodes, v, rejected, out) && Picked(t.nodes, v, rejected + {n}, out + more)
    requires Ordered(t.nodes, out) && forall k :: 0 <= k < |more| ==> more[k] in t.nodes[n].blocks
    ensures Cold(t.nodes, rejected + {n}) && ColdestFirst(t.nodes, v, out + more) && Ordered(t.nodes, out + more)
  {
    PickOrdered(t, v, rejected, out, n, more);
    var ns, rejected' := t.nodes, rejected + {n};
    forall q: nat, m: nat ensures ColdPair(ns, rejected', q, m) {
      assert ColdPair(ns, rejected, q, m);
      assert Eligible(ns, rejected', m) ==> Eligible(ns, rejected, m);
    }
    var out' := out + more;
    forall q: nat, x: nat, m: nat, y: nat ensures ColderAt(ns, v, out', q, x, m, y) {
      if x in out' && InLeaf(ns, q, x) && y !in out' && InLeaf(ns, m, y) && Demotable(v, y) {
        PickedFrom(t, v, rejected', out', q, x);
        assert ColdPair(ns, rejected, q, m) && Eligible(ns, rejected, m);
      }
    }
  }

  // ----------------------------------------------------------------- teardown

  /** Every block in `ids` lost one reference, and those left with none are gone. */
  ghost predicate Released(v: View, v': View, ids: set<BlockId>) {
    && |v'.rc| == |v.rc|
    && (forall id :: 0 <= id < |v.rc| ==> v'.rc[id] + (if id in ids then 1 else 0) == v.rc[id])
    && (forall id: nat :: id in v'.tier <==> id in v.tier && id < |v.rc| && v'.rc[id] > 0)
  }

  lemma ReleaseNone(v: View)
    requires forall id: nat :: id in v.tier ==> id < |v.rc| && v.rc[id] > 0
    ensures Released(v, v, {})
  {
  }

  lemma ReleaseNext(v: View, m: View, ids: set<BlockId>, bs: seq<BlockId>, i: nat)
    requires NoDup(bs) && i < |bs| && bs[i] in v.tier && bs[i] < |v.rc| && v.rc[bs[i]] > 0 && bs[i] !in ids
    requires Released(v, m, ids + Ids(bs[..i]))
    ensures bs[i] in m.tier && bs[i] < |m.rc| && m.rc[bs[i]] > 0
    ensures m.tier[bs[i]] < |m.free| ==> Released(v, VDecref(m, bs[i]), ids + Ids(bs[..i + 1]))
  {
    assert bs[i] !in bs[..i];
    assert ids + Ids(bs[..i + 1]) == ids + Ids(bs[..i]) + {bs[i]};
    if m.tier[bs[i]] < |m.free| {
      ReleaseOne(v, m, ids + Ids(bs[..i]), bs[i]);
    }
  }

  lemma ReleaseOne(v: View, m: View, ids: set<BlockId>, id: BlockId)
    requires Released(v, m, ids) && id !in ids && id in m.tier
    requires id < |m.rc| && m.rc[id] > 0 && m.tier[id] < |m.free|
    ensures Released(v, VDecref(m, id), ids + {id})
  {
  }

  /** The blocks of a set of nodes. */
  ghost function BlocksOf(ns: Nodes, seen: set<NodeId>): set<BlockId> {
    set n, b | n in seen && n in ns && b in ns[n].blocks :: b
  }

  /** Going on to node `n`: its blocks are new, and allocated. */
  lemma BlocksOfNext(t: Tree, v: View, seen: set<NodeId>, n: NodeId)
    requires Inv(t) && Backed(t.index, v) && n in t.nodes && n !in seen
    ensures BlocksOf(t.nodes, seen + {n}) == BlocksOf(t.nodes, seen) + Ids(t.nodes[n].blocks)
    ensures NoDup(t.nodes[n].blocks)
    ensures forall i :: 0 <= i < |t.nodes[n].blocks| ==>
              t.nodes[n].blocks[i] in v.tier && t.nodes[n].blocks[i] !in BlocksOf(t.nodes, seen)
  {
    if n != ROOT {
      NodeBlocks(t, v, n);
      forall i | 0 <= i < |t.nodes[n].blocks| ensures t.nodes[n].blocks[i] !in BlocksOf(t.nodes, seen) {
        var id := t.nodes[n].blocks[i];
        if id in BlocksOf(t.nodes, seen) {
          var m, b :| m in seen && m in t.nodes && b in t.nodes[m].blocks && b == id;
          assert m != ROOT;
          BlocksApart(t, v, n, m, id);
        }
      }
    }
  }

  /** The blocks of all nodes are the blocks in the index. */
  lemma AllBlocks(t: Tree, id: BlockId)
    requires Inv(t)
    ensures id in BlocksOf(t.nodes, t.nodes.Keys) <==> Stored(t.index, id)
  {
    if Stored(t.index, id) {
      var n := StoredInNode(t, id);
    } else if id in BlocksOf(t.nodes, t.nodes.Keys) {
      var n, b :| n in t.nodes && b in t.nodes[n].blocks && b == id;
      NodeIsStored(t, n, id);
    }
  }

  lemma StoredInNode(t: Tree, id: BlockId) returns (n: NodeId)
    requires Inv(t) && Stored(t.index, id)
    ensures n in t.nodes && n != ROOT && id in t.nodes[n].blocks
  {
    var p :| p in t.index && t.index[p] == id;
    assert EntryHeld(t.nodes, t.index, p);
    n :| HeldBy(t.nodes, p, n);
    assert NodeOk(t.key, t.nodes, n) && EntryOk(t.nodes, t.index, n, |p|);
    assert p == t.nodes[n].path[..|p|];
    assert t.nodes[n].blocks[|p| - 1 - Off(t.nodes[n])] == id;
  }

  lemma NodeIsStored(t: Tree, n: NodeId, id: BlockId)
    requires Inv(t) && n in t.nodes && id in t.nodes[n].blocks
    ensures Stored(t.index, id)
  {
    var nd := t.nodes[n];
    assert n != ROOT && NodeOk(t.key, t.nodes, n);
    var i :| 0 <= i < |nd.blocks| && nd.blocks[i] == id;
    PathGrows(t.key, t.nodes, n);
    assert EntryOk(t.nodes, t.index, n, Off(nd) + i + 1);
    assert t.index[nd.path[..Off(nd) + i + 1]] == id;
  }
}
