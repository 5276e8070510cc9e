/** What the system's invariant is worth to those who use the cache. */
module Guarantees {
  import opened Types
  import PoolModel
  import opened TreeModel
  import opened TreeSteps
  import opened TreeWalk
  import opened PoolView
  import opened PoolOps
  import PoolRuns
  import opened Backing
  import opened SystemModel
  import opened Requests
  import opened Planning
  import opened Eviction
  import opened Stability

  // -------------------------------------------------------------- transparency

  /** Cached entry `i` of a live table holds what computing the first `i + 1` blocks would produce. */
  lemma Transparent(bt: nat, kv: Kv, t: Tree, v: View, hs: Handles, h: Hid, i: nat)
    requires Core(bt, kv, t, v, hs) && Live(hs, h) && i < hs[h].cachedBlocks
    ensures i < |hs[h].blocks| && i < |Chunks(hs[h].tokens, bt)| && hs[h].blocks[i] in v.val
    ensures v.val[hs[h].blocks[i]] == kv(Chunks(hs[h].tokens, bt)[..i + 1])
  {
    assert HandleOk(bt, t, hs, h);
    var cs, bs := Chunks(hs[h].tokens, bt), hs[h].blocks[..hs[h].cachedBlocks];
    assert EntryIs(t.index, cs, i, bs[i]) && ContentOk(v, t.index, kv, cs[..i + 1]);
  }

  /** The same of memory: in the arena, at the block's address, once it is in the compute tier. */
  lemma TransparentInMemory(bt: nat, kv: Kv, t: Tree, s: PoolModel.Pool, v: View, hs: Handles, h: Hid, i: nat)
    requires Core(bt, kv, t, v, hs) && Live(hs, h) && i < hs[h].cachedBlocks && Shows(s, v)
    ensures i < |hs[h].blocks| && i < |Chunks(hs[h].tokens, bt)|
    ensures var id := hs[h].blocks[i];
            && id < |s.location| && s.location[id] in s.mem && id in v.tier && s.location[id].tier == v.tier[id]
            && s.mem[s.location[id]] == kv(Chunks(hs[h].tokens, bt)[..i + 1])
  {
    Transparent(bt, kv, t, v, hs, h, i);
    assert ShowsBlock(s, v, hs[h].blocks[i]);
  }

  /** Entry `i` of the table lies in the compute tier and reads as its prefix computed. */
  ghost predicate Holds(bt: nat, kv: Kv, s: PoolModel.Pool, a: Handle, i: nat)
    requires bt > 0
  {
    && i < |a.blocks| && i < |Chunks(a.tokens, bt)|
    && var id := a.blocks[i];
       && id < |s.location| && s.location[id].tier == 0 && s.location[id] in s.mem
       && s.mem[s.location[id]] == kv(Chunks(a.tokens, bt)[..i + 1])
  }

  // -------------------------------------------------------------------- gate

  /** Every block of the table is in the compute tier. */
  ghost predicate AllHome(v: View, bs: seq<BlockId>) {
    forall i :: 0 <= i < |bs| ==> bs[i] in v.tier && v.tier[bs[i]] == 0
  }

  /** With nothing in flight every live table is ready. */
  lemma GateOpens(v: View, hs: Handles, h: Hid)
    requires Gated(v, hs, None) && Live(hs, h) && v.target == map[]
    ensures AllHome(v, hs[h].blocks)
  {
    forall i | 0 <= i < |hs[h].blocks| ensures hs[h].blocks[i] in v.tier && v.tier[hs[h].blocks[i]] == 0 {
      assert GateOk(v, hs, h, i);
    }
  }

  /** With no promotions in the background every live table is ready, always. */
  lemma QuietIsHome(v: View, hs: Handles, h: Hid)
    requires Gated(v, hs, None) && Live(hs, h) && Quiet(false, v)
    ensures AllHome(v, hs[h].blocks)
  {
    forall i | 0 <= i < |hs[h].blocks| ensures hs[h].blocks[i] in v.tier && v.tier[hs[h].blocks[i]] == 0 {
      assert GateOk(v, hs, h, i);
    }
  }

  /** Nothing in flight, or the job is among the finished ones at the front of the queue. */
  ghost predicate ArrivesBy(s: PoolModel.Pool, id: BlockId) {
    id in s.migrating ==> s.migrating[id] < s.head + PoolModel.FrontLen(s.jobs)
  }

  /** A drain brings a table's block home, if it was not, exactly when its promotion is in the finished front. */
  lemma DrainBringsHome(s: PoolModel.Pool, v: View, v': View, k: nat, hs: Handles, h: Hid, i: nat)
    requires Shows(s, v) && Gated(v, hs, None) && Live(hs, h) && i < |hs[h].blocks|
    requires Drained(v, v') && FinishedFront(s, k) && Completes(s, v, v', k)
    ensures hs[h].blocks[i] in v'.tier && (v'.tier[hs[h].blocks[i]] == 0 <==> ArrivesBy(s, hs[h].blocks[i]))
  {
    FrontIs(s, k);
    assert GateOk(v, hs, h, i) && ShowsBlock(s, v, hs[h].blocks[i]);
    assert Settled(v, v', hs[h].blocks[i]);
  }

  lemma GateAnswers(s: PoolModel.Pool, v: View, v': View, k: nat, hs: Handles, h: Hid)
    requires Shows(s, v) && Gated(v, hs, None) && Live(hs, h)
    requires Drained(v, v') && FinishedFront(s, k) && Completes(s, v, v', k)
    ensures AllHome(v', hs[h].blocks) <==> forall i: nat :: i < |hs[h].blocks| ==> ArrivesBy(s, hs[h].blocks[i])
  {
    forall i: nat | i < |hs[h].blocks|
      ensures hs[h].blocks[i] in v'.tier && (v'.tier[hs[h].blocks[i]] == 0 <==> ArrivesBy(s, hs[h].blocks[i]))
    {
      DrainBringsHome(s, v, v', k, hs, h, i);
    }
  }

  lemma NothingInFlight(s: PoolModel.Pool, v: View)
    requires Shows(s, v) && s.migrating == map[]
    ensures v.target == map[]
  {
    forall id: nat ensures id !in v.target {
      assert ShowsBlock(s, v, id);
    }
  }

  // ------------------------------------------------------------- conservation

  /** The fresh entries of all live tables, and the blocks they name. */
  ghost function FreshEntries(hs: Handles): map<(Hid, nat), BlockId> {
    map h, i | h in hs && 0 <= i < |hs[h].blocks| && Live(hs, h) && hs[h].cachedBlocks <= i :: (h, i) := hs[h].blocks[i]
  }

  lemma {:induction false} InjectiveCard<K, V>(m: map<K, V>)
    requires forall a, b :: a in m && b in m && m[a] == m[b] ==> a == b
    ensures |m.Values| == |m|
    decreases |m|
  {
    if m != map[] {
      var k :| k in m;
      var rest := m - {k};
      forall a | a in rest ensures rest[a] == m[a] && m[a] != m[k] {
      }
      InjectiveCard(rest);
      forall x | x in m.Values ensures x in rest.Values + {m[k]} {
        var a :| a in m && m[a] == x;
        assert a == k || a in rest;
      }
      forall x | x in rest.Values ensures x in m.Values && x != m[k] {
        var a :| a in rest && rest[a] == x;
      }
      assert m.Values == rest.Values + {m[k]};
    }
  }

  lemma FreshEntriesAre(hs: Handles, id: BlockId)
    ensures id in FreshEntries(hs).Values <==> IsFresh(hs, id)
  {
    if h: nat, i: nat :| FreshAt(hs, h, i, id) {
      assert FreshEntries(hs)[(h, i)] == id;
    }
    if id in FreshEntries(hs).Values {
      var k :| k in FreshEntries(hs) && FreshEntries(hs)[k] == id;
      assert FreshAt(hs, k.0, k.1, id);
    }
  }

  /**
   No reference is lost or invented: the blocks in use are the stored ones and the fresh ones,
   each counted once, and together as many as the tree and the live handles say.
   */
  lemma Conserved(bt: nat, kv: Kv, t: Tree, v: View, hs: Handles)
    requires Core(bt, kv, t, v, hs)
    ensures v.tier.Keys == t.index.Values + FreshEntries(hs).Values
    ensures t.index.Values !! FreshEntries(hs).Values
    ensures forall id: nat :: id in v.tier ==> id < |v.rc| && v.rc[id] == 1
    ensures |v.tier| == t.stored + |FreshEntries(hs)|
  {
    Accounted(t, v, hs);
    StoredOnce(t.index, v);
    FreshOnce(v, t.index, hs);
    assert t.stored == |t.index|;
    hide Core, FreshEntries;
    assert |v.tier| == |v.tier.Keys|;
  }

  lemma Accounted(t: Tree, v: View, hs: Handles)
    requires Backed(t.index, v) && OwnersOk(v, t.index, hs)
    ensures v.tier.Keys == t.index.Values + FreshEntries(hs).Values
    ensures t.index.Values !! FreshEntries(hs).Values
    ensures forall id: nat :: id in v.tier ==> id < |v.rc| && v.rc[id] == 1
  {
    forall id: nat
      ensures id in v.tier <==> id in t.index.Values || id in FreshEntries(hs).Values
      ensures !(id in t.index.Values && id in FreshEntries(hs).Values)
      ensures id in v.tier ==> id < |v.rc| && v.rc[id] == 1
    {
      FreshEntriesAre(hs, id);
      StoredOrFresh(t, v, hs, id);
    }
  }

  lemma StoredOnce(idx: map<Path, BlockId>, v: View)
    requires Backed(idx, v)
    ensures |idx.Values| == |idx|
  {
    assert forall a, b :: a in idx && b in idx && idx[a] == idx[b] ==> OneHome(idx, a, b);
    InjectiveCard(idx);
  }

  /** As many blocks are gone as entries. */
  lemma GoneCount(idx: map<Path, BlockId>, idx': map<Path, BlockId>, v: View, gone: set<BlockId>)
    requires Backed(idx, v) && Within(idx', idx) && GoneFrom(idx, idx', gone)
    ensures |idx'| + |gone| == |idx|
  {
    StoredOnce(idx, v);
    assert Backed(idx', v) by {
      forall p, q ensures OneHome(idx', p, q) {
        assert OneHome(idx, p, q);
      }
    }
    StoredOnce(idx', v);
    forall id: nat ensures id in idx.Values <==> id in idx'.Values || id in gone {
      assert id in idx.Values <==> Stored(idx, id);
      assert id in idx'.Values <==> Stored(idx', id);
    }
    assert idx.Values == idx'.Values + gone;
  }

  /** What the tree stores, or goes on storing, nobody else held. */
  lemma StoredIsSole(bt: nat, kv: Kv, t: Tree, v: View, hs: Handles, t': Tree)
    requires Core(bt, kv, t, v, hs) && Inv(t') && Within(t'.index, t.index)
    ensures AllSole(v, t'.nodes)
  {
    forall n: nat | n in t'.nodes ensures Sole(v, t'.nodes[n].blocks) {
      var bs := t'.nodes[n].blocks;
      forall i | 0 <= i < |bs| ensures bs[i] < |v.rc| && v.rc[bs[i]] == 1 {
        NodeIsStored(t', n, bs[i]);
        assert Stored(t.index, bs[i]);
        StoredOrFresh(t, v, hs, bs[i]);
      }
    }
  }

  /** stored_blocks() is what a walk over all nodes would count, and no block is counted twice. */
  lemma StoredCount(t: Tree, v: View)
    requires Inv(t) && Backed(t.index, v)
    ensures t.stored == |BlocksOf(t.nodes, t.nodes.Keys)|
  {
    forall id: nat ensures id in BlocksOf(t.nodes, t.nodes.Keys) <==> id in t.index.Values {
      AllBlocks(t, id);
    }
    StoredOnce(t.index, v);
    assert BlocksOf(t.nodes, t.nodes.Keys) == t.index.Values;
  }

  lemma FreshOnce(v: View, idx: map<Path, BlockId>, hs: Handles)
    requires OwnersOk(v, idx, hs)
    ensures |FreshEntries(hs).Values| == |FreshEntries(hs)|
  {
    var own := FreshEntries(hs);
    forall a, b | a in own && b in own && own[a] == own[b] ensures a == b {
      assert FreshAt(hs, a.0, a.1, own[a]) && FreshAt(hs, b.0, b.1, own[a]);
      assert FreshApart(hs, a.0, a.1, b.0, b.1, own[a]);
    }
    InjectiveCard(own);
  }

  lemma StoredOrFresh(t: Tree, v: View, hs: Handles, id: BlockId)
    requires Backed(t.index, v) && OwnersOk(v, t.index, hs)
    ensures id in v.tier <==> Stored(t.index, id) || IsFresh(hs, id)
    ensures !(Stored(t.index, id) && IsFresh(hs, id))
    ensures id in v.tier ==> id < |v.rc| && v.rc[id] == 1
    ensures Stored(t.index, id) <==> id in t.index.Values
  {
    assert RcOk(v, t.index, hs, id);
    if h: nat, i: nat :| FreshAt(hs, h, i, id) {
      assert FreshOk(v, t.index, hs, h, i, id);
    }
  }

  /** The pool's own count of blocks in use agrees with its view. */
  lemma UsedCount(s: PoolModel.Pool, v: View)
    requires PoolModel.Inv(s) && Shows(s, v)
    ensures |s.freeIds| + |v.tier| == |s.location|
  {
    hide PoolModel.SlotsOk, PoolModel.JobsOk, PoolModel.WorkersOk, PoolModel.Allocated;
    NoDupCard(s.freeIds);
    forall id: nat
      ensures id < |s.location| <==> id in Ids(s.freeIds) || id in v.tier.Keys
      ensures !(id in Ids(s.freeIds) && id in v.tier.Keys)
    {
      IdUse(s, v, id);
    }
    hide PoolModel.Inv, Shows;
    PartitionCard(|s.location|, Ids(s.freeIds), v.tier.Keys);
  }

  lemma IdUse(s: PoolModel.Pool, v: View, id: BlockId)
    requires PoolModel.Inv(s) && Shows(s, v)
    ensures id < |s.location| <==> id in s.freeIds || id in v.tier
    ensures !(id in s.freeIds && id in v.tier)
  {
    hide PoolModel.SlotsOk, PoolModel.JobsOk, PoolModel.WorkersOk;
    assert PoolModel.IdOk(s, id) && ShowsBlock(s, v, id);
  }

  lemma PartitionCard(n: nat, a: set<nat>, b: set<nat>)
    requires forall i: nat :: i < n <==> i in a || i in b
    requires forall i: nat :: !(i in a && i in b)
    ensures |a| + |b| == n
  {
    assert Below(n) == a + b;
  }

  ghost function Below(n: nat): (s: set<nat>)
    ensures |s| == n && forall i: nat :: i in s <==> i < n
  {
    if n == 0 then {} else Below(n - 1) + {n - 1}
  }

  lemma {:induction false} NoDupCard(xs: seq<BlockId>)
    requires NoDup(xs)
    ensures |Ids(xs)| == |xs|
  {
    if xs != [] {
      NoDupPop(xs);
      NoDupCard(ButLast(xs));
      assert Ids(xs) == Ids(ButLast(xs)) + {Last(xs)};
    }
  }

  /** With no handle live, taking the tree apart leaves the pool empty. */
  lemma TeardownEmpties(bt: nat, kv: Kv, t: Tree, v: View, v': View, hs: Handles)
    requires Core(bt, kv, t, v, hs) && forall h: nat :: !Live(hs, h)
    requires Released(v, v', BlocksOf(t.nodes, t.nodes.Keys))
    ensures v'.tier == map[]
  {
    forall id: nat ensures id !in v'.tier {
      StoredOrFresh(t, v, hs, id);
      AllBlocks(t, id);
      assert !IsFresh(hs, id);
    }
  }

  // ------------------------------------------------------------------- refusal

  /** Stored blocks belong to the tree alone, so eviction only stops at pins. */
  lemma ExhaustedMeansPinned(bt: nat, kv: Kv, t: Tree, v: View, hs: Handles, n: NodeId)
    requires Core(bt, kv, t, v, hs) && Exhausted(t.nodes, v) && n in t.nodes && n != ROOT
    ensures t.nodes[n].lockCount > 0
  {
    if t.nodes[n].lockCount == 0 {
      var leaf := UnpinnedLeafBelow(t, n);
      NodeBlocks(t, v, leaf);
      var bs := t.nodes[leaf].blocks;
      forall i | 0 <= i < |bs| ensures bs[i] < |v.rc| && v.rc[bs[i]] == 1 {
        StoredOrFresh(t, v, hs, bs[i]);
      }
      assert Sole(v, bs);
    }
  }

  /** Every node but the root is pinned. */
  ghost predicate AllPinned(ns: Nodes) {
    forall n: nat :: n in ns && n != ROOT ==> ns[n].lockCount > 0
  }

  /** With every node pinned, every block in use is in some live table. */
  lemma AllHeld(bt: nat, kv: Kv, t: Tree, v: View, hs: Handles, id: BlockId)
    requires Core(bt, kv, t, v, hs) && AllPinned(t.nodes) && id in v.tier
    ensures InTable(hs, id)
  {
    StoredOrFresh(t, v, hs, id);
    if Stored(t.index, id) {
      var n := StoredInNode(t, id);
      PinnedIsHeld(bt, kv, t, v, hs, n, id);
    } else {
      var h: nat, i: nat :| FreshAt(hs, h, i, id);
      assert TableAt(hs, h, i, id);
    }
  }

  /** A block of a pinned node is a cached entry of the table that pins it. */
  lemma PinnedIsHeld(bt: nat, kv: Kv, t: Tree, v: View, hs: Handles, n: NodeId, id: BlockId)
    requires Core(bt, kv, t, v, hs) && n in t.nodes && n != ROOT && t.nodes[n].lockCount > 0 && id in t.nodes[n].blocks
    ensures InTable(hs, id)
  {
    var h := PinAbove(t, n);
    NodeBlocks(t, v, n);
    assert PinAgrees(t.pins, hs, h) && HandleOk(bt, t, hs, h);
    hide Inv, Backed, Core;
    var nd, a, cs := t.nodes[n], hs[h], Chunks(hs[h].tokens, bt);
    var j :| 0 <= j < |nd.blocks| && nd.blocks[j] == id;
    var i := Off(nd) + j;
    assert EntryIs(t.index, nd.path, i, nd.blocks[j]);
    assert nd.path <= cs[..a.cachedBlocks];
    assert cs[..i + 1] == nd.path[..i + 1];
    assert EntryIs(t.index, cs, i, a.blocks[..a.cachedBlocks][i]);
    assert TableAt(hs, h, i, id);
  }

  lemma PinAbove(t: Tree, n: NodeId) returns (h: Hid)
    requires Inv(t) && n in t.nodes && n != ROOT && t.nodes[n].lockCount > 0
    ensures h in t.pins && t.pins[h] in t.nodes && t.nodes[n].path <= t.nodes[t.pins[h]].path
  {
    assert LockOk(t.nodes, t.pins, n);
    assert Through(t.nodes, t.pins, n) != {};
    h :| h in Through(t.nodes, t.pins, n);
  }

  /** A node that was pinned and is not once `h` lets go was pinned for the prefix of `h`. */
  lemma PinnedElsewhere(t: Tree, t': Tree, h: Hid, n: NodeId)
    requires Inv(t) && Inv(t') && h in t.pins && t'.pins == t.pins - {h} && t'.nodes.Keys == t.nodes.Keys
    requires SamePaths(t.nodes, t'.nodes)
    requires n in t.nodes && n != ROOT && t.nodes[n].lockCount > 0
    ensures t.pins[h] in t.nodes
    ensures t'.nodes[n].lockCount > 0 || t.nodes[n].path <= t.nodes[t.pins[h]].path
  {
    hide Structure, Indexed, Stamped;
    assert LockOk(t.nodes, t.pins, n) && LockOk(t'.nodes, t'.pins, n) && PinOk(t.nodes, t.pins, h);
    assert Through(t'.nodes, t'.pins, n) == Through(t.nodes, t.pins, n) - {h};
  }

  // -------------------------------------------------------------------- start

  lemma StartsSound(bt: nat, kv: Kv, t: Tree, v: View)
    requires bt > 0 && Inv(t) && t.index == map[] && t.pins == map[]
    requires v.tier == map[] && v.target == map[] && v.val == map[]
    requires forall id :: 0 <= id < |v.rc| ==> v.rc[id] == 0
    ensures Core(bt, kv, t, v, map[]) && Gated(v, map[], None)
  {
    forall id: nat ensures RcOk(v, t.index, map[], id) {
      assert !Stored(t.index, id) && !IsFresh(map[], id);
    }
  }
}
