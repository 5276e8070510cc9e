/**
 The whole cache as one system: index, pool view, and the client's handles.

 A handle is a value held in one of the client's variables; `hs` maps variables to handles.
 `kv` is the key/value data of a token prefix: an arbitrary function, standing for what the
 model would compute. A handle's `tokens` and `data` are auxiliary: the sequence it was acquired
 for, and what the engine has put into which of its entries. No step of the cache reads them.
 */
module SystemModel {
  import opened Types
  import opened TreeModel
  import opened TreeSteps
  import opened TreeWalk
  import opened PoolView
  import opened PoolOps
  import opened Backing

  type Hid = nat
  type Kv = Path -> seq<Byte>

  /** CacheManager::Allocation. `armed` says that the handle has an owner to give things back to. */
  datatype Handle = Handle(
    ok: bool,
    cachedTokens: nat,
    cachedBlocks: nat,
    blocks: seq<BlockId>,
    pinned: Option<NodeId>,
    armed: bool,
    tokens: seq<TokenId>,
    data: map<nat, seq<Byte>>)

  type Handles = map<Hid, Handle>

  const DISARMED := Handle(false, 0, 0, [], None, false, [], map[])

  predicate Live(hs: Handles, h: Hid) {
    h in hs && hs[h].ok && hs[h].armed
  }

  // ---------------------------------------------------------------- invariant

  /** A live handle's pin ends exactly where its cached prefix does, and its cached blocks are the index's. */
  ghost predicate HandleOk(bt: nat, t: Tree, hs: Handles, h: Hid) {
    Live(hs, h) && bt > 0 ==>
      var a, cs := hs[h], Chunks(hs[h].tokens, bt);
      && a.cachedBlocks <= |a.blocks| && a.cachedBlocks <= |cs|
      && a.cachedTokens == a.cachedBlocks * bt
      && Matched(t.index, cs, a.blocks[..a.cachedBlocks])
      && (a.pinned.Some? <==> a.cachedBlocks > 0)
      && (a.pinned.Some? ==> a.pinned.value in t.nodes && t.nodes[a.pinned.value].path == cs[..a.cachedBlocks])
  }

  /** The tree's pins are the live handles' pins. */
  ghost predicate PinAgrees(pins: map<nat, NodeId>, hs: Handles, h: Hid) {
    && (h in pins <==> Live(hs, h) && hs[h].pinned.Some?)
    && (h in pins ==> pins[h] == hs[h].pinned.value)
  }

  /** Entry `i` of handle `h` was allocated for it, and is `id`. */
  ghost predicate FreshAt(hs: Handles, h: Hid, i: nat, id: BlockId) {
    Live(hs, h) && hs[h].cachedBlocks <= i < |hs[h].blocks| && hs[h].blocks[i] == id
  }

  ghost predicate IsFresh(hs: Handles, id: BlockId) {
    exists h: nat, i: nat :: FreshAt(hs, h, i, id)
  }

  /** A fresh block stays in the compute tier, at rest, out of the index, and keeps what the engine put there. */
  ghost predicate FreshOk(v: View, idx: map<Path, BlockId>, hs: Handles, h: Hid, i: nat, id: BlockId) {
    FreshAt(hs, h, i, id) ==>
      && id in v.tier && v.tier[id] == 0 && id !in v.target && !Stored(idx, id)
      && (i in hs[h].data ==> id in v.val && v.val[id] == hs[h].data[i])
  }

  ghost predicate FreshApart(hs: Handles, h: Hid, i: nat, g: Hid, j: nat, id: BlockId) {
    FreshAt(hs, h, i, id) && FreshAt(hs, g, j, id) ==> h == g && i == j
  }

  /** Every reference is accounted for: one if the block is stored or fresh, none otherwise. */
  ghost predicate RcOk(v: View, idx: map<Path, BlockId>, hs: Handles, id: BlockId) {
    && (id in v.tier <==> id < |v.rc| && v.rc[id] > 0)
    && (id < |v.rc| ==> v.rc[id] == if Stored(idx, id) || IsFresh(hs, id) then 1 else 0)
  }

  /** A stored block holds what computing its prefix would produce. */
  ghost predicate ContentOk(v: View, idx: map<Path, BlockId>, kv: Kv, p: Path) {
    p in idx ==> idx[p] in v.val && v.val[idx[p]] == kv(p)
  }

  /** An entry of a live table is in the compute tier at rest, or on its way there. */
  ghost predicate GateOk(v: View, hs: Handles, h: Hid, i: nat) {
    Live(hs, h) && i < |hs[h].blocks| ==>
      var id := hs[h].blocks[i];
      id in v.tier && if id in v.target then v.target[id] == 0 else v.tier[id] == 0
  }

  ghost predicate HandlesOk(bt: nat, t: Tree, hs: Handles) {
    && (forall h: nat :: HandleOk(bt, t, hs, h))
    && (forall h: nat :: PinAgrees(t.pins, hs, h))
  }

  ghost predicate OwnersOk(v: View, idx: map<Path, BlockId>, hs: Handles) {
    && (forall h: nat, i: nat, id: nat :: FreshOk(v, idx, hs, h, i, id))
    && (forall h: nat, i: nat, g: nat, j: nat, id: nat :: FreshApart(hs, h, i, g, j, id))
    && (forall id: nat :: RcOk(v, idx, hs, id))
  }

  ghost predicate ContentsOk(v: View, idx: map<Path, BlockId>, kv: Kv) {
    forall p :: ContentOk(v, idx, kv, p)
  }

  /** The gate holds for every live handle but `except`. */
  ghost predicate Gated(v: View, hs: Handles, except: Option<Hid>) {
    forall h: nat, i: nat :: except != Some(h) ==> GateOk(v, hs, h, i)
  }

  ghost predicate Core(bt: nat, kv: Kv, t: Tree, v: View, hs: Handles) {
    && bt > 0 && Inv(t) && Backed(t.index, v)
    && HandlesOk(bt, t, hs)
    && OwnersOk(v, t.index, hs)
    && ContentsOk(v, t.index, kv)
  }

  // --------------------------------------------------------- steps of the pool

  /** A drain completes migrations; nobody's table, count or bytes change. */
  lemma DrainKeeps(bt: nat, kv: Kv, t: Tree, v: View, v': View, hs: Handles, except: Option<Hid>)
    requires Core(bt, kv, t, v, hs) && Gated(v, hs, except) && Drained(v, v')
    ensures Core(bt, kv, t, v', hs) && Gated(v', hs, except)
  {
    forall h: nat, i: nat, id: nat ensures FreshOk(v', t.index, hs, h, i, id) {
      assert FreshOk(v, t.index, hs, h, i, id);
      if FreshAt(hs, h, i, id) {
        assert Settled(v, v', id);
      }
    }
    forall id: nat ensures RcOk(v', t.index, hs, id) {
      assert RcOk(v, t.index, hs, id);
    }
    forall p ensures ContentOk(v', t.index, kv, p) {
      assert ContentOk(v, t.index, kv, p);
    }
    forall h: nat, i: nat | except != Some(h) ensures GateOk(v', hs, h, i) {
      assert GateOk(v, hs, h, i);
      if Live(hs, h) && i < |hs[h].blocks| {
        assert Settled(v, v', hs[h].blocks[i]);
      }
    }
    assert Backed(t.index, v') by {
      forall p, q ensures OneHome(t.index, p, q) {
      }
    }
  }

  /** `id` is in no live table but possibly that of `except`. */
  ghost predicate Unheld(hs: Handles, id: BlockId, except: Option<Hid>) {
    forall h: nat, i: nat :: except != Some(h) && Live(hs, h) && i < |hs[h].blocks| ==> hs[h].blocks[i] != id
  }

  /** Only the whereabouts of `id` changed. */
  ghost predicate Shifted(v: View, v': View, id: BlockId) {
    && v'.rc == v.rc && v'.val == v.val && v'.tier.Keys == v.tier.Keys
    && (forall x :: x in v.tier && x != id ==> v'.tier[x] == v.tier[x])
    && (forall x :: x != id ==> (x in v'.target <==> x in v.target) && (x in v.target ==> v'.target[x] == v.target[x]))
  }

  /** Moving, or starting or cancelling the move of, a stored block that no gated table holds. */
  lemma ShiftKeeps(bt: nat, kv: Kv, t: Tree, v: View, v': View, hs: Handles, id: BlockId, except: Option<Hid>)
    requires Core(bt, kv, t, v, hs) && Gated(v, hs, except)
    requires Stored(t.index, id) && Shifted(v, v', id) && Unheld(hs, id, except)
    ensures Core(bt, kv, t, v', hs) && Gated(v', hs, except)
  {
    forall h: nat, i: nat, x: nat ensures FreshOk(v', t.index, hs, h, i, x) {
      assert FreshOk(v, t.index, hs, h, i, x);
    }
    forall x: nat ensures RcOk(v', t.index, hs, x) {
      assert RcOk(v, t.index, hs, x);
    }
    forall p ensures ContentOk(v', t.index, kv, p) {
      assert ContentOk(v, t.index, kv, p);
    }
    forall h: nat, i: nat | except != Some(h) ensures GateOk(v', hs, h, i) {
      assert GateOk(v, hs, h, i);
    }
    forall p, q ensures OneHome(t.index, p, q) {
    }
  }

  /** The engine writes into a block of its own. */
  lemma WriteKeeps(bt: nat, kv: Kv, t: Tree, v: View, v': View, hs: Handles, hs': Handles, h: Hid, i: nat)
    requires Core(bt, kv, t, v, hs) && Gated(v, hs, None)
    requires Live(hs, h) && hs[h].cachedBlocks <= i < |hs[h].blocks|
    requires var id := hs[h].blocks[i]; id in v'.val && v' == v.(val := v.val[id := v'.val[id]])
    requires h in hs' && hs' == hs[h := hs[h].(data := hs'[h].data)] && hs'[h].data - {i} == hs[h].data - {i}
    requires i in hs'[h].data ==> hs'[h].data[i] == v'.val[hs[h].blocks[i]]
    ensures Core(bt, kv, t, v', hs') && Gated(v', hs', None)
  {
    var id := hs[h].blocks[i];
    assert FreshAt(hs, h, i, id) && FreshOk(v, t.index, hs, h, i, id);
    WriteOwners(v, v', t.index, hs, hs', h, i);
    forall g: nat ensures HandleOk(bt, t, hs', g) && PinAgrees(t.pins, hs', g) {
      assert HandleOk(bt, t, hs, g) && PinAgrees(t.pins, hs, g);
    }
    forall p ensures ContentOk(v', t.index, kv, p) {
      assert ContentOk(v, t.index, kv, p);
    }
    forall g: nat, j: nat ensures GateOk(v', hs', g, j) {
      assert GateOk(v, hs, g, j);
    }
    forall p, q ensures OneHome(t.index, p, q) {
    }
  }

  lemma WriteOwners(v: View, v': View, idx: map<Path, BlockId>, hs: Handles, hs': Handles, h: Hid, i: nat)
    requires OwnersOk(v, idx, hs)
    requires Live(hs, h) && hs[h].cachedBlocks <= i < |hs[h].blocks|
    requires var id := hs[h].blocks[i]; id in v'.val && v' == v.(val := v.val[id := v'.val[id]])
    requires h in hs' && hs' == hs[h := hs[h].(data := hs'[h].data)] && hs'[h].data - {i} == hs[h].data - {i}
    requires i in hs'[h].data ==> hs'[h].data[i] == v'.val[hs[h].blocks[i]]
    ensures OwnersOk(v', idx, hs')
  {
    var id := hs[h].blocks[i];
    assert FreshAt(hs, h, i, id);
    forall g: nat, j: nat, x: nat ensures FreshAt(hs', g, j, x) <==> FreshAt(hs, g, j, x) {
    }
    forall g: nat, j: nat, x: nat ensures FreshOk(v', idx, hs', g, j, x) {
      assert FreshOk(v, idx, hs, g, j, x) && FreshApart(hs, h, i, g, j, x);
      if FreshAt(hs', g, j, x) && j in hs'[g].data && !(g == h && j == i) {
        assert g == h ==> j in hs'[g].data - {i} && j in hs[g].data - {i};
        assert x != id by {
          assert FreshApart(hs, h, i, g, j, id);
        }
      }
    }
    forall g: nat, j: nat, f: nat, k: nat, x: nat ensures FreshApart(hs', g, j, f, k, x) {
      assert FreshApart(hs, g, j, f, k, x);
    }
    forall x: nat ensures RcOk(v', idx, hs', x) {
      assert RcOk(v, idx, hs, x);
      FreshSame(hs, hs', x);
    }
  }

  lemma FreshSame(hs: Handles, hs': Handles, id: BlockId)
    requires forall g: nat, i: nat :: FreshAt(hs, g, i, id) <==> FreshAt(hs', g, i, id)
    ensures IsFresh(hs, id) <==> IsFresh(hs', id)
  {
    if h: nat, i: nat :| FreshAt(hs, h, i, id) {
      assert FreshAt(hs', h, i, id);
    }
    if h: nat, i: nat :| FreshAt(hs', h, i, id) {
      assert FreshAt(hs, h, i, id);
    }
  }

  // --------------------------------------------------------- steps of the tree

  /** Touches, splits and locks change neither the index nor where a node ends. */
  lemma WalkKeeps(bt: nat, kv: Kv, t: Tree, t': Tree, v: View, hs: Handles)
    requires Core(bt, kv, t, v, hs) && Inv(t') && t'.index == t.index && t'.pins == t.pins
    requires SamePaths(t.nodes, t'.nodes)
    ensures Core(bt, kv, t', v, hs)
  {
    forall h: nat ensures HandleOk(bt, t', hs, h) && PinAgrees(t'.pins, hs, h) {
      assert HandleOk(bt, t, hs, h) && PinAgrees(t.pins, hs, h);
    }
  }

  /** Dropping unpinned leaves leaves every live handle's prefix in place. */
  lemma EvictKeeps(bt: nat, kv: Kv, t: Tree, t': Tree, v: View, v': View, hs: Handles, gone: set<BlockId>,
                   except: Option<Hid>)
    requires Core(bt, kv, t, v, hs) && Gated(v, hs, except)
    requires Inv(t') && Backed(t'.index, v') && t'.pins == t.pins
    requires SamePaths(t'.nodes, t.nodes)
    requires Evicting(t.index, t'.index, v, v', gone)
    ensures Core(bt, kv, t', v', hs) && Gated(v', hs, except)
    ensures Spared(hs, gone)
  {
    EvictHandles(bt, kv, t, t', v, hs, gone);
    EvictOwners(t, t', v, v', hs, gone);
    EvictContents(kv, t.index, t'.index, v, v', gone);
    EvictGate(v, v', hs, gone, except);
  }

  /** No live table has a block in `gone`. */
  ghost predicate Spared(hs: Handles, gone: set<BlockId>) {
    forall h: nat, i: nat :: Live(hs, h) && i < |hs[h].blocks| ==> hs[h].blocks[i] !in gone
  }

  lemma EvictHandles(bt: nat, kv: Kv, t: Tree, t': Tree, v: View, hs: Handles, gone: set<BlockId>)
    requires Core(bt, kv, t, v, hs) && Inv(t') && t'.pins == t.pins
    requires Within(t'.index, t.index) && GoneFrom(t.index, t'.index, gone)
    requires SamePaths(t'.nodes, t.nodes)
    ensures HandlesOk(bt, t', hs) && Spared(hs, gone)
  {
    hide Inv, Backed;
    forall h: nat ensures HandleOk(bt, t', hs, h) && PinAgrees(t'.pins, hs, h) {
      EvictHandle(bt, t, t', hs, h);
    }
    hide GoneFrom;
    forall h: nat, i: nat | Live(hs, h) && i < |hs[h].blocks| ensures hs[h].blocks[i] !in gone {
      EvictTable(bt, kv, t, t', v, hs, gone, h, i);
    }
  }

  lemma EvictContents(kv: Kv, idx: map<Path, BlockId>, idx': map<Path, BlockId>, v: View, v': View, gone: set<BlockId>)
    requires ContentsOk(v, idx, kv) && Evicting(idx, idx', v, v', gone)
    ensures ContentsOk(v', idx', kv)
  {
    forall p ensures ContentOk(v', idx', kv, p) {
      assert ContentOk(v, idx, kv, p);
      assert p in idx' ==> Stored(idx', idx'[p]);
    }
  }

  lemma EvictGate(v: View, v': View, hs: Handles, gone: set<BlockId>, except: Option<Hid>)
    requires Gated(v, hs, except) && Shed(v, v', gone) && Spared(hs, gone)
    ensures Gated(v', hs, except)
  {
    forall h: nat, i: nat | except != Some(h) ensures GateOk(v', hs, h, i) {
      assert GateOk(v, hs, h, i);
    }
  }

  lemma EvictOwners(t: Tree, t': Tree, v: View, v': View, hs: Handles, gone: set<BlockId>)
    requires OwnersOk(v, t.index, hs) && Evicting(t.index, t'.index, v, v', gone)
    ensures OwnersOk(v', t'.index, hs)
  {
    forall h: nat, i: nat, id: nat ensures FreshOk(v', t'.index, hs, h, i, id) {
      assert FreshOk(v, t.index, hs, h, i, id);
      assert forall p :: p in t'.index ==> t.index[p] == t'.index[p];
    }
    forall id: nat ensures RcOk(v', t'.index, hs, id) {
      EvictRc(t, t', v, v', hs, gone, id);
    }
  }

  lemma EvictHandle(bt: nat, t: Tree, t': Tree, hs: Handles, h: Hid)
    requires HandlesOk(bt, t, hs) && Inv(t') && t'.pins == t.pins && Within(t'.index, t.index)
    requires SamePaths(t'.nodes, t.nodes)
    ensures HandleOk(bt, t', hs, h) && PinAgrees(t'.pins, hs, h)
  {
    assert HandleOk(bt, t, hs, h) && PinAgrees(t.pins, hs, h) && PinOk(t'.nodes, t'.pins, h);
    if Live(hs, h) && bt > 0 && hs[h].pinned.Some? {
      var a, cs, n := hs[h], Chunks(hs[h].tokens, bt), hs[h].pinned.value;
      forall i | 0 <= i < a.cachedBlocks ensures EntryIs(t'.index, cs, i, a.blocks[..a.cachedBlocks][i]) {
        assert EntryIs(t.index, cs, i, a.blocks[..a.cachedBlocks][i]);
        PrefixStored(t'.key, t'.nodes, t'.index, n, i + 1);
        assert t'.nodes[n].path[..i + 1] == cs[..i + 1];
      }
    }
  }

  /** No block of a live table is evicted. */
  lemma EvictTable(bt: nat, kv: Kv, t: Tree, t': Tree, v: View, hs: Handles, gone: set<BlockId>, h: Hid, i: nat)
    requires Core(bt, kv, t, v, hs) && HandleOk(bt, t', hs, h) && GoneFrom(t.index, t'.index, gone)
    requires Live(hs, h) && i < |hs[h].blocks|
    ensures hs[h].blocks[i] !in gone
  {
    var a, cs := hs[h], Chunks(hs[h].tokens, bt);
    if i < a.cachedBlocks {
      assert EntryIs(t'.index, cs, i, a.blocks[..a.cachedBlocks][i]);
    } else {
      assert FreshAt(hs, h, i, a.blocks[i]) && FreshOk(v, t.index, hs, h, i, a.blocks[i]);
    }
  }

  lemma EvictRc(t: Tree, t': Tree, v: View, v': View, hs: Handles, gone: set<BlockId>, id: BlockId)
    requires OwnersOk(v, t.index, hs) && Within(t'.index, t.index)
    requires GoneFrom(t.index, t'.index, gone) && Shed(v, v', gone)
    ensures RcOk(v', t'.index, hs, id)
  {
    assert RcOk(v, t.index, hs, id);
    forall h: nat, i: nat ensures FreshAt(hs, h, i, id) ==> !Stored(t.index, id) {
      assert FreshOk(v, t.index, hs, h, i, id);
    }
    if Stored(t'.index, id) {
      var p :| p in t'.index && t'.index[p] == id;
      assert t.index[p] == id;
    }
  }

  // ------------------------------------------------------- steps of the handles

  ghost predicate PinIs(pins: map<nat, NodeId>, pins': map<nat, NodeId>, h: Hid, node: Option<NodeId>) {
    pins' == if node.Some? then pins[h := node.value] else pins
  }

  /** What match_prefix() found makes a handle. */
  lemma NewHandleOk(bt: nat, t: Tree, hs: Handles, h: Hid, a: Handle)
    requires bt > 0 && a.cachedBlocks == |a.blocks| && a.cachedTokens == a.cachedBlocks * bt
    requires Matched(t.index, Chunks(a.tokens, bt), a.blocks) && (a.pinned.Some? <==> a.blocks != [])
    requires a.pinned.Some? ==>
               a.pinned.value in t.nodes && t.nodes[a.pinned.value].path == Chunks(a.tokens, bt)[..|a.blocks|]
    ensures HandleOk(bt, t, hs[h := a], h)
  {
    assert a.blocks[..|a.blocks|] == a.blocks;
  }

  /** A new handle with a cached prefix only, its pin already taken. */
  lemma OpenKeeps(bt: nat, kv: Kv, t: Tree, t': Tree, v: View, hs: Handles, h: Hid, a: Handle)
    requires Core(bt, kv, t, v, hs) && Gated(v, hs, None) && h !in hs && a.ok && a.armed
    requires Inv(t') && t'.index == t.index && PinIs(t.pins, t'.pins, h, a.pinned)
    requires SamePaths(t.nodes, t'.nodes)
    requires HandleOk(bt, t', hs[h := a], h) && a.cachedBlocks == |a.blocks|
    ensures Core(bt, kv, t', v, hs[h := a]) && Gated(v, hs[h := a], Some(h))
  {
    var hs' := hs[h := a];
    SameFresh(hs, hs', h);
    forall g: nat ensures HandleOk(bt, t', hs', g) && PinAgrees(t'.pins, hs', g) {
      assert HandleOk(bt, t, hs, g) && PinAgrees(t.pins, hs, g);
    }
    OwnersSame(v, t.index, hs, hs');
    forall g: nat, i: nat | Some(h) != Some(g) ensures GateOk(v, hs', g, i) {
      assert GateOk(v, hs, g, i);
    }
  }

  /** Handles that agree off `h`, neither with fresh blocks at `h`. */
  lemma SameFresh(hs: Handles, hs': Handles, h: Hid)
    requires forall g: nat :: g != h ==> (g in hs <==> g in hs') && (g in hs ==> hs[g] == hs'[g])
    requires Live(hs, h) ==> hs[h].cachedBlocks >= |hs[h].blocks|
    requires Live(hs', h) ==> hs'[h].cachedBlocks >= |hs'[h].blocks|
    ensures forall g: nat, i: nat, id: nat :: FreshAt(hs, g, i, id) <==> FreshAt(hs', g, i, id)
    ensures forall g: nat, i: nat, id: nat :: FreshAt(hs, g, i, id) ==> g in hs' && hs[g] == hs'[g]
  {
  }

  lemma OwnersSame(v: View, idx: map<Path, BlockId>, hs: Handles, hs': Handles)
    requires OwnersOk(v, idx, hs)
    requires forall g: nat, i: nat, id: nat :: FreshAt(hs, g, i, id) <==> FreshAt(hs', g, i, id)
    requires forall g: nat, i: nat, id: nat :: FreshAt(hs, g, i, id) ==> g in hs' && hs[g] == hs'[g]
    ensures OwnersOk(v, idx, hs')
  {
    forall g: nat, i: nat, id: nat ensures FreshOk(v, idx, hs', g, i, id) {
      assert FreshOk(v, idx, hs, g, i, id);
    }
    forall g: nat, i: nat, f: nat, j: nat, id: nat ensures FreshApart(hs', g, i, f, j, id) {
      assert FreshApart(hs, g, i, f, j, id);
    }
    forall id: nat ensures RcOk(v, idx, hs', id) {
      assert RcOk(v, idx, hs, id);
      FreshSame(hs, hs', id);
    }
  }

  /** Undo of OpenKeeps: the request is refused and its pin given up. */
  lemma CloseKeeps(bt: nat, kv: Kv, t: Tree, t': Tree, v: View, hs: Handles, hs': Handles, h: Hid)
    requires Core(bt, kv, t, v, hs) && Gated(v, hs, Some(h)) && Disowned(hs, hs', h)
    requires Live(hs, h) ==> hs[h].cachedBlocks >= |hs[h].blocks|
    requires Inv(t') && t'.index == t.index && t'.pins == t.pins - {h}
    requires SamePaths(t.nodes, t'.nodes)
    ensures Core(bt, kv, t', v, hs') && Gated(v, hs', None)
  {
    SameFresh(hs, hs', h);
    forall g: nat ensures HandleOk(bt, t', hs', g) && PinAgrees(t'.pins, hs', g) {
      assert HandleOk(bt, t, hs, g) && PinAgrees(t.pins, hs, g);
    }
    OwnersSame(v, t.index, hs, hs');
    forall g: nat, i: nat ensures GateOk(v, hs', g, i) {
      assert g != h ==> GateOk(v, hs, g, i);
    }
  }

  /** Handles that are not live come and go without effect. */
  lemma IdleKeeps(bt: nat, kv: Kv, t: Tree, v: View, hs: Handles, hs': Handles, h: Hid)
    requires Core(bt, kv, t, v, hs) && Gated(v, hs, None) && !Live(hs, h) && Disowned(hs, hs', h)
    ensures Core(bt, kv, t, v, hs') && Gated(v, hs', None)
  {
    assert PinAgrees(t.pins, hs, h);
    assert Gated(v, hs, Some(h));
    assert t.pins == t.pins - {h};
    CloseKeeps(bt, kv, t, t, v, hs, hs', h);
  }

  /** `h` is not live any more, and no other handle changed. */
  ghost predicate Disowned(hs: Handles, hs': Handles, h: Hid) {
    && !Live(hs', h)
    && (forall g: nat :: g != h ==> (g in hs <==> g in hs') && (g in hs ==> hs'[g] == hs[g]))
  }

  ghost function Grown(hs: Handles, h: Hid, id: BlockId): Handles
    requires h in hs
  {
    hs[h := hs[h].(blocks := hs[h].blocks + [id])]
  }

  /** A newly allocated block joins the table of `h`. */
  lemma AllocateKeeps(bt: nat, kv: Kv, t: Tree, v: View, v': View, hs: Handles, h: Hid, id: BlockId)
    requires Core(bt, kv, t, v, hs) && Gated(v, hs, Some(h)) && Live(hs, h) && hs[h].data == map[]
    requires id !in v.tier && id < |v.rc| && id in v'.val && |v.free| > 0 && v.free[0] > 0
    requires v' == v.(tier := v.tier[id := 0], val := v.val[id := v'.val[id]], rc := v.rc[id := 1],
                      free := v.free[0 := v.free[0] - 1])
    requires forall x :: x in v.target ==> x in v.tier
    ensures Core(bt, kv, t, v', Grown(hs, h, id)) && Gated(v', Grown(hs, h, id), Some(h))
    ensures GateOk(v', Grown(hs, h, id), h, |hs[h].blocks|)
  {
    var hs', n := Grown(hs, h, id), |hs[h].blocks|;
    assert HandleOk(bt, t, hs, h);
    AllocateOwners(bt, kv, t, v, v', hs, h, id);
    forall g: nat ensures HandleOk(bt, t, hs', g) && PinAgrees(t.pins, hs', g) {
      assert HandleOk(bt, t, hs, g) && PinAgrees(t.pins, hs, g);
      if g == h {
        assert hs'[h].blocks[..hs[h].cachedBlocks] == hs[h].blocks[..hs[h].cachedBlocks];
      }
    }
    forall p ensures ContentOk(v', t.index, kv, p) {
      assert ContentOk(v, t.index, kv, p);
    }
    forall g: nat, i: nat | Some(h) != Some(g) ensures GateOk(v', hs', g, i) {
      assert GateOk(v, hs, g, i);
    }
    forall p, q ensures OneHome(t.index, p, q) {
    }
  }

  lemma AllocateOwners(bt: nat, kv: Kv, t: Tree, v: View, v': View, hs: Handles, h: Hid, id: BlockId)
    requires Core(bt, kv, t, v, hs) && Live(hs, h) && hs[h].data == map[]
    requires id !in v.tier && id < |v.rc| && id !in v.target && |v'.rc| == |v.rc| && id in v'.val
    requires v'.tier == v.tier[id := 0] && v'.rc == v.rc[id := 1] && v'.target == v.target
    requires v'.val == v.val[id := v'.val[id]]
    ensures OwnersOk(v', t.index, Grown(hs, h, id))
  {
    var hs', n := Grown(hs, h, id), |hs[h].blocks|;
    var idx := t.index;
    assert HandleOk(bt, t, hs, h);
    assert RcOk(v, idx, hs, id) && !Stored(idx, id) && !IsFresh(hs, id);
    assert FreshAt(hs', h, n, id);
    forall g: nat, i: nat, x: nat ensures FreshAt(hs', g, i, x) <==> FreshAt(hs, g, i, x) || (g == h && i == n && x == id) {
    }
    forall g: nat, i: nat ensures !FreshAt(hs, g, i, id) {
    }
    forall g: nat, i: nat, x: nat ensures FreshOk(v', idx, hs', g, i, x) {
      assert FreshOk(v, idx, hs, g, i, x);
    }
    forall g: nat, i: nat, f: nat, j: nat, x: nat ensures FreshApart(hs', g, i, f, j, x) {
      assert FreshApart(hs, g, i, f, j, x);
    }
    forall x: nat ensures RcOk(v', idx, hs', x) {
      assert RcOk(v, idx, hs, x);
      if x != id {
        if g: nat, i: nat :| FreshAt(hs, g, i, x) {
          assert FreshAt(hs', g, i, x);
        }
        if g: nat, i: nat :| FreshAt(hs', g, i, x) {
          assert FreshAt(hs, g, i, x);
        }
      }
    }
  }

  // ---------------------------------------------------- who holds a table's block

  /** A block that is neither home nor on its way home is in no table that is gated. */
  lemma AwayMeansUnheld(v: View, hs: Handles, id: BlockId, except: Option<Hid>)
    requires Gated(v, hs, except)
    requires id in v.tier && (if id in v.target then v.target[id] != 0 else v.tier[id] != 0)
    ensures Unheld(hs, id, except)
  {
    forall h: nat, i: nat | except != Some(h) && Live(hs, h) && i < |hs[h].blocks| ensures hs[h].blocks[i] != id {
      assert GateOk(v, hs, h, i);
    }
  }

  /** A block of an unpinned leaf is in no live table: the tables' prefixes are pinned. */
  lemma VictimMeansUnheld(bt: nat, kv: Kv, t: Tree, v: View, hs: Handles, id: BlockId)
    requires Core(bt, kv, t, v, hs) && Victim(t.nodes, v, id)
    ensures Unheld(hs, id, None) && Stored(t.index, id)
  {
    var n: nat :| InLeaf(t.nodes, n, id);
    NodeIsStored(t, n, id);
    forall h: nat, i: nat ensures FreshAt(hs, h, i, id) ==> !Stored(t.index, id) {
      assert FreshOk(v, t.index, hs, h, i, id);
    }
    forall h: nat, i: nat | Live(hs, h) && i < |hs[h].blocks| ensures hs[h].blocks[i] != id {
      assert hs[h].blocks[i] == id && i >= hs[h].cachedBlocks ==> FreshAt(hs, h, i, id);
      if hs[h].blocks[i] == id {
        CachedMeansPinned(bt, kv, t, v, hs, h, i, n);
      }
    }
  }

  /** The node that stores a cached entry of a live table is pinned. */
  lemma CachedMeansPinned(bt: nat, kv: Kv, t: Tree, v: View, hs: Handles, h: Hid, i: nat, n: NodeId)
    requires Core(bt, kv, t, v, hs) && Live(hs, h) && i < hs[h].cachedBlocks && i < |hs[h].blocks|
    requires n in t.nodes && n != ROOT && hs[h].blocks[i] in t.nodes[n].blocks
    ensures t.nodes[n].lockCount > 0
  {
    assert HandleOk(bt, t, hs, h) && PinAgrees(t.pins, hs, h);
    var a, cs, q := hs[h], Chunks(hs[h].tokens, bt), hs[h].pinned.value;
    var nd := t.nodes[n];
    NodeBlocks(t, v, n);
    var j :| 0 <= j < |nd.blocks| && nd.blocks[j] == a.blocks[i];
    assert EntryIs(t.index, nd.path, Off(nd) + j, nd.blocks[j]);
    assert EntryIs(t.index, cs, i, a.blocks[..a.cachedBlocks][i]);
    assert OneHome(t.index, cs[..i + 1], nd.path[..Off(nd) + j + 1]);
    var k := i + 1;
    assert t.nodes[q].path[..k] == cs[..k] == nd.path[..k];
    assert |nd.path[..Off(nd) + j + 1]| == k;
    PrefixIsAncestor(t.key, t.nodes, n, q, k);
    assert OnPath(t.nodes, q, n);
    PinsCounted(t, h, n);
  }
}
