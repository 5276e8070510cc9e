/** How a request ends: its fresh blocks are published or freed, its pin is given up, or its handle moves. */
module Requests {
  import opened Types
  import opened TreeModel
  import opened TreeSteps
  import opened TreeWalk
  import opened PoolView
  import opened PoolOps
  import opened Backing
  import opened SystemModel

  // ------------------------------------------------------------ a live table

  /** The cached part of a live table has no block twice: the index has none. */
  lemma CachedApart(bt: nat, kv: Kv, t: Tree, v: View, hs: Handles, h: Hid)
    requires Core(bt, kv, t, v, hs) && Live(hs, h)
    ensures hs[h].cachedBlocks <= |hs[h].blocks| && NoDup(hs[h].blocks[..hs[h].cachedBlocks])
    ensures forall i :: 0 <= i < hs[h].cachedBlocks ==> Stored(t.index, hs[h].blocks[i]) && hs[h].blocks[i] in v.tier
  {
    assert HandleOk(bt, t, hs, h);
    var cs, bs := Chunks(hs[h].tokens, bt), hs[h].blocks[..hs[h].cachedBlocks];
    forall i | 0 <= i < |bs| ensures Stored(t.index, hs[h].blocks[i]) && hs[h].blocks[i] in v.tier {
      assert EntryIs(t.index, cs, i, bs[i]);
    }
    forall i, j | 0 <= i < j < |bs| ensures bs[i] != bs[j] {
      assert EntryIs(t.index, cs, i, bs[i]) && EntryIs(t.index, cs, j, bs[j]);
      assert OneHome(t.index, cs[..i + 1], cs[..j + 1]);
      assert |cs[..i + 1]| != |cs[..j + 1]|;
    }
  }

  /** The fresh part has none twice either, and each of its blocks is held by this handle alone. */
  lemma FreshPart(bt: nat, kv: Kv, t: Tree, v: View, hs: Handles, h: Hid)
    requires Core(bt, kv, t, v, hs) && Live(hs, h)
    ensures hs[h].cachedBlocks <= |hs[h].blocks|
    ensures var bs := hs[h].blocks[hs[h].cachedBlocks..];
            && NoDup(bs) && Sole(v, bs)
            && (forall i :: 0 <= i < |bs| ==> bs[i] in v.tier && bs[i] !in v.target && !Stored(t.index, bs[i]))
            && (forall id: nat :: id in bs <==> exists i: nat :: FreshAt(hs, h, i, id))
  {
    assert HandleOk(bt, t, hs, h);
    var c := hs[h].cachedBlocks;
    var bs := hs[h].blocks[c..];
    forall i | 0 <= i < |bs|
      ensures bs[i] in v.tier && bs[i] !in v.target && !Stored(t.index, bs[i])
      ensures bs[i] < |v.rc| && v.rc[bs[i]] == 1 && FreshAt(hs, h, c + i, bs[i])
    {
      assert FreshAt(hs, h, c + i, bs[i]) && FreshOk(v, t.index, hs, h, c + i, bs[i]);
      assert RcOk(v, t.index, hs, bs[i]);
    }
    forall i, j | 0 <= i < j < |bs| ensures bs[i] != bs[j] {
      assert FreshApart(hs, h, c + i, h, c + j, bs[i]);
    }
    forall id: nat, i: nat | FreshAt(hs, h, i, id) ensures id in bs {
      assert bs[i - c] == id;
    }
  }

  /** A table offered to insert(): no block twice, all allocated, and nothing stored elsewhere. */
  lemma TableFitsInsert(bt: nat, kv: Kv, t: Tree, v: View, hs: Handles, h: Hid)
    requires Core(bt, kv, t, v, hs) && Live(hs, h)
    ensures NoDup(hs[h].blocks)
    ensures forall i :: 0 <= i < |hs[h].blocks| ==> hs[h].blocks[i] in v.tier
    ensures forall i: nat :: Adoptable(t.index, Chunks(hs[h].tokens, bt), hs[h].blocks, i)
  {
    CachedApart(bt, kv, t, v, hs, h);
    FreshPart(bt, kv, t, v, hs, h);
    assert HandleOk(bt, t, hs, h);
    hide Core;
    var a, cs := hs[h], Chunks(hs[h].tokens, bt);
    var hit, own := a.blocks[..a.cachedBlocks], a.blocks[a.cachedBlocks..];
    assert a.blocks == hit + own;
    forall x | x in hit ensures x !in own {
      assert Stored(t.index, x);
    }
    NoDupConcat(hit, own);
    forall i: nat ensures Adoptable(t.index, cs, a.blocks, i) {
      if i < a.cachedBlocks {
        assert EntryIs(t.index, cs, i, hit[i]);
      } else if i < |a.blocks| {
        assert !Stored(t.index, own[i - a.cachedBlocks]);
      }
    }
  }

  // ---------------------------------------------------------- giving back

  /** Since `v`: the blocks in `gone` were freed, those in `extra` hold one more reference. */
  ghost predicate Giving(v: View, m: View, extra: set<BlockId>, gone: set<BlockId>) {
    && m.tier == v.tier - gone && m.target == v.target - gone && m.val == v.val - gone
    && |m.rc| == |v.rc|
    && (forall id :: 0 <= id < |v.rc| ==>
          m.rc[id] == if id in gone then 0 else v.rc[id] + if id in extra then 1 else 0)
    && |m.free| == |v.free| && (forall t :: 0 <= t < |v.free| ==> m.free[t] >= v.free[t])
    && Room(m) == Room(v)
  }

  lemma AdoptedSame(v: View, m: View, taken: set<BlockId>)
    requires Adopted(v, m, taken)
    ensures m.tier == v.tier
  {
  }

  lemma GivingStart(v: View, m: View, taken: set<BlockId>)
    requires Adopted(v, m, taken)
    ensures Giving(v, m, taken, {})
  {
    assert v.tier - {} == v.tier && v.target - {} == v.target && v.val - {} == v.val;
    RoomSame(v, m);
  }

  /** One decref of the loop over `bs`: an adopted block stays, any other goes. */
  lemma GivingNext(v: View, m: View, bs: seq<BlockId>, i: nat, taken: set<BlockId>)
    requires NoDup(bs) && Sole(v, bs) && i < |bs| && bs[i] in v.tier
    requires Giving(v, m, taken - Ids(bs[..i]), Ids(bs[..i]) - taken)
    ensures bs[i] in m.tier && bs[i] < |m.rc| && m.rc[bs[i]] > 0
    ensures m.tier[bs[i]] < |m.free| ==>
              Giving(v, VDecref(m, bs[i]), taken - Ids(bs[..i + 1]), Ids(bs[..i + 1]) - taken)
  {
    var id := bs[i];
    assert id !in bs[..i];
    assert Ids(bs[..i + 1]) == Ids(bs[..i]) + {id};
    if m.tier[id] < |m.free| {
      GivingOne(v, m, taken - Ids(bs[..i]), Ids(bs[..i]) - taken, id);
      if id in taken {
        assert taken - Ids(bs[..i + 1]) == taken - Ids(bs[..i]) - {id};
        assert Ids(bs[..i + 1]) - taken == Ids(bs[..i]) - taken;
      } else {
        assert taken - Ids(bs[..i + 1]) == taken - Ids(bs[..i]);
        assert Ids(bs[..i + 1]) - taken == Ids(bs[..i]) - taken + {id};
      }
    }
  }

  lemma GivingOne(v: View, m: View, extra: set<BlockId>, gone: set<BlockId>, id: BlockId)
    requires Giving(v, m, extra, gone) && id !in gone
    requires id < |v.rc| && v.rc[id] == 1 && id in m.tier && m.tier[id] < |m.free|
    ensures m.rc[id] > 0
    ensures if id in extra then Giving(v, VDecref(m, id), extra - {id}, gone)
            else Giving(v, VDecref(m, id), extra, gone + {id})
  {
    var m' := VDecref(m, id);
    RoomDecref(m, id);
    if id !in extra {
      assert m'.tier == v.tier - (gone + {id});
      assert m'.target == v.target - (gone + {id});
      assert m'.val == v.val - (gone + {id});
    }
  }

  lemma GivingEnd(v: View, m: View, bs: seq<BlockId>, taken: set<BlockId>)
    requires Giving(v, m, taken - Ids(bs), Ids(bs) - taken) && taken <= Ids(bs)
    ensures Shed(v, m, Ids(bs) - taken)
  {
    assert taken - Ids(bs) == {};
  }

  // -------------------------------------------------------------- the end

  /** The fresh blocks of `h` are those `taken` into the index and those freed. */
  ghost predicate GivesUp(hs: Handles, h: Hid, taken: set<BlockId>, gone: set<BlockId>) {
    && taken !! gone
    && (forall id: nat :: (id in taken || id in gone) <==> exists i: nat :: FreshAt(hs, h, i, id))
  }

  ghost predicate NewEntryOk(idx: map<Path, BlockId>, idx': map<Path, BlockId>, v: View, kv: Kv,
                             taken: set<BlockId>, p: Path) {
    p in idx' && p !in idx ==> idx'[p] in taken && idx'[p] in v.val && v.val[idx'[p]] == kv(p)
  }

  /** The index gained entries for the blocks in `taken`, which hold what those entries promise. */
  ghost predicate Published(idx: map<Path, BlockId>, idx': map<Path, BlockId>, v: View, kv: Kv, taken: set<BlockId>) {
    && Within(idx, idx')
    && (forall p :: NewEntryOk(idx, idx', v, kv, taken, p))
    && (forall id :: id in taken ==> Stored(idx', id))
  }

  lemma Disarms(hs: Handles, h: Hid)
    ensures Disowned(hs, hs[h := DISARMED], h)
  {
  }

  /** Release and abandon: the end of a request keeps everything that holds of the others. */
  lemma EndKeeps(bt: nat, kv: Kv, t: Tree, t': Tree, v: View, v': View, hs: Handles, hs': Handles, h: Hid,
                 taken: set<BlockId>, gone: set<BlockId>)
    requires Core(bt, kv, t, v, hs) && Gated(v, hs, None) && Disowned(hs, hs', h)
    requires Inv(t') && Backed(t'.index, v') && t'.pins == t.pins - {h}
    requires SamePaths(t.nodes, t'.nodes)
    requires GivesUp(hs, h, taken, gone) && Published(t.index, t'.index, v, kv, taken) && Shed(v, v', gone)
    ensures Core(bt, kv, t', v', hs') && Gated(v', hs', None) && Spared(hs', gone)
  {
    assert Core(bt, kv, t, v, hs);
    EndHandles(bt, t, t', hs, hs', h);
    EndOwners(v, v', t.index, t'.index, hs, hs', h, kv, taken, gone);
    EndContents(kv, v, v', t.index, t'.index, hs, h, taken, gone);
    EndGate(bt, kv, t, v, v', hs, hs', h, taken, gone);
  }

  lemma EndHandles(bt: nat, t: Tree, t': Tree, hs: Handles, hs': Handles, h: Hid)
    requires HandlesOk(bt, t, hs) && Disowned(hs, hs', h) && t'.pins == t.pins - {h} && Within(t.index, t'.index)
    requires SamePaths(t.nodes, t'.nodes)
    ensures HandlesOk(bt, t', hs')
  {
    forall g: nat ensures HandleOk(bt, t', hs', g) && PinAgrees(t'.pins, hs', g) {
      assert HandleOk(bt, t, hs, g) && PinAgrees(t.pins, hs, g);
      if Live(hs', g) && bt > 0 {
        var a, cs := hs[g], Chunks(hs[g].tokens, bt);
        forall i | 0 <= i < a.cachedBlocks ensures EntryIs(t'.index, cs, i, a.blocks[..a.cachedBlocks][i]) {
          assert EntryIs(t.index, cs, i, a.blocks[..a.cachedBlocks][i]);
        }
      }
    }
  }

  lemma EndContents(kv: Kv, v: View, v': View, idx: map<Path, BlockId>, idx': map<Path, BlockId>, hs: Handles, h: Hid,
                    taken: set<BlockId>, gone: set<BlockId>)
    requires ContentsOk(v, idx, kv) && OwnersOk(v, idx, hs)
    requires GivesUp(hs, h, taken, gone) && Published(idx, idx', v, kv, taken) && Shed(v, v', gone)
    ensures ContentsOk(v', idx', kv)
  {
    forall p ensures ContentOk(v', idx', kv, p) {
      assert ContentOk(v, idx, kv, p) && NewEntryOk(idx, idx', v, kv, taken, p);
      if p in idx {
        GoneNotStored(v, idx, hs, h, taken, gone, idx[p]);
      }
    }
  }

  lemma GoneNotStored(v: View, idx: map<Path, BlockId>, hs: Handles, h: Hid,
                      taken: set<BlockId>, gone: set<BlockId>, id: BlockId)
    requires OwnersOk(v, idx, hs) && GivesUp(hs, h, taken, gone) && Stored(idx, id)
    ensures id !in gone && id !in taken && !IsFresh(hs, id)
  {
    forall g: nat, i: nat ensures !FreshAt(hs, g, i, id) {
      assert FreshOk(v, idx, hs, g, i, id);
    }
  }

  lemma EndOwners(v: View, v': View, idx: map<Path, BlockId>, idx': map<Path, BlockId>, hs: Handles, hs': Handles,
                  h: Hid, kv: Kv, taken: set<BlockId>, gone: set<BlockId>)
    requires OwnersOk(v, idx, hs) && Disowned(hs, hs', h)
    requires GivesUp(hs, h, taken, gone) && Published(idx, idx', v, kv, taken) && Shed(v, v', gone)
    ensures OwnersOk(v', idx', hs')
  {
    forall g: nat, i: nat, id: nat ensures FreshAt(hs', g, i, id) <==> g != h && FreshAt(hs, g, i, id) {
    }
    forall g: nat, i: nat, id: nat ensures FreshOk(v', idx', hs', g, i, id) {
      assert FreshOk(v, idx, hs, g, i, id);
      if FreshAt(hs', g, i, id) {
        OthersFresh(v, idx, idx', hs, h, g, i, id, kv, taken, gone);
      }
    }
    forall g: nat, i: nat, f: nat, j: nat, id: nat ensures FreshApart(hs', g, i, f, j, id) {
      assert FreshApart(hs, g, i, f, j, id);
    }
    forall id: nat ensures RcOk(v', idx', hs', id) {
      EndRc(v, v', idx, idx', hs, hs', h, kv, taken, gone, id);
    }
  }

  /** A block fresh for another handle is neither freed nor published. */
  lemma OthersFresh(v: View, idx: map<Path, BlockId>, idx': map<Path, BlockId>, hs: Handles, h: Hid, g: Hid, i: nat,
                    id: BlockId, kv: Kv, taken: set<BlockId>, gone: set<BlockId>)
    requires OwnersOk(v, idx, hs) && g != h && FreshAt(hs, g, i, id)
    requires GivesUp(hs, h, taken, gone) && Published(idx, idx', v, kv, taken)
    ensures id !in gone && id !in taken && !Stored(idx', id)
  {
    forall j: nat ensures !FreshAt(hs, h, j, id) {
      assert FreshApart(hs, g, i, h, j, id);
    }
    assert FreshOk(v, idx, hs, g, i, id);
    forall p | p in idx' ensures idx'[p] != id {
      assert NewEntryOk(idx, idx', v, kv, taken, p);
    }
  }

  lemma EndRc(v: View, v': View, idx: map<Path, BlockId>, idx': map<Path, BlockId>, hs: Handles, hs': Handles,
              h: Hid, kv: Kv, taken: set<BlockId>, gone: set<BlockId>, id: BlockId)
    requires OwnersOk(v, idx, hs) && Disowned(hs, hs', h)
    requires GivesUp(hs, h, taken, gone) && Published(idx, idx', v, kv, taken) && Shed(v, v', gone)
    ensures RcOk(v', idx', hs', id)
  {
    assert RcOk(v, idx, hs, id);
    forall g: nat, i: nat ensures FreshAt(hs', g, i, id) <==> g != h && FreshAt(hs, g, i, id) {
    }
    if Stored(idx, id) {
      GoneNotStored(v, idx, hs, h, taken, gone, id);
      var p :| p in idx && idx[p] == id;
      assert idx'[p] == id;
    } else if g: nat, i: nat :| FreshAt(hs', g, i, id) {
      OthersFresh(v, idx, idx', hs, h, g, i, id, kv, taken, gone);
      assert FreshAt(hs, g, i, id);
    } else {
      forall p | p in idx' && idx'[p] == id ensures id in taken {
        assert NewEntryOk(idx, idx', v, kv, taken, p);
      }
      if id in taken || id in gone {
        var i: nat :| FreshAt(hs, h, i, id);
        assert IsFresh(hs, id);
      } else {
        assert forall g: nat, i: nat :: FreshAt(hs, g, i, id) ==> FreshAt(hs', g, i, id);
      }
    }
  }

  lemma EndGate(bt: nat, kv: Kv, t: Tree, v: View, v': View, hs: Handles, hs': Handles, h: Hid,
                taken: set<BlockId>, gone: set<BlockId>)
    requires Core(bt, kv, t, v, hs) && Gated(v, hs, None) && Disowned(hs, hs', h)
    requires GivesUp(hs, h, taken, gone) && Shed(v, v', gone)
    ensures Gated(v', hs', None) && Spared(hs', gone)
  {
    forall g: nat, i: nat | Live(hs', g) && i < |hs'[g].blocks| ensures hs'[g].blocks[i] !in gone {
      var id := hs[g].blocks[i];
      if i < hs[g].cachedBlocks {
        CachedApart(bt, kv, t, v, hs, g);
        GoneNotStored(v, t.index, hs, h, taken, gone, id);
      } else {
        forall j: nat ensures !FreshAt(hs, h, j, id) {
          assert FreshAt(hs, g, i, id) && FreshApart(hs, g, i, h, j, id);
        }
      }
    }
    forall g: nat, i: nat ensures GateOk(v', hs', g, i) {
      assert GateOk(v, hs, g, i);
    }
  }

  // -------------------------------------------------------------- release

  /** The engine has filled every whole fresh block of the table. */
  ghost predicate Filled(bt: nat, kv: Kv, v: View, a: Handle) {
    bt > 0 ==>
      forall i: nat :: a.cachedBlocks <= i < |a.blocks| && i < |Chunks(a.tokens, bt)| ==>
        a.blocks[i] in v.val && v.val[a.blocks[i]] == kv(Chunks(a.tokens, bt)[..i + 1])
  }

  /** The engine has computed every whole fresh block of the table. */
  predicate Computed(bt: nat, kv: Kv, a: Handle)
    requires bt > 0
  {
    var cs := Chunks(a.tokens, bt);
    forall i: nat :: a.cachedBlocks <= i < |cs| ==> i in a.data && a.data[i] == kv(cs[..i + 1])
  }

  /** What the engine put into its blocks is still there. */
  lemma ComputedIsFilled(bt: nat, kv: Kv, t: Tree, v: View, hs: Handles, h: Hid)
    requires Core(bt, kv, t, v, hs) && Live(hs, h) && Computed(bt, kv, hs[h])
    ensures Filled(bt, kv, v, hs[h])
  {
    var a, cs := hs[h], Chunks(hs[h].tokens, bt);
    forall i: nat | a.cachedBlocks <= i < |a.blocks| && i < |cs|
      ensures a.blocks[i] in v.val && v.val[a.blocks[i]] == kv(cs[..i + 1])
    {
      assert FreshAt(hs, h, i, a.blocks[i]) && FreshOk(v, t.index, hs, h, i, a.blocks[i]);
    }
  }

  /** release()'s insert never adopts the cached prefix: what it takes is fresh. */
  lemma InsertTakesFresh(bt: nat, t: Tree, hs: Handles, h: Hid, pos: nat)
    requires bt > 0 && HandleOk(bt, t, hs, h) && Live(hs, h) && LongestIn(t.index, Chunks(hs[h].tokens, bt), pos)
    ensures hs[h].cachedBlocks <= pos <= |Chunks(hs[h].tokens, bt)|
  {
    var a, cs := hs[h], Chunks(hs[h].tokens, bt);
    if a.cachedBlocks > 0 {
      assert EntryIs(t.index, cs, a.cachedBlocks - 1, a.blocks[..a.cachedBlocks][a.cachedBlocks - 1]);
    }
  }

  /** What insert() made of a filled table is a publication of blocks of its fresh part. */
  lemma InsertPublishes(bt: nat, kv: Kv, t: Tree, t': Tree, v: View, m: View, hs: Handles, h: Hid,
                        pos: nat, taken: seq<BlockId>)
    requires Core(bt, kv, t, v, hs) && Live(hs, h) && Filled(bt, kv, v, hs[h])
    requires Inserted(t.key, t.index, t'.index, v, m, Chunks(hs[h].tokens, bt), hs[h].blocks, pos, taken)
    ensures Published(t.index, t'.index, v, kv, Ids(taken))
    ensures hs[h].cachedBlocks <= |hs[h].blocks| && Ids(taken) <= Ids(hs[h].blocks[hs[h].cachedBlocks..])
  {
    assert HandleOk(bt, t, hs, h);
    InsertTakesFresh(bt, t, hs, h, pos);
    assert hs[h].cachedBlocks <= |hs[h].blocks|;
    hide Core, Filled;
    SliceWithin(hs[h].blocks, hs[h].cachedBlocks, pos, |Chunks(hs[h].tokens, bt)|, taken);
    EntriesPublish(bt, kv, t.index, v, hs[h], pos, taken);
  }

  lemma SliceWithin(bs: seq<BlockId>, c: nat, pos: nat, n: nat, taken: seq<BlockId>)
    requires c <= pos <= n <= |bs| && (taken == [] || taken == bs[pos..n])
    ensures Ids(taken) <= Ids(bs[c..])
  {
    forall id | id in taken ensures id in bs[c..] {
      var i :| 0 <= i < |taken| && taken[i] == id;
      assert bs[c..][pos + i - c] == id;
    }
  }

  lemma EntriesPublish(bt: nat, kv: Kv, idx: map<Path, BlockId>, v: View, a: Handle, pos: nat, taken: seq<BlockId>)
    requires bt > 0 && Filled(bt, kv, v, a) && a.cachedBlocks <= pos && LongestIn(idx, Chunks(a.tokens, bt), pos)
    requires |Chunks(a.tokens, bt)| <= |a.blocks|
    requires taken == [] || taken == a.blocks[pos..|Chunks(a.tokens, bt)|]
    ensures Published(idx, idx + Entries(Chunks(a.tokens, bt), pos, taken), v, kv, Ids(taken))
  {
    var cs := Chunks(a.tokens, bt);
    var more := Entries(cs, pos, taken);
    forall id | id in taken ensures Stored(idx + more, id) {
      var i :| 0 <= i < |taken| && taken[i] == id;
      EntriesHave(cs, pos, taken, pos + i + 1);
      assert (idx + more)[cs[..pos + i + 1]] == id;
    }
    forall p | p in more ensures p !in idx && NewEntryOk(idx, idx + more, v, kv, Ids(taken), p) {
      EntriesOnly(cs, pos, taken, p);
      EntriesHave(cs, pos, taken, |p|);
      var i := |p| - 1;
      assert p == cs[..i + 1];
      assert a.blocks[i] == taken[i - pos] == more[p];
    }
    forall p ensures NewEntryOk(idx, idx + more, v, kv, Ids(taken), p) {
    }
  }

  lemma NothingPublished(idx: map<Path, BlockId>, v: View, kv: Kv)
    ensures Published(idx, idx, v, kv, {})
  {
  }

  /** A live handle gives up its fresh part. */
  lemma LiveGivesUp(bt: nat, kv: Kv, t: Tree, v: View, hs: Handles, h: Hid, taken: set<BlockId>)
    requires Core(bt, kv, t, v, hs) && Live(hs, h) && hs[h].cachedBlocks <= |hs[h].blocks|
    requires taken <= Ids(hs[h].blocks[hs[h].cachedBlocks..])
    ensures GivesUp(hs, h, taken, Ids(hs[h].blocks[hs[h].cachedBlocks..]) - taken)
  {
    FreshPart(bt, kv, t, v, hs, h);
  }

  /** Freeing what was not published keeps the index backed. */
  lemma StillBacked(v: View, v': View, idx: map<Path, BlockId>, idx': map<Path, BlockId>, hs: Handles, h: Hid, kv: Kv,
                    m: View, taken: set<BlockId>, gone: set<BlockId>)
    requires OwnersOk(v, idx, hs) && Backed(idx', m) && m.tier == v.tier && GivesUp(hs, h, taken, gone)
    requires Published(idx, idx', v, kv, taken) && Shed(v, v', gone)
    ensures Backed(idx', v')
  {
    forall p, q ensures OneHome(idx', p, q) {
      assert OneHome(idx', p, q);
    }
    forall p | p in idx' ensures idx'[p] in v'.tier {
      assert NewEntryOk(idx, idx', v, kv, taken, p);
      if p in idx {
        GoneNotStored(v, idx, hs, h, taken, gone, idx[p]);
      }
    }
  }

  // ---------------------------------------------------------------- moves

  ghost function Moved(hs: Handles, src: Hid, dst: Hid): Handles
    requires src in hs
  {
    hs[dst := hs[src]][src := DISARMED]
  }

  /** Moving a handle moves what it owns: nothing is freed, duplicated or unpinned. */
  lemma MoveKeeps(bt: nat, kv: Kv, t: Tree, v: View, hs: Handles, src: Hid, dst: Hid)
    requires Core(bt, kv, t, v, hs) && Gated(v, hs, None) && src in hs && src != dst && !Live(hs, dst)
    ensures dst !in t.pins
    ensures Core(bt, kv, t.(pins := PinMoved(t.pins, src, dst)), v, Moved(hs, src, dst))
    ensures Gated(v, Moved(hs, src, dst), None)
  {
    var hs', t' := Moved(hs, src, dst), t.(pins := PinMoved(t.pins, src, dst));
    assert PinAgrees(t.pins, hs, src) && PinAgrees(t.pins, hs, dst) && HandleOk(bt, t, hs, src);
    MovePinInv(t, src, dst);
    forall g: nat ensures HandleOk(bt, t', hs', g) && PinAgrees(t'.pins, hs', g) {
      assert HandleOk(bt, t, hs, g) && PinAgrees(t.pins, hs, g);
    }
    MoveOwners(v, t.index, hs, src, dst);
    forall g: nat, i: nat ensures GateOk(v, hs', g, i) {
      assert GateOk(v, hs, g, i) && GateOk(v, hs, src, i);
    }
  }

  ghost function Was(src: Hid, dst: Hid, g: Hid): Hid {
    if g == dst then src else g
  }

  lemma MoveOwners(v: View, idx: map<Path, BlockId>, hs: Handles, src: Hid, dst: Hid)
    requires OwnersOk(v, idx, hs) && src in hs && src != dst && !Live(hs, dst)
    ensures OwnersOk(v, idx, Moved(hs, src, dst))
  {
    var hs' := Moved(hs, src, dst);
    forall g: nat, i: nat, id: nat
      ensures FreshAt(hs', g, i, id) <==> g != src && FreshAt(hs, Was(src, dst, g), i, id)
    {
    }
    forall g: nat, i: nat, id: nat ensures FreshOk(v, idx, hs', g, i, id) {
      assert FreshOk(v, idx, hs, Was(src, dst, g), i, id);
    }
    forall g: nat, i: nat, f: nat, j: nat, id: nat ensures FreshApart(hs', g, i, f, j, id) {
      assert FreshApart(hs, Was(src, dst, g), i, Was(src, dst, f), j, id);
    }
    forall id: nat ensures RcOk(v, idx, hs', id) {
      assert RcOk(v, idx, hs, id);
      if g: nat, i: nat :| FreshAt(hs, g, i, id) {
        assert FreshAt(hs', if g == src then dst else g, i, id);
      }
      if g: nat, i: nat :| FreshAt(hs', g, i, id) {
        assert FreshAt(hs, Was(src, dst, g), i, id);
      }
    }
  }
}
