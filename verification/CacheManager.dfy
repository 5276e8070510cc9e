/** The request lifecycle as the program has it, over one pool and one tree. */
module CacheManager {
  import opened Types
  import opened TreeModel
  import opened TreeSteps
  import opened TreeWalk
  import PoolModel
  import opened PoolView
  import opened PoolOps
  import PoolRuns
  import opened BlockPool
  import opened Backing
  import opened RadixTree
  import opened SystemModel
  import opened Requests
  import opened Planning
  import opened Guarantees
  import opened Eviction
  import Recency
  import opened Stability
  import opened Accounting

  datatype Options = Options(spillWatermark: nat, asyncPromotion: bool)

  datatype Stats = Stats(
    requests: nat,
    served: nat,
    totalTokens: nat,
    hitTokens: nat,
    evictedBlocks: nat,
    demotedBlocks: nat,
    backgroundDemotions: nat,
    promotedBlocks: nat,
    allocFailures: nat,
    abandoned: nat)

  /** What acquire() returns for an empty sequence: served, owning nothing. */
  const EMPTY := Handle(true, 0, 0, [], None, false, [], map[])

  /** A live table has a block for every block of its tokens; a handle that is not live holds nothing. */
  ghost predicate CompleteAt(bt: nat, hs: Handles, h: Hid) {
    bt > 0 && h in hs ==>
      if Live(hs, h) then |hs[h].blocks| == BlocksFor(hs[h].tokens, bt)
      else hs[h] == EMPTY || hs[h] == DISARMED
  }

  ghost predicate Complete(bt: nat, hs: Handles) {
    forall h: nat :: CompleteAt(bt, hs, h)
  }

  /**
   Every request but the `open` ones has been served or refused, and no more tokens came from the
   cache than were asked for.
   */
  ghost predicate Tallied(st: Stats, open: nat) {
    st.requests == st.served + st.allocFailures + open && st.hitTokens <= st.totalTokens
  }

  /** How the answer to a request for `n` tokens is counted. */
  predicate Scored(st: Stats, st': Stats, a: Handle, n: nat) {
    if a.ok then
      && st'.served == st.served + 1 && st'.allocFailures == st.allocFailures
      && st'.totalTokens == st.totalTokens + n && st'.hitTokens == st.hitTokens + a.cachedTokens
    else
      && st'.served == st.served && st'.allocFailures == st.allocFailures + 1
      && st'.totalTokens == st.totalTokens && st'.hitTokens == st.hitTokens
  }

  /** `n` blocks more were demoted, and nothing else was counted. */
  ghost predicate Demoted(st: Stats, st': Stats, n: nat) {
    st' == st.(demotedBlocks := st.demotedBlocks + n)
  }

  /** As many blocks more were evicted as the index lost, and nothing else was counted. */
  ghost predicate Evicted(st: Stats, st': Stats, idx: map<Path, BlockId>, idx': map<Path, BlockId>) {
    LossCounted(st, st', idx, idx') && st' == st.(evictedBlocks := st'.evictedBlocks)
  }

  /** Every entry that the index lost was counted as an evicted block. */
  ghost predicate LossCounted(st: Stats, st': Stats, idx: map<Path, BlockId>, idx': map<Path, BlockId>) {
    st'.evictedBlocks + |idx'| == st.evictedBlocks + |idx|
  }

  /** What of `bs` was away was promoted if `ok`, and counted; nothing else was moved. */
  ghost predicate Brought(st: Stats, st': Stats, v: View, bs: seq<BlockId>, ok: bool) {
    && st'.promotedBlocks == st.promotedBlocks + (if ok then Need(v, bs) else 0)
    && st'.requests == st.requests && st'.demotedBlocks == st.demotedBlocks && st'.evictedBlocks == st.evictedBlocks
    && st'.abandoned == st.abandoned && st'.backgroundDemotions >= st.backgroundDemotions
  }

  /** Every block that acquire() demoted or promoted was counted. */
  ghost predicate MovesCounted(st: Stats, st': Stats, c: Course, bs: seq<BlockId>, ok: bool) {
    && st'.demotedBlocks == st.demotedBlocks + |c.demoted|
    && st'.promotedBlocks == st.promotedBlocks + (if ok then Need(c.after, bs) else 0)
    && st'.abandoned == st.abandoned && st'.backgroundDemotions >= st.backgroundDemotions
  }

  /** Nothing was counted but demotions in the background. */
  ghost predicate OnlyTopped(st: Stats, st': Stats) {
    st' == st.(backgroundDemotions := st'.backgroundDemotions) && st'.backgroundDemotions >= st.backgroundDemotions
  }

  lemma ToppedTally(st: Stats, st': Stats)
    requires st' == st || OnlyTopped(st, st')
    ensures OnlyTopped(st, st') && (Tallied(st, 0) ==> Tallied(st', 0))
  {
  }

  /** The blocks in `demoted` were counted as demoted and what the index lost as evicted, and nothing else was counted. */
  ghost predicate Relieved(st: Stats, st': Stats, demoted: seq<BlockId>, idx: map<Path, BlockId>, idx': map<Path, BlockId>) {
    && LossCounted(st, st', idx, idx')
    && st' == st.(demotedBlocks := st.demotedBlocks + |demoted|, evictedBlocks := st'.evictedBlocks)
  }

  lemma EvictedNone(st: Stats, idx: map<Path, BlockId>)
    ensures Evicted(st, st, idx, idx)
  {
  }

  lemma EvictedMore(st: Stats, mid: Stats, idx: map<Path, BlockId>, m: map<Path, BlockId>, idx': map<Path, BlockId>, n: nat)
    requires Evicted(st, mid, idx, m) && n + |idx'| == |m|
    ensures Evicted(st, mid.(evictedBlocks := mid.evictedBlocks + n), idx, idx')
  {
  }

  lemma RelievedBoth(st: Stats, mid: Stats, st': Stats, demoted: seq<BlockId>, idx: map<Path, BlockId>, idx': map<Path, BlockId>)
    requires Demoted(st, mid, |demoted|) && Evicted(mid, st', idx, idx')
    ensures Relieved(st, st', demoted, idx, idx')
  {
  }

  lemma RelievedTally(st: Stats, st': Stats, demoted: seq<BlockId>, idx: map<Path, BlockId>, idx': map<Path, BlockId>, open: nat)
    requires Relieved(st, st', demoted, idx, idx') && Tallied(st, open)
    ensures Tallied(st', open) && st'.requests == st.requests
  {
  }

  lemma CountedSince(st: Stats, mid: Stats, st': Stats, a: Handle, n: nat, c: Course, bs: seq<BlockId>,
                     idx: map<Path, BlockId>, idx': map<Path, BlockId>)
    requires mid == st.(requests := st.requests + 1) && Scored(mid, st', a, n) && LossCounted(mid, st', idx, idx')
    requires MovesCounted(mid, st', c, bs, a.ok)
    ensures Scored(st, st', a, n) && LossCounted(st, st', idx, idx') && MovesCounted(st, st', c, bs, a.ok)
  {
  }

  lemma ScoredSince(st: Stats, mid: Stats, st': Stats, a: Handle, n: nat, c: Course, bs: seq<BlockId>, ok: bool,
                    idx: map<Path, BlockId>, idx': map<Path, BlockId>)
    requires Relieved(st, mid, c.demoted, idx, idx') && Scored(mid, st', a, n) && Brought(mid, st', c.after, bs, ok)
    ensures Scored(st, st', a, n) && LossCounted(st, st', idx, idx') && MovesCounted(st, st', c, bs, ok)
    ensures st'.requests == st.requests
  {
  }

  /** The free and the promised compute slots reach the watermark, or no more can be demoted. */
  ghost predicate ToppedUp(ns: Nodes, v: View, host: seq<bool>, watermark: nat) {
    |v.free| > 1 && Projected(v) < watermark ==> Blocked(v, host) || forall id: nat :: !Victim(ns, v, id)
  }

  /**
   How acquire() comes to its answer. The pool is drained (`settled`) and the match pinned in `tree`; then room is
   made, by cancelling the demotions of the match (`before`), by demoting the blocks in `demoted` (`mid`),
   and by dropping the leaves in `victims`, the tree going through the states of `trace` (`after`).
   */
  datatype Course = Course(settled: View, tree: Tree, before: View, demoted: seq<BlockId>, mid: View,
                           trace: seq<Nodes>, victims: seq<NodeId>, after: View)

  /**
   Room for `demand` blocks is made in the right way: the coldest victims are demoted, no more than needed;
   leaves are dropped only if that was not enough and no more could be demoted, the oldest first, and none once there
   is room.
   */
  ghost predicate Orderly(c: Course, demand: int) {
    && Lowered(c.before, c.mid, c.demoted, |c.demoted|) && WellChosen(c.tree.nodes, c.before, c.mid, c.demoted)
    && (c.demoted != [] ==> c.mid.free[0] <= demand)
    && Dropping(c.tree.key, c.mid, c.tree.nodes, c.trace, c.victims)
    && (c.victims != [] ==> c.mid.free[0] < demand && Dry(c.tree.nodes, c.mid))
    && |c.after.free| > 0 && NotBeyond(c.after.free[0], demand, c.trace, c.victims)
  }

  /** The demand is what of the match has to be promoted, and the blocks that the match lacks of `need`. */
  ghost predicate Planned(c: Course, bs: seq<BlockId>, need: nat) {
    && Stopped(c.settled, c.before, bs, |bs|) && Unmoved(c.before, c.after, bs)
    && Orderly(c, Need(c.after, bs) + need - |bs|)
  }

  /** The nodes left are those the evictions left; if there were none, the index is what it was. */
  ghost predicate Leaves(c: Course, nodes: set<NodeId>, idx: map<Path, BlockId>) {
    && c.trace != [] && Last(c.trace).Keys == nodes && (c.victims == [] ==> idx == c.tree.index)
  }

  /** The tree `t` once the match for `h` is pinned: it stores the same, under the same pins and this one. */
  ghost predicate PinnedFor(t: Tree, key: Key, idx: map<Path, BlockId>, pins: map<nat, NodeId>, h: Hid) {
    Inv(t) && t.key == key && t.index == idx && t.pins - {h} == pins
  }

  /** From the pool `v` and the tree `t`, acquire() drained, pinned the match, and made room for a table of `need` blocks. */
  ghost predicate Followed(c: Course, v: View, t: Tree, h: Hid, matched: seq<BlockId>, need: nat) {
    Drained(v, c.settled) && PinnedFor(c.tree, t.key, t.index, t.pins, h) && Planned(c, matched, need)
  }

  lemma PlannedRoom(c: Course, settled: View, bs: seq<BlockId>, need: nat, demand: int)
    requires Stopped(settled, c.before, bs, |bs|) && Unmoved(c.before, c.after, bs)
    requires Orderly(c, demand) && demand == Need(c.after, bs) + need - |bs|
    ensures Planned(c.(settled := settled), bs, need)
  {
  }

  lemma OrderlyBoth(c: Course, demand: int)
    requires Lowered(c.before, c.mid, c.demoted, |c.demoted|) && WellChosen(c.tree.nodes, c.before, c.mid, c.demoted)
    requires c.demoted != [] ==> |c.mid.free| > 0 && c.mid.free[0] <= demand
    requires Dropping(c.tree.key, c.mid, c.tree.nodes, c.trace, c.victims)
    requires c.victims == [] || (|c.mid.free| > 0 && c.mid.free[0] < demand)
    requires |c.mid.free| > 0 && (c.mid.free[0] >= demand || Dry(c.tree.nodes, c.mid))
    requires |c.after.free| > 0 && NotBeyond(c.after.free[0], demand, c.trace, c.victims)
    ensures Orderly(c, demand)
  {
  }

  /** Every node but the root is pinned, or lies on the path `p`. */
  ghost predicate PinnedBut(ns: Nodes, p: Path) {
    forall n: nat :: n in ns && n != ROOT ==> ns[n].lockCount > 0 || ns[n].path <= p
  }

  /** Slot `l` is the home of block `id`, or held in reserve for it by a job that is not cancelled. */
  ghost predicate HeldFor(s: PoolModel.Pool, l: PoolModel.Location, id: BlockId) {
    PoolRuns.IsHome(s, l, id) || exists i: nat :: PoolRuns.IsReserved(s, l, i) && !s.jobs[i].cancelled && s.jobs[i].id == id
  }

  /** Slot `l` is held in reserve by a cancelled job. */
  ghost predicate StaleAt(s: PoolModel.Pool, l: PoolModel.Location) {
    exists i: nat :: PoolRuns.IsReserved(s, l, i) && s.jobs[i].cancelled
  }

  lemma HolderOf(s: PoolModel.Pool, l: PoolModel.Location) returns (id: BlockId)
    requires PoolModel.Inv(s) && PoolModel.InTier(s, l) && !PoolRuns.IsFree(s, l) && !StaleAt(s, l)
    ensures HeldFor(s, l, id) && PoolModel.Allocated(s, id)
  {
    PoolRuns.SlotPartition(s, l);
    if x :| PoolRuns.IsHome(s, l, x) {
      id := x;
    } else {
      var i: nat :| PoolRuns.IsReserved(s, l, i);
      id := s.jobs[i].id;
      assert PoolModel.LiveOk(s, i) && PoolModel.MigOk(s, id);
    }
  }

  lemma WithoutRequest(hs: Handles, h: Hid, a: Handle, v: View)
    requires h !in hs && a.ok && a.armed && AllInUse(hs[h := a], v, [])
    ensures AllInUse(hs, v, a.blocks) && AllInUse(hs[h := DISARMED], v, a.blocks)
  {
    forall id: nat | id in v.tier && id !in a.blocks ensures InTable(hs, id) && InTable(hs[h := DISARMED], id) {
      JoinsTables(hs, h, a, id);
      var g: nat, i: nat :| TableAt(hs, g, i, id);
      assert TableAt(hs[h := DISARMED], g, i, id);
    }
  }

  /**
   The compute tier cannot hold what a request for `need` blocks lacks; all the rest of the tree is
   pinned, and every block in use belongs to a live table or to the prefix matched.
   */
  ghost predicate Oversubscribed(ns: Nodes, hs: Handles, v: View, p: Path, matched: seq<BlockId>, need: nat) {
    && PinnedBut(ns, p) && AllInUse(hs, v, matched)
    && |v.free| > 0 && v.free[0] + |matched| < need + Need(v, matched)
  }

  /** The same handle with a table of `need` blocks that starts with what it had. */
  predicate Extends(a: Handle, b: Handle, need: nat) {
    b == a.(blocks := b.blocks) && a.blocks <= b.blocks && |b.blocks| == need
  }

  /** What acquire() starts from: a live handle that has its cached prefix only. */
  predicate NewHandle(a: Handle) {
    a.ok && a.armed && a.cachedBlocks == |a.blocks| && a.data == map[]
  }

  /** A table of `need` blocks for `tokens` that starts with the `matched` ones. */
  predicate Granted(a: Handle, tokens: seq<TokenId>, bt: nat, matched: seq<BlockId>, need: nat) {
    && a.ok && a.armed && a.tokens == tokens && a.data == map[]
    && matched <= a.blocks && |a.blocks| == need && Spans(need, |tokens|, bt)
    && a.cachedBlocks == |matched| && a.cachedTokens == |matched| * bt
  }

  /** The index was extended by what of `cs` it did not have, or not at all if the key slot was taken. */
  ghost predicate Extended(key: Key, idx: map<Path, BlockId>, idx': map<Path, BlockId>, cs: Path,
                           blocks: seq<BlockId>, pos: nat, taken: seq<BlockId>) {
    && LongestIn(idx, cs, pos) && |cs| <= |blocks|
    && taken == (if Refuses(key, idx, cs, pos) then [] else blocks[pos..|cs|])
    && idx' == idx + Entries(cs, pos, taken)
  }

  lemma NothingExtended(key: Key, idx: map<Path, BlockId>, blocks: seq<BlockId>)
    ensures Extended(key, idx, idx, [], blocks, 0, [])
  {
  }

  lemma NothingAdopted(key: Key, idx: map<Path, BlockId>, idx': map<Path, BlockId>, v: View, v': View,
                       pos: nat, taken: seq<BlockId>)
    requires Inserted(key, idx, idx', v, v', [], [], pos, taken)
    ensures idx' == idx && v' == v
  {
    assert taken == [];
  }

  lemma CompleteMoved(bt: nat, hs: Handles, src: Hid, dst: Hid)
    requires Complete(bt, hs) && src in hs
    ensures Complete(bt, Moved(hs, src, dst))
  {
    var hs' := Moved(hs, src, dst);
    forall g: nat ensures CompleteAt(bt, hs', g) {
      assert CompleteAt(bt, hs, g) && CompleteAt(bt, hs, src);
    }
  }

  lemma DrainedSelf(v: View)
    ensures Drained(v, v)
  {
  }

  lemma CachedWithin(bt: nat, t: Tree, hs: Handles, h: Hid)
    requires bt > 0 && HandleOk(bt, t, hs, h) && Live(hs, h)
    ensures hs[h].cachedTokens <= |hs[h].tokens|
    ensures hs[h].cachedBlocks <= |Chunks(hs[h].tokens, bt)| <= BlocksFor(hs[h].tokens, bt)
  {
    ChunksAreWholeBlocks(hs[h].tokens, bt);
    BlocksForChunks(hs[h].tokens, bt);
    MulMonotone(hs[h].cachedBlocks, |Chunks(hs[h].tokens, bt)|, bt);
  }

  lemma CompleteOther(bt: nat, hs: Handles, h: Hid, a: Handle)
    requires Complete(bt, hs)
    requires if a.ok && a.armed then bt > 0 && |a.blocks| == BlocksFor(a.tokens, bt) else a == EMPTY || a == DISARMED
    ensures Complete(bt, hs[h := a])
  {
    var hs' := hs[h := a];
    forall g: nat ensures CompleteAt(bt, hs', g) {
      assert CompleteAt(bt, hs, g);
    }
  }

  /** The one handle changed is `h`. */
  ghost predicate OnlyChanges(hs: Handles, hs': Handles, h: Hid) {
    h in hs' && hs' == hs[h := hs'[h]]
  }

  class CacheManager {
    const options: Options
    const pool: BlockPool
    const tree: RadixTree
    const kv: Kv
    var handles: Handles
    var stats: Stats

    /**
     The system is sound for the handles `hs`, the gate not yet closed for `except`; no promotion is in
     flight if they are configured to be synchronous.
     */
    ghost predicate Sound(hs: Handles, except: Option<Hid>)
      reads tree, pool
    {
      && tree.pool == pool && pool.Valid() && Quiet(options.asyncPromotion, pool.view)
      && Core(tree.blockTokens, kv, tree.T(), pool.view, hs)
      && Gated(pool.view, hs, except)
    }

    ghost predicate Valid()
      reads this, tree, pool
    {
      Sound(handles, None) && Complete(tree.blockTokens, handles) && Tallied(stats, 0)
    }

    ghost function Sees(): Sight
      reads pool
    {
      Sight(pool.view, pool.location, pool.head, pool.Front())
    }

    lemma SoundTree(hs: Handles, except: Option<Hid>)
      requires Sound(hs, except)
      ensures tree.Valid() && tree.blockTokens > 0 && |pool.view.free| > 0
      ensures forall id :: id in pool.view.target ==> id in pool.view.tier
    {
      forall id | id in pool.view.target ensures id in pool.view.tier {
        assert ShowsBlock(pool.State(), pool.view, id);
      }
    }

    lemma Apart()
      ensures (tree as object) != (pool as object) && (tree as object) != (this as object) && (pool as object) != (this as object)
    {
    }

    lemma HasTiers(hs: Handles, except: Option<Hid>)
      requires Sound(hs, except)
      ensures |pool.view.free| > 0 && tree.blockTokens > 0
    {
    }

    constructor (specs: seq<TierSpec>, bytes: nat, arena: PoolModel.Location -> seq<Byte>,
                 key: Key, blockTokens: nat, options: Options, kv: Kv)
      requires SpecsFault(specs, bytes).None? && blockTokens > 0 && forall l :: |arena(l)| == bytes
      ensures Valid() && handles == map[] && fresh(pool) && fresh(tree)
      ensures this.options == options && this.kv == kv && tree.blockTokens == blockTokens
      ensures pool.bytes == bytes && Fits(specs, bytes, pool.caps)
    {
      this.options, this.kv := options, kv;
      var p := new BlockPool(specs, bytes, arena);
      var r := new RadixTree(key, blockTokens, p);
      pool, tree := p, r;
      handles, stats := map[], Stats(0, 0, 0, 0, 0, 0, 0, 0, 0, 0);
      StartsSound(blockTokens, kv, r.T(), p.view);
    }

    /** The copy workers run for a while. Nobody can tell, but jobs get done. */
    method WorkersRun()
      requires Valid()
      modifies pool
      ensures Valid() && pool.view == old(pool.view) && pool.Still() && Steady(handles, old(Sees()), Sees())
    {
      hide Core, Gated, Quiet, BlockPool.Valid, Complete, Steady;
      pool.WorkersRun();
      StillSteady(handles, old(Sees()), Sees());
    }

    // -------------------------------------------------------------- acquire

    /**
     Fold in the background copies that have finished: all those at the front of the queue, and whatever the workers
     finish until then. The first job left is not finished, and the slots of the others are free or hold a block.
     */
    method Drain()
      requires Sound(handles, None)
      modifies pool
      ensures Sound(handles, None) && Drained(old(pool.view), pool.view) && Steady(handles, old(Sees()), Sees())
      ensures pool.head >= old(pool.Front()) && (pool.jobs == [] || !pool.jobs[0].done)
      ensures |pool.caps| > 0 && Room(pool.view) + |Behind(old(pool.State()))| >= pool.caps[0]
    {
      hide Core, Gated, Quiet, Drained, Steady, RestingStay, Room, Behind, PoolModel.Inv, Shows;
      ghost var s, v, sight := pool.State(), pool.view, Sees();
      pool.WorkersRun();
      ghost var k := PoolModel.FrontLen(pool.jobs);
      pool.DrainMigrations();
      DrainSteady(handles, sight, Sees());
      RoomDrained(s, k, pool.State(), pool.view);
      PoolHasTiers(pool.State(), pool.view);
      DrainQuiet(options.asyncPromotion, v, pool.view);
      DrainKeeps(tree.blockTokens, kv, tree.T(), v, pool.view, handles, None);
    }

    static lemma PoolHasTiers(s: PoolModel.Pool, v: View)
      requires PoolModel.Inv(s)
      ensures |s.caps| > 0
    {
    }

    /** Match the longest cached prefix and pin it before anything can evict it. */
    method MatchAndPin(h: Hid, tokens: seq<TokenId>) returns (a: Handle)
      requires Sound(handles, None) && h !in handles && tree.blockTokens > 0
      modifies tree
      ensures Sound(handles[h := a], Some(h)) && tree.index == old(tree.index) && tree.pins - {h} == old(tree.pins)
      ensures a.ok && a.armed && a.tokens == tokens && a.cachedBlocks == |a.blocks|
      ensures a.cachedTokens == |a.blocks| * tree.blockTokens && a.data == map[]
      ensures Matched(tree.index, Chunks(tokens, tree.blockTokens), a.blocks)
      ensures LongestIn(tree.index, Chunks(tokens, tree.blockTokens), |a.blocks|)
    {
      hide Core, Gated, Quiet, BlockPool.Valid, Inv, HandleOk, Matched, LongestIn, SamePaths;
      Apart();
      NotPinned(h);
      ghost var t := tree.T();
      var blocks, node := MatchAndLock(h, tokens);
      a := Handle(true, |blocks| * tree.blockTokens, |blocks|, blocks, node, true, tokens, map[]);
      NewHandleOk(tree.blockTokens, tree.T(), handles, h, a);
      OpenKeeps(tree.blockTokens, kv, t, tree.T(), pool.view, handles, h, a);
    }

    lemma NotPinned(h: Hid)
      requires Sound(handles, None) && h !in handles
      ensures tree.Ok() && h !in tree.pins
    {
      assert PinAgrees(tree.pins, handles, h);
    }

    method MatchAndLock(h: Hid, tokens: seq<TokenId>) returns (blocks: seq<BlockId>, node: Option<NodeId>)
      requires tree.Ok() && h !in tree.pins
      modifies tree
      ensures tree.Ok() && tree.PathsKept() && tree.index == old(tree.index)
      ensures PinIs(old(tree.pins), tree.pins, h, node)
      ensures Matched(tree.index, Chunks(tokens, tree.blockTokens), blocks)
      ensures LongestIn(tree.index, Chunks(tokens, tree.blockTokens), |blocks|)
      ensures node.Some? <==> blocks != []
      ensures node.Some? ==>
                node.value in tree.nodes && tree.nodes[node.value].path == Chunks(tokens, tree.blockTokens)[..|blocks|]
    {
      hide Inv, Matched, LongestIn;
      blocks, node := tree.MatchPrefix(tokens);
      if node.Some? {
        tree.Lock(node.value, h);
      }
    }

    /** A matched block on its way out of the compute tier stays; one on its way in is left alone. */
    method StopDemotions(h: Hid, bs: seq<BlockId>, ghost hs: Handles)
      requires Sound(hs, Some(h)) && Live(hs, h) && hs[h].blocks == bs && hs[h].cachedBlocks == |bs|
      modifies pool
      ensures Sound(hs, Some(h)) && Staying(pool.view, bs, |bs|) && Steady(hs, old(Sees()), Sees())
      ensures Stopped(old(pool.view), pool.view, bs, |bs|) && Room(pool.view) == Room(old(pool.view))
    {
      CachedApart(tree.blockTokens, kv, tree.T(), pool.view, hs, h);
      hide Core, Gated, Quiet, BlockPool.Valid, Staying, Stopped, Stored, Steady, Room;
      StayingNone(pool.view, bs);
      StoppedNone(pool.view, bs);
      SteadySelf(hs, Sees());
      var i := 0;
      while i < |bs|
        invariant i <= |bs| && Sound(hs, Some(h)) && Staying(pool.view, bs, i) && Steady(hs, old(Sees()), Sees())
        invariant Stopped(old(pool.view), pool.view, bs, i) && Room(pool.view) == Room(old(pool.view))
      {
        ghost var v, sight := pool.view, Sees();
        StopDemotion(h, bs, i, hs);
        StoppedNext(old(pool.view), v, pool.view, bs, i);
        SteadyTwice(hs, old(Sees()), sight, Sees());
        i := i + 1;
      }
    }

    method StopDemotion(h: Hid, bs: seq<BlockId>, i: nat, ghost hs: Handles)
      requires Sound(hs, Some(h)) && i < |bs| && Staying(pool.view, bs, i) && Stored(tree.index, bs[i])
      modifies pool
      ensures Sound(hs, Some(h)) && Staying(pool.view, bs, i + 1) && Steady(hs, old(Sees()), Sees())
      ensures pool.view == if bs[i] in old(pool.view).target && old(pool.view).target[bs[i]] != 0
                           then old(pool.view).(target := old(pool.view).target - {bs[i]}) else old(pool.view)
      ensures Room(pool.view) == Room(old(pool.view))
    {
      hide Core, Gated, Quiet, BlockPool.Valid, Shifted, Staying, Stored, Steady, Unheld, Room;
      Apart();
      StoredAllocated(hs, Some(h), bs[i]);
      ghost var v, sight := pool.view, Sees();
      pool.WorkersRun();
      var leaving := IsLeaving(bs[i]);
      if leaving {
        AwayMeansUnheld(v, hs, bs[i], Some(h));
        pool.CancelMigration(bs[i]);
        CancelShifts(v, bs[i]);
        ShiftKeeps(tree.blockTokens, kv, tree.T(), v, pool.view, hs, bs[i], Some(h));
        ShiftQuiet(options.asyncPromotion, v, pool.view, bs[i]);
      } else {
        ShiftedSelf(v, bs[i]);
      }
      ShiftSteadyHere(hs, sight, bs[i], leaving);
      RoomSame(v, pool.view);
      StayingNext(v, pool.view, bs, i);
    }

    /** Cancelling the demotion of a block, or passing over it. */
    lemma ShiftSteadyHere(hs: Handles, sight: Sight, id: BlockId, away: bool)
      requires Shifted(sight.v, pool.view, id) && pool.location == sight.loc && Later(sight, Sees())
      requires if away then !Home(sight.v, id) else pool.view == sight.v
      ensures Steady(hs, sight, Sees())
    {
      if away {
        ShiftSteady(hs, sight, Sees(), id);
      } else {
        StillSteady(hs, sight, Sees());
      }
    }

    method IsLeaving(id: BlockId) returns (b: bool)
      requires pool.Valid()
      ensures b <==> id in pool.view.target && pool.view.target[id] != 0
    {
      b := pool.Migrating(id);
      if b {
        var to := pool.MigrationTarget(id);
        b := to != 0;
      }
    }

    method IsAway(id: BlockId) returns (b: bool)
      requires pool.Valid() && id in pool.view.tier
      ensures b <==> Away(pool.view, id)
    {
      var tier := pool.BlockTier(id);
      var busy := pool.Migrating(id);
      b := tier != 0 && !busy;
    }

    /** How many of `bs` have to be promoted. */
    method CountPromotions(bs: seq<BlockId>) returns (count: nat)
      requires pool.Valid() && forall i :: 0 <= i < |bs| ==> bs[i] in pool.view.tier
      ensures count == Need(pool.view, bs)
    {
      hide BlockPool.Valid, Away;
      count := 0;
      var i := 0;
      while i < |bs|
        invariant i <= |bs| && count + Need(pool.view, bs[i..]) == Need(pool.view, bs)
      {
        assert bs[i..][1..] == bs[i + 1..];
        var away := IsAway(bs[i]);
        if away { count := count + 1; }
        i := i + 1;
      }
    }

    // ---------------------------------------------------- making room

    lemma StoredAllocated(hs: Handles, except: Option<Hid>, id: BlockId)
      requires Sound(hs, except) && Stored(tree.index, id)
      ensures id in pool.view.tier
    {
    }

    /** The demotion victims are in no live table. */
    method PickVictims(num: nat, ghost hs: Handles, ghost except: Option<Hid>) returns (victims: seq<BlockId>)
      requires Sound(hs, except)
      ensures |victims| <= num && Picks(tree.nodes, pool.view, victims)
      ensures forall i :: 0 <= i < |victims| ==> Unheld(hs, victims[i], None) && Stored(tree.index, victims[i])
      ensures |victims| < num ==> forall id: nat :: Victim(tree.nodes, pool.view, id) ==> id in victims
    {
      SoundTree(hs, except);
      hide RadixTree.Valid, BlockPool.Valid, Core, Gated, Quiet, Victim, Stored, Unheld, ColdestFirst, Ordered, NoDup;
      victims := tree.PickDemotionVictims(num);
      forall i | 0 <= i < |victims| ensures Unheld(hs, victims[i], None) && Stored(tree.index, victims[i]) {
        VictimMeansUnheld(tree.blockTokens, kv, tree.T(), pool.view, hs, victims[i]);
      }
    }

    /** Demote until the spill tier is full. Nothing in the table of `h` moves. */
    method DemoteVictims(victims: seq<BlockId>, h: Hid, ghost hs: Handles) returns (n: nat)
      requires Sound(hs, Some(h)) && Live(hs, h) && |pool.view.free| > 1 && NoDup(victims)
      requires Waiting(pool.view, victims, 0)
      requires forall i :: 0 <= i < |victims| ==> Unheld(hs, victims[i], None) && Stored(tree.index, victims[i])
      modifies pool, this`stats
      ensures Sound(hs, Some(h)) && Unmoved(old(pool.view), pool.view, hs[h].blocks)
      ensures n <= |victims| && Lowered(old(pool.view), pool.view, victims, n) && Steady(hs, old(Sees()), Sees())
      ensures n < |victims| ==> |pool.view.free| > 1 && pool.view.free[1] == 0
      ensures Room(pool.view) == Room(old(pool.view))
      ensures Demoted(old(stats), stats, n)
    {
      hide BlockPool.Valid, Core, Gated, Quiet, Stored, Unheld, Unmoved, Waiting, Lowered, NoDup, Steady, Room;
      ghost var v, bs := pool.view, hs[h].blocks;
      UnmovedSelf(v, bs);
      LoweredNone(v, victims);
      SteadySelf(hs, Sees());
      n := 0;
      var more := true;
      while n < |victims| && more
        invariant n <= |victims| && Sound(hs, Some(h)) && |pool.view.free| == |v.free| && Unmoved(v, pool.view, bs)
        invariant Waiting(pool.view, victims, n) && Lowered(v, pool.view, victims, n)
        invariant Steady(hs, old(Sees()), Sees()) && Room(pool.view) == Room(v)
        invariant more || pool.view.free[1] == 0
        invariant Demoted(old(stats), stats, n)
        decreases |victims| - n, more
      {
        ghost var m, sight := pool.view, Sees();
        more := DemoteOne(victims, n, h, hs, v);
        UnmovedTwice(v, m, pool.view, bs);
        SteadyTwice(hs, old(Sees()), sight, Sees());
        if more {
          stats := stats.(demotedBlocks := stats.demotedBlocks + 1);
          n := n + 1;
        }
      }
    }

    method DemoteOne(victims: seq<BlockId>, n: nat, h: Hid, ghost hs: Handles, ghost v: View) returns (moved: bool)
      requires Sound(hs, Some(h)) && Live(hs, h) && |pool.view.free| > 1 && n < |victims| && NoDup(victims)
      requires Waiting(pool.view, victims, n) && Lowered(v, pool.view, victims, n)
      requires Unheld(hs, victims[n], None) && Stored(tree.index, victims[n])
      modifies pool
      ensures Sound(hs, Some(h)) && |pool.view.free| == |old(pool.view).free|
      ensures Unmoved(old(pool.view), pool.view, hs[h].blocks) && Steady(hs, old(Sees()), Sees())
      ensures Room(pool.view) == Room(old(pool.view))
      ensures moved ==> Waiting(pool.view, victims, n + 1) && Lowered(v, pool.view, victims, n + 1)
      ensures !moved ==> pool.view == old(pool.view) && pool.view.free[1] == 0
    {
      ghost var m, id, sight := pool.view, victims[n], Sees();
      UnheldOff(hs, id, h);
      assert Demotable(m, id) && m.target - {id} == m.target;
      hide BlockPool.Valid, Core, Gated, Quiet, Stored, Unheld, Unmoved, Shifted, Waiting, Lowered, NoDup, Steady, Room;
      pool.WorkersRun();
      moved := pool.Migrate(victims[n], 1);
      DemotionShifts(m, id, 1);
      ShiftKeeps(tree.blockTokens, kv, tree.T(), m, pool.view, hs, id, Some(h));
      ShiftUnmoved(m, pool.view, id, hs[h].blocks);
      ShiftQuiet(options.asyncPromotion, m, pool.view, id);
      ShiftSteady(hs, sight, Sees(), id);
      RoomMigrate(m, id, 1);
      if moved {
        LowerNext(v, m, victims, n);
      }
    }

    /**
     Evict until `demand` compute slots are free, or only pinned nodes are left. The leaves in `victims` are dropped,
     the oldest first.
     */
    method EvictFor(demand: nat, h: Hid, ghost hs: Handles) returns (ghost trace: seq<Nodes>, ghost victims: seq<NodeId>)
      requires Sound(hs, Some(h)) && Live(hs, h) && |pool.view.free| > 0
      modifies pool, tree, this`stats
      ensures Sound(hs, Some(h)) && Unmoved(old(pool.view), pool.view, hs[h].blocks)
      ensures Within(tree.index, old(tree.index)) && Steady(hs, old(Sees()), Sees())
      ensures Room(pool.view) == Room(old(pool.view))
      ensures pool.view.free[0] >= demand || AllPinned(tree.nodes)
      ensures Dropping(tree.key, old(pool.view), old(tree.nodes), trace, victims) && trace != [] && Last(trace) == tree.nodes
      ensures victims == [] ==> tree.index == old(tree.index)
      ensures victims == [] || old(pool.view).free[0] < demand
      ensures NotBeyond(pool.view.free[0], demand, trace, victims)
      ensures Evicted(old(stats), stats, old(tree.index), tree.index)
    {
      hide BlockPool.Valid, Core, Gated, Quiet, Unmoved, AllPinned, Within, Steady, Room, Dropping, NotBeyond, Evicted;
      Apart();
      EvictedNone(stats, tree.index);
      ghost var t, v, bs := tree.T(), pool.view, hs[h].blocks;
      UnmovedSelf(v, bs);
      SteadySelf(hs, Sees());
      WithinSelf(t.index);
      trace, victims := [tree.nodes], [];
      DropNone(tree.key, v, tree.nodes, pool.view.free[0], demand);
      var free := pool.NumFree();
      var more := true;
      while free < demand && more
        invariant Sound(hs, Some(h)) && Unmoved(v, pool.view, bs) && Within(tree.index, t.index)
        invariant Steady(hs, old(Sees()), Sees()) && Room(pool.view) == Room(v)
        invariant |pool.view.free| > 0 && free == pool.view.free[0]
        invariant more || AllPinned(tree.nodes)
        invariant Dropping(tree.key, v, t.nodes, trace, victims) && trace != [] && Last(trace) == tree.nodes
        invariant victims == [] ==> tree.index == t.index
        invariant v.free[0] >= demand ==> victims == [] && free >= demand
        invariant NotBeyond(free, demand, trace, victims)
        invariant Evicted(old(stats), stats, t.index, tree.index)
        decreases |tree.index|, more
      {
        ghost var m, mid, sight := pool.view, tree.index, Sees();
        var evicted;
        evicted, trace, victims := EvictRound(demand, free, h, hs, t, v, trace, victims);
        SteadyTwice(hs, old(Sees()), sight, Sees());
        UnmovedTwice(v, m, pool.view, bs);
        WithinTwice(tree.index, mid, t.index);
        if evicted == 0 {
          more := false;
        }
        EvictedMore(old(stats), stats, t.index, mid, tree.index, evicted);
        stats := stats.(evictedBlocks := stats.evictedBlocks + evicted);
        free := pool.NumFree();
      }
    }

    static lemma DropNone(key: Key, v: View, ns: Nodes, free: nat, demand: nat)
      ensures Dropping(key, v, ns, [ns], []) && NotBeyond(free, demand, [ns], [])
    {
    }

    /** One call of evict(), after those that led from `t0` and `v0` to here. */
    method EvictRound(demand: nat, free: nat, h: Hid, ghost hs: Handles, ghost t0: Tree, ghost v0: View,
                      ghost trace0: seq<Nodes>, ghost victims0: seq<NodeId>)
      returns (evicted: nat, ghost trace: seq<Nodes>, ghost victims: seq<NodeId>)
      requires Sound(hs, Some(h)) && Live(hs, h) && |pool.view.free| > 0 && free == pool.view.free[0] < demand
      requires Core(tree.blockTokens, kv, t0, v0, hs) && Within(tree.index, t0.index) && t0.key == tree.key
      requires Dropping(tree.key, v0, t0.nodes, trace0, victims0) && trace0 != [] && Last(trace0) == tree.nodes
      requires victims0 == [] ==> tree.index == t0.index
      modifies pool, tree
      ensures Sound(hs, Some(h)) && |pool.view.free| > 0 && Unmoved(old(pool.view), pool.view, hs[h].blocks)
      ensures Within(tree.index, old(tree.index)) && evicted + |tree.index| == |old(tree.index)|
      ensures evicted > 0 || AllPinned(tree.nodes)
      ensures Steady(hs, old(Sees()), Sees()) && Room(pool.view) == Room(old(pool.view))
      ensures Dropping(tree.key, v0, t0.nodes, trace, victims) && trace != [] && Last(trace) == tree.nodes
      ensures victims == [] ==> tree.index == t0.index
      ensures NotBeyond(pool.view.free[0], demand, trace, victims)
    {
      hide *;
      ghost var m, t, ns := pool.view, tree.T(), tree.nodes;
      HasTiers(hs, Some(h));
      SoleThroughout(hs, Some(h), t0, v0);
      ghost var some, dropped;
      evicted, some, dropped := EvictOnce(demand - free, h, hs);
      trace, victims := JoinRounds(tree.key, v0, m, t0.nodes, ns, trace0, victims0, some, dropped,
                                   m.free[0], pool.view.free[0], demand);
    }

    lemma SoleThroughout(hs: Handles, except: Option<Hid>, t0: Tree, v0: View)
      requires Sound(hs, except) && Core(tree.blockTokens, kv, t0, v0, hs) && Within(tree.index, t0.index)
      ensures AllSole(v0, tree.nodes) && AllSole(pool.view, tree.nodes)
    {
      hide Gated, Quiet, BlockPool.Valid, Within;
      WithinSelf(tree.index);
      StoredIsSole(tree.blockTokens, kv, t0, v0, hs, tree.T());
      StoredIsSole(tree.blockTokens, kv, tree.T(), pool.view, hs, tree.T());
    }

    static lemma JoinRounds(key: Key, v: View, m: View, ns: Nodes, mid: Nodes, trace0: seq<Nodes>, victims0: seq<NodeId>,
                            some: seq<Nodes>, dropped: seq<NodeId>, before: nat, after: nat, demand: nat)
      returns (trace: seq<Nodes>, victims: seq<NodeId>)
      requires Dropping(key, v, ns, trace0, victims0) && trace0 != [] && Last(trace0) == mid
      requires Dropping(key, m, mid, some, dropped) && AllSole(v, mid) && AllSole(m, mid) && before < demand
      requires if dropped == [] then after <= before else NotBeyond(after, demand, some, dropped)
      ensures Dropping(key, v, ns, trace, victims) && trace != [] && some != [] && Last(trace) == Last(some)
      ensures victims == victims0 + dropped && NotBeyond(after, demand, trace, victims)
    {
      hide DropStep, AllSole;
      RunElsewhere(key, m, v, some, dropped);
      RunJoin(key, v, trace0, victims0, some, dropped);
      trace, victims := trace0 + some[1..], victims0 + dropped;
    }

    method EvictOnce(num: nat, h: Hid, ghost hs: Handles)
      returns (evicted: nat, ghost trace: seq<Nodes>, ghost victims: seq<NodeId>)
      requires Sound(hs, Some(h)) && Live(hs, h) && num > 0 && |pool.view.free| > 0
      modifies pool, tree
      ensures Sound(hs, Some(h)) && |pool.view.free| > 0 && Unmoved(old(pool.view), pool.view, hs[h].blocks)
      ensures Within(tree.index, old(tree.index)) && evicted + |tree.index| == |old(tree.index)|
      ensures evicted > 0 || AllPinned(tree.nodes)
      ensures Steady(hs, old(Sees()), Sees()) && Room(pool.view) == Room(old(pool.view))
      ensures Dropping(tree.key, old(pool.view), old(tree.nodes), trace, victims) && trace != [] && Last(trace) == tree.nodes
      ensures if victims == [] then tree.index == old(tree.index) && pool.view.free[0] <= old(pool.view).free[0]
              else NotBeyond(pool.view.free[0], old(pool.view).free[0] + num, trace, victims)
    {
      SoundTree(hs, Some(h));
      ghost var t, v, sight := tree.T(), pool.view, Sees();
      hide BlockPool.Valid, Core, Gated, Quiet, Inv, Backed, Unmoved, Exhausted, Spared, Shed, GoneFrom, Within, Steady, DropRun, SamePaths, Room;
      ghost var gone;
      evicted, gone, trace, victims := tree.Evict(num);
      EvictKeeps(tree.blockTokens, kv, t, tree.T(), v, pool.view, hs, gone, Some(h));
      SparedUnmoved(v, pool.view, hs, h, gone);
      ShedSteady(hs, sight, Sees(), gone);
      ShedRoom(v, pool.view, gone);
      ShedQuiet(options.asyncPromotion, v, pool.view, gone);
      LeastFreed(tree.key, num, t.index, tree.index, v, pool.view, gone, trace, victims);
      if evicted == 0 {
        AllPinnedNow(hs, Some(h));
      }
    }

    static lemma LeastFreed(key: Key, num: nat, idx: map<Path, BlockId>, idx': map<Path, BlockId>, v: View, v': View,
                            gone: set<BlockId>, trace: seq<Nodes>, victims: seq<NodeId>)
      requires EvictRun(key, v, num, trace, victims) && Backed(idx, v) && Evicting(idx, idx', v, v', gone)
      requires Freed(trace, victims, |victims|) + |idx'| == |idx| && |v.free| > 0
      ensures |v'.free| > 0
      ensures if victims == [] then idx' == idx && v'.free[0] <= v.free[0]
              else NotBeyond(v'.free[0], v.free[0] + num, trace, victims)
    {
      LastDrop(key, v, num, trace, victims);
      GoneCount(idx, idx', v, gone);
      ShedFree(v, v', gone);
      if victims == [] {
        WithinFull(idx', idx);
      }
    }

    lemma AllPinnedNow(hs: Handles, except: Option<Hid>)
      requires Sound(hs, except) && Exhausted(tree.nodes, pool.view)
      ensures AllPinned(tree.nodes)
    {
      hide Core;
      forall n: nat | n in tree.nodes && n != ROOT ensures tree.nodes[n].lockCount > 0 {
        ExhaustedMeansPinned(tree.blockTokens, kv, tree.T(), pool.view, hs, n);
      }
    }

    /** Demote first, since that keeps the entries; evict only if that is not enough. */
    method MakeRoom(demand: nat, h: Hid, ghost hs: Handles) returns (ghost c: Course)
      requires Sound(hs, Some(h)) && Live(hs, h)
      modifies pool, tree, this`stats
      ensures Sound(hs, Some(h)) && Unmoved(old(pool.view), pool.view, hs[h].blocks)
      ensures Within(tree.index, old(tree.index)) && Steady(hs, old(Sees()), Sees())
      ensures Room(pool.view) == Room(old(pool.view))
      ensures |pool.view.free| > 0 && (pool.view.free[0] >= demand || AllPinned(tree.nodes))
      ensures Orderly(c, demand) && Leaves(c, tree.nodes.Keys, tree.index)
      ensures c.tree == old(tree.T()) && c.before == old(pool.view) && c.after == pool.view
      ensures Relieved(old(stats), stats, c.demoted, old(tree.index), tree.index)
    {
      ghost var v, bs, t := pool.view, hs[h].blocks, tree.T();
      assert t.nodes == tree.nodes && t.key == tree.key && t.index == tree.index;
      hide *;
      Apart();
      HasTiers(hs, Some(h));
      ghost var demoted := Spill(demand, h, hs);
      ghost var mid, sight, st := pool.view, Sees(), stats;
      assert tree.nodes == t.nodes && tree.index == t.index;
      LoweredSize(v, mid, demoted);
      ghost var trace, victims := EvictFor(demand, h, hs);
      RelievedBoth(old(stats), st, stats, demoted, t.index, tree.index);
      HasTiers(hs, Some(h));
      UnmovedTwice(v, mid, pool.view, bs);
      SteadyTwice(hs, old(Sees()), sight, Sees());
      c := Course(v, t, v, demoted, mid, trace, victims, pool.view);
      OrderlyBoth(c, demand);
      LeavesNow(c, tree.nodes, tree.index);
    }

    static lemma LeavesNow(c: Course, ns: Nodes, idx: map<Path, BlockId>)
      requires c.trace != [] && Last(c.trace) == ns && (c.victims == [] ==> idx == c.tree.index)
      ensures Leaves(c, ns.Keys, idx)
    {
    }

    /** The demotions of acquire(): as many as are needed, unless no more are possible. */
    method Spill(demand: nat, h: Hid, ghost hs: Handles) returns (demoted: seq<BlockId>)
      requires Sound(hs, Some(h)) && Live(hs, h) && |pool.view.free| > 0
      modifies pool, this`stats
      ensures Sound(hs, Some(h)) && Unmoved(old(pool.view), pool.view, hs[h].blocks)
      ensures Lowered(old(pool.view), pool.view, demoted, |demoted|) && Steady(hs, old(Sees()), Sees())
      ensures WellChosen(tree.nodes, old(pool.view), pool.view, demoted)
      ensures Room(pool.view) == Room(old(pool.view))
      ensures |pool.view.free| > 0 && (pool.view.free[0] >= demand || Dry(tree.nodes, pool.view))
      ensures demoted != [] ==> pool.view.free[0] <= demand
      ensures Demoted(old(stats), stats, |demoted|)
    {
      hide BlockPool.Valid, Core, Gated, Quiet, Unmoved, Victim, Unheld, Stored, NoDup, Waiting, Steady, Room, Picks, WellChosen;
      ghost var v := pool.view;
      SteadySelf(hs, Sees());
      UnmovedSelf(v, hs[h].blocks);
      LoweredNone(v, []);
      ChosenNone(tree.nodes, v);
      demoted := [];
      var free := pool.NumFree();
      var tiers := pool.NumTiers();
      if free < demand && tiers > 1 {
        var victims := PickVictims(demand - free, hs, Some(h));
        VictimsWait(tree.nodes, v, victims);
        var n := DemoteVictims(victims, h, hs);
        demoted := victims[..n];
        LoweredTake(v, pool.view, victims, n);
        LoweredWell(tree.nodes, v, pool.view, victims, n);
        if n == |victims| && |victims| < demand - free {
          NoneLeftToLower(tree.nodes, v, pool.view, victims);
        }
      }
    }

    // ---------------------------------------------------- plan and serve

    /** Work out the demand and make room for it. Succeeds exactly when the compute tier can meet it. */
    method Reserve(h: Hid, bs: seq<BlockId>, need: nat, ghost hs: Handles) returns (ok: bool, ghost c: Course)
      requires |bs| <= need && Sound(hs, Some(h)) && Live(hs, h) && hs[h].blocks == bs && hs[h].cachedBlocks == |bs|
      modifies pool, tree, this`stats
      ensures Sound(hs, Some(h)) && Staying(pool.view, bs, |bs|) && Within(tree.index, old(tree.index))
      ensures |pool.view.free| > 0 && (ok <==> Need(pool.view, bs) + (need - |bs|) <= pool.view.free[0])
      ensures ok || AllPinned(tree.nodes)
      ensures Steady(hs, old(Sees()), Sees()) && Room(pool.view) == Room(old(pool.view))
      ensures Planned(c, bs, need) && Leaves(c, tree.nodes.Keys, tree.index)
      ensures c.settled == old(pool.view) && c.tree == old(tree.T()) && c.after == pool.view
      ensures Relieved(old(stats), stats, c.demoted, old(tree.index), tree.index)
    {
      hide BlockPool.Valid, Core, Gated, Quiet, Unmoved, AllPinned, Within, Staying, Steady, Room, Stopped, Orderly, Planned, Relieved;
      ghost var settled := pool.view;
      StopDemotions(h, bs, hs);
      ghost var v, sight := pool.view, Sees();
      StayingAllocated(pool.view, bs);
      var promotions := CountPromotions(bs);
      var demand := need - |bs| + promotions;
      c := MakeRoom(demand, h, hs);
      UnmovedNeed(v, pool.view, bs);
      PlannedRoom(c, settled, bs, need, demand);
      c := c.(settled := settled);
      StayingUnmoved(v, pool.view, bs);
      SteadyTwice(hs, old(Sees()), sight, Sees());
      var free := pool.NumFree();
      ok := demand <= free;
    }

    /** Bring the table home, or start it on its way: the slots were reserved, so none of this fails. */
    method PromoteAll(h: Hid, bs: seq<BlockId>, extra: nat, ghost hs: Handles)
      requires Sound(hs, Some(h)) && Live(hs, h) && hs[h].blocks == bs && hs[h].cachedBlocks == |bs|
      requires Staying(pool.view, bs, |bs|) && |pool.view.free| > 0 && Need(pool.view, bs) + extra <= pool.view.free[0]
      modifies pool, this`stats
      ensures Sound(hs, Some(h)) && Promoted(pool.view, bs, |bs|)
      ensures |pool.view.free| > 0 && pool.view.free[0] >= extra && Steady(hs, old(Sees()), Sees())
      ensures SentTo(options.asyncPromotion, pool.host, old(pool.view), pool.view, bs, |bs|)
      ensures stats == old(stats).(promotedBlocks := old(stats).promotedBlocks + Need(old(pool.view), bs))
    {
      CachedApart(tree.blockTokens, kv, tree.T(), pool.view, hs, h);
      hide BlockPool.Valid, Core, Gated, Quiet, Staying, Promoted, Stored, NoDup, Steady, Shifted, SentTo, SentAt;
      PromotedNone(pool.view, bs);
      SentNone(options.asyncPromotion, pool.host, pool.view, bs);
      SteadySelf(hs, Sees());
      assert bs[0..] == bs && bs[..|bs|] == bs;
      var i := 0;
      while i < |bs|
        invariant i <= |bs| && Sound(hs, Some(h)) && Promoted(pool.view, bs, i) && Steady(hs, old(Sees()), Sees())
        invariant |pool.view.free| > 0 && Need(pool.view, bs[i..]) + extra <= pool.view.free[0]
        invariant SentTo(options.asyncPromotion, pool.host, old(pool.view), pool.view, bs, i)
        invariant stats == old(stats).(promotedBlocks := stats.promotedBlocks)
        invariant stats.promotedBlocks + Need(pool.view, bs[i..]) == old(stats).promotedBlocks + Need(old(pool.view), bs)
      {
        ghost var v, sight := pool.view, Sees();
        PromoteNext(h, bs, i, hs);
        SentNext(options.asyncPromotion, pool.host, old(pool.view), v, pool.view, bs, i);
        SteadyTwice(hs, old(Sees()), sight, Sees());
        i := i + 1;
      }
      assert bs[|bs|..] == [];
    }

    method PromoteNext(h: Hid, bs: seq<BlockId>, i: nat, ghost hs: Handles)
      requires Sound(hs, Some(h)) && i < |bs| && NoDup(bs) && Promoted(pool.view, bs, i) && Stored(tree.index, bs[i])
      requires |pool.view.free| > 0 && Need(pool.view, bs[i..]) <= pool.view.free[0]
      modifies pool, this`stats
      ensures Sound(hs, Some(h)) && Promoted(pool.view, bs, i + 1) && |pool.view.free| > 0
      ensures Steady(hs, old(Sees()), Sees()) && Shifted(old(pool.view), pool.view, bs[i])
      ensures SentAt(options.asyncPromotion, pool.host, old(pool.view), pool.view, bs[i])
      ensures Need(pool.view, bs[i + 1..]) + old(pool.view.free[0]) == Need(old(pool.view), bs[i..]) + pool.view.free[0]
      ensures stats == old(stats).(promotedBlocks := stats.promotedBlocks)
      ensures stats.promotedBlocks + Need(pool.view, bs[i + 1..]) == old(stats).promotedBlocks + Need(old(pool.view), bs[i..])
    {
      StoredAllocated(hs, Some(h), bs[i]);
      hide BlockPool.Valid, Core, Gated, Quiet, Promoted, Stored, NoDup, Shifted, HomeBound, Steady, Away;
      ghost var v := pool.view;
      ShiftedSelf(v, bs[i]);
      SteadySelf(hs, Sees());
      var away := IsAway(bs[i]);
      if away {
        NeedHere(v, bs, i);
        PromoteAway(h, bs[i], hs);
        stats := stats.(promotedBlocks := stats.promotedBlocks + 1);
      } else {
        AtHome(v, bs, i);
      }
      NeedNext(v, pool.view, bs, i);
      PromotedNext(v, pool.view, bs, i);
    }

    method PromoteAway(h: Hid, id: BlockId, ghost hs: Handles)
      requires Sound(hs, Some(h)) && Stored(tree.index, id) && Away(pool.view, id)
      requires |pool.view.free| > 0 && pool.view.free[0] > 0
      modifies pool
      ensures Sound(hs, Some(h)) && Shifted(old(pool.view), pool.view, id) && HomeBound(pool.view, id)
      ensures |pool.view.free| > 0 && pool.view.free[0] == old(pool.view).free[0] - 1
      ensures Steady(hs, old(Sees()), Sees()) && SentAt(options.asyncPromotion, pool.host, old(pool.view), pool.view, id)
    {
      ghost var v, sight := pool.view, Sees();
      AwayMeansUnheld(v, hs, id, Some(h));
      assert !Home(v, id);
      hide BlockPool.Valid, Core, Gated, Quiet, Stored, Shifted, HomeBound, SentAt, Unheld, Steady;
      pool.WorkersRun();
      PromoteOne(id);
      ShiftSteady(hs, sight, Sees(), id);
      ShiftKeeps(tree.blockTokens, kv, tree.T(), v, pool.view, hs, id, Some(h));
      ShiftQuiet(options.asyncPromotion, v, pool.view, id);
    }

    /** In the background if so configured and both tiers can be addressed; synchronously otherwise. */
    method PromoteOne(id: BlockId)
      requires pool.Valid() && Away(pool.view, id) && |pool.view.free| > 0 && pool.view.free[0] > 0
      modifies pool
      ensures pool.Valid() && |pool.view.free| > 0 && pool.view.free[0] == old(pool.view).free[0] - 1
      ensures Shifted(old(pool.view), pool.view, id) && HomeBound(pool.view, id)
      ensures SentAt(options.asyncPromotion, pool.host, old(pool.view), pool.view, id)
      ensures id in pool.view.target ==> options.asyncPromotion
      ensures PoolModel.OthersStay(old(pool.location), pool.location, id) && pool.Onward()
    {
      hide BlockPool.Valid, Shifted, HomeBound;
      ghost var v := pool.view;
      var moved := false;
      if options.asyncPromotion {
        moved := pool.MigrateAsync(id, 0);
      }
      if !moved {
        pool.WorkersRun();
        moved := pool.Migrate(id, 0);
      }
      assert moved;
      PromotionShifts(v, id);
    }

    /** Grow the table of `h` by `extra` blocks of its own. */
    method AllocateFresh(h: Hid, bs: seq<BlockId>, extra: nat, ghost hs0: Handles)
      returns (blocks: seq<BlockId>, ghost hs: Handles)
      requires Sound(hs0, Some(h)) && Live(hs0, h) && hs0[h].blocks == bs && hs0[h].data == map[]
      requires Promoted(pool.view, bs, |bs|)
      requires |pool.view.free| > 0 && pool.view.free[0] >= extra
      modifies pool
      ensures Sound(hs, Some(h)) && hs == hs0[h := hs0[h].(blocks := blocks)] && |blocks| == |bs| + extra
      ensures Promoted(pool.view, blocks, |blocks|) && bs <= blocks && Steady(hs0, old(Sees()), Sees())
      ensures pool.view.target == old(pool.view).target
    {
      hide BlockPool.Valid, Core, Gated, Quiet, Promoted, Steady;
      SteadySelf(hs0, Sees());
      blocks, hs := bs, hs0;
      var i := 0;
      while i < extra
        invariant i <= extra && Sound(hs, Some(h)) && hs == hs0[h := hs0[h].(blocks := blocks)]
        invariant |blocks| == |bs| + i && bs <= blocks && Promoted(pool.view, blocks, |blocks|)
        invariant |pool.view.free| > 0 && pool.view.free[0] >= extra - i
        invariant Steady(hs0, old(Sees()), Sees()) && pool.view.target == old(pool.view).target
      {
        ghost var id;
        ghost var sight, was := Sees(), hs;
        blocks, hs, id := AllocateOne(h, blocks, hs);
        SteadyAmong(hs0, was, sight, Sees());
        SteadyTwice(hs0, old(Sees()), sight, Sees());
        i := i + 1;
      }
    }

    method AllocateOne(h: Hid, bs: seq<BlockId>, ghost hs0: Handles)
      returns (blocks: seq<BlockId>, ghost hs: Handles, ghost id: BlockId)
      requires Sound(hs0, Some(h)) && Live(hs0, h) && hs0[h].blocks == bs && hs0[h].data == map[]
      requires Promoted(pool.view, bs, |bs|)
      requires |pool.view.free| > 0 && pool.view.free[0] > 0
      modifies pool
      ensures Sound(hs, Some(h)) && hs == hs0[h := hs0[h].(blocks := blocks)] && blocks == bs + [id]
      ensures Promoted(pool.view, blocks, |blocks|) && Steady(hs0, old(Sees()), Sees())
      ensures |pool.view.free| > 0 && pool.view.free[0] == old(pool.view).free[0] - 1
      ensures pool.view.target == old(pool.view).target
    {
      hide BlockPool.Valid, RadixTree.Valid, Core, Gated, Quiet, Promoted, Steady;
      Apart();
      SoundTree(hs0, Some(h));
      ghost var v, sight := pool.view, Sees();
      pool.WorkersRun();
      var r := pool.Allocate();
      id := r.value;
      AllocateKeeps(tree.blockTokens, kv, tree.T(), v, pool.view, hs0, h, r.value);
      SameQuiet(options.asyncPromotion, v, pool.view);
      PromotedGrow(v, pool.view, bs, r.value);
      BindSteady(hs0, sight, Sees(), r.value);
      blocks, hs := bs + [r.value], Grown(hs0, h, r.value);
    }

    // ------------------------------------------------------------- maintain

    /**
     Top up the compute tier: schedule demotions until the free and the promised slots reach the
     watermark. They never pass it, and fall short only when spilling is blocked or nothing is left to demote.
     */
    method Maintain() returns (ghost demoted: seq<BlockId>)
      requires Sound(handles, None)
      modifies pool, this`stats
      ensures Sound(handles, None) && |pool.view.free| == |old(pool.view).free| > 0
      ensures stats == old(stats).(backgroundDemotions := stats.backgroundDemotions)
      ensures stats.backgroundDemotions >= old(stats).backgroundDemotions
      ensures Projected(pool.view) - Projected(old(pool.view)) ==
              stats.backgroundDemotions - old(stats).backgroundDemotions
      ensures Projected(pool.view) == Projected(old(pool.view)) || Projected(pool.view) <= options.spillWatermark
      ensures ToppedUp(tree.nodes, pool.view, pool.host, options.spillWatermark)
      ensures Steady(handles, old(Sees()), Sees())
      ensures Spilled(old(pool.view), pool.view, demoted, |demoted|)
      ensures WellChosen(tree.nodes, old(pool.view), pool.view, demoted)
      ensures |demoted| == stats.backgroundDemotions - old(stats).backgroundDemotions
    {
      hide BlockPool.Valid, Core, Gated, Quiet, Victim, Blocked, Projected, Leaving, Steady, Spilled, WellChosen;
      SteadySelf(handles, Sees());
      SpilledNone(pool.view);
      ChosenNone(tree.nodes, pool.view);
      demoted := [];
      var tiers := pool.NumTiers();
      if tiers >= 2 && options.spillWatermark > 0 {
        pool.WorkersRun();
        ghost var sight := Sees();
        StillSteady(handles, old(Sees()), sight);
        var projected := CountProjected();
        if projected < options.spillWatermark {
          demoted := ScheduleDemotions(options.spillWatermark - projected);
          SteadyTwice(handles, old(Sees()), sight, Sees());
        }
      }
    }

    method CountProjected() returns (n: nat)
      requires pool.Valid()
      ensures |pool.view.free| > 0 && n == Projected(pool.view)
    {
      var free := pool.NumFree();
      var leaving := pool.PendingDepartures(0);
      n := free + leaving;
    }

    method ScheduleDemotions(num: nat) returns (ghost demoted: seq<BlockId>)
      requires Sound(handles, None) && |pool.view.free| > 1
      modifies pool, this`stats
      ensures Sound(handles, None) && |pool.view.free| == |old(pool.view).free| && Steady(handles, old(Sees()), Sees())
      ensures stats == old(stats).(backgroundDemotions := stats.backgroundDemotions)
      ensures Spilled(old(pool.view), pool.view, demoted, |demoted|)
      ensures WellChosen(tree.nodes, old(pool.view), pool.view, demoted)
      ensures var queued := stats.backgroundDemotions - old(stats).backgroundDemotions;
              && 0 <= queued <= num && |demoted| == queued && Projected(pool.view) == Projected(old(pool.view)) + queued
              && (queued < num ==> Blocked(pool.view, pool.host) || forall id: nat :: !Victim(tree.nodes, pool.view, id))
    {
      hide BlockPool.Valid, Core, Gated, Quiet, Victim, Blocked, Unheld, Stored, Waiting, Spilled, Projected, Steady, Picks, NoDup, WellChosen;
      SteadySelf(handles, Sees());
      ghost var v, base := pool.view, stats.backgroundDemotions;
      var victims := PickVictims(num, handles, None);
      VictimsWait(tree.nodes, v, victims);
      var i, more := 0, true;
      while i < |victims| && more
        invariant i <= |victims| && Sound(handles, None) && |pool.view.free| == |v.free|
        invariant Waiting(pool.view, victims, i) && Spilled(v, pool.view, victims, i)
        invariant Steady(handles, old(Sees()), Sees())
        invariant Projected(pool.view) == Projected(v) + i
        invariant more || Blocked(pool.view, pool.host)
        invariant stats == old(stats).(backgroundDemotions := base + i)
        decreases |victims| - i, more
      {
        ghost var sight := Sees();
        more := ScheduleOne(victims, i, v);
        SteadyTwice(handles, old(Sees()), sight, Sees());
        if more {
          stats := stats.(backgroundDemotions := stats.backgroundDemotions + 1);
          i := i + 1;
        }
      }
      demoted := victims[..i];
      SpilledTake(v, pool.view, victims, i);
      SpilledWell(tree.nodes, v, pool.view, victims, i);
      if more && |victims| < num {
        NoVictimLeft(tree.nodes, v, pool.view, victims);
      }
    }

    method ScheduleOne(victims: seq<BlockId>, i: nat, ghost v: View) returns (queued: bool)
      requires Sound(handles, None) && |pool.view.free| > 1 && i < |victims| && NoDup(victims)
      requires Waiting(pool.view, victims, i) && Spilled(v, pool.view, victims, i)
      requires Unheld(handles, victims[i], None) && Stored(tree.index, victims[i])
      modifies pool
      ensures Sound(handles, None) && |pool.view.free| == |old(pool.view).free| && Steady(handles, old(Sees()), Sees())
      ensures queued ==> Waiting(pool.view, victims, i + 1) && Spilled(v, pool.view, victims, i + 1)
      ensures queued ==> Projected(pool.view) == Projected(old(pool.view)) + 1
      ensures !queued ==> pool.view == old(pool.view) && Blocked(pool.view, pool.host)
    {
      ghost var m, id, sight := pool.view, victims[i], Sees();
      assert Demotable(m, id);
      hide BlockPool.Valid, Core, Gated, Quiet, Unheld, Stored, Waiting, Spilled, Projected, Shifted, NoDup, Steady;
      pool.WorkersRun();
      queued := pool.MigrateAsync(victims[i], 1);
      if !queued {
        StillSteady(handles, sight, Sees());
      } else {
        DemotionShifts(m, id, 1);
        ShiftKeeps(tree.blockTokens, kv, tree.T(), m, pool.view, handles, id, None);
        ShiftQuiet(options.asyncPromotion, m, pool.view, id);
        ShiftSteady(handles, sight, Sees(), id);
        DemoteNext(m, victims, i, 1);
        SpillNext(v, m, victims, i);
      }
    }

    // -------------------------------------------------------------- acquire

    /** Back out cleanly: the pin is given up and nobody else notices. */
    method Refuse(h: Hid, a: Handle)
      requires Sound(handles[h := a], Some(h)) && h !in handles && NewHandle(a)
      requires AllPinned(tree.nodes) && tree.blockTokens > 0
      modifies tree, this`handles
      ensures Sound(handles, None) && handles == old(handles)[h := DISARMED] && tree.index == old(tree.index)
      ensures tree.nodes.Keys == old(tree.nodes).Keys
      ensures |a.blocks| <= |Chunks(a.tokens, tree.blockTokens)|
      ensures PinnedBut(tree.nodes, Chunks(a.tokens, tree.blockTokens)[..|a.blocks|])
    {
      ghost var t, hs := tree.T(), handles[h := a];
      assert PinAgrees(t.pins, hs, h);
      SoundTree(hs, Some(h));
      hide Core, Gated, Quiet, BlockPool.Valid, Inv, Backed, AllPinned, PinnedBut, SamePaths;
      Unpin(a.pinned, h, hs);
      handles := handles[h := DISARMED];
      PinsLeft(tree.blockTokens, kv, t, tree.T(), pool.view, hs, h);
      CloseKeeps(tree.blockTokens, kv, t, tree.T(), pool.view, hs, handles, h);
    }

    method Unpin(node: Option<NodeId>, ghost h: Hid, ghost hs: Handles)
      requires tree.Ok() && PinAgrees(tree.pins, hs, h) && Live(hs, h) && hs[h].pinned == node
      modifies tree
      ensures tree.Ok() && tree.PathsKept() && tree.nodes.Keys == old(tree.nodes).Keys
      ensures tree.pins == old(tree.pins) - {h} && tree.index == old(tree.index)
      ensures node.None? ==> tree.nodes == old(tree.nodes)
    {
      hide Inv;
      if node.Some? {
        tree.Unlock(node.value, h);
      }
    }

    static lemma PinsLeft(bt: nat, kv: Kv, t: Tree, t': Tree, v: View, hs: Handles, h: Hid)
      requires Core(bt, kv, t, v, hs) && Live(hs, h) && hs[h].cachedBlocks == |hs[h].blocks| && AllPinned(t.nodes)
      requires Inv(t') && t'.pins == t.pins - {h} && t'.nodes.Keys == t.nodes.Keys
      requires hs[h].pinned.None? ==> t'.nodes == t.nodes
      requires SamePaths(t.nodes, t'.nodes)
      ensures |hs[h].blocks| <= |Chunks(hs[h].tokens, bt)|
      ensures PinnedBut(t'.nodes, Chunks(hs[h].tokens, bt)[..|hs[h].blocks|])
    {
      assert HandleOk(bt, t, hs, h) && PinAgrees(t.pins, hs, h);
      if hs[h].pinned.Some? {
        forall n: nat | n in t'.nodes && n != ROOT
          ensures t'.nodes[n].lockCount > 0 || t'.nodes[n].path <= t.nodes[t.pins[h]].path
        {
          PinnedElsewhere(t, t', h, n);
        }
      }
    }

    /** Promote, allocate and hand out the table. */
    method Serve(h: Hid, a: Handle)
      requires Sound(handles[h := a], Some(h)) && h !in handles && NewHandle(a)
      requires tree.blockTokens > 0 && |a.blocks| <= BlocksFor(a.tokens, tree.blockTokens)
      requires Staying(pool.view, a.blocks, |a.blocks|) && |pool.view.free| > 0
      requires Need(pool.view, a.blocks) + (BlocksFor(a.tokens, tree.blockTokens) - |a.blocks|) <= pool.view.free[0]
      modifies pool, this`handles, this`stats
      ensures Sound(handles, None) && OnlyChanges(old(handles), handles, h)
      ensures Extends(a, handles[h], BlocksFor(a.tokens, tree.blockTokens))
      ensures stats == old(stats).(promotedBlocks := old(stats).promotedBlocks + Need(old(pool.view), a.blocks))
      ensures Steady(old(handles), old(Sees()), Sees())
      ensures SentTo(options.asyncPromotion, pool.host, old(pool.view), pool.view, a.blocks, |a.blocks|)
    {
      hide Core, Gated, Quiet, BlockPool.Valid, Staying, Promoted, Steady, SentTo;
      ghost var v := pool.view;
      ghost var hs := handles[h := a];
      ghost var hs0 := hs;
      var extra := BlocksFor(a.tokens, tree.blockTokens) - |a.blocks|;
      PromoteAll(h, a.blocks, extra, hs);
      ghost var m, sight := pool.view, Sees();
      var blocks;
      blocks, hs := AllocateFresh(h, a.blocks, extra, hs);
      GateCloses(pool.view, hs, h);
      SentSame(options.asyncPromotion, pool.host, v, m, pool.view, a.blocks);
      SteadyTwice(hs0, old(Sees()), sight, Sees());
      SteadyAmong(handles, hs0, old(Sees()), Sees());
      handles := handles[h := a.(blocks := blocks)];
      assert handles == hs;
    }

    method AddIdle(h: Hid, a: Handle)
      requires Sound(handles, None) && Complete(tree.blockTokens, handles)
      requires !Live(handles, h) && (a == EMPTY || a == DISARMED)
      modifies this`handles
      ensures Sound(handles, None) && Complete(tree.blockTokens, handles) && handles == old(handles)[h := a]
    {
      hide BlockPool.Valid, Core, Gated, Quiet, Complete;
      IdleKeeps(tree.blockTokens, kv, tree.T(), pool.view, handles, handles[h := a], h);
      CompleteOther(tree.blockTokens, handles, h, a);
      handles := handles[h := a];
    }

    /** Serve the request and count it, then refill the headroom. */
    method Grant(h: Hid, a: Handle)
      requires Sound(handles[h := a], Some(h)) && h !in handles && NewHandle(a)
      requires tree.blockTokens > 0 && |a.blocks| <= BlocksFor(a.tokens, tree.blockTokens)
      requires a.cachedTokens <= |a.tokens|
      requires Staying(pool.view, a.blocks, |a.blocks|) && |pool.view.free| > 0
      requires Need(pool.view, a.blocks) + (BlocksFor(a.tokens, tree.blockTokens) - |a.blocks|) <= pool.view.free[0]
      requires Complete(tree.blockTokens, handles) && Tallied(stats, 1)
      modifies this`handles, this`stats, pool
      ensures Valid() && OnlyChanges(old(handles), handles, h)
      ensures Brought(old(stats), stats, old(pool.view), a.blocks, true)
      ensures Scored(old(stats), stats, handles[h], |a.tokens|)
      ensures Extends(a, handles[h], BlocksFor(a.tokens, tree.blockTokens))
      ensures ToppedUp(tree.nodes, pool.view, pool.host, options.spillWatermark)
      ensures Steady(old(handles), old(Sees()), Sees())
      ensures SentTo(options.asyncPromotion, pool.host, old(pool.view), pool.view, a.blocks, |a.blocks|)
    {
      hide Sound, Complete, Staying, BlocksFor, Need, Projected, ToppedUp, Steady, SentTo, Spilled, WellChosen;
      ghost var was, v := handles, pool.view;
      Serve(h, a);
      ghost var m, sight := pool.view, Sees();
      CompleteOther(tree.blockTokens, was, h, handles[h]);
      stats := stats.(served := stats.served + 1,
                      totalTokens := stats.totalTokens + |a.tokens|, hitTokens := stats.hitTokens + a.cachedTokens);
      ghost var demoted := Maintain();
      StillSent(h, a.blocks, v, m, demoted);
      SteadyAmong(was, handles, sight, Sees());
      SteadyTwice(was, old(Sees()), sight, Sees());
    }

    lemma StillSent(h: Hid, bs: seq<BlockId>, v: View, m: View, demoted: seq<BlockId>)
      requires Sound(handles, None) && Live(handles, h) && bs <= handles[h].blocks
      requires SentTo(options.asyncPromotion, pool.host, v, m, bs, |bs|) && Spilled(m, pool.view, demoted, |demoted|)
      ensures SentTo(options.asyncPromotion, pool.host, v, pool.view, bs, |bs|)
    {
      hide Core, BlockPool.Valid, SentTo;
      SentSpilled(options.asyncPromotion, pool.host, v, m, pool.view, bs, demoted, handles, h);
    }

    lemma AllInUseNow(hs: Handles, except: Option<Hid>)
      requires Sound(hs, except) && AllPinned(tree.nodes)
      ensures AllInUse(hs, pool.view, [])
    {
      hide Core;
      forall id: nat | id in pool.view.tier ensures InTable(hs, id) {
        AllHeld(tree.blockTokens, kv, tree.T(), pool.view, hs, id);
      }
    }

    /** The count at a refusal: what is free, what is held by tables and stale jobs, and what is matched make up the tier. */
    lemma RefusalAccount(h: Hid, a: Handle)
      requires Sound(handles[h := a], Some(h)) && h !in handles && NewHandle(a)
      requires Staying(pool.view, a.blocks, |a.blocks|) && AllInUse(handles, pool.view, a.blocks)
      ensures |pool.caps| > 0 && |pool.view.free| > 0
      ensures pool.view.free[0] + |Elsewhere(handles, a.blocks)| + |a.blocks| + |Stale(pool.State())|
              == pool.caps[0] + Need(pool.view, a.blocks)
    {
      ghost var hs := handles[h := a];
      CachedApart(tree.blockTokens, kv, tree.T(), pool.view, hs, h);
      assert a.blocks[..|a.blocks|] == a.blocks;
      forall g: nat, i: nat ensures GateOk(pool.view, handles, g, i) {
        assert g != h ==> GateOk(pool.view, hs, g, i);
      }
      hide Core;
      FullAccount(pool.State(), pool.view, handles, a.blocks);
    }

    lemma RefusalCount(h: Hid, a: Handle)
      requires Sound(handles[h := a], Some(h)) && h !in handles && NewHandle(a) && AllPinned(tree.nodes)
      requires Staying(pool.view, a.blocks, |a.blocks|) && tree.blockTokens > 0 && |pool.view.free| > 0
      requires pool.view.free[0] + |a.blocks| < BlocksFor(a.tokens, tree.blockTokens) + Need(pool.view, a.blocks)
      ensures AllInUse(handles[h := DISARMED], pool.view, a.blocks)
      ensures !FitsIn(BlocksFor(a.tokens, tree.blockTokens), handles, a.blocks, pool.State())
    {
      hide Sound, AllPinned, AllInUse, Staying, BlocksFor, Need, Elsewhere, Stale;
      AllInUseNow(handles[h := a], Some(h));
      WithoutRequest(handles, h, a, pool.view);
      RefusalAccount(h, a);
    }

    /**
     The account at a refusal, slot by slot: a compute slot is the home of, or held in reserve by an
     uncancelled job for, a block of a live table or of the matched prefix, if and only if it is
     neither free nor the destination of a cancelled job not yet drained.
     */
    lemma SlotAccount(matched: seq<BlockId>, x: nat)
      requires Valid() && AllInUse(handles, pool.view, matched) && 0 < |pool.caps| && x < pool.caps[0]
      ensures var l, s := PoolModel.Location(0, x), pool.State();
              (exists id: nat :: HeldFor(s, l, id) && (id in matched || InTable(handles, id))) <==>
              !PoolRuns.IsFree(s, l) && !StaleAt(s, l)
    {
      var l, s := PoolModel.Location(0, x), pool.State();
      PoolRuns.SlotPartition(s, l);
      PoolRuns.MigratingBijection(s);
      if !PoolRuns.IsFree(s, l) && !StaleAt(s, l) {
        var id := HolderOf(s, l);
        assert ShowsBlock(s, pool.view, id);
      }
    }

    /** Refuse the request and count it. */
    method Decline(h: Hid, a: Handle)
      requires Sound(handles[h := a], Some(h)) && h !in handles && NewHandle(a)
      requires AllPinned(tree.nodes) && tree.blockTokens > 0 && |pool.view.free| > 0
      requires Staying(pool.view, a.blocks, |a.blocks|)
      requires pool.view.free[0] + |a.blocks| < BlocksFor(a.tokens, tree.blockTokens) + Need(pool.view, a.blocks)
      requires Complete(tree.blockTokens, handles) && Tallied(stats, 1)
      modifies this`handles, this`stats, tree
      ensures Valid() && handles == old(handles)[h := DISARMED] && tree.index == old(tree.index)
      ensures tree.nodes.Keys == old(tree.nodes).Keys
      ensures Brought(old(stats), stats, pool.view, a.blocks, false)
      ensures Scored(old(stats), stats, handles[h], |a.tokens|)
      ensures |a.blocks| <= |Chunks(a.tokens, tree.blockTokens)|
      ensures Oversubscribed(tree.nodes, handles, pool.view, Chunks(a.tokens, tree.blockTokens)[..|a.blocks|], a.blocks,
                             BlocksFor(a.tokens, tree.blockTokens))
      ensures !FitsIn(BlocksFor(a.tokens, tree.blockTokens), old(handles), a.blocks, pool.State())
    {
      hide Sound, Complete, AllPinned, BlocksFor, Need, Staying, FitsIn, Oversubscribed;
      TurnDown(h, a);
      stats := stats.(allocFailures := stats.allocFailures + 1);
    }

    method TurnDown(h: Hid, a: Handle)
      requires Sound(handles[h := a], Some(h)) && h !in handles && NewHandle(a)
      requires AllPinned(tree.nodes) && tree.blockTokens > 0 && |pool.view.free| > 0
      requires Staying(pool.view, a.blocks, |a.blocks|) && Complete(tree.blockTokens, handles)
      requires pool.view.free[0] + |a.blocks| < BlocksFor(a.tokens, tree.blockTokens) + Need(pool.view, a.blocks)
      modifies this`handles, tree
      ensures Sound(handles, None) && Complete(tree.blockTokens, handles)
      ensures handles == old(handles)[h := DISARMED] && tree.index == old(tree.index)
      ensures tree.nodes.Keys == old(tree.nodes).Keys
      ensures |a.blocks| <= |Chunks(a.tokens, tree.blockTokens)|
      ensures Oversubscribed(tree.nodes, handles, pool.view, Chunks(a.tokens, tree.blockTokens)[..|a.blocks|], a.blocks,
                             BlocksFor(a.tokens, tree.blockTokens))
      ensures !FitsIn(BlocksFor(a.tokens, tree.blockTokens), old(handles), a.blocks, pool.State())
    {
      hide Sound, Complete, AllPinned, PinnedBut, BlocksFor, Need, AllInUse, Staying, FitsIn;
      RefusalCount(h, a);
      CompleteOther(tree.blockTokens, handles, h, DISARMED);
      Refuse(h, a);
    }

    lemma SentAsPlanned(c: Course, bs: seq<BlockId>, need: nat)
      requires Planned(c, bs, need) && SentTo(options.asyncPromotion, pool.host, c.after, pool.view, bs, |bs|)
      ensures SentTo(options.asyncPromotion, pool.host, c.settled, pool.view, bs, |bs|)
    {
      SentEarlier(options.asyncPromotion, pool.host, c.settled, c.before, c.after, pool.view, bs);
    }

    lemma MatchWithin(hs: Handles, h: Hid, except: Option<Hid>)
      requires Sound(hs, except) && Live(hs, h) && tree.blockTokens > 0 && NewHandle(hs[h])
      ensures hs[h].cachedTokens <= |hs[h].tokens|
      ensures |hs[h].blocks| <= |Chunks(hs[h].tokens, tree.blockTokens)| <= BlocksFor(hs[h].tokens, tree.blockTokens)
    {
      assert HandleOk(tree.blockTokens, tree.T(), hs, h);
      hide Sound, Core;
      CachedWithin(tree.blockTokens, tree.T(), hs, h);
    }

    /** With room made, or not. */
    method Decide(h: Hid, a: Handle, ok: bool)
      requires Sound(handles[h := a], Some(h)) && h !in handles && NewHandle(a)
      requires tree.blockTokens > 0 && Complete(tree.blockTokens, handles) && Tallied(stats, 1)
      requires |a.blocks| <= |Chunks(a.tokens, tree.blockTokens)| <= BlocksFor(a.tokens, tree.blockTokens)
      requires a.cachedTokens <= |a.tokens| && Staying(pool.view, a.blocks, |a.blocks|) && |pool.view.free| > 0
      requires ok <==> Need(pool.view, a.blocks) + (BlocksFor(a.tokens, tree.blockTokens) - |a.blocks|) <= pool.view.free[0]
      requires ok || AllPinned(tree.nodes)
      modifies this`handles, this`stats, tree, pool
      ensures Valid() && OnlyChanges(old(handles), handles, h)
      ensures tree.index == old(tree.index) && tree.nodes.Keys == old(tree.nodes).Keys
      ensures Steady(old(handles), old(Sees()), Sees()) && handles[h].ok == ok
      ensures Brought(old(stats), stats, old(pool.view), a.blocks, ok)
      ensures Scored(old(stats), stats, handles[h], |a.tokens|)
      ensures ok ==> && Extends(a, handles[h], BlocksFor(a.tokens, tree.blockTokens))
                     && ToppedUp(tree.nodes, pool.view, pool.host, options.spillWatermark)
                     && SentTo(options.asyncPromotion, pool.host, old(pool.view), pool.view, a.blocks, |a.blocks|)
      ensures !ok ==>
                && handles[h] == DISARMED && pool.view == old(pool.view)
                && Oversubscribed(tree.nodes, handles, pool.view, Chunks(a.tokens, tree.blockTokens)[..|a.blocks|], a.blocks,
                                  BlocksFor(a.tokens, tree.blockTokens))
                && !FitsIn(BlocksFor(a.tokens, tree.blockTokens), old(handles), a.blocks, pool.State())
    {
      hide Sound, Complete, Staying, BlocksFor, Chunks, AllPinned, Oversubscribed, Need, Scored, ToppedUp, Steady, FitsIn, SentTo, Tallied, Brought;
      Apart();
      if ok {
        Grant(h, a);
      } else {
        SteadySelf(handles, Sees());
        Decline(h, a);
      }
    }

    /** The rest of acquire(), from the pinned match on. */
    method Answer(h: Hid, a: Handle) returns (ghost c: Course)
      requires Sound(handles[h := a], Some(h)) && h !in handles && NewHandle(a)
      requires tree.blockTokens > 0 && Complete(tree.blockTokens, handles) && Tallied(stats, 1)
      modifies this`handles, this`stats, tree, pool
      ensures Valid() && OnlyChanges(old(handles), handles, h) && Within(tree.index, old(tree.index))
      ensures Steady(old(handles), old(Sees()), Sees())
      ensures stats.requests == old(stats).requests && Scored(old(stats), stats, handles[h], |a.tokens|)
      ensures LossCounted(old(stats), stats, old(tree.index), tree.index)
      ensures |a.blocks| <= |Chunks(a.tokens, tree.blockTokens)|
      ensures var cs, need := Chunks(a.tokens, tree.blockTokens), BlocksFor(a.tokens, tree.blockTokens);
              if handles[h].ok then Extends(a, handles[h], need)
                                    && ToppedUp(tree.nodes, pool.view, pool.host, options.spillWatermark)
              else && handles[h] == DISARMED && Oversubscribed(tree.nodes, handles, pool.view, cs[..|a.blocks|], a.blocks, need)
                   && Room(pool.view) == Room(old(pool.view)) && !FitsIn(need, old(handles), a.blocks, pool.State())
      ensures Planned(c, a.blocks, BlocksFor(a.tokens, tree.blockTokens))
      ensures Leaves(c, tree.nodes.Keys, tree.index) && c.settled == old(pool.view) && c.tree == old(tree.T())
      ensures MovesCounted(old(stats), stats, c, a.blocks, handles[h].ok)
      ensures handles[h].ok ==>
                SentTo(options.asyncPromotion, pool.host, c.settled, pool.view, a.blocks, |a.blocks|)
    {
      ghost var hs := handles[h := a];
      hide Sound, Among, Chunks, RadixTree.T, Complete, Staying, Within, BlocksFor, AllPinned, Oversubscribed, Need, Scored, ToppedUp, Steady, Room, FitsIn, Planned, Leaves, SentTo, Relieved, Tallied, Extends, LossCounted, MovesCounted, Brought;
      MatchWithin(hs, h, Some(h));
      AddedAmong(handles, h, a);
      Apart();
      ghost var was := handles;
      var need := BlocksFor(a.tokens, tree.blockTokens);
      var ok;
      ok, c := Reserve(h, a.blocks, need, hs);
      ghost var mid, sight, idx := stats, Sees(), tree.index;
      RelievedTally(old(stats), mid, c.demoted, old(tree.index), idx, 1);
      SteadyAmong(was, hs, old(Sees()), sight);
      Decide(h, a, ok);
      if ok {
        SentAsPlanned(c, a.blocks, need);
      }
      SteadyTwice(was, old(Sees()), sight, Sees());
      ScoredSince(old(stats), mid, stats, handles[h], |a.tokens|, c, a.blocks, ok, old(tree.index), idx);
    }

    /**
     Reuse the longest cached prefix of `tokens`, pinned, and allocate the rest.

     Served if and only if the blocks needed, the blocks of live tables that are not shared, and the
     compute slots that cancelled jobs still hold fit into the compute tier together; in any case if they
     do so counting every job bound for the compute tier at the time of the call that is not in the finished
     front of the queue, all of which is drained. So with nothing live and nothing queued, every request that
     fits is served.
     */
    method Acquire(h: Hid, tokens: seq<TokenId>) returns (ghost matched: seq<BlockId>, ghost c: Course)
      requires Valid() && h !in handles
      modifies this`handles, this`stats, tree, pool
      ensures Valid() && OnlyChanges(old(handles), handles, h) && Within(tree.index, old(tree.index))
      ensures Steady(old(handles), old(Sees()), Sees()) && (tokens != [] ==> pool.head >= old(pool.Front()))
      ensures stats.requests == old(stats).requests + 1 && Scored(old(stats), stats, handles[h], |tokens|)
      ensures LossCounted(old(stats), stats, old(tree.index), tree.index)
      ensures tokens == [] ==> handles[h] == EMPTY
      ensures tokens != [] ==>
                var cs, need := Chunks(tokens, tree.blockTokens), BlocksFor(tokens, tree.blockTokens);
                && |matched| <= |cs|
                && Matched(old(tree.index), cs, matched) && LongestIn(old(tree.index), cs, |matched|)
                && if handles[h].ok then Granted(handles[h], tokens, tree.blockTokens, matched, need)
                                         && ToppedUp(tree.nodes, pool.view, pool.host, options.spillWatermark)
                   else handles[h] == DISARMED && Oversubscribed(tree.nodes, handles, pool.view, cs[..|matched|], matched, need)
      ensures tokens != [] ==>
                (handles[h].ok <==> FitsIn(BlocksFor(tokens, tree.blockTokens), old(handles), matched, pool.State()))
      ensures tokens != [] && SurelyFitsIn(BlocksFor(tokens, tree.blockTokens), old(handles), matched, old(pool.State())) ==>
                handles[h].ok
      ensures tokens != [] ==>
                && Followed(c, old(pool.view), old(tree.T()), h, matched, BlocksFor(tokens, tree.blockTokens))
                && Leaves(c, tree.nodes.Keys, tree.index) && MovesCounted(old(stats), stats, c, matched, handles[h].ok)
      ensures tokens != [] && handles[h].ok ==>
                SentTo(options.asyncPromotion, pool.host, c.settled, pool.view, matched, |matched|)
      ensures handles[h].ok && !options.asyncPromotion ==> AllHome(pool.view, handles[h].blocks)
    {
      hide CacheManager.Valid, RadixTree.Valid, Within, Steady, Scored, Matched, LongestIn, Oversubscribed, ToppedUp,
           FitsIn, SurelyFitsIn, Room, Behind, BlocksFor, Granted, Followed, Leaves, SentTo, LossCounted, MovesCounted;
      Apart();
      PoolIsShown();
      ghost var hs, s := handles, pool.State();
      if tokens == [] {
        matched, c := [], Course(pool.view, tree.T(), pool.view, [], pool.view, [], [], pool.view);
        AdmitEmpty(h);
      } else {
        matched, c := AcquireSome(h, tokens);
        PoolIsShown();
        Verdict(hs, h, tokens, matched, s);
      }
      ReadyAtOnce(hs, h);
    }

    /** With no promotions in the background, every table is ready from the start, and stays so. */
    lemma AlwaysReady(h: Hid)
      requires Valid() && Live(handles, h) && !options.asyncPromotion
      ensures AllHome(pool.view, handles[h].blocks)
    {
      QuietIsHome(pool.view, handles, h);
    }

    lemma ReadyAtOnce(hs: Handles, h: Hid)
      requires Valid() && OnlyChanges(hs, handles, h)
      ensures handles[h].ok && !options.asyncPromotion ==> AllHome(pool.view, handles[h].blocks)
    {
      if Live(handles, h) && !options.asyncPromotion {
        AlwaysReady(h);
      } else if !Live(handles, h) {
        IdleHoldsNothing(h);
      }
    }

    lemma PoolIsShown()
      requires Valid()
      ensures PoolModel.Inv(pool.State()) && Shows(pool.State(), pool.view) && |pool.caps| > 0 && tree.blockTokens > 0
    {
    }

    lemma Verdict(hs: Handles, h: Hid, tokens: seq<TokenId>, matched: seq<BlockId>, s: PoolModel.Pool)
      requires Valid() && tree.blockTokens > 0 && h !in hs && OnlyChanges(hs, handles, h)
      requires s.caps == pool.caps && |pool.caps| > 0
      requires if handles[h].ok then Granted(handles[h], tokens, tree.blockTokens, matched, BlocksFor(tokens, tree.blockTokens))
               else && !FitsIn(BlocksFor(tokens, tree.blockTokens), hs, matched, pool.State())
                    && Room(pool.view) + |Behind(s)| >= pool.caps[0]
      ensures handles[h].ok <==> FitsIn(BlocksFor(tokens, tree.blockTokens), hs, matched, pool.State())
      ensures SurelyFitsIn(BlocksFor(tokens, tree.blockTokens), hs, matched, s) ==> handles[h].ok
    {
      if handles[h].ok {
        GrantFits(hs, h, matched);
      } else {
        StaleWereBehind(s, pool.State(), pool.view);
      }
    }

    /** A table that was handed out fits beside the others. */
    lemma GrantFits(hs: Handles, h: Hid, matched: seq<BlockId>)
      requires Valid() && h !in hs && OnlyChanges(hs, handles, h) && Live(handles, h)
      requires matched <= handles[h].blocks && handles[h].cachedBlocks == |matched|
      ensures FitsIn(|handles[h].blocks|, hs, matched, pool.State())
    {
      TablesFit(pool.State(), pool.view, handles);
      TableFitsInsert(tree.blockTokens, kv, tree.T(), pool.view, handles, h);
      forall i | |matched| <= i < |handles[h].blocks| ensures Alone(handles, h, i, handles[h].blocks[i]) {
        OwnIsAlone(h, i);
      }
      hide CacheManager.Valid;
      TableAdds(hs, h, handles[h], matched);
    }

    /** With no live handle and nothing queued, a request is served if and only if it fits into the compute tier. */
    method AcquireIdle(h: Hid, tokens: seq<TokenId>)
      requires Valid() && h !in handles && tokens != [] && tree.blockTokens > 0
      requires pool.jobs == [] && forall g: nat :: !Live(handles, g)
      modifies this`handles, this`stats, tree, pool
      ensures Valid() && h in handles && |pool.caps| > 0
      ensures handles[h].ok <==> |tokens| <= pool.caps[0] * tree.blockTokens
    {
      hide CacheManager.Valid, Within, Steady, Scored, Matched, LongestIn, Oversubscribed, ToppedUp, BlocksFor, Granted;
      PoolIsShown();
      assert Behind(pool.State()) == {};
      SpansBound(BlocksFor(tokens, tree.blockTokens), |tokens|, tree.blockTokens, pool.caps[0]);
      ghost var hs := handles;
      ghost var matched, c := Acquire(h, tokens);
      assert TableBlocks(hs) == {};
    }

    /** An empty sequence is served with nothing. */
    method AdmitEmpty(h: Hid)
      requires Valid() && h !in handles
      modifies this`handles, this`stats
      ensures Valid() && handles == old(handles)[h := EMPTY] && Within(tree.index, tree.index)
      ensures Steady(old(handles), Sees(), Sees())
      ensures stats.requests == old(stats).requests + 1 && Scored(old(stats), stats, EMPTY, 0)
      ensures LossCounted(old(stats), stats, tree.index, tree.index)
    {
      hide Sound, Complete, Within, Steady, Sees;
      SteadySelf(handles, Sees());
      WithinSelf(tree.index);
      stats := stats.(requests := stats.requests + 1, served := stats.served + 1);
      AddIdle(h, EMPTY);
    }

    lemma TreeIsPinned(hs: Handles, except: Option<Hid>, idx: map<Path, BlockId>, pins: map<nat, NodeId>, h: Hid)
      requires Sound(hs, except) && tree.index == idx && tree.pins - {h} == pins
      ensures PinnedFor(tree.T(), tree.key, idx, pins, h)
    {
    }

    method AcquireSome(h: Hid, tokens: seq<TokenId>) returns (ghost matched: seq<BlockId>, ghost c: Course)
      requires Valid() && h !in handles && tree.blockTokens > 0
      modifies this`handles, this`stats, tree, pool
      ensures Valid() && OnlyChanges(old(handles), handles, h) && Within(tree.index, old(tree.index))
      ensures Steady(old(handles), old(Sees()), Sees()) && pool.head >= old(pool.Front())
      ensures stats.requests == old(stats).requests + 1 && Scored(old(stats), stats, handles[h], |tokens|)
      ensures LossCounted(old(stats), stats, old(tree.index), tree.index)
      ensures var cs, need := Chunks(tokens, tree.blockTokens), BlocksFor(tokens, tree.blockTokens);
              && |matched| <= |cs|
              && Matched(old(tree.index), cs, matched) && LongestIn(old(tree.index), cs, |matched|)
              && if handles[h].ok then Granted(handles[h], tokens, tree.blockTokens, matched, need)
                                         && ToppedUp(tree.nodes, pool.view, pool.host, options.spillWatermark)
                 else && handles[h] == DISARMED && Oversubscribed(tree.nodes, handles, pool.view, cs[..|matched|], matched, need)
                      && Room(pool.view) + |Behind(old(pool.State()))| >= pool.caps[0]
                        && !FitsIn(need, old(handles), matched, pool.State())
      ensures Followed(c, old(pool.view), old(tree.T()), h, matched, BlocksFor(tokens, tree.blockTokens))
      ensures Leaves(c, tree.nodes.Keys, tree.index) && MovesCounted(old(stats), stats, c, matched, handles[h].ok)
      ensures handles[h].ok ==> SentTo(options.asyncPromotion, pool.host, c.settled, pool.view, matched, |matched|)
    {
      hide Sound, Matched, LongestIn, Complete, Within, BlocksFor, Oversubscribed, Drained, Scored, ToppedUp, Steady, Room, Behind, FitsIn, Spans, Planned, Leaves, SentTo, PinnedFor, LossCounted, MovesCounted;
      ghost var was, st := handles, stats;
      stats := stats.(requests := stats.requests + 1);
      ghost var mid := stats;
      Drain();
      ghost var sight := Sees();
      var a := MatchAndPin(h, tokens);
      matched := a.blocks;
      TreeIsPinned(handles[h := a], Some(h), old(tree.index), old(tree.pins), h);
      c := Answer(h, a);
      SteadyLater(was, sight, Sees());
      SteadyTwice(was, old(Sees()), sight, Sees());
      CountedSince(st, mid, stats, handles[h], |tokens|, c, matched, old(tree.index), tree.index);
    }

    // -------------------------------------------------------------- release

    /** Drop the references in `bs`: what the tree has adopted stays, the rest is freed. */
    method GiveBack(bs: seq<BlockId>, ghost v: View, ghost taken: set<BlockId>)
      requires pool.Valid() && NoDup(bs) && Sole(v, bs) && forall i :: 0 <= i < |bs| ==> bs[i] in v.tier
      requires Giving(v, pool.view, taken, {}) && taken <= Ids(bs)
      modifies pool
      ensures pool.Valid() && Shed(v, pool.view, Ids(bs) - taken) && pool.Still()
    {
      hide BlockPool.Valid, Giving, Shed, NoDup, Sole;
      var i := 0;
      assert taken - Ids(bs[..0]) == taken && Ids(bs[..0]) - taken == {};
      while i < |bs|
        invariant i <= |bs| && pool.Valid() && pool.Still()
        invariant Giving(v, pool.view, taken - Ids(bs[..i]), Ids(bs[..i]) - taken)
      {
        pool.WorkersRun();
        GivingNext(v, pool.view, bs, i, taken);
        var freed := pool.Decref(bs[i]);
        i := i + 1;
      }
      assert bs[..|bs|] == bs;
      GivingEnd(v, pool.view, bs, taken);
    }

    /** The end that release() and abandon() share: references, then the pin, then the handle. */
    method Finish(h: Hid, ghost t: Tree, ghost since: Sight, ghost taken: set<BlockId>)
      requires Live(handles, h) && handles[h].cachedBlocks <= |handles[h].blocks|
      requires tree.pool == pool && tree.Valid() && pool.view.tier == since.v.tier && since.loc == pool.location && Later(since, Sees())
      requires Core(tree.blockTokens, kv, t, since.v, handles) && Gated(since.v, handles, None)
      requires Quiet(options.asyncPromotion, since.v)
      requires tree.pins == t.pins
      requires SamePaths(t.nodes, tree.nodes)
      requires taken <= Ids(handles[h].blocks[handles[h].cachedBlocks..])
      requires Published(t.index, tree.index, since.v, kv, taken) && Giving(since.v, pool.view, taken, {})
      modifies tree, pool, this`handles
      ensures Sound(handles, None) && handles == old(handles)[h := DISARMED] && tree.index == old(tree.index)
      ensures Steady(handles, since, Sees())
    {
      ghost var gone := Ids(handles[h].blocks[handles[h].cachedBlocks..]) - taken;
      hide BlockPool.Valid, Inv, Backed, Core, Gated, Quiet, Giving, Shed, Published, GivesUp, Steady, Spared, Disowned, SamePaths;
      GiveUpFresh(h, t, since.v, taken);
      LetPinGo(h, t, since.v, taken, gone);
      ShedSteady(handles, since, Sees(), gone);
    }

    /** The fresh blocks are dealt with: give up the pin, and the handle. */
    method LetPinGo(h: Hid, ghost t: Tree, ghost v: View, ghost taken: set<BlockId>, ghost gone: set<BlockId>)
      requires Live(handles, h) && tree.pool == pool && tree.Valid() && tree.pins == t.pins
      requires Core(tree.blockTokens, kv, t, v, handles) && Gated(v, handles, None) && Quiet(options.asyncPromotion, v)
      requires SamePaths(t.nodes, tree.nodes)
      requires GivesUp(handles, h, taken, gone) && Published(t.index, tree.index, v, kv, taken) && Shed(v, pool.view, gone)
      modifies tree, this`handles
      ensures Sound(handles, None) && handles == old(handles)[h := DISARMED] && tree.index == old(tree.index)
      ensures Spared(handles, gone)
    {
      ghost var hs := handles;
      assert PinAgrees(t.pins, hs, h);
      Disarms(hs, h);
      hide BlockPool.Valid, Inv, Backed, Core, Gated, Quiet, Shed, Published, GivesUp, Spared, Disowned, SamePaths;
      Disarm(h, t.nodes);
      EndKeeps(tree.blockTokens, kv, t, tree.T(), v, pool.view, hs, handles, h, taken, gone);
      ShedQuiet(options.asyncPromotion, v, pool.view, gone);
    }

    method Disarm(h: Hid, ghost ns: Nodes)
      requires Live(handles, h) && tree.Ok() && PinAgrees(tree.pins, handles, h) && SamePaths(ns, tree.nodes)
      modifies tree, this`handles
      ensures tree.Ok() && SamePaths(ns, tree.nodes)
      ensures tree.pins == old(tree.pins) - {h} && tree.index == old(tree.index)
      ensures handles == old(handles)[h := DISARMED]
    {
      hide Inv, SamePaths;
      ghost var mid := tree.nodes;
      Unpin(handles[h].pinned, h, handles);
      SamePathsTwice(ns, mid, tree.nodes);
      handles := handles[h := DISARMED];
    }

    method GiveUpFresh(h: Hid, ghost t: Tree, ghost v: View, ghost taken: set<BlockId>)
      requires Live(handles, h) && handles[h].cachedBlocks <= |handles[h].blocks|
      requires tree.pool == pool && pool.Valid() && Backed(tree.index, pool.view) && pool.view.tier == v.tier
      requires Core(tree.blockTokens, kv, t, v, handles)
      requires taken <= Ids(handles[h].blocks[handles[h].cachedBlocks..])
      requires Published(t.index, tree.index, v, kv, taken) && Giving(v, pool.view, taken, {})
      modifies pool
      ensures pool.Valid() && Backed(tree.index, pool.view) && pool.Still()
      ensures var gone := Ids(handles[h].blocks[handles[h].cachedBlocks..]) - taken;
              GivesUp(handles, h, taken, gone) && Shed(v, pool.view, gone)
    {
      ghost var bt, m, hs := tree.blockTokens, pool.view, handles;
      FreshPart(bt, kv, t, v, hs, h);
      LiveGivesUp(bt, kv, t, v, hs, h, taken);
      assert OwnersOk(v, t.index, hs);
      hide BlockPool.Valid, Backed, Core, Giving, Shed, NoDup, Sole, Published, GivesUp, OwnersOk;
      var bs := handles[h].blocks[handles[h].cachedBlocks..];
      GiveBack(bs, v, taken);
      StillBacked(v, pool.view, t.index, tree.index, hs, h, kv, m, taken, Ids(bs) - taken);
    }

    /** Publish the fresh blocks of a live handle, then let go of everything. */
    method Publish(h: Hid, tokens: seq<TokenId>) returns (ghost pos: nat, ghost taken: seq<BlockId>)
      requires Sound(handles, None) && Complete(tree.blockTokens, handles) && Live(handles, h)
      requires tokens == handles[h].tokens && tree.blockTokens > 0 && Computed(tree.blockTokens, kv, handles[h])
      modifies tree, pool, this`handles
      ensures Sound(handles, None) && handles == old(handles)[h := DISARMED] && Steady(handles, old(Sees()), Sees())
      ensures Extended(tree.key, old(tree.index), tree.index, Chunks(tokens, tree.blockTokens),
                       old(handles)[h].blocks, pos, taken)
    {
      var a := handles[h];
      ghost var bt, t, v := tree.blockTokens, tree.T(), pool.view;
      SoundTree(handles, None);
      TableFitsInsert(bt, kv, t, v, handles, h);
      ComputedIsFilled(bt, kv, t, v, handles, h);
      assert CompleteAt(bt, handles, h);
      BlocksForChunks(tokens, bt);
      hide BlockPool.Valid, Inv, Backed, Core, Gated, Quiet, Giving, Published, Filled, Computed, NoDup, Adoptable, Adopted, Complete, BlocksFor, Steady;
      var adopted;
      adopted, pos, taken := tree.Insert(tokens, a.blocks);
      InsertPublishes(bt, kv, t, tree.T(), v, pool.view, handles, h, pos, taken);
      AdoptedSame(v, pool.view, Ids(taken));
      GivingStart(v, pool.view, Ids(taken));
      Finish(h, t, old(Sees()), Ids(taken));
    }

    lemma NothingToPublish(h: Hid)
      requires Sound(handles, None) && Live(handles, h)
      ensures tree.pool == pool && tree.Valid() && handles[h].cachedBlocks <= |handles[h].blocks|
      ensures Core(tree.blockTokens, kv, tree.T(), pool.view, handles) && Gated(pool.view, handles, None)
      ensures Quiet(options.asyncPromotion, pool.view)
      ensures SamePaths(tree.nodes, tree.nodes)
      ensures Published(tree.index, tree.index, pool.view, kv, {}) && Giving(pool.view, pool.view, {}, {})
    {
      SoundTree(handles, None);
      FreshPart(tree.blockTokens, kv, tree.T(), pool.view, handles, h);
      NothingPublished(tree.index, pool.view, kv);
      AdoptNothing(tree.index, pool.view, [], 0);
      GivingStart(pool.view, pool.view, {});
    }

    /** Everything release() does except publishing. */
    method Abandon(h: Hid)
      requires Valid() && Live(handles, h)
      modifies tree, pool, this`handles, this`stats
      ensures Valid() && handles == old(handles)[h := DISARMED] && tree.index == old(tree.index)
      ensures Steady(handles, old(Sees()), Sees())
      ensures stats == old(stats).(abandoned := old(stats).abandoned + 1)
    {
      hide Sound, BlockPool.Valid, RadixTree.Valid, Inv, Backed, Core, Gated, Giving, Published, Complete, Steady, SamePaths;
      ghost var t, v := tree.T(), pool.view;
      NothingToPublish(h);
      CompleteOther(tree.blockTokens, handles, h, DISARMED);
      Finish(h, t, old(Sees()), {});
      stats := stats.(abandoned := stats.abandoned + 1);
    }

    /**
     Publish what the index lacks of `tokens`, give back the rest, unpin, and disarm the handle;
     then drain and refill the headroom. The tokens are those the handle was acquired for.
     */
    method Release(h: Hid, tokens: seq<TokenId>) returns (ghost pos: nat, ghost taken: seq<BlockId>)
      requires Valid() && h in handles && tree.blockTokens > 0
      requires handles[h].ok ==> tokens == handles[h].tokens && Computed(tree.blockTokens, kv, handles[h])
      modifies this`handles, this`stats, tree, pool
      ensures Valid() && handles == old(handles)[h := DISARMED]
      ensures Extended(tree.key, old(tree.index), tree.index,
                       if Live(old(handles), h) then Chunks(tokens, tree.blockTokens) else [],
                       old(handles)[h].blocks, pos, taken)
      ensures Steady(handles, old(Sees()), Sees())
      ensures old(handles)[h].ok ==>
                ToppedUp(tree.nodes, pool.view, pool.host, options.spillWatermark) && pool.head >= old(pool.Front())
      ensures OnlyTopped(old(stats), stats)
    {
      hide Sound, Complete, Computed, Extended, ToppedUp, Steady, OnlyTopped;
      Apart();
      ToppedTally(stats, stats);
      CompleteOther(tree.blockTokens, handles, h, DISARMED);
      if !Live(handles, h) {
        IdleIs(h);
      }
      SteadySelf(handles[h := DISARMED], Sees());
      NothingExtended(tree.key, tree.index, handles[h].blocks);
      pos, taken := 0, [];
      if handles[h].ok {
        pos, taken := LetGo(h, tokens);
        Tidy(old(Sees()));
        ToppedTally(old(stats), stats);
      }
    }

    /** A handle that is not live holds nothing: no block, no pin, nothing cached, and nobody to give anything back to. */
    lemma IdleHoldsNothing(h: Hid)
      requires Valid() && h in handles && !Live(handles, h)
      ensures var a := handles[h];
              && a.blocks == [] && a.pinned.None? && !a.armed
              && a.cachedBlocks == 0 && a.cachedTokens == 0 && a.tokens == [] && a.data == map[]
    {
      HasTiers(handles, None);
      assert CompleteAt(tree.blockTokens, handles, h);
    }

    lemma IdleIs(h: Hid)
      requires Valid() && h in handles && tree.blockTokens > 0 && !Live(handles, h)
      ensures handles[h] == if handles[h].ok then EMPTY else DISARMED
    {
      assert CompleteAt(tree.blockTokens, handles, h);
    }

    /** Drain, then refill the headroom. */
    method Tidy(ghost since: Sight)
      requires Sound(handles, None) && Steady(handles, since, Sees())
      modifies pool, this`stats
      ensures Sound(handles, None) && OnlyTopped(old(stats), stats)
      ensures ToppedUp(tree.nodes, pool.view, pool.host, options.spillWatermark) && Steady(handles, since, Sees())
      ensures pool.head >= since.front
    {
      hide Sound, Projected, ToppedUp, Steady, Drained;
      ghost var a := Sees();
      Drain();
      ghost var b := Sees();
      ghost var demoted := Maintain();
      SteadyLater(handles, since, a);
      SteadyLater(handles, b, Sees());
      SteadyTwice(handles, since, a, b);
      SteadyTwice(handles, since, b, Sees());
    }

    method LetGo(h: Hid, tokens: seq<TokenId>) returns (ghost pos: nat, ghost taken: seq<BlockId>)
      requires Sound(handles, None) && Complete(tree.blockTokens, handles) && h in handles && tree.blockTokens > 0
      requires Live(handles, h) || handles[h] == EMPTY
      requires tokens == handles[h].tokens && Computed(tree.blockTokens, kv, handles[h])
      modifies this`handles, tree, pool
      ensures Sound(handles, None) && handles == old(handles)[h := DISARMED] && Steady(handles, old(Sees()), Sees())
      ensures Extended(tree.key, old(tree.index), tree.index,
                       if Live(old(handles), h) then Chunks(tokens, tree.blockTokens) else [],
                       old(handles)[h].blocks, pos, taken)
    {
      hide Sound, Complete, Computed, Extended, Steady;
      NothingExtended(tree.key, tree.index, handles[h].blocks);
      pos, taken := 0, [];
      if handles[h].armed {
        pos, taken := Publish(h, tokens);
      } else {
        ReleaseEmpty(h);
      }
    }

    /** The handle of an empty sequence: nothing to publish, nothing to give back. */
    method ReleaseEmpty(h: Hid)
      requires Sound(handles, None) && Complete(tree.blockTokens, handles) && h in handles && !Live(handles, h)
      requires handles[h].tokens == [] && handles[h].blocks == []
      modifies this`handles, tree, pool
      ensures Sound(handles, None) && handles == old(handles)[h := DISARMED] && tree.index == old(tree.index)
      ensures Steady(handles, old(Sees()), Sees())
    {
      hide Core, Gated, Quiet, Inv, BlockPool.Valid, Backed, Steady, Recency.Recent, SamePaths;
      Apart();
      ghost var t, v := tree.T(), pool.view;
      SoundTree(handles, None);
      ghost var pos, taken;
      var adopted;
      adopted, pos, taken := tree.Insert([], []);
      NothingAdopted(tree.key, t.index, tree.index, v, pool.view, pos, taken);
      WalkKeeps(tree.blockTokens, kv, t, tree.T(), v, handles);
      IdleKeeps(tree.blockTokens, kv, tree.T(), v, handles, handles[h := DISARMED], h);
      handles := handles[h := DISARMED];
      StillSteady(handles, old(Sees()), Sees());
    }

    // -------------------------------------------------- the life of a handle

    /** A handle goes out of scope: if it is live, what it holds is given back. */
    method Destroy(h: Hid)
      requires Valid() && h in handles
      modifies this`handles, this`stats, tree, pool
      ensures Valid() && handles == old(handles) - {h} && tree.index == old(tree.index)
      ensures stats.abandoned == old(stats).abandoned + if Live(old(handles), h) then 1 else 0
      ensures Steady(handles, old(Sees()), Sees())
    {
      hide Sound, Complete, Steady;
      SteadySelf(handles, Sees());
      if handles[h].ok && handles[h].armed {
        Abandon(h);
      }
      SteadyAmong(handles - {h}, handles, old(Sees()), Sees());
      Forget(h);
    }

    method Forget(h: Hid)
      requires Valid() && !Live(handles, h)
      modifies this`handles
      ensures Valid() && handles == old(handles) - {h}
    {
      ghost var hs := handles - {h};
      hide BlockPool.Valid, Core, Gated, Quiet;
      IdleKeeps(tree.blockTokens, kv, tree.T(), pool.view, handles, hs, h);
      forall g: nat ensures CompleteAt(tree.blockTokens, hs, g) {
        assert CompleteAt(tree.blockTokens, handles, g);
      }
      handles := handles - {h};
    }

    /** The handle in `src` moves into the variable `dst`, which holds nothing. */
    method TakeOver(src: Hid, dst: Hid)
      requires Valid() && src in handles && src != dst && !Live(handles, dst)
      modifies this`handles, tree
      ensures Valid() && handles == Moved(old(handles), src, dst)
      ensures tree.index == old(tree.index)
    {
      SoundTree(handles, None);
      MoveKeeps(tree.blockTokens, kv, tree.T(), pool.view, handles, src, dst);
      CompleteMoved(tree.blockTokens, handles, src, dst);
      hide BlockPool.Valid, Core, Gated, Quiet, Inv, Backed, Complete;
      tree.MovePin(src, dst);
      handles := handles[dst := handles[src]][src := DISARMED];
    }

    /** Move construction: the source is left disarmed. */
    method MoveConstruct(src: Hid, dst: Hid)
      requires Valid() && src in handles && dst !in handles
      modifies this`handles, tree
      ensures Valid() && handles == Moved(old(handles), src, dst) && tree.index == old(tree.index)
    {
      TakeOver(src, dst);
    }

    /** Move assignment: what the target held is given back first; assigning a handle to itself does nothing. */
    method MoveAssign(src: Hid, dst: Hid)
      requires Valid() && src in handles && dst in handles
      modifies this`handles, this`stats, tree, pool
      ensures Valid() && tree.index == old(tree.index)
      ensures handles == if src == dst then old(handles) else Moved(old(handles), src, dst)
      ensures stats.abandoned == old(stats).abandoned + if src != dst && Live(old(handles), dst) then 1 else 0
      ensures Steady(if src == dst then handles else old(handles)[dst := DISARMED], old(Sees()), Sees())
    {
      hide Sound, Complete, Steady;
      SteadySelf(handles, Sees());
      SteadySelf(handles[dst := DISARMED], Sees());
      if src == dst {
        return;
      }
      if handles[dst].ok && handles[dst].armed {
        Abandon(dst);
      }
      TakeOver(src, dst);
    }

    // ---------------------------------------------------------------- ready

    /**
     Is the whole table in the compute tier? If so, every cached entry is there, in memory, as
     computed. It is, at the latest, once every queued copy is done.
     */
    method Ready(h: Hid) returns (r: bool)
      requires Valid() && h in handles
      modifies pool
      ensures Valid() && Drained(old(pool.view), pool.view) && Steady(handles, old(Sees()), Sees())
      ensures !Live(handles, h) ==> r
      ensures Live(handles, h) ==> (r <==> AllHome(pool.view, handles[h].blocks))
      ensures Live(handles, h) && r ==>
                forall i: nat :: i < handles[h].cachedBlocks ==> Holds(tree.blockTokens, kv, pool.State(), handles[h], i)
      ensures Live(handles, h) ==>
                (r <==> forall i: nat :: i < |handles[h].blocks| ==> ArrivesBy(old(pool.State()), handles[h].blocks[i]))
      ensures (forall j :: 0 <= j < |old(pool.jobs)| ==> old(pool.jobs)[j].done) ==> r
    {
      SoundTree(handles, None);
      hide RadixTree.Valid, BlockPool.Valid, Core, Gated, Quiet, Drained, Complete, AllHome, Holds, Steady, ArrivesBy;
      DrainedSelf(pool.view);
      SteadySelf(handles, Sees());
      if !handles[h].ok || !handles[h].armed {
        return true;
      }
      SettleAndGate(h);
      r := TableIsHome(h);
      if r {
        forall i: nat | i < handles[h].cachedBlocks ensures Holds(tree.blockTokens, kv, pool.State(), handles[h], i) {
          ReadsAsComputed(h, i);
        }
      }
    }

    method SettleAndGate(h: Hid)
      requires Valid() && Live(handles, h)
      modifies pool
      ensures Valid() && Drained(old(pool.view), pool.view) && Steady(handles, old(Sees()), Sees())
      ensures AllHome(pool.view, handles[h].blocks) <==>
              forall i: nat :: i < |handles[h].blocks| ==> ArrivesBy(old(pool.State()), handles[h].blocks[i])
      ensures (forall j :: 0 <= j < |old(pool.jobs)| ==> old(pool.jobs)[j].done) ==> AllHome(pool.view, handles[h].blocks)
    {
      ghost var s, v, sight := pool.State(), pool.view, Sees();
      hide Core, Gated, Quiet, Drained, Complete, AllHome, PoolModel.Inv, Shows, Steady, RestingStay, ArrivesBy, FinishedFront, Completes;
      pool.DrainMigrations();
      ghost var k: nat :| FinishedFront(s, k) && Completes(s, v, pool.view, k);
      GateAnswers(s, v, pool.view, k, handles, h);
      DrainQuiet(options.asyncPromotion, v, pool.view);
      DrainSteady(handles, sight, Sees());
      DrainKeeps(tree.blockTokens, kv, tree.T(), v, pool.view, handles, None);
      if forall j :: 0 <= j < |s.jobs| ==> s.jobs[j].done {
        PoolRuns.DrainAll(s);
        NothingInFlight(pool.State(), pool.view);
        GateOpens(pool.view, handles, h);
      }
    }

    method TableIsHome(h: Hid) returns (r: bool)
      requires Valid() && Live(handles, h)
      ensures r <==> AllHome(pool.view, handles[h].blocks)
    {
      TableFitsInsert(tree.blockTokens, kv, tree.T(), pool.view, handles, h);
      hide Core, Gated, Quiet, BlockPool.Valid;
      var bs := handles[h].blocks;
      var i := 0;
      while i < |bs|
        invariant i <= |bs| && AllHome(pool.view, bs[..i])
      {
        var tier := pool.BlockTier(bs[i]);
        if tier != 0 {
          return false;
        }
        i := i + 1;
      }
      assert bs[..|bs|] == bs;
      r := true;
    }

    lemma ReadsAsComputed(h: Hid, i: nat)
      requires Valid() && Live(handles, h) && AllHome(pool.view, handles[h].blocks) && i < handles[h].cachedBlocks
      ensures tree.blockTokens > 0 && Holds(tree.blockTokens, kv, pool.State(), handles[h], i)
    {
      TransparentInMemory(tree.blockTokens, kv, tree.T(), pool.State(), pool.view, handles, h, i);
    }

    /** What the pool counts as used is what the tree stores and the live handles own. */
    lemma UsedBlocks()
      requires Valid()
      ensures |pool.location| - |pool.freeIds| == tree.storedBlocks + |FreshEntries(handles)|
    {
      Conserved(tree.blockTokens, kv, tree.T(), pool.view, handles);
      UsedCount(pool.State(), pool.view);
    }

    // ------------------------------------------------ for those who fill tables

    lemma OwnIsAtRest(h: Hid, i: nat)
      requires Valid() && Live(handles, h) && handles[h].cachedBlocks <= i < |handles[h].blocks|
      ensures var id := handles[h].blocks[i]; id in pool.view.tier && id !in pool.view.target
    {
      var id := handles[h].blocks[i];
      assert FreshAt(handles, h, i, id) && FreshOk(pool.view, tree.index, handles, h, i, id);
    }

    lemma BlockLength(h: Hid, i: nat)
      requires Valid() && Live(handles, h) && handles[h].cachedBlocks <= i < |handles[h].blocks|
      ensures var id := handles[h].blocks[i]; id in pool.view.val && |pool.view.val[id]| == pool.bytes
    {
      var id := handles[h].blocks[i];
      assert FreshAt(handles, h, i, id) && FreshOk(pool.view, tree.index, handles, h, i, id);
      assert ShowsBlock(pool.State(), pool.view, id);
    }

    lemma TableLength(h: Hid)
      requires Valid() && Live(handles, h) && tree.blockTokens > 0
      ensures handles[h].cachedBlocks <= |Chunks(handles[h].tokens, tree.blockTokens)| <= |handles[h].blocks|
    {
      assert CompleteAt(tree.blockTokens, handles, h);
      assert HandleOk(tree.blockTokens, tree.T(), handles, h);
      BlocksForChunks(handles[h].tokens, tree.blockTokens);
    }

    /** A fresh block of `h` is in one place of its table, and in no other table. */
    lemma OwnIsAlone(h: Hid, i: nat)
      requires Valid() && Live(handles, h) && handles[h].cachedBlocks <= i < |handles[h].blocks|
      ensures Alone(handles, h, i, handles[h].blocks[i])
    {
      var id := handles[h].blocks[i];
      assert FreshAt(handles, h, i, id) && FreshOk(pool.view, tree.index, handles, h, i, id);
      forall g: nat, j: nat | TableAt(handles, g, j, id) ensures g == h && j == i {
        if j < handles[g].cachedBlocks {
          CachedApart(tree.blockTokens, kv, tree.T(), pool.view, handles, g);
        } else {
          assert FreshAt(handles, g, j, id) && FreshApart(handles, h, i, g, j, id);
        }
      }
    }

    lemma OwnIsReadable(h: Hid, i: nat)
      requires Valid() && Live(handles, h) && handles[h].cachedBlocks <= i < |handles[h].blocks|
      ensures var id := handles[h].blocks[i];
              && id < |pool.location| && pool.location[id] in pool.mem && id in pool.view.val
              && pool.view.val[id] == pool.mem[pool.location[id]]
    {
      LocatedNow();
      assert LocatedAt(pool.State(), pool.view, handles, h, i);
    }

    lemma LocatedNow()
      requires Valid()
      ensures AllLocated(pool.State(), pool.view, handles)
    {
      GatedIsLocated(pool.State(), pool.view, handles);
    }
  }
}
