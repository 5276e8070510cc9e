/** Those who use the cache: an engine that computes into its own blocks, and any script of client calls. */
module Clients {
  import opened Types
  import opened TreeModel
  import opened TreeWalk
  import PoolModel
  import opened PoolView
  import opened BlockPool
  import opened RadixTree
  import opened SystemModel
  import opened Requests
  import opened Planning
  import opened Guarantees
  import opened Stability
  import opened CacheManager

  /** What a client may ask. `h`, `src` and `dst` name the client's variables. */
  datatype Request =
    | AcquireRequest(h: Hid, tokens: seq<TokenId>)
    | WriteRequest(h: Hid, i: nat, k: nat, b: Byte)   // the engine writes one byte of entry `i`
    | NoteRequest(h: Hid, i: nat)                     // the engine is done with entry `i`
    | ComputeRequest(h: Hid)                          // the engine fills all that was not cached
    | ReleaseRequest(h: Hid)
    | ReadyRequest(h: Hid)
    | DropRequest(h: Hid)
    | MoveRequest(src: Hid, dst: Hid)
    | DrainRequest

  predicate Names(r: Request, h: Hid) {
    match r
    case MoveRequest(src, dst) => h == src || h == dst
    case DrainRequest => false
    case _ => h == r.h
  }

  /** The request gives up the handle in `h`, or may. */
  predicate Ends(r: Request, h: Hid) {
    match r
    case ReleaseRequest(g) => h == g
    case DropRequest(g) => h == g
    case MoveRequest(src, dst) => h == src || h == dst
    case _ => false
  }

  /** The request may write entry `i` of the handle `a` in `h`. No request writes a cached entry. */
  predicate Writes(r: Request, a: Handle, h: Hid, i: nat) {
    a.cachedBlocks <= i &&
      match r
      case WriteRequest(g, j, _, _) => h == g && i == j
      case ComputeRequest(g) => h == g
      case _ => false
  }

  /** The handles a request does not end, and the entries it may write. */
  ghost function Others(hs: Handles, r: Request): Handles {
    map h | h in hs && !Ends(r, h) :: hs[h]
  }

  ghost function Written(hs: Handles, r: Request): set<Entry> {
    set h, i | h in hs && 0 <= i < |hs[h].blocks| && Writes(r, hs[h], h, i) :: (h, i)
  }

  predicate Untouched(script: seq<Request>, h: Hid) {
    forall n :: 0 <= n < |script| ==> !Names(script[n], h)
  }

  predicate Lasts(script: seq<Request>, h: Hid) {
    forall n :: 0 <= n < |script| ==> !Ends(script[n], h)
  }

  predicate WrittenAt(script: seq<Request>, a: Handle, h: Hid, i: nat) {
    exists n :: 0 <= n < |script| && Writes(script[n], a, h, i)
  }

  /** The same of a whole script. */
  ghost function Rest(hs: Handles, script: seq<Request>): Handles {
    map h | h in hs && Lasts(script, h) :: hs[h]
  }

  ghost function WrittenBy(hs: Handles, script: seq<Request>): set<Entry> {
    set h, i | h in hs && 0 <= i < |hs[h].blocks| && WrittenAt(script, hs[h], h, i) :: (h, i)
  }

  /** The same handle, but for what is known of the bytes in its own blocks. */
  ghost predicate SameHandle(hs: Handles, hs': Handles, h: Hid) {
    h in hs ==> h in hs' && hs'[h] == hs[h].(data := hs'[h].data)
  }

  ghost predicate KeptOne(hs: Handles, hs': Handles, r: Request, h: Hid) {
    && (!Names(r, h) ==> (h in hs <==> h in hs') && (h in hs ==> hs'[h] == hs[h]))
    && (!Ends(r, h) ==> SameHandle(hs, hs', h))
  }

  ghost predicate KeptBut(hs: Handles, hs': Handles, r: Request) {
    forall h: nat :: KeptOne(hs, hs', r, h)
  }

  /** A handle that the script does not end stays the same; one that it does not name stays as it was. */
  ghost predicate KeptAt(hs: Handles, hs': Handles, script: seq<Request>, h: Hid) {
    && (Untouched(script, h) ==> (h in hs <==> h in hs') && (h in hs ==> hs'[h] == hs[h]))
    && (Lasts(script, h) ==> SameHandle(hs, hs', h))
  }

  ghost predicate Kept(hs: Handles, hs': Handles, script: seq<Request>) {
    forall h: nat :: KeptAt(hs, hs', script, h)
  }

  lemma KeptMore(hs: Handles, m: Handles, hs': Handles, script: seq<Request>, n: nat)
    requires n < |script| && Kept(hs, m, script[..n]) && KeptBut(m, hs', script[n])
    ensures Kept(hs, hs', script[..n + 1])
  {
    var longer := script[..n + 1];
    assert longer == script[..n] + [script[n]];
    forall h: nat ensures KeptAt(hs, hs', longer, h) {
      assert KeptAt(hs, m, script[..n], h) && KeptOne(m, hs', script[n], h);
      assert longer[n] == script[n];
      assert forall i :: 0 <= i < n ==> longer[i] == script[..n][i];
    }
  }

  lemma OthersAmong(hs: Handles, hs': Handles, r: Request)
    requires KeptBut(hs, hs', r)
    ensures Among(Others(hs, r), hs')
  {
    forall h: nat | Live(Others(hs, r), h) ensures Live(hs', h) && hs'[h].blocks == hs[h].blocks {
      assert KeptOne(hs, hs', r, h);
    }
  }

  /** A handle the script does not end is one that its next request does not end, written where the script says. */
  lemma RestAmong(hs: Handles, mid: Handles, script: seq<Request>, n: nat)
    requires n < |script| && Kept(hs, mid, script[..n])
    ensures Among(Rest(hs, script), Others(mid, script[n]))
    ensures Covered(Rest(hs, script), Written(mid, script[n]), WrittenBy(hs, script))
  {
    forall h: nat | Live(Rest(hs, script), h)
      ensures Live(Others(mid, script[n]), h) && SameHandle(hs, mid, h)
    {
      assert KeptAt(hs, mid, script[..n], h);
      assert Lasts(script[..n], h);
    }
    forall h: nat, i: nat | Live(Rest(hs, script), h) && i < |hs[h].blocks| && (h, i) in Written(mid, script[n])
      ensures (h, i) in WrittenBy(hs, script)
    {
      assert Writes(script[n], mid[h], h, i);
      assert Writes(script[n], hs[h], h, i);
    }
  }

  // ------------------------------------------------------------------ engine

  /** Byte `k` of block `id` became `b`, and nothing else changed. */
  ghost predicate WroteByte(v: View, v': View, id: BlockId, k: nat, b: Byte) {
    && id in v.val && k < |v.val[id]|
    && v' == v.(val := v.val[id := v.val[id][k := b]])
  }

  /** One byte of a block the handle owns. */
  method WriteByte(m: CacheManager, h: Hid, i: nat, k: nat, b: Byte)
    requires m.Valid() && Live(m.handles, h) && k < m.pool.bytes
    requires m.handles[h].cachedBlocks <= i < |m.handles[h].blocks|
    modifies m`handles, m.pool
    ensures m.Valid() && DataChanged(old(m.handles), m.handles, h)
    ensures h in m.handles && m.handles[h].data == old(m.handles)[h].data - {i}
    ensures WroteByte(old(m.pool.view), m.pool.view, old(m.handles)[h].blocks[i], k, b)
    ensures SteadyBut(old(m.handles), old(m.Sees()), m.Sees(), {(h, i)})
  {
    ghost var v, hs, bt, t, sight := m.pool.view, m.handles, m.tree.blockTokens, m.tree.T(), m.Sees();
    m.OwnIsAtRest(h, i);
    m.OwnIsAlone(h, i);
    CompleteData(bt, hs, h, hs[h].data - {i});
    hide Core, Gated, Quiet, BlockPool.Valid, Complete, SteadyBut, Alone;
    var a := m.handles[h];
    m.pool.Write(a.blocks[i], k, b);
    WriteSteady(hs, sight, m.Sees(), h, i, a.blocks[i]);
    m.handles := m.handles[h := a.(data := a.data - {i})];
    WriteKeeps(bt, m.kv, t, v, m.pool.view, hs, m.handles, h, i);
    SameQuiet(m.options.asyncPromotion, v, m.pool.view);
  }

  lemma CompleteData(bt: nat, hs: Handles, h: Hid, data: map<nat, seq<Byte>>)
    requires Complete(bt, hs) && Live(hs, h)
    ensures Complete(bt, hs[h := hs[h].(data := data)])
  {
    var hs' := hs[h := hs[h].(data := data)];
    forall g: nat ensures CompleteAt(bt, hs', g) {
      assert CompleteAt(bt, hs, g);
    }
  }

  /** Only what is known of the blocks of `h` changed. */
  ghost predicate DataChanged(hs: Handles, hs': Handles, h: Hid) {
    h in hs && h in hs' && hs' == hs[h := hs[h].(data := hs'[h].data)]
  }

  lemma DataTwice(hs: Handles, mid: Handles, hs': Handles, h: Hid)
    requires DataChanged(hs, mid, h) && DataChanged(mid, hs', h)
    ensures DataChanged(hs, hs', h)
  {
  }

  lemma DataOnly(hs: Handles, hs': Handles, h: Hid)
    requires DataChanged(hs, hs', h)
    ensures h in hs && h in hs' && (Live(hs', h) <==> Live(hs, h)) && Among(hs, hs')
    ensures hs'[h].blocks == hs[h].blocks && hs'[h].cachedBlocks == hs[h].cachedBlocks && hs'[h].tokens == hs[h].tokens
  {
  }

  /** A write, or several, after what has been so far. */
  lemma SteadyNext(hs: Handles, mid: Handles, a: Sight, b: Sight, c: Sight, h: Hid, w': set<Entry>, w: set<Entry>)
    requires DataChanged(hs, mid, h) && SteadyBut(hs, a, b, w) && SteadyBut(mid, b, c, w') && w' <= w
    ensures SteadyBut(hs, a, c, w)
  {
    DataOnly(hs, mid, h);
    SteadyButAmong(hs, mid, b, c, w', w);
    SteadyButTwice(hs, a, b, c, w);
  }

  ghost predicate FilledTo(v: View, id: BlockId, block: seq<Byte>, k: nat) {
    id in v.val && |v.val[id]| == |block| && k <= |block| && v.val[id][..k] == block[..k]
  }

  lemma FilledMore(v: View, v': View, id: BlockId, block: seq<Byte>, k: nat)
    requires FilledTo(v, id, block, k) && k < |block| && WroteByte(v, v', id, k, block[k])
    ensures FilledTo(v', id, block, k + 1)
  {
    assert v'.val[id][..k + 1] == v.val[id][..k] + [block[k]];
    assert block[..k + 1] == block[..k] + [block[k]];
  }

  lemma FilledAll(v: View, id: BlockId, block: seq<Byte>)
    requires FilledTo(v, id, block, |block|)
    ensures id in v.val && v.val[id] == block
  {
    assert v.val[id][..|block|] == v.val[id];
  }

  /** Fill a block byte by byte, the workers running in between. */
  method FillBlock(m: CacheManager, h: Hid, i: nat, block: seq<Byte>)
    requires m.Valid() && Live(m.handles, h) && |block| == m.pool.bytes
    requires m.handles[h].cachedBlocks <= i < |m.handles[h].blocks|
    modifies m`handles, m.pool
    ensures m.Valid() && DataChanged(old(m.handles), m.handles, h)
    ensures h in m.handles && m.handles[h].data == old(m.handles)[h].data[i := block]
    ensures SteadyBut(old(m.handles), old(m.Sees()), m.Sees(), {(h, i)})
  {
    hide CacheManager.Valid, DataChanged, SteadyBut;
    ghost var hs := m.handles;
    WriteBytes(m, h, i, block);
    ghost var mid := m.handles;
    DataOnly(hs, mid, h);
    DataPut(hs[h].data, mid[h].data, i, block);
    Record(m, h, i, block);
    DataTwice(hs, mid, m.handles, h);
  }

  method WriteBytes(m: CacheManager, h: Hid, i: nat, block: seq<Byte>)
    requires m.Valid() && Live(m.handles, h) && |block| == m.pool.bytes
    requires m.handles[h].cachedBlocks <= i < |m.handles[h].blocks|
    modifies m`handles, m.pool
    ensures m.Valid() && DataChanged(old(m.handles), m.handles, h)
    ensures h in m.handles && m.handles[h].data - {i} == old(m.handles)[h].data - {i}
    ensures var id := old(m.handles)[h].blocks[i]; id in m.pool.view.val && m.pool.view.val[id] == block
    ensures SteadyBut(old(m.handles), old(m.Sees()), m.Sees(), {(h, i)})
  {
    m.BlockLength(h, i);
    ghost var hs: Handles, id, sight := m.handles, m.handles[h].blocks[i], m.Sees();
    assert DataChanged(hs, hs, h) && FilledTo(m.pool.view, id, block, 0);
    SteadySelf(hs, sight);
    SteadyIsBut(hs, sight, sight, {(h, i)});
    hide CacheManager.Valid, DataChanged, FilledTo, SteadyBut;
    var k := 0;
    while k < |block|
      invariant k <= |block| && m.Valid() && FilledTo(m.pool.view, id, block, k)
      invariant DataChanged(hs, m.handles, h) && h in m.handles && m.handles[h].data - {i} == hs[h].data - {i}
      invariant SteadyBut(hs, sight, m.Sees(), {(h, i)})
    {
      WriteNext(m, h, i, k, block, hs, sight);
      k := k + 1;
    }
    FilledAll(m.pool.view, id, block);
  }

  method WriteNext(m: CacheManager, h: Hid, i: nat, k: nat, block: seq<Byte>, ghost hs: Handles, ghost since: Sight)
    requires m.Valid() && Live(hs, h) && k < |block| == m.pool.bytes
    requires hs[h].cachedBlocks <= i < |hs[h].blocks| && FilledTo(m.pool.view, hs[h].blocks[i], block, k)
    requires DataChanged(hs, m.handles, h) && h in m.handles && m.handles[h].data - {i} == hs[h].data - {i}
    requires SteadyBut(hs, since, m.Sees(), {(h, i)})
    modifies m`handles, m.pool
    ensures SteadyBut(hs, since, m.Sees(), {(h, i)})
    ensures m.Valid() && FilledTo(m.pool.view, hs[h].blocks[i], block, k + 1)
    ensures DataChanged(hs, m.handles, h) && h in m.handles && m.handles[h].data - {i} == hs[h].data - {i}
  {
    hide CacheManager.Valid, DataChanged, FilledTo, WroteByte, Steady, SteadyBut, Among;
    ghost var mid, v, sight := m.handles, m.pool.view, m.Sees();
    DataOnly(hs, mid, h);
    m.WorkersRun();
    ghost var now := m.Sees();
    SteadyIsBut(mid, sight, now, {(h, i)});
    SteadyNext(hs, mid, since, sight, now, h, {(h, i)}, {(h, i)});
    WriteByte(m, h, i, k, block[k]);
    SteadyNext(hs, mid, since, now, m.Sees(), h, {(h, i)}, {(h, i)});
    DataTwice(hs, mid, m.handles, h);
    FilledMore(v, m.pool.view, hs[h].blocks[i], block, k);
  }

  lemma DataPut(d: map<nat, seq<Byte>>, d': map<nat, seq<Byte>>, i: nat, block: seq<Byte>)
    requires d - {i} == d' - {i}
    ensures d'[i := block] == d[i := block]
  {
    var e, e' := d[i := block], d'[i := block];
    forall k: nat ensures k in e <==> k in e' ensures k in e ==> e[k] == e'[k] {
      assert k != i ==> (k in d <==> k in d - {i}) && (k in d' <==> k in d' - {i});
    }
    assert e.Keys == e'.Keys;
  }

  /** Note that the block is filled. Nothing but the auxiliary record changes. */
  method Record(m: CacheManager, h: Hid, i: nat, block: seq<Byte>)
    requires m.Valid() && Live(m.handles, h) && m.handles[h].cachedBlocks <= i < |m.handles[h].blocks|
    requires var id := m.handles[h].blocks[i]; id in m.pool.view.val && m.pool.view.val[id] == block
    modifies m`handles
    ensures m.Valid() && DataChanged(old(m.handles), m.handles, h)
    ensures h in m.handles && m.handles[h].data == old(m.handles)[h].data[i := block]
  {
    ghost var v, hs, bt, t := m.pool.view, m.handles, m.tree.blockTokens, m.tree.T();
    CompleteData(bt, hs, h, hs[h].data[i := block]);
    hide Core, Gated, Quiet, BlockPool.Valid, Complete;
    var a := m.handles[h];
    m.handles := m.handles[h := a.(data := a.data[i := block])];
    assert v.val[a.blocks[i] := v.val[a.blocks[i]]] == v.val;
    WriteKeeps(bt, m.kv, t, v, v, hs, m.handles, h, i);
  }

  /** The first `n` chunks of the table are cached or computed. */
  ghost predicate ComputedTo(kv: Kv, a: Handle, cs: Path, n: nat) {
    n <= |cs| && forall i: nat :: a.cachedBlocks <= i < n ==> i in a.data && a.data[i] == kv(cs[..i + 1])
  }

  lemma ComputedNone(kv: Kv, a: Handle, cs: Path)
    requires a.cachedBlocks <= |cs|
    ensures ComputedTo(kv, a, cs, a.cachedBlocks)
  {
  }

  lemma ComputedAll(bt: nat, kv: Kv, a: Handle)
    requires bt > 0 && ComputedTo(kv, a, Chunks(a.tokens, bt), |Chunks(a.tokens, bt)|)
    ensures Computed(bt, kv, a)
  {
  }

  /** The engine runs the model: it fills every whole block of the table that was not cached. */
  method Compute(m: CacheManager, h: Hid)
    requires m.Valid() && Live(m.handles, h) && m.tree.blockTokens > 0 && forall p :: |m.kv(p)| == m.pool.bytes
    modifies m`handles, m.pool
    ensures m.Valid() && DataChanged(old(m.handles), m.handles, h)
    ensures h in m.handles && Computed(m.tree.blockTokens, m.kv, m.handles[h])
    ensures SteadyBut(old(m.handles), old(m.Sees()), m.Sees(), Written(old(m.handles), ComputeRequest(h)))
  {
    m.TableLength(h);
    ghost var hs: Handles, sight := m.handles, m.Sees();
    assert DataChanged(hs, hs, h);
    SteadySelf(hs, sight);
    SteadyIsBut(hs, sight, sight, Written(hs, ComputeRequest(h)));
    hide CacheManager.Valid, DataChanged, ComputedTo, SteadyBut, Written;
    ComputedNone(m.kv, hs[h], Chunks(hs[h].tokens, m.tree.blockTokens));
    var cs := Chunks(m.handles[h].tokens, m.tree.blockTokens);
    var i := m.handles[h].cachedBlocks;
    while i < |cs|
      invariant hs[h].cachedBlocks <= i <= |cs| && m.Valid() && DataChanged(hs, m.handles, h)
      invariant h in m.handles && ComputedTo(m.kv, m.handles[h], cs, i)
      invariant SteadyBut(hs, sight, m.Sees(), Written(hs, ComputeRequest(h)))
    {
      ComputeNext(m, h, i, cs, hs, sight);
      i := i + 1;
    }
    DataOnly(hs, m.handles, h);
    ComputedAll(m.tree.blockTokens, m.kv, m.handles[h]);
  }

  /** An entry of its own that the engine is asked to write. */
  lemma EntryWritten(hs: Handles, r: Request, i: nat)
    requires r.ComputeRequest? || (r.WriteRequest? && r.i == i)
    requires Live(hs, r.h) && hs[r.h].cachedBlocks <= i < |hs[r.h].blocks|
    ensures {(r.h, i)} <= Written(hs, r)
  {
    assert (r.h, i) in Written(hs, r);
  }

  method ComputeNext(m: CacheManager, h: Hid, i: nat, cs: Path, ghost hs: Handles, ghost since: Sight)
    requires m.Valid() && Live(hs, h) && hs[h].cachedBlocks <= i < |cs| <= |hs[h].blocks|
    requires DataChanged(hs, m.handles, h) && h in m.handles && ComputedTo(m.kv, m.handles[h], cs, i)
    requires |m.kv(cs[..i + 1])| == m.pool.bytes && SteadyBut(hs, since, m.Sees(), Written(hs, ComputeRequest(h)))
    modifies m`handles, m.pool
    ensures SteadyBut(hs, since, m.Sees(), Written(hs, ComputeRequest(h)))
    ensures m.Valid() && DataChanged(hs, m.handles, h) && h in m.handles && ComputedTo(m.kv, m.handles[h], cs, i + 1)
  {
    hide CacheManager.Valid, DataChanged, SteadyBut, Written, Among;
    ghost var w := Written(hs, ComputeRequest(h));
    EntryWritten(hs, ComputeRequest(h), i);
    ghost var mid, sight := m.handles, m.Sees();
    DataOnly(hs, mid, h);
    FillBlock(m, h, i, m.kv(cs[..i + 1]));
    SteadyNext(hs, mid, since, sight, m.Sees(), h, {(h, i)}, w);
    DataOnly(mid, m.handles, h);
    DataTwice(hs, mid, m.handles, h);
  }

  // ----------------------------------------------------------------- sessions

  /** One request, if the client's variables allow it. */
  method Step(m: CacheManager, r: Request)
    requires m.Valid() && m.tree.blockTokens > 0 && forall p :: |m.kv(p)| == m.pool.bytes
    modifies m, m.tree, m.pool
    ensures m.Valid() && KeptBut(old(m.handles), m.handles, r)
    ensures SteadyBut(Others(old(m.handles), r), old(m.Sees()), m.Sees(), Written(old(m.handles), r))
  {
    hide CacheManager.Valid, Steady, SteadyBut, Others, Written;
    ghost var hs, others, w := m.handles, Others(m.handles, r), Written(m.handles, r);
    m.WorkersRun();
    ghost var sight := m.Sees();
    AllAmong(hs, r);
    SteadyAmong(others, hs, old(m.Sees()), sight);
    SteadyIsBut(others, old(m.Sees()), sight, w);
    if r.WriteRequest? || r.NoteRequest? || r.ComputeRequest? {
      EngineStep(m, r);
    } else {
      CacheStep(m, r);
      SteadyIsBut(others, sight, m.Sees(), w);
    }
    SteadyButTwice(others, old(m.Sees()), sight, m.Sees(), w);
  }

  /** A request to the cache, not to the engine. */
  method CacheStep(m: CacheManager, r: Request)
    requires m.Valid() && m.tree.blockTokens > 0
    requires !r.WriteRequest? && !r.NoteRequest? && !r.ComputeRequest?
    modifies m, m.tree, m.pool
    ensures m.Valid() && KeptBut(old(m.handles), m.handles, r)
    ensures Steady(Others(old(m.handles), r), old(m.Sees()), m.Sees())
  {
    hide CacheManager.Valid, Computed, HandleOk, Steady, Others;
    SteadySelf(Others(m.handles, r), m.Sees());
    match r {
      case AcquireRequest(h, tokens) =>
        if h !in m.handles {
          AcquireStep(m, h, tokens);
        }
      case ReleaseRequest(h) => ReleaseIfDone(m, h);
      case ReadyRequest(h) =>
        if h in m.handles {
          ReadyStep(m, h);
        }
      case DropRequest(h) =>
        if h in m.handles {
          DropStep(m, h);
        }
      case MoveRequest(src, dst) => MoveIfThere(m, src, dst);
      case DrainRequest => DrainStep(m);
    }
  }

  method AcquireStep(m: CacheManager, h: Hid, tokens: seq<TokenId>)
    requires m.Valid() && h !in m.handles
    modifies m, m.tree, m.pool
    ensures m.Valid() && KeptBut(old(m.handles), m.handles, AcquireRequest(h, tokens))
    ensures Steady(Others(old(m.handles), AcquireRequest(h, tokens)), old(m.Sees()), m.Sees())
  {
    hide *;
    ghost var hs := m.handles;
    ghost var matched, c := m.Acquire(h, tokens);
    AcquireChanges(hs, m.handles, h, tokens);
    SteadyAmong(Others(hs, AcquireRequest(h, tokens)), hs, old(m.Sees()), m.Sees());
  }

  lemma AcquireChanges(hs: Handles, hs': Handles, h: Hid, tokens: seq<TokenId>)
    requires h !in hs && OnlyChanges(hs, hs', h)
    ensures KeptBut(hs, hs', AcquireRequest(h, tokens)) && Among(Others(hs, AcquireRequest(h, tokens)), hs)
  {
  }

  method ReadyStep(m: CacheManager, h: Hid)
    requires m.Valid() && h in m.handles
    modifies m.pool
    ensures m.Valid() && Steady(Others(m.handles, ReadyRequest(h)), old(m.Sees()), m.Sees())
  {
    hide CacheManager.Valid, Steady;
    var ready := m.Ready(h);
    OthersAmong(m.handles, m.handles, ReadyRequest(h));
    SteadyAmong(Others(m.handles, ReadyRequest(h)), m.handles, old(m.Sees()), m.Sees());
  }

  method DropStep(m: CacheManager, h: Hid)
    requires m.Valid() && h in m.handles
    modifies m, m.tree, m.pool
    ensures m.Valid() && KeptBut(old(m.handles), m.handles, DropRequest(h))
    ensures Steady(Others(old(m.handles), DropRequest(h)), old(m.Sees()), m.Sees())
  {
    hide CacheManager.Valid, Steady;
    ghost var hs := m.handles;
    m.Destroy(h);
    OthersAmong(hs, m.handles, DropRequest(h));
    SteadyAmong(Others(hs, DropRequest(h)), m.handles, old(m.Sees()), m.Sees());
  }

  method DrainStep(m: CacheManager)
    requires m.Valid()
    modifies m.pool
    ensures m.Valid() && Steady(Others(m.handles, DrainRequest), old(m.Sees()), m.Sees())
  {
    hide Complete, Steady;
    m.Drain();
    OthersAmong(m.handles, m.handles, DrainRequest);
    SteadyAmong(Others(m.handles, DrainRequest), m.handles, old(m.Sees()), m.Sees());
  }

  /** The engine works on a table of its own: other requests may fall between any two of its writes. */
  method EngineStep(m: CacheManager, r: Request)
    requires m.Valid() && m.tree.blockTokens > 0 && forall p :: |m.kv(p)| == m.pool.bytes
    requires r.WriteRequest? || r.NoteRequest? || r.ComputeRequest?
    modifies m, m.pool
    ensures m.Valid() && KeptBut(old(m.handles), m.handles, r)
    ensures SteadyBut(Others(old(m.handles), r), old(m.Sees()), m.Sees(), Written(old(m.handles), r))
  {
    hide CacheManager.Valid, Steady, SteadyBut, Others, WroteByte, Computed, Among, Written, KeptBut, DataChanged, Covered;
    ghost var hs, sight := m.handles, m.Sees();
    SteadySelf(hs, sight);
    SteadyIsBut(hs, sight, sight, Written(hs, r));
    KeptSelf(hs, r);
    if Live(m.handles, r.h) {
      EngineWork(m, r);
      DataKept(hs, m.handles, r);
    }
    AllAmong(hs, r);
    SteadyButAmong(Others(hs, r), hs, sight, m.Sees(), Written(hs, r), Written(hs, r));
  }

  method EngineWork(m: CacheManager, r: Request)
    requires m.Valid() && m.tree.blockTokens > 0 && forall p :: |m.kv(p)| == m.pool.bytes
    requires (r.WriteRequest? || r.NoteRequest? || r.ComputeRequest?) && Live(m.handles, r.h)
    modifies m, m.pool
    ensures m.Valid() && DataChanged(old(m.handles), m.handles, r.h)
    ensures SteadyBut(old(m.handles), old(m.Sees()), m.Sees(), Written(old(m.handles), r))
  {
    hide CacheManager.Valid, Steady, SteadyBut, WroteByte, Computed, Among, Written, Covered;
    ghost var hs, sight := m.handles, m.Sees();
    SteadySelf(hs, sight);
    SteadyIsBut(hs, sight, sight, Written(hs, r));
    var a := m.handles[r.h];
    if r.ComputeRequest? {
      Compute(m, r.h);
    } else if a.cachedBlocks <= r.i < |a.blocks| {
      if r.NoteRequest? {
        Note(m, r.h, r.i);
      } else if r.k < m.pool.bytes {
        WriteByte(m, r.h, r.i, r.k, r.b);
        EntryWritten(hs, r, r.i);
        SteadyMore(hs, sight, m.Sees(), {(r.h, r.i)}, Written(hs, r));
      }
    }
  }

  lemma SteadyMore(hs: Handles, a: Sight, b: Sight, w': set<Entry>, w: set<Entry>)
    requires SteadyBut(hs, a, b, w') && w' <= w
    ensures SteadyBut(hs, a, b, w)
  {
    assert Among(hs, hs);
    SteadyButAmong(hs, hs, a, b, w', w);
  }

  lemma KeptSelf(hs: Handles, r: Request)
    ensures KeptBut(hs, hs, r) && Covered(Others(hs, r), Written(hs, r), Written(hs, r))
  {
  }

  lemma DataKept(hs: Handles, hs': Handles, r: Request)
    requires (r.WriteRequest? || r.NoteRequest? || r.ComputeRequest?) && DataChanged(hs, hs', r.h)
    ensures KeptBut(hs, hs', r)
  {
  }

  lemma AllAmong(hs: Handles, r: Request)
    ensures Among(Others(hs, r), hs)
  {
  }

  /** Read entry `i` back, and note that it is what it is. */
  method Note(m: CacheManager, h: Hid, i: nat)
    requires m.Valid() && Live(m.handles, h) && m.handles[h].cachedBlocks <= i < |m.handles[h].blocks|
    modifies m`handles
    ensures m.Valid() && DataChanged(old(m.handles), m.handles, h)
  {
    m.OwnIsReadable(h, i);
    hide CacheManager.Valid;
    var id := m.handles[h].blocks[i];
    Record(m, h, i, m.pool.mem[m.pool.location[id]]);
  }

  method ReleaseIfDone(m: CacheManager, h: Hid)
    requires m.Valid() && m.tree.blockTokens > 0
    modifies m, m.tree, m.pool
    ensures m.Valid() && KeptBut(old(m.handles), m.handles, ReleaseRequest(h))
    ensures Steady(Others(old(m.handles), ReleaseRequest(h)), old(m.Sees()), m.Sees())
  {
    hide CacheManager.Valid, Extended, Steady, Computed;
    ghost var hs := m.handles;
    SteadySelf(hs, m.Sees());
    if h in m.handles {
      var a := m.handles[h];
      var done := !a.ok || Computed(m.tree.blockTokens, m.kv, a);
      if done {
        ghost var pos, taken := m.Release(h, a.tokens);
      }
    }
    OthersAmong(hs, m.handles, ReleaseRequest(h));
    SteadyAmong(Others(hs, ReleaseRequest(h)), m.handles, old(m.Sees()), m.Sees());
  }

  method MoveIfThere(m: CacheManager, src: Hid, dst: Hid)
    requires m.Valid()
    modifies m, m.tree, m.pool
    ensures m.Valid() && KeptBut(old(m.handles), m.handles, MoveRequest(src, dst))
    ensures Steady(Others(old(m.handles), MoveRequest(src, dst)), old(m.Sees()), m.Sees())
  {
    hide CacheManager.Valid, Steady;
    ghost var hs, kept := m.handles, m.handles;
    SteadySelf(hs, m.Sees());
    if src in m.handles {
      if dst in m.handles {
        kept := if src == dst then hs else hs[dst := DISARMED];
        m.MoveAssign(src, dst);
      } else {
        m.MoveConstruct(src, dst);
      }
    }
    OthersAmong(hs, kept, MoveRequest(src, dst));
    SteadyAmong(Others(hs, MoveRequest(src, dst)), kept, old(m.Sees()), m.Sees());
  }

  /**
   Any script of requests, by any clients: the system stays sound, and a handle that the script does
   not release, drop or move stays the same. Whatever of its table is in the compute tier stays there, at the
   same address, and what is not written keeps its bytes; so a cached entry that reads as computed goes on
   doing so, also while the handle's own engine writes its fresh blocks and polls.
   */
  method Session(m: CacheManager, script: seq<Request>)
    requires m.Valid() && m.tree.blockTokens > 0 && forall p :: |m.kv(p)| == m.pool.bytes
    modifies m, m.tree, m.pool
    ensures m.Valid() && Kept(old(m.handles), m.handles, script)
    ensures Undisturbed(Rest(old(m.handles), script), old(m.pool.State()), m.pool.State(),
                        WrittenBy(old(m.handles), script))
    ensures forall h: nat, i: nat ::
              KeepsHolding(m.tree.blockTokens, m.kv, old(m.pool.State()), m.pool.State(), old(m.handles), m.handles, script, h, i)
  {
    ghost var hs, sight, s := m.handles, m.Sees(), m.pool.State();
    m.LocatedNow();
    RunScript(m, script);
    m.LocatedNow();
    RestIsKept(hs, m.handles, script);
    StillLocated(Rest(hs, script), s, m.pool.State(), sight, m.Sees(), hs, m.handles, WrittenBy(hs, script));
    hide CacheManager.Valid, Rest, WrittenBy;
    ghost var bt, s' := m.tree.blockTokens, m.pool.State();
    forall h: nat, i: nat ensures KeepsHolding(bt, m.kv, s, s', hs, m.handles, script, h, i) {
      HoldsStill(bt, m.kv, s, s', hs, m.handles, script, h, i);
    }
  }

  /**
   What read as computed before the script reads as computed after it: any cached entry, and any
   other the script does not write, of any handle it does not release, drop or move.
   */
  ghost predicate KeepsHolding(bt: nat, kv: Kv, s: PoolModel.Pool, s': PoolModel.Pool, hs: Handles, hs': Handles,
                               script: seq<Request>, h: Hid, i: nat)
    requires bt > 0
  {
    Lasts(script, h) && Live(hs, h) && (i < hs[h].cachedBlocks || !WrittenAt(script, hs[h], h, i))
      && Holds(bt, kv, s, hs[h], i) ==>
        Live(hs', h) && Holds(bt, kv, s', hs'[h], i)
  }

  lemma HoldsStill(bt: nat, kv: Kv, s: PoolModel.Pool, s': PoolModel.Pool, hs: Handles, hs': Handles,
                   script: seq<Request>, h: Hid, i: nat)
    requires bt > 0 && Kept(hs, hs', script) && Undisturbed(Rest(hs, script), s, s', WrittenBy(hs, script))
    ensures KeepsHolding(bt, kv, s, s', hs, hs', script, h, i)
  {
    assert KeptAt(hs, hs', script, h) && UndisturbedAt(Rest(hs, script), s, s', WrittenBy(hs, script), h, i);
  }

  lemma RestIsKept(hs: Handles, hs': Handles, script: seq<Request>)
    requires Kept(hs, hs', script)
    ensures Among(Rest(hs, script), hs) && Among(Rest(hs, script), hs')
  {
    forall h: nat | Live(Rest(hs, script), h) ensures Live(hs', h) && SameHandle(hs, hs', h) {
      assert KeptAt(hs, hs', script, h);
    }
  }

  method RunScript(m: CacheManager, script: seq<Request>)
    requires m.Valid() && m.tree.blockTokens > 0 && forall p :: |m.kv(p)| == m.pool.bytes
    modifies m, m.tree, m.pool
    ensures m.Valid() && Kept(old(m.handles), m.handles, script)
    ensures SteadyBut(Rest(old(m.handles), script), old(m.Sees()), m.Sees(), WrittenBy(old(m.handles), script))
  {
    var n := 0;
    ghost var hs := m.handles;
    ghost var rest, w := Rest(hs, script), WrittenBy(hs, script);
    SteadySelf(rest, m.Sees());
    SteadyIsBut(rest, m.Sees(), m.Sees(), w);
    KeptNone(hs);
    assert script[..0] == [];
    hide CacheManager.Valid, KeptBut, Kept, SteadyBut, Others, Written, Rest, WrittenBy, Among, Covered;
    while n < |script|
      invariant n <= |script| && m.Valid() && Kept(hs, m.handles, script[..n])
      invariant SteadyBut(rest, old(m.Sees()), m.Sees(), w)
    {
      ghost var mid, sight := m.handles, m.Sees();
      Step(m, script[n]);
      KeptMore(hs, mid, m.handles, script, n);
      RestAmong(hs, mid, script, n);
      SteadyButAmong(rest, Others(mid, script[n]), sight, m.Sees(), Written(mid, script[n]), w);
      SteadyButTwice(rest, old(m.Sees()), sight, m.Sees(), w);
      n := n + 1;
    }
    assert script[..|script|] == script;
  }

  lemma KeptNone(hs: Handles)
    ensures Kept(hs, hs, [])
  {
  }
}
