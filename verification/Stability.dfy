/**
 What a live table can rely on between two calls of its own: nobody else changes a byte of its
 blocks, and a block that is in the compute tier stays there, at the same address.
 */
module Stability {
  import opened Types
  import opened PoolModel
  import opened PoolView
  import opened PoolOps
  import opened Backing
  import opened SystemModel

  /** What can be seen of the pool, addresses included, and how far its queue has come. */
  datatype Sight = Sight(v: View, loc: seq<Location>, head: nat, front: nat)

  /** Jobs are taken off the queue, and more of them finish; neither is ever undone. */
  ghost predicate Later(a: Sight, b: Sight) {
    a.head <= b.head && a.front <= b.front
  }

  /** In the compute tier, with nothing in flight. */
  ghost predicate Home(v: View, id: BlockId) {
    id in v.tier && v.tier[id] == 0 && id !in v.target
  }

  /** Entry `i` of the table of `h` keeps its bytes and, once home, its address. */
  ghost predicate SteadyAt(hs: Handles, a: Sight, b: Sight, h: Hid, i: nat) {
    Live(hs, h) && i < |hs[h].blocks| ==> SameBlock(a, b, hs[h].blocks[i])
  }

  ghost predicate SameBlock(a: Sight, b: Sight, id: BlockId) {
    SameBytes(a, b, id) && SamePlace(a, b, id)
  }

  ghost predicate SameBytes(a: Sight, b: Sight, id: BlockId) {
    id in a.v.tier && id in a.v.val ==> id in b.v.tier && id in b.v.val && b.v.val[id] == a.v.val[id]
  }

  ghost predicate SamePlace(a: Sight, b: Sight, id: BlockId) {
    Home(a.v, id) && id < |a.loc| ==> Home(b.v, id) && id < |b.loc| && b.loc[id] == a.loc[id]
  }

  /** From `a` to `b` no live table of `hs` was disturbed, and the queue only went on. */
  ghost predicate Steady(hs: Handles, a: Sight, b: Sight) {
    Later(a, b) && forall h: nat, i: nat :: SteadyAt(hs, a, b, h, i)
  }

  lemma SteadyLater(hs: Handles, a: Sight, b: Sight)
    requires Steady(hs, a, b)
    ensures Later(a, b)
  {
  }

  /** Nothing but the queue has changed. */
  lemma StillSteady(hs: Handles, a: Sight, b: Sight)
    requires b.v == a.v && b.loc == a.loc && Later(a, b)
    ensures Steady(hs, a, b)
  {
  }

  lemma SteadySelf(hs: Handles, a: Sight)
    ensures Steady(hs, a, a)
  {
  }

  lemma SteadyTwice(hs: Handles, a: Sight, b: Sight, c: Sight)
    requires Steady(hs, a, b) && Steady(hs, b, c)
    ensures Steady(hs, a, c)
  {
    forall h: nat, i: nat ensures SteadyAt(hs, a, c, h, i) {
      assert SteadyAt(hs, a, b, h, i) && SteadyAt(hs, b, c, h, i);
    }
  }

  /** The live tables of `hs` are live in `hs'` too, and there begin with the same blocks. */
  ghost predicate Among(hs: Handles, hs': Handles) {
    forall h: nat :: Live(hs, h) ==> Live(hs', h) && hs[h].blocks <= hs'[h].blocks
  }

  lemma AddedAmong(hs: Handles, h: Hid, a: Handle)
    requires !Live(hs, h)
    ensures Among(hs, hs[h := a])
  {
  }

  lemma SteadyAmong(hs: Handles, hs': Handles, a: Sight, b: Sight)
    requires Among(hs, hs') && Steady(hs', a, b)
    ensures Steady(hs, a, b)
  {
    forall h: nat, i: nat ensures SteadyAt(hs, a, b, h, i) {
      assert SteadyAt(hs', a, b, h, i);
    }
  }

  // -------------------------------------------------------------- single steps

  lemma DrainSteady(hs: Handles, a: Sight, b: Sight)
    requires Drained(a.v, b.v) && RestingStay(a.v, a.loc, b.loc) && Later(a, b)
    ensures Steady(hs, a, b)
  {
    forall h: nat, i: nat ensures SteadyAt(hs, a, b, h, i) {
      if Live(hs, h) && i < |hs[h].blocks| && hs[h].blocks[i] in a.v.tier {
        assert Settled(a.v, b.v, hs[h].blocks[i]);
      }
    }
  }

  /** Starting, cancelling or making a move of a block that is not home, or in no table. */
  lemma ShiftSteady(hs: Handles, a: Sight, b: Sight, id: BlockId)
    requires Shifted(a.v, b.v, id) && OthersStay(a.loc, b.loc, id) && Later(a, b)
    requires Home(a.v, id) ==> Unheld(hs, id, None)
    ensures Steady(hs, a, b)
  {
    forall h: nat, i: nat ensures SteadyAt(hs, a, b, h, i) {
    }
  }

  /** Freeing blocks that are in no table. */
  lemma ShedSteady(hs: Handles, a: Sight, b: Sight, gone: set<BlockId>)
    requires Shed(a.v, b.v, gone) && b.loc == a.loc && Later(a, b) && Spared(hs, gone)
    ensures Steady(hs, a, b)
  {
    forall h: nat, i: nat ensures SteadyAt(hs, a, b, h, i) {
    }
  }

  /** Binding an id that was not in use. */
  lemma BindSteady(hs: Handles, a: Sight, b: Sight, id: BlockId)
    requires id !in a.v.tier && OthersStay(a.loc, b.loc, id) && b.v.target == a.v.target && id in b.v.val && Later(a, b)
    requires b.v.tier == a.v.tier[id := 0] && b.v.val == a.v.val[id := b.v.val[id]]
    ensures Steady(hs, a, b)
  {
    forall h: nat, i: nat ensures SteadyAt(hs, a, b, h, i) {
    }
  }

  // ------------------------------------------------------------------- account

  /** `id` is in some live table. */
  ghost predicate InTable(hs: Handles, id: BlockId) {
    exists h: nat, i: nat :: TableAt(hs, h, i, id)
  }

  ghost predicate TableAt(hs: Handles, h: Hid, i: nat, id: BlockId) {
    Live(hs, h) && i < |hs[h].blocks| && hs[h].blocks[i] == id
  }

  // ------------------------------------------------------------------- writing

  /** An entry of a table: the variable that holds the handle, and the place in its table. */
  type Entry = (Hid, nat)

  ghost predicate SteadyButAt(hs: Handles, a: Sight, b: Sight, w: set<Entry>, h: Hid, i: nat) {
    Live(hs, h) && i < |hs[h].blocks| ==>
      SamePlace(a, b, hs[h].blocks[i]) && ((h, i) !in w ==> SameBytes(a, b, hs[h].blocks[i]))
  }

  /** From `a` to `b` no live table of `hs` was disturbed, but the entries in `w` may have been written. */
  ghost predicate SteadyBut(hs: Handles, a: Sight, b: Sight, w: set<Entry>) {
    forall h: nat, i: nat :: SteadyButAt(hs, a, b, w, h, i)
  }

  lemma SteadyIsBut(hs: Handles, a: Sight, b: Sight, w: set<Entry>)
    requires Steady(hs, a, b)
    ensures SteadyBut(hs, a, b, w)
  {
    forall h: nat, i: nat ensures SteadyButAt(hs, a, b, w, h, i) {
      assert SteadyAt(hs, a, b, h, i);
    }
  }

  lemma SteadyButTwice(hs: Handles, a: Sight, b: Sight, c: Sight, w: set<Entry>)
    requires SteadyBut(hs, a, b, w) && SteadyBut(hs, b, c, w)
    ensures SteadyBut(hs, a, c, w)
  {
    forall h: nat, i: nat ensures SteadyButAt(hs, a, c, w, h, i) {
      assert SteadyButAt(hs, a, b, w, h, i) && SteadyButAt(hs, b, c, w, h, i);
    }
  }

  /** What `w'` has of the tables of `hs` is in `w`. */
  ghost predicate Covered(hs: Handles, w': set<Entry>, w: set<Entry>) {
    forall h: nat, i: nat :: Live(hs, h) && i < |hs[h].blocks| && (h, i) in w' ==> (h, i) in w
  }

  lemma SteadyButAmong(hs: Handles, hs': Handles, a: Sight, b: Sight, w': set<Entry>, w: set<Entry>)
    requires Among(hs, hs') && Covered(hs, w', w) && SteadyBut(hs', a, b, w')
    ensures SteadyBut(hs, a, b, w)
  {
    forall h: nat, i: nat ensures SteadyButAt(hs, a, b, w, h, i) {
      assert SteadyButAt(hs', a, b, w', h, i);
    }
  }

  /** Block `id` is in one place of one table only. */
  ghost predicate Alone(hs: Handles, h: Hid, i: nat, id: BlockId) {
    forall g: nat, j: nat :: TableAt(hs, g, j, id) ==> g == h && j == i
  }

  lemma WriteSteady(hs: Handles, a: Sight, b: Sight, h: Hid, i: nat, id: BlockId)
    requires Alone(hs, h, i, id) && id in b.v.val && b.v == a.v.(val := a.v.val[id := b.v.val[id]]) && b.loc == a.loc
    ensures SteadyBut(hs, a, b, {(h, i)})
  {
    forall g: nat, j: nat ensures SteadyButAt(hs, a, b, {(h, i)}, g, j) {
      assert TableAt(hs, g, j, id) ==> g == h && j == i;
    }
  }

  // -------------------------------------------------------------------- memory

  /** The block is where its location says, with the bytes its view says; at home if in the compute tier. */
  ghost predicate Located(s: Pool, v: View, id: BlockId) {
    && id in v.tier && id in v.val && id < |s.location| && s.location[id] in s.mem
    && v.tier[id] == s.location[id].tier && v.val[id] == s.mem[s.location[id]]
    && (s.location[id].tier == 0 ==> Home(v, id))
  }

  ghost predicate LocatedAt(s: Pool, v: View, hs: Handles, h: Hid, i: nat) {
    Live(hs, h) && i < |hs[h].blocks| ==> Located(s, v, hs[h].blocks[i])
  }

  ghost predicate AllLocated(s: Pool, v: View, hs: Handles) {
    forall h: nat, i: nat :: LocatedAt(s, v, hs, h, i)
  }

  /** A gated table's block in the compute tier is not on its way anywhere. */
  lemma GatedIsLocated(s: Pool, v: View, hs: Handles)
    requires Shows(s, v) && Gated(v, hs, None)
    ensures AllLocated(s, v, hs)
  {
    forall h: nat, i: nat ensures LocatedAt(s, v, hs, h, i) {
      assert GateOk(v, hs, h, i);
      if Live(hs, h) && i < |hs[h].blocks| {
        assert ShowsBlock(s, v, hs[h].blocks[i]);
      }
    }
  }

  /** Entry `i`, once in the compute tier, is at the same address and, unless written, has the same bytes. */
  ghost predicate UndisturbedAt(hs: Handles, s: Pool, s': Pool, w: set<Entry>, h: Hid, i: nat) {
    Live(hs, h) && i < |hs[h].blocks| ==>
      var id := hs[h].blocks[i];
      && id < |s.location| && id < |s'.location|
      && (s.location[id].tier == 0 ==>
            && s'.location[id] == s.location[id] && s.location[id] in s.mem && s.location[id] in s'.mem
            && ((h, i) !in w ==> s'.mem[s.location[id]] == s.mem[s.location[id]]))
  }

  ghost predicate Undisturbed(hs: Handles, s: Pool, s': Pool, w: set<Entry>) {
    forall h: nat, i: nat :: UndisturbedAt(hs, s, s', w, h, i)
  }

  lemma StillLocated(rest: Handles, s: Pool, s': Pool, a: Sight, b: Sight, hs: Handles, hs': Handles, w: set<Entry>)
    requires AllLocated(s, a.v, hs) && AllLocated(s', b.v, hs') && a.loc == s.location && b.loc == s'.location
    requires Among(rest, hs) && Among(rest, hs') && SteadyBut(rest, a, b, w)
    ensures Undisturbed(rest, s, s', w)
  {
    forall h: nat, i: nat ensures UndisturbedAt(rest, s, s', w, h, i) {
      assert LocatedAt(s, a.v, hs, h, i) && LocatedAt(s', b.v, hs', h, i) && SteadyButAt(rest, a, b, w, h, i);
    }
  }
}
