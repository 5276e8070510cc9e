/** Where the compute slots are: what a request finds, and exactly when it is refused. */
module Accounting {
  import opened Types
  import PoolModel
  import opened PoolView
  import opened PoolOps
  import PoolRuns
  import opened Backing
  import opened SystemModel
  import opened Planning
  import opened Stability
  import opened Guarantees

  /** The queued jobs that hold a compute slot in reserve, and those of them that are cancelled. */
  ghost function Bound(s: PoolModel.Pool): set<nat> {
    set i: nat | i < |s.jobs| && s.jobs[i].dst.tier == 0
  }

  /** Those that do not belong to the finished jobs at the front, which the next drain takes off. */
  ghost function Behind(s: PoolModel.Pool): set<nat> {
    set i: nat | PoolModel.FrontLen(s.jobs) <= i < |s.jobs| && s.jobs[i].dst.tier == 0
  }

  ghost function Stale(s: PoolModel.Pool): set<nat> {
    set i: nat | i < |s.jobs| && s.jobs[i].dst.tier == 0 && s.jobs[i].cancelled
  }

  // ------------------------------------------------------------ counting slots

  ghost function Homes(s: PoolModel.Pool, v: View): map<BlockId, nat> {
    map id | id in Resident(v) && id < |s.location| :: s.location[id].slot
  }

  ghost function Reserves(s: PoolModel.Pool): map<nat, nat> {
    map i | i in Bound(s) && i < |s.jobs| :: s.jobs[i].dst.slot
  }

  lemma HomesApart(s: PoolModel.Pool, v: View)
    requires PoolModel.Inv(s) && Shows(s, v)
    ensures |Homes(s, v).Values| == |Resident(v)|
    ensures forall x :: x in Homes(s, v).Values ==> exists id :: PoolRuns.IsHome(s, PoolModel.Location(0, x), id)
  {
    var m := Homes(s, v);
    forall id | id in Resident(v) ensures id in m && PoolRuns.IsHome(s, PoolModel.Location(0, m[id]), id) {
      assert ShowsBlock(s, v, id);
    }
    assert m.Keys == Resident(v);
    forall a, b | a in m && b in m && m[a] == m[b] ensures a == b {
      var l := PoolModel.Location(0, m[a]);
      assert PoolModel.BlockOk(s, a) && PoolModel.BlockOk(s, b);
      assert PoolRuns.IsHome(s, l, a) && PoolRuns.IsHome(s, l, b);
    }
    InjectiveCard(m);
  }

  lemma ReservesApart(s: PoolModel.Pool)
    requires PoolModel.Inv(s)
    ensures |Reserves(s).Values| == |Bound(s)|
    ensures forall x :: x in Reserves(s).Values ==> exists i :: PoolRuns.IsReserved(s, PoolModel.Location(0, x), i)
  {
    var m := Reserves(s);
    forall i | i in Bound(s) ensures i in m && PoolRuns.IsReserved(s, PoolModel.Location(0, m[i]), i) {
    }
    assert m.Keys == Bound(s);
    forall a, b | a in m && b in m && m[a] == m[b] ensures a == b {
      assert PoolModel.JobOk(s, a) && PoolModel.JobOk(s, b);
    }
    InjectiveCard(m);
  }

  /** A compute slot is in exactly one of the three. */
  lemma SlotIn(s: PoolModel.Pool, v: View, x: nat)
    requires PoolModel.Inv(s) && Shows(s, v)
    ensures x < s.caps[0] <==> x in s.free[0] || x in Homes(s, v).Values || x in Reserves(s).Values
    ensures !(x in s.free[0] && x in Homes(s, v).Values)
    ensures !(x in s.free[0] && x in Reserves(s).Values)
    ensures !(x in Homes(s, v).Values && x in Reserves(s).Values)
  {
    var l := PoolModel.Location(0, x);
    HomesApart(s, v);
    ReservesApart(s);
    assert PoolModel.TierOk(s, 0);
    if x < s.caps[0] {
      PoolRuns.SlotPartition(s, l);
      if id :| PoolRuns.IsHome(s, l, id) {
        assert ShowsBlock(s, v, id);
        assert Homes(s, v)[id] == x;
      }
      if i :| PoolRuns.IsReserved(s, l, i) {
        assert Reserves(s)[i] == x;
      }
    } else {
      SlotOut(s, l);
    }
  }

  lemma SlotOut(s: PoolModel.Pool, l: PoolModel.Location)
    requires PoolModel.Inv(s) && l.tier == 0 && l.slot >= s.caps[0]
    ensures l.slot !in s.free[0] && (forall id :: !PoolRuns.IsHome(s, l, id)) && forall i :: !PoolRuns.IsReserved(s, l, i)
  {
    assert PoolModel.TierOk(s, 0);
    forall id ensures !PoolRuns.IsHome(s, l, id) {
      assert id >= 0 ==> PoolModel.BlockOk(s, id);
    }
    forall i ensures !PoolRuns.IsReserved(s, l, i) {
      assert i >= 0 ==> PoolModel.JobOk(s, i);
    }
  }

  /** Every compute slot is free, holds a block, or is held in reserve by one queued job. */
  lemma SlotCount(s: PoolModel.Pool, v: View)
    requires PoolModel.Inv(s) && Shows(s, v)
    ensures s.caps[0] == Room(v) + |Bound(s)|
  {
    HomesApart(s, v);
    ReservesApart(s);
    assert ShowsTier(s, v, 0) && PoolModel.TierOk(s, 0);
    NoDupCard(s.free[0]);
    var f, h, r := Ids(s.free[0]), Homes(s, v).Values, Reserves(s).Values;
    forall x: nat
      ensures x < s.caps[0] <==> x in f || x in h || x in r
      ensures !(x in f && x in h) && !(x in f && x in r) && !(x in h && x in r)
    {
      SlotIn(s, v, x);
    }
    hide PoolModel.Inv, Shows;
    PartitionCard(s.caps[0], f + h, r);
    assert |f + h| == |f| + |h|;
  }

  ghost function Promotions(s: PoolModel.Pool, v: View): map<BlockId, int> {
    map id | id in Arriving(v) && id in s.migrating :: s.migrating[id] - s.head
  }

  /** Each block on its way to the compute tier has its own uncancelled job, and each such job its block. */
  lemma PromotionOf(s: PoolModel.Pool, v: View, id: BlockId)
    requires PoolModel.Inv(s) && Shows(s, v) && id in Arriving(v)
    ensures id in Promotions(s, v) && Promotions(s, v)[id] in Bound(s) && Promotions(s, v)[id] !in Stale(s)
    ensures s.jobs[Promotions(s, v)[id]].id == id
  {
    hide PoolModel.IdsOk, PoolModel.SlotsOk, PoolModel.WorkersOk;
    assert ShowsBlock(s, v, id) && PoolModel.MigOk(s, id);
  }

  lemma PromotedBy(s: PoolModel.Pool, v: View, i: nat)
    requires PoolModel.Inv(s) && Shows(s, v) && i in Bound(s) && i !in Stale(s)
    ensures s.jobs[i].id in Arriving(v) && s.jobs[i].id in Promotions(s, v) && Promotions(s, v)[s.jobs[i].id] == i
  {
    hide PoolModel.IdsOk, PoolModel.SlotsOk, PoolModel.WorkersOk;
    assert PoolModel.LiveOk(s, i);
    assert ShowsBlock(s, v, s.jobs[i].id) && PoolModel.MigOk(s, s.jobs[i].id);
  }

  /** The reserves are for blocks on their way, or cancelled. */
  lemma ReserveCount(s: PoolModel.Pool, v: View)
    requires PoolModel.Inv(s) && Shows(s, v)
    ensures |Bound(s)| == |Arriving(v)| + |Stale(s)|
  {
    var m := Promotions(s, v);
    forall id | id in Arriving(v) ensures id in m && m[id] in Bound(s) - Stale(s) && s.jobs[m[id]].id == id {
      PromotionOf(s, v, id);
    }
    forall i | i in Bound(s) - Stale(s) ensures i in m.Values {
      PromotedBy(s, v, i);
    }
    hide PoolModel.Inv, Shows;
    assert m.Keys == Arriving(v);
    InjectiveCard(m);
    assert m.Values == Bound(s) - Stale(s);
    assert Stale(s) <= Bound(s);
  }

  // ------------------------------------------------------------ counting tables

  /** The blocks of all live tables, each once. */
  ghost function TableBlocks(hs: Handles): set<BlockId> {
    set h, i | h in hs && 0 <= i < |hs[h].blocks| && Live(hs, h) :: hs[h].blocks[i]
  }

  lemma InTableBlocks(hs: Handles, id: BlockId)
    ensures id in TableBlocks(hs) <==> InTable(hs, id)
  {
    if h: nat, i: nat :| TableAt(hs, h, i, id) {
      assert hs[h].blocks[i] in TableBlocks(hs);
    }
    if id in TableBlocks(hs) {
      var h, i :| h in hs && 0 <= i < |hs[h].blocks| && Live(hs, h) && hs[h].blocks[i] == id;
      assert TableAt(hs, h, i, id);
    }
  }

  /** The blocks of live tables that a request does not share. */
  ghost function Elsewhere(hs: Handles, matched: seq<BlockId>): set<BlockId> {
    TableBlocks(hs) - Ids(matched)
  }

  /** Every block of a live table takes one compute slot: its own, or one held in reserve for it. */
  lemma TablesFit(s: PoolModel.Pool, v: View, hs: Handles)
    requires PoolModel.Inv(s) && Shows(s, v) && Gated(v, hs, None)
    ensures |TableBlocks(hs)| + |Stale(s)| <= s.caps[0]
  {
    SlotCount(s, v);
    ReserveCount(s, v);
    forall id | id in TableBlocks(hs) ensures id in Resident(v) + Arriving(v) {
      InTableBlocks(hs, id);
      var h: nat, i: nat :| TableAt(hs, h, i, id);
      assert GateOk(v, hs, h, i);
    }
    hide PoolModel.Inv, Shows, Gated;
    SubsetCard(TableBlocks(hs), Resident(v) + Arriving(v));
    assert |Resident(v) + Arriving(v)| <= |Resident(v)| + |Arriving(v)|;
  }

  lemma SubsetCard(a: set<BlockId>, b: set<BlockId>)
    requires a <= b
    ensures |a| <= |b|
  {
    assert b == a + (b - a);
  }

  /** Every block in use is in a live table, or in the prefix `matched` by the request at hand. */
  ghost predicate AllInUse(hs: Handles, v: View, matched: seq<BlockId>) {
    forall id: nat :: id in v.tier ==> id in matched || InTable(hs, id)
  }

  /** The blocks away from the compute tier and not on their way. */
  ghost function Outside(v: View): set<BlockId> {
    set id | id in v.tier && Away(v, id)
  }

  /** With every block in use held by a table or matched, a block is home, on its way, or matched and away. */
  lemma Whereabouts(s: PoolModel.Pool, v: View, hs: Handles, matched: seq<BlockId>, id: BlockId)
    requires Shows(s, v) && Gated(v, hs, None) && AllInUse(hs, v, matched) && Staying(v, matched, |matched|)
    ensures id in Resident(v) || id in Arriving(v) || id in Outside(v) <==> id in TableBlocks(hs) || id in matched
    ensures !(id in Resident(v) && id in Arriving(v))
    ensures id in Outside(v) ==> id in matched && id !in Resident(v) && id !in Arriving(v)
  {
    InTableBlocks(hs, id);
    assert ShowsBlock(s, v, id);
    if h: nat, i: nat :| TableAt(hs, h, i, id) {
      assert GateOk(v, hs, h, i);
    }
    if id in matched {
      var k :| 0 <= k < |matched| && matched[k] == id;
      assert StaysAt(v, matched[k]);
    }
  }

  lemma {:induction false} NeedCount(v: View, bs: seq<BlockId>)
    requires NoDup(bs)
    ensures Need(v, bs) == |set id | id in bs && Away(v, id)|
  {
    if bs != [] {
      var rest := bs[1..];
      NeedCount(v, rest);
      var a, b := set id | id in bs && Away(v, id), set id | id in rest && Away(v, id);
      assert bs[0] !in rest;
      assert forall id :: id in bs <==> id == bs[0] || id in rest;
      if Away(v, bs[0]) {
        assert a == b + {bs[0]};
      } else {
        assert a == b;
      }
    }
  }

  lemma OutsideCount(s: PoolModel.Pool, v: View, hs: Handles, matched: seq<BlockId>)
    requires Shows(s, v) && Gated(v, hs, None) && AllInUse(hs, v, matched) && Staying(v, matched, |matched|)
    requires NoDup(matched)
    ensures |Outside(v)| == Need(v, matched)
  {
    NeedCount(v, matched);
    forall id: nat | id in Outside(v) ensures id in matched {
      Whereabouts(s, v, hs, matched, id);
    }
    assert Outside(v) == set id | id in matched && Away(v, id);
  }

  /** The whole account when nothing is left to evict. */
  lemma FullAccount(s: PoolModel.Pool, v: View, hs: Handles, matched: seq<BlockId>)
    requires PoolModel.Inv(s) && Shows(s, v) && Gated(v, hs, None) && NoDup(matched)
    requires AllInUse(hs, v, matched) && Staying(v, matched, |matched|)
    ensures v.free[0] + |Elsewhere(hs, matched)| + |matched| + |Stale(s)| == s.caps[0] + Need(v, matched)
  {
    SlotCount(s, v);
    ReserveCount(s, v);
    OutsideCount(s, v, hs, matched);
    NoDupCard(matched);
    var r, a, o, t, m := Resident(v), Arriving(v), Outside(v), TableBlocks(hs), Ids(matched);
    forall id: nat
      ensures id in r || id in a || id in o <==> id in t || id in m
      ensures !(id in r && id in a) && (id in o ==> id !in r && id !in a)
    {
      Whereabouts(s, v, hs, matched, id);
    }
    hide PoolModel.Inv, Shows, Gated, AllInUse, Staying, Resident, Arriving, Outside, TableBlocks, Stale, Bound, Need;
    SplitCard(r, a, o, t, m);
    assert Room(v) == v.free[0] + |r|;
  }

  lemma SplitCard(r: set<BlockId>, a: set<BlockId>, o: set<BlockId>, t: set<BlockId>, m: set<BlockId>)
    requires forall id: nat :: id in r || id in a || id in o <==> id in t || id in m
    requires forall id: nat :: !(id in r && id in a) && (id in o ==> id !in r && id !in a)
    ensures |r| + |a| + |o| == |t - m| + |m|
  {
    assert r + a + o == (t - m) + m;
    assert |r + a + o| == |r + a| + |o|;
  }

  /** What is bound for the compute tier after a drain was so before, behind the finished front. */
  lemma BoundBehind(s: PoolModel.Pool, k: nat, s': PoolModel.Pool)
    requires PoolModel.FrontLen(s.jobs) <= k && |s'.jobs| + k == |s.jobs|
    requires forall i :: 0 <= i < |s'.jobs| ==> s'.jobs[i].dst == s.jobs[i + k].dst
    ensures |Bound(s')| <= |Behind(s)|
  {
    var m := map i | i in Bound(s') :: i + k;
    assert m.Keys == Bound(s');
    InjectiveCard(m);
    SubsetCard(m.Values, Behind(s));
  }

  /** A drain, the workers running until then, leaves no compute slot reserved but by unfinished jobs. */
  lemma RoomDrained(s: PoolModel.Pool, k: nat, s': PoolModel.Pool, v': View)
    requires PoolModel.Inv(s') && Shows(s', v')
    requires PoolModel.FrontLen(s.jobs) <= k && |s'.jobs| + k == |s.jobs|
    requires forall i :: 0 <= i < |s'.jobs| ==> s'.jobs[i].dst == s.jobs[i + k].dst
    ensures Room(v') + |Behind(s)| >= s'.caps[0]
  {
    BoundBehind(s, k, s');
    SlotCount(s', v');
  }

  /**
   Jobs that reserve a compute slot and are cancelled were queued before, behind what was finished, if none was
   queued since: all other compute slots are free or hold a block.
   */
  lemma StaleWereBehind(s: PoolModel.Pool, s': PoolModel.Pool, v': View)
    requires PoolModel.Inv(s') && Shows(s', v') && Room(v') + |Behind(s)| >= s'.caps[0]
    ensures |Stale(s')| <= |Behind(s)|
  {
    SlotCount(s', v');
    ReserveCount(s', v');
  }

  /** There are compute slots for a request of `need` blocks, beside what live tables and stale jobs hold. */
  ghost predicate FitsIn(need: nat, hs: Handles, matched: seq<BlockId>, s: PoolModel.Pool) {
    |s.caps| > 0 && need + |Elsewhere(hs, matched)| + |Stale(s)| <= s.caps[0]
  }

  /** The same, counting every job bound for the compute tier as if it were stale, but for the finished front. */
  ghost predicate SurelyFitsIn(need: nat, hs: Handles, matched: seq<BlockId>, s: PoolModel.Pool) {
    |s.caps| > 0 && need + |Elsewhere(hs, matched)| + |Behind(s)| <= s.caps[0]
  }

  /** A table and the other tables, its shared part counted once. */
  lemma TableAdds(hs: Handles, h: Hid, a: Handle, matched: seq<BlockId>)
    requires h !in hs && a.ok && a.armed && NoDup(a.blocks) && matched <= a.blocks
    requires forall i :: |matched| <= i < |a.blocks| ==> Alone(hs[h := a], h, i, a.blocks[i])
    ensures |TableBlocks(hs[h := a])| == |a.blocks| + |Elsewhere(hs, matched)|
  {
    var hs' := hs[h := a];
    NoDupCard(a.blocks);
    forall id: nat ensures id in TableBlocks(hs') <==> id in a.blocks || id in TableBlocks(hs) {
      InTableBlocks(hs', id);
      InTableBlocks(hs, id);
      JoinsTables(hs, h, a, id);
    }
    forall id: nat | id in a.blocks && id in TableBlocks(hs) ensures id in matched {
      SharedIsMatched(hs, h, a, matched, id);
    }
    hide TableBlocks, Alone, NoDup;
    JoinCard(TableBlocks(hs'), Ids(a.blocks), TableBlocks(hs), Ids(matched));
  }

  lemma JoinCard(all: set<BlockId>, own: set<BlockId>, t: set<BlockId>, m: set<BlockId>)
    requires forall id: nat :: id in all <==> id in own || id in t
    requires m <= own && forall id: nat :: id in own && id in t ==> id in m
    ensures |all| == |own| + |t - m|
  {
    assert all == own + (t - m);
  }

  /** What a new table has in common with another is what it matched. */
  lemma SharedIsMatched(hs: Handles, h: Hid, a: Handle, matched: seq<BlockId>, id: BlockId)
    requires h !in hs && matched <= a.blocks && id in a.blocks && id in TableBlocks(hs)
    requires forall i :: |matched| <= i < |a.blocks| ==> Alone(hs[h := a], h, i, a.blocks[i])
    ensures id in matched
  {
    InTableBlocks(hs, id);
    var hs' := hs[h := a];
    var i :| 0 <= i < |a.blocks| && a.blocks[i] == id;
    var g: nat, j: nat :| TableAt(hs, g, j, id);
    assert TableAt(hs', g, j, id);
    if i >= |matched| {
      assert false;
    }
    assert matched[i] == id;
  }

  lemma JoinsTables(hs: Handles, h: Hid, a: Handle, id: BlockId)
    requires h !in hs && a.ok && a.armed
    ensures InTable(hs[h := a], id) <==> id in a.blocks || InTable(hs, id)
  {
    var hs' := hs[h := a];
    if i :| 0 <= i < |a.blocks| && a.blocks[i] == id {
      assert TableAt(hs', h, i, id);
    }
    if g: nat, j: nat :| TableAt(hs, g, j, id) {
      assert TableAt(hs', g, j, id);
    }
    if g: nat, j: nat :| TableAt(hs', g, j, id) {
      assert g == h || TableAt(hs, g, j, id);
    }
  }
}
