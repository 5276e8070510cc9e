/** acquire()'s arithmetic: what a request demands of the compute tier, and that its plan cannot fail. */
module Planning {
  import opened Types
  import opened TreeModel
  import opened TreeWalk
  import opened PoolView
  import opened PoolOps
  import opened Backing
  import opened SystemModel

  /** A block that has to be promoted before it can be read: away, and not yet on its way back. */
  ghost predicate Away(v: View, id: BlockId) {
    id in v.tier && v.tier[id] != 0 && id !in v.target
  }

  /** Compute slots needed to bring `bs` home. */
  ghost function Need(v: View, bs: seq<BlockId>): nat {
    if bs == [] then 0 else (if Away(v, bs[0]) then 1 else 0) + Need(v, bs[1..])
  }

  ghost predicate SameAt(v: View, v': View, id: BlockId) {
    && (id in v.tier <==> id in v'.tier) && (id in v.tier ==> v'.tier[id] == v.tier[id])
    && (id in v.target <==> id in v'.target) && (id in v.target ==> v'.target[id] == v.target[id])
  }

  /** None of the blocks in `bs` has moved or started to. */
  ghost predicate Unmoved(v: View, v': View, bs: seq<BlockId>) {
    forall i :: 0 <= i < |bs| ==> SameAt(v, v', bs[i])
  }

  lemma UnmovedSelf(v: View, bs: seq<BlockId>)
    ensures Unmoved(v, v, bs)
  {
  }

  lemma UnmovedTwice(v: View, m: View, v': View, bs: seq<BlockId>)
    requires Unmoved(v, m, bs) && Unmoved(m, v', bs)
    ensures Unmoved(v, v', bs)
  {
    forall i | 0 <= i < |bs| ensures SameAt(v, v', bs[i]) {
      assert SameAt(v, m, bs[i]) && SameAt(m, v', bs[i]);
    }
  }

  lemma {:induction false} UnmovedNeed(v: View, v': View, bs: seq<BlockId>)
    requires Unmoved(v, v', bs)
    ensures Need(v', bs) == Need(v, bs)
  {
    if bs != [] {
      assert SameAt(v, v', bs[0]);
      forall i | 0 <= i < |bs[1..]| ensures SameAt(v, v', bs[1..][i]) {
        assert SameAt(v, v', bs[i + 1]);
      }
      UnmovedNeed(v, v', bs[1..]);
    }
  }

  lemma ShiftUnmoved(v: View, v': View, id: BlockId, bs: seq<BlockId>)
    requires Shifted(v, v', id) && id !in bs
    ensures Unmoved(v, v', bs)
  {
  }

  lemma SparedUnmoved(v: View, v': View, hs: Handles, h: Hid, gone: set<BlockId>)
    requires Shed(v, v', gone) && Spared(hs, gone) && Live(hs, h)
    ensures Unmoved(v, v', hs[h].blocks)
  {
  }

  /** What no table holds is not in the table of `h`, nor in any other. */
  lemma UnheldOff(hs: Handles, id: BlockId, h: Hid)
    requires Unheld(hs, id, None) && Live(hs, h)
    ensures Unheld(hs, id, Some(h)) && id !in hs[h].blocks
  {
  }

  /** Promoting one block of the table, or passing over it, leaves the demand of the rest as it was. */
  lemma NeedNext(v: View, v': View, bs: seq<BlockId>, i: nat)
    requires i < |bs| && NoDup(bs) && Shifted(v, v', bs[i])
    ensures Need(v, bs[i..]) == (if Away(v, bs[i]) then 1 else 0) + Need(v', bs[i + 1..])
  {
    assert bs[i..][1..] == bs[i + 1..];
    ShiftUnmoved(v, v', bs[i], bs[i + 1..]);
    UnmovedNeed(v, v', bs[i + 1..]);
  }

  lemma ShiftedSelf(v: View, id: BlockId)
    ensures Shifted(v, v, id)
  {
  }

  // ------------------------------------------------------------------ promotions

  /** Unless promotions may run in the background, none is in flight. */
  ghost predicate Quiet(async: bool, v: View) {
    async || forall id :: id in v.target ==> v.target[id] != 0
  }

  lemma DrainQuiet(async: bool, v: View, v': View)
    requires Quiet(async, v) && Drained(v, v')
    ensures Quiet(async, v')
  {
  }

  lemma ShedQuiet(async: bool, v: View, v': View, gone: set<BlockId>)
    requires Quiet(async, v) && Shed(v, v', gone)
    ensures Quiet(async, v')
  {
  }

  lemma ShiftQuiet(async: bool, v: View, v': View, id: BlockId)
    requires Quiet(async, v) && Shifted(v, v', id) && (id in v'.target ==> v'.target[id] != 0 || async)
    ensures Quiet(async, v')
  {
  }

  lemma SameQuiet(async: bool, v: View, v': View)
    requires Quiet(async, v) && v'.target == v.target
    ensures Quiet(async, v')
  {
  }

  /** A block away from home is sent on its way in the background exactly if so configured and both tiers can be addressed. */
  ghost predicate SentAt(async: bool, host: seq<bool>, v: View, v': View, id: BlockId) {
    Away(v, id) && v.tier[id] < |host| ==> (id in v'.target <==> async && host[0] && host[v.tier[id]])
  }

  /** The first `i` blocks have been seen to, and the others not yet. */
  ghost predicate SentTo(async: bool, host: seq<bool>, v: View, v': View, bs: seq<BlockId>, i: nat) {
    && i <= |bs|
    && forall k :: 0 <= k < |bs| ==> if k < i then SentAt(async, host, v, v', bs[k]) else SameAt(v, v', bs[k])
  }

  lemma SentNone(async: bool, host: seq<bool>, v: View, bs: seq<BlockId>)
    ensures SentTo(async, host, v, v, bs, 0)
  {
  }

  lemma SentNext(async: bool, host: seq<bool>, v: View, m: View, v': View, bs: seq<BlockId>, i: nat)
    requires i < |bs| && NoDup(bs) && SentTo(async, host, v, m, bs, i)
    requires Shifted(m, v', bs[i]) && SentAt(async, host, m, v', bs[i])
    ensures SentTo(async, host, v, v', bs, i + 1)
  {
    forall k | 0 <= k < |bs|
      ensures if k < i + 1 then SentAt(async, host, v, v', bs[k]) else SameAt(v, v', bs[k])
    {
      assert if k < i then SentAt(async, host, v, m, bs[k]) else SameAt(v, m, bs[k]);
    }
  }

  lemma SentSame(async: bool, host: seq<bool>, v: View, m: View, v': View, bs: seq<BlockId>)
    requires SentTo(async, host, v, m, bs, |bs|) && v'.target == m.target
    ensures SentTo(async, host, v, v', bs, |bs|)
  {
    forall k | 0 <= k < |bs| ensures SentAt(async, host, v, v', bs[k]) {
      assert SentAt(async, host, v, m, bs[k]);
    }
  }

  /** Scheduling demotions of blocks that no table holds changes nothing about it. */
  lemma SentSpilled(async: bool, host: seq<bool>, v: View, m: View, v': View, bs: seq<BlockId>, demoted: seq<BlockId>,
                    hs: Handles, h: Hid)
    requires SentTo(async, host, v, m, bs, |bs|) && Spilled(m, v', demoted, |demoted|)
    requires Gated(v', hs, None) && Live(hs, h) && bs <= hs[h].blocks
    ensures SentTo(async, host, v, v', bs, |bs|)
  {
    forall k | 0 <= k < |bs| ensures SentAt(async, host, v, v', bs[k]) {
      assert SentAt(async, host, v, m, bs[k]) && GateOk(v', hs, h, k);
    }
  }

  // ------------------------------------------------------------ before the plan

  /** No demotion of the first `i` blocks is in flight. */
  ghost predicate Staying(v: View, bs: seq<BlockId>, i: nat) {
    i <= |bs| && forall k :: 0 <= k < i ==> StaysAt(v, bs[k])
  }

  ghost predicate StaysAt(v: View, id: BlockId) {
    id in v.tier && (id in v.target ==> v.target[id] == 0)
  }

  /** The demotions of the first `i` blocks were cancelled, and nothing else happened. */
  ghost predicate Stopped(v: View, v': View, bs: seq<BlockId>, i: nat) {
    && i <= |bs| && v' == v.(target := v'.target)
    && (forall id :: id in v'.target <==> id in v.target && !(id in bs[..i] && v.target[id] != 0))
    && (forall id :: id in v'.target ==> v'.target[id] == v.target[id])
  }

  lemma StoppedNone(v: View, bs: seq<BlockId>)
    ensures Stopped(v, v, bs, 0)
  {
  }

  lemma StoppedNext(v: View, m: View, v': View, bs: seq<BlockId>, i: nat)
    requires i < |bs| && Stopped(v, m, bs, i)
    requires v' == if bs[i] in m.target && m.target[bs[i]] != 0 then m.(target := m.target - {bs[i]}) else m
    ensures Stopped(v, v', bs, i + 1)
  {
    assert bs[..i + 1] == bs[..i] + [bs[i]];
  }

  /** What is away once room is made was so before. */
  lemma SentEarlier(async: bool, host: seq<bool>, settled: View, before: View, after: View, v: View, bs: seq<BlockId>)
    requires Stopped(settled, before, bs, |bs|) && Unmoved(before, after, bs)
    requires SentTo(async, host, after, v, bs, |bs|)
    ensures SentTo(async, host, settled, v, bs, |bs|)
  {
    forall k | 0 <= k < |bs| ensures SentAt(async, host, settled, v, bs[k]) {
      assert SentAt(async, host, after, v, bs[k]) && SameAt(before, after, bs[k]);
    }
  }

  lemma StayingNone(v: View, bs: seq<BlockId>)
    ensures Staying(v, bs, 0)
  {
  }

  lemma StayingAllocated(v: View, bs: seq<BlockId>)
    requires Staying(v, bs, |bs|)
    ensures forall i :: 0 <= i < |bs| ==> bs[i] in v.tier
  {
    forall i | 0 <= i < |bs| ensures bs[i] in v.tier {
      assert StaysAt(v, bs[i]);
    }
  }

  lemma StayingNext(v: View, v': View, bs: seq<BlockId>, i: nat)
    requires i < |bs| && Staying(v, bs, i) && Shifted(v, v', bs[i]) && StaysAt(v', bs[i])
    ensures Staying(v', bs, i + 1)
  {
    forall k | 0 <= k < i + 1 ensures StaysAt(v', bs[k]) {
      assert k < i ==> StaysAt(v, bs[k]);
    }
  }

  lemma StayingUnmoved(v: View, v': View, bs: seq<BlockId>)
    requires Staying(v, bs, |bs|) && Unmoved(v, v', bs)
    ensures Staying(v', bs, |bs|)
  {
    forall k | 0 <= k < |bs| ensures StaysAt(v', bs[k]) {
      assert StaysAt(v, bs[k]) && SameAt(v, v', bs[k]);
    }
  }

  // ------------------------------------------------------------- after the plan

  /** In the compute tier at rest, or on the way there. */
  ghost predicate HomeBound(v: View, id: BlockId) {
    id in v.tier && if id in v.target then v.target[id] == 0 else v.tier[id] == 0
  }

  /** The first `i` blocks are home or on their way, and the others are not being demoted. */
  ghost predicate Promoted(v: View, bs: seq<BlockId>, i: nat) {
    i <= |bs| && forall k :: 0 <= k < |bs| ==> StaysAt(v, bs[k]) && (k < i ==> HomeBound(v, bs[k]))
  }

  lemma PromotedNone(v: View, bs: seq<BlockId>)
    requires Staying(v, bs, |bs|)
    ensures Promoted(v, bs, 0)
  {
  }

  lemma AtHome(v: View, bs: seq<BlockId>, i: nat)
    requires i < |bs| && Promoted(v, bs, i) && !Away(v, bs[i])
    ensures HomeBound(v, bs[i])
  {
    assert StaysAt(v, bs[i]);
  }

  lemma NeedHere(v: View, bs: seq<BlockId>, i: nat)
    requires i < |bs| && Away(v, bs[i])
    ensures Need(v, bs[i..]) > 0
  {
    assert bs[i..][0] == bs[i];
  }

  lemma PromotedNext(v: View, v': View, bs: seq<BlockId>, i: nat)
    requires Promoted(v, bs, i) && i < |bs| && Shifted(v, v', bs[i]) && HomeBound(v', bs[i])
    ensures Promoted(v', bs, i + 1)
  {
    forall k | 0 <= k < |bs| ensures StaysAt(v', bs[k]) && (k < i + 1 ==> HomeBound(v', bs[k])) {
      assert StaysAt(v, bs[k]) && (k < i ==> HomeBound(v, bs[k]));
    }
  }

  /** The two ways acquire() promotes a block: either takes exactly one compute slot. */
  lemma PromotionShifts(v: View, id: BlockId)
    requires Away(v, id) && v.tier[id] < |v.free| && v.free[0] > 0
    ensures Shifted(v, VReserve(v, id, 0), id) && HomeBound(VReserve(v, id, 0), id)
    ensures VReserve(v, id, 0).free[0] == v.free[0] - 1
    ensures Shifted(v, VMigrate(v, id, 0), id) && HomeBound(VMigrate(v, id, 0), id)
    ensures VMigrate(v, id, 0).free[0] == v.free[0] - 1
  {
  }

  /** A demotion by either way frees, or promises, one compute slot. */
  lemma DemotionShifts(v: View, id: BlockId, dst: TierIndex)
    requires 0 < dst < |v.free| && id in v.tier && v.tier[id] < |v.free|
    ensures Shifted(v, VMigrate(v, id, dst), id) && VMigrate(v, id, dst).free[0] >= v.free[0]
    ensures v.free[dst] > 0 ==> Shifted(v, VReserve(v, id, dst), id)
  {
  }

  lemma CancelShifts(v: View, id: BlockId)
    ensures Shifted(v, v.(target := v.target - {id}), id)
  {
  }

  /** A block allocated for the table joins it at home. */
  lemma PromotedGrow(v: View, v': View, bs: seq<BlockId>, id: BlockId)
    requires Promoted(v, bs, |bs|) && id !in v.tier && id !in v.target
    requires v'.tier == v.tier[id := 0] && v'.target == v.target
    ensures Promoted(v', bs + [id], |bs| + 1)
  {
    var bs' := bs + [id];
    forall k | 0 <= k < |bs'| ensures StaysAt(v', bs'[k]) && HomeBound(v', bs'[k]) {
      if k < |bs| {
        assert StaysAt(v, bs[k]) && HomeBound(v, bs[k]) && bs'[k] == bs[k];
      }
    }
  }

  /** With its whole table promoted, the new handle is gated like the others. */
  lemma GateCloses(v: View, hs: Handles, h: Hid)
    requires Gated(v, hs, Some(h)) && h in hs && Promoted(v, hs[h].blocks, |hs[h].blocks|)
    ensures Gated(v, hs, None)
  {
    forall g: nat, i: nat ensures GateOk(v, hs, g, i) {
      if g == h && i < |hs[h].blocks| {
        assert HomeBound(v, hs[h].blocks[i]);
      } else {
        assert g != h ==> GateOk(v, hs, g, i);
      }
    }
  }

  // ----------------------------------------------------------------- watermark

  /** The victims from `i` on are still there to be demoted. */
  ghost predicate Waiting(v: View, victims: seq<BlockId>, i: nat) {
    i <= |victims| && forall k :: i <= k < |victims| ==> Demotable(v, victims[k])
  }

  lemma DemoteNext(v: View, victims: seq<BlockId>, i: nat, dst: TierIndex)
    requires NoDup(victims) && Waiting(v, victims, i) && i < |victims| && 0 < dst < |v.free| && v.free[dst] > 0
    ensures Waiting(VReserve(v, victims[i], dst), victims, i + 1)
    ensures Projected(VReserve(v, victims[i], dst)) == Projected(v) + 1
  {
    DemotionProjects(v, victims[i], dst);
    forall k | i + 1 <= k < |victims| ensures Demotable(VReserve(v, victims[i], dst), victims[k]) {
      assert Demotable(v, victims[k]);
    }
  }

  /** migrate_async() into the spill tier cannot succeed. */
  ghost predicate Blocked(v: View, host: seq<bool>) {
    |v.free| > 1 && |host| > 1 ==> v.free[1] == 0 || !host[0] || !host[1]
  }

  lemma VictimsWait(ns: Nodes, v: View, victims: seq<BlockId>)
    requires Picks(ns, v, victims)
    ensures NoDup(victims) && Waiting(v, victims, 0) && Spilled(v, v, victims, 0)
  {
    assert victims[..0] == [];
  }

  /** Since `v`, the first `i` victims have been scheduled to go to tier 1, and no other block was touched. */
  ghost predicate Spilled(v: View, v': View, victims: seq<BlockId>, i: nat) {
    && i <= |victims| && v'.tier == v.tier && v'.rc == v.rc && v'.val == v.val
    && (forall id :: id in v'.target <==> id in v.target || id in victims[..i])
    && (forall id :: id in v'.target ==> v'.target[id] == if id in victims[..i] then 1 else v.target[id])
  }

  lemma SpillNext(v: View, m: View, victims: seq<BlockId>, i: nat)
    requires Spilled(v, m, victims, i) && i < |victims| && 1 < |m.free| && m.free[1] > 0
    ensures Spilled(v, VReserve(m, victims[i], 1), victims, i + 1)
  {
    assert victims[..i + 1] == victims[..i] + [victims[i]];
  }

  lemma SpilledNone(v: View)
    ensures Spilled(v, v, [], 0)
  {
  }

  lemma SpilledTake(v: View, v': View, victims: seq<BlockId>, i: nat)
    requires Spilled(v, v', victims, i)
    ensures Spilled(v, v', victims[..i], i)
  {
    assert victims[..i][..i] == victims[..i];
  }

  lemma NoVictimLeft(ns: Nodes, v: View, v': View, victims: seq<BlockId>)
    requires Spilled(v, v', victims, |victims|) && forall id: nat :: Victim(ns, v, id) ==> id in victims
    ensures forall id: nat :: !Victim(ns, v', id)
  {
    assert victims[..|victims|] == victims;
    assert forall id: nat :: Victim(ns, v', id) ==> Victim(ns, v, id);
  }

  // ------------------------------------------------------------ the choice of victims

  /** Distinct victims, from the coldest leaves, in order of recency. */
  ghost predicate Picks(ns: Nodes, v: View, victims: seq<BlockId>) {
    && NoDup(victims) && (forall i :: 0 <= i < |victims| ==> Victim(ns, v, victims[i]))
    && ColdestFirst(ns, v, victims) && Ordered(ns, victims)
  }

  /** What was demoted since `v` were victims, and what still is one is in no colder leaf. */
  ghost predicate WellChosen(ns: Nodes, v: View, v': View, demoted: seq<BlockId>) {
    NoDup(demoted) && (forall i :: 0 <= i < |demoted| ==> Victim(ns, v, demoted[i])) && ColdChoice(ns, v', demoted)
  }

  lemma ChosenNone(ns: Nodes, v: View)
    ensures WellChosen(ns, v, v, [])
  {
  }

  lemma ChosenPrefix(ns: Nodes, v: View, v': View, victims: seq<BlockId>, n: nat)
    requires Picks(ns, v, victims) && n <= |victims|
    requires forall y: nat :: Demotable(v', y) ==> Demotable(v, y) && y !in victims[..n]
    ensures WellChosen(ns, v, v', victims[..n])
  {
    hide Victim, Demotable, ColdestFirst, Ordered, ColdChoice;
    PrefixIsCold(ns, v, v', victims, n);
  }

  lemma LoweredWell(ns: Nodes, v: View, v': View, victims: seq<BlockId>, n: nat)
    requires Picks(ns, v, victims) && Lowered(v, v', victims, n)
    ensures WellChosen(ns, v, v', victims[..n])
  {
    forall y: nat | Demotable(v', y) ensures Demotable(v, y) && y !in victims[..n] {
    }
    ChosenPrefix(ns, v, v', victims, n);
  }

  lemma SpilledWell(ns: Nodes, v: View, v': View, victims: seq<BlockId>, n: nat)
    requires Picks(ns, v, victims) && Spilled(v, v', victims, n)
    ensures WellChosen(ns, v, v', victims[..n])
  {
    forall y: nat | Demotable(v', y) ensures Demotable(v, y) && y !in victims[..n] {
    }
    ChosenPrefix(ns, v, v', victims, n);
  }

  // ---------------------------------------------------------- demote, then evict

  /** Since `v`, the first `i` victims have been moved to tier 1, each freeing a compute slot. */
  ghost predicate Lowered(v: View, v': View, victims: seq<BlockId>, i: nat) {
    && i <= |victims| && v'.rc == v.rc && v'.val == v.val && v'.target == v.target && v'.tier.Keys == v.tier.Keys
    && (forall id :: id in v.tier ==> v'.tier[id] == if id in victims[..i] then 1 else v.tier[id])
    && |v'.free| == |v.free| > 0 && v'.free[0] == v.free[0] + i
  }

  lemma LoweredNone(v: View, victims: seq<BlockId>)
    requires |v.free| > 0
    ensures Lowered(v, v, victims, 0)
  {
  }

  lemma LoweredTake(v: View, v': View, victims: seq<BlockId>, i: nat)
    requires Lowered(v, v', victims, i)
    ensures Lowered(v, v', victims[..i], i)
  {
    assert victims[..i][..i] == victims[..i];
  }

  lemma LoweredSize(v: View, v': View, victims: seq<BlockId>)
    requires Lowered(v, v', victims, |victims|)
    ensures |v'.free| > 0
  {
  }

  lemma LowerNext(v: View, m: View, victims: seq<BlockId>, i: nat)
    requires Lowered(v, m, victims, i) && Waiting(m, victims, i) && i < |victims| && NoDup(victims)
    requires |m.free| > 1 && m.free[1] > 0
    ensures Demotable(m, victims[i])
    ensures Lowered(v, VMigrate(m, victims[i], 1), victims, i + 1) && Waiting(VMigrate(m, victims[i], 1), victims, i + 1)
  {
    assert Demotable(m, victims[i]);
    assert victims[..i + 1] == victims[..i] + [victims[i]];
    var v' := VMigrate(m, victims[i], 1);
    forall k | i + 1 <= k < |victims| ensures Demotable(v', victims[k]) {
      assert Demotable(m, victims[k]) && victims[k] != victims[i];
    }
  }

  lemma NoneLeftToLower(ns: Nodes, v: View, v': View, victims: seq<BlockId>)
    requires Lowered(v, v', victims, |victims|) && forall id: nat :: Victim(ns, v, id) ==> id in victims
    ensures forall id: nat :: !Victim(ns, v', id)
  {
    assert victims[..|victims|] == victims;
    assert forall id: nat :: Victim(ns, v', id) ==> Victim(ns, v, id);
  }

  /** No demotion is possible: the spill tier is full, or there is nothing to demote. */
  ghost predicate Dry(ns: Nodes, v: View) {
    |v.free| > 1 ==> v.free[1] == 0 || forall id: nat :: !Victim(ns, v, id)
  }
}
