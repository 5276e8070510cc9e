/** The pool's public operations, composed from its atomic steps, and their effect in view. */
module PoolOps {
  import opened Types
  import opened PoolModel
  import opened PoolProofs
  import opened PoolView

  ghost function DecrefOp(s: Pool, id: BlockId): (r: Pool)
    requires Inv(s) && Allocated(s, id)
    ensures Inv(r)
  {
    if s.refcount[id] > 1 then
      RecountInv(s, id, s.refcount[id] - 1);
      Decrement(s, id)
    else
      CancelInv(s, id);
      FreeInv(Cancel(s, id), id);
      Free(Cancel(s, id), id)
  }

  ghost predicate CanMove(s: Pool, id: BlockId, dst: TierIndex)
    requires Inv(s) && Allocated(s, id)
  {
    dst < |s.free| && s.location[id].tier != dst && s.free[dst] != []
  }

  /** migrate(): a stale job is cancelled even when the move then cannot be made. */
  ghost function MigrateOp(s: Pool, id: BlockId, dst: TierIndex): (r: Pool)
    requires Inv(s) && Allocated(s, id)
    ensures Inv(r)
  {
    CancelInv(s, id);
    var c := Cancel(s, id);
    if CanMove(c, id, dst) then
      MoveInv(c, id, dst);
      Move(c, id, dst)
    else c
  }

  ghost function MigrateAsyncOp(s: Pool, id: BlockId, dst: TierIndex): (r: Pool)
    requires Inv(s) && Allocated(s, id)
    ensures Inv(r)
  {
    if CanReserve(s, id, dst) then
      ReserveInv(s, id, dst);
      Reserve(s, id, dst)
    else s
  }

  ghost function AllocateOp(s: Pool): (r: Pool)
    requires Inv(s)
    ensures Inv(r)
  {
    if CanAllocate(s) then
      AllocateInv(s);
      Allocate(s)
    else s
  }

  lemma DrainFrontInv(s: Pool)
    requires Inv(s) && CanDrain(s)
    ensures Inv(DrainFront(s))
  {
    if s.jobs[0].cancelled {
      DrainCancelledInv(s);
    } else {
      DrainLiveInv(s);
    }
  }

  /** drain_migrations(): retire finished jobs from the front until one is not finished. */
  ghost function DrainOp(s: Pool): (r: Pool)
    requires Inv(s)
    ensures Inv(r)
    decreases |s.jobs|
  {
    if CanDrain(s) then
      DrainFrontInv(s);
      DrainOp(DrainFront(s))
    else s
  }

  // ------------------------------------------------------------------ in view

  lemma AllocateInView(s: Pool, v: View) returns (v': View)
    requires Inv(s) && Shows(s, v) && CanAllocate(s)
    ensures var id, l := Last(s.freeIds), Location(0, Last(s.free[0]));
            && id < |s.location| == |s.refcount| == |v.rc| && id !in v.tier && id !in v.val
            && l in s.mem && v.free[0] > 0
            && v' == v.(tier := v.tier[id := 0], val := v.val[id := s.mem[l]],
                        rc := v.rc[id := 1], free := v.free[0 := v.free[0] - 1])
    ensures Inv(Allocate(s)) && Shows(Allocate(s), v')
  {
    var id, l := Last(s.freeIds), Location(0, Last(s.free[0]));
    PopFree(s, 0);
    assert IdOk(s, id) && ShowsTier(s, v, 0) && ShowsBlock(s, v, id);
    v' := v.(tier := v.tier[id := 0], val := v.val[id := s.mem[l]],
             rc := v.rc[id := 1], free := v.free[0 := v.free[0] - 1]);
    AllocateView(s, v, v');
  }

  ghost function VDecref(v: View, id: BlockId): View
    requires id < |v.rc| && id in v.tier && v.tier[id] < |v.free| && v.rc[id] > 0
  {
    if v.rc[id] > 1 then v.(rc := v.rc[id := v.rc[id] - 1])
    else v.(tier := v.tier - {id}, target := v.target - {id}, val := v.val - {id}, rc := v.rc[id := 0],
            free := v.free[v.tier[id] := v.free[v.tier[id]] + 1])
  }

  lemma DecrefView(s: Pool, v: View, id: BlockId)
    requires Inv(s) && Shows(s, v) && Allocated(s, id)
    ensures id in v.tier && v.tier[id] < |v.free|
    ensures Shows(DecrefOp(s, id), VDecref(v, id))
  {
    hide IdsOk, SlotsOk, WorkersOk, JobsOk;
    assert ShowsBlock(s, v, id);
    if s.refcount[id] > 1 {
      RecountView(s, v, id, s.refcount[id] - 1);
    } else {
      CancelView(s, v, id);
      FreeView(Cancel(s, id), v.(target := v.target - {id}), id);
    }
  }

  /** A successful synchronous move. */
  ghost function VMove(v: View, id: BlockId, dst: TierIndex): View
    requires id in v.tier && v.tier[id] < |v.free| && dst < |v.free| && v.tier[id] != dst && v.free[dst] > 0
  {
    v.(tier := v.tier[id := dst], target := v.target - {id},
       free := v.free[dst := v.free[dst] - 1][v.tier[id] := v.free[v.tier[id]] + 1])
  }

  ghost function VMigrate(v: View, id: BlockId, dst: TierIndex): View
    requires id in v.tier && v.tier[id] < |v.free| && dst < |v.free|
  {
    if v.tier[id] != dst && v.free[dst] > 0 then VMove(v, id, dst) else v.(target := v.target - {id})
  }

  /** A migrate() that fails leaves the pool as it was exactly when no migration of the block was in flight. */
  lemma FailedMigrateUntouched(s: Pool, id: BlockId, dst: TierIndex)
    requires Inv(s) && Allocated(s, id) && dst < |s.free| && id < |s.location|
    requires s.location[id].tier != dst && s.free[dst] == []
    ensures MigrateOp(s, id, dst) == s <==> id !in s.migrating
  {
    hide IdsOk, SlotsOk, WorkersOk;
    assert MigOk(s, id);
    if id in s.migrating {
      assert id !in MigrateOp(s, id, dst).migrating;
    }
  }

  lemma MigrateView(s: Pool, v: View, id: BlockId, dst: TierIndex)
    requires Inv(s) && Shows(s, v) && Allocated(s, id) && dst < |s.free|
    ensures id in v.tier && v.tier[id] < |v.free|
    ensures Shows(MigrateOp(s, id, dst), VMigrate(v, id, dst))
  {
    CancelView(s, v, id);
    var c, w := Cancel(s, id), v.(target := v.target - {id});
    assert ShowsBlock(s, v, id) && ShowsTier(s, v, dst);
    if CanMove(c, id, dst) {
      MoveView(c, w, id, dst);
    }
  }

  ghost function VReserve(v: View, id: BlockId, dst: TierIndex): View
    requires dst < |v.free| && v.free[dst] > 0
  {
    v.(target := v.target[id := dst], free := v.free[dst := v.free[dst] - 1])
  }

  /** migrate_async() succeeds: somewhere to go, nothing in flight, and both ends host-addressable. */
  ghost predicate VCanReserve(v: View, host: seq<bool>, id: BlockId, dst: TierIndex)
    requires id in v.tier && v.tier[id] < |host| && dst < |host| && dst < |v.free|
  {
    v.tier[id] != dst && id !in v.target && v.free[dst] > 0 && host[v.tier[id]] && host[dst]
  }

  lemma MigrateAsyncView(s: Pool, v: View, id: BlockId, dst: TierIndex)
    requires Inv(s) && Shows(s, v) && Allocated(s, id) && dst < |s.free|
    ensures id in v.tier && s.location[id].tier == v.tier[id] < |s.host|
    ensures CanReserve(s, id, dst) <==> VCanReserve(v, s.host, id, dst)
    ensures Shows(MigrateAsyncOp(s, id, dst), if CanReserve(s, id, dst) then VReserve(v, id, dst) else v)
  {
    assert ShowsBlock(s, v, id) && ShowsTier(s, v, dst);
    if CanReserve(s, id, dst) {
      ReserveView(s, v, id, dst);
    }
  }

  // --------------------------------------------------------- the compute tier

  /** The blocks in the compute tier, and those on their way there. */
  ghost function Resident(v: View): set<BlockId> {
    set id | id in v.tier && v.tier[id] == 0
  }

  ghost function Arriving(v: View): set<BlockId> {
    set id | id in v.target && v.target[id] == 0
  }

  /** Compute slots that are free or hold a block: all but those reserved by queued jobs. */
  ghost function Room(v: View): nat {
    (if |v.free| > 0 then v.free[0] else 0) + |Resident(v)|
  }

  lemma RoomSame(v: View, v': View)
    requires v'.tier == v.tier && v'.free == v.free
    ensures Room(v') == Room(v)
  {
    assert Resident(v') == Resident(v);
  }

  /** Freeing a block of the compute tier frees the slot it held. */
  lemma RoomDecref(v: View, id: BlockId)
    requires id < |v.rc| && id in v.tier && v.tier[id] < |v.free| && v.rc[id] > 0
    ensures Room(VDecref(v, id)) == Room(v)
  {
    var v' := VDecref(v, id);
    if v.rc[id] > 1 {
      RoomSame(v, v');
    } else {
      assert Resident(v') == Resident(v) - {id};
    }
  }

  /** So does moving a block out of it. */
  lemma RoomMigrate(v: View, id: BlockId, dst: TierIndex)
    requires id in v.tier && v.tier[id] < |v.free| && 0 < dst < |v.free|
    ensures Room(VMigrate(v, id, dst)) == Room(v)
  {
    var v' := VMigrate(v, id, dst);
    if v.tier[id] != dst && v.free[dst] > 0 {
      assert Resident(v') == Resident(v) - {id};
    } else {
      RoomSame(v, v');
    }
  }

  /** Completing a migration returns a slot of the compute tier or fills one that was reserved. */
  lemma RoomSettle(v: View, id: BlockId)
    requires id in v.target && id in v.tier && v.tier[id] < |v.free|
    ensures Room(AfterMigration(v, id)) >= Room(v)
  {
    var v' := AfterMigration(v, id);
    if v.target[id] == 0 && v.tier[id] == 0 {
      assert Resident(v') == Resident(v);
    } else if v.target[id] == 0 {
      assert Resident(v') == Resident(v) + {id};
    } else {
      assert Resident(v') == Resident(v) - {id};
    }
  }

  // -------------------------------------------------------------------- drain

  /** `s` with its first `k` jobs taken off the queue and not yet settled. */
  ghost function Popped(s: Pool, k: nat): Pool
    requires k <= |s.jobs| && k <= s.cursor
  {
    s.(jobs := s.jobs[k..], cursor := s.cursor - k, head := s.head + k)
  }

  ghost predicate CanSettleAll(s: Pool, js: seq<Job>)
    decreases |js|
  {
    js != [] ==> CanSettle(s, js[0]) && CanSettleAll(Settle(s, js[0]), js[1..])
  }

  ghost function SettleAll(s: Pool, js: seq<Job>): Pool
    requires CanSettleAll(s, js)
    decreases |js|
  {
    if js == [] then s else SettleAll(Settle(s, js[0]), js[1..])
  }

  /** The longest finished run at the front of the queue. */
  ghost predicate FinishedFront(s: Pool, k: nat) {
    && k <= |s.jobs|
    && (forall i :: 0 <= i < k ==> s.jobs[i].done)
    && (k < |s.jobs| ==> !s.jobs[k].done)
  }

  lemma FinishedClaimed(s: Pool, k: nat)
    requires Inv(s) && k <= |s.jobs| && (k > 0 ==> s.jobs[k - 1].done)
    ensures k <= s.cursor
  {
    if k > 0 {
      assert JobOk(s, k - 1);
    }
  }

  /** Settling does not look at the queue. */
  lemma SettleThenPop(s: Pool, j: Job, k: nat)
    requires CanSettle(s, j) && k <= |s.jobs| && k <= s.cursor
    ensures CanSettle(Popped(s, k), j)
    ensures Popped(Settle(s, j), k) == Settle(Popped(s, k), j)
  {
  }

  /**
   drain_migrations() takes all finished jobs off the queue first and settles them afterwards;
   that is the same as retiring them one at a time.
   */
  lemma {:induction false} DrainInTwoPhases(s: Pool, k: nat)
    requires Inv(s) && FinishedFront(s, k) && k <= s.cursor
    ensures CanSettleAll(Popped(s, k), s.jobs[..k])
    ensures DrainOp(s) == SettleAll(Popped(s, k), s.jobs[..k])
    decreases k
  {
    if k > 0 {
      DrainFrontInv(s);
      FinishedNext(s, k);
      SettlesFirst(s, k);
      hide Inv, DrainFront, Settle, CanSettle, Popped;
      DrainInTwoPhases(DrainFront(s), k - 1);
    } else {
      assert s.jobs[0..] == s.jobs;
    }
  }

  lemma FinishedNext(s: Pool, k: nat)
    requires Inv(s) && FinishedFront(s, k) && 0 < k <= s.cursor
    ensures CanDrain(s)
    ensures var s' := DrainFront(s);
            FinishedFront(s', k - 1) && k - 1 <= s'.cursor && s'.jobs[..k - 1] == s.jobs[..k][1..]
  {
    hide IdsOk, SlotsOk, WorkersOk;
    assert DrainFront(s).jobs == s.jobs[1..];
    assert s.jobs[1..][..k - 1] == s.jobs[..k][1..];
  }

  lemma SettlesFirst(s: Pool, k: nat)
    requires Inv(s) && CanDrain(s) && 0 < k <= |s.jobs| && k <= s.cursor
    ensures CanSettle(Popped(s, k), s.jobs[0])
    ensures k - 1 <= DrainFront(s).cursor && k - 1 <= |DrainFront(s).jobs|
    ensures Popped(DrainFront(s), k - 1) == Settle(Popped(s, k), s.jobs[0])
  {
    hide IdsOk, WorkersOk;
    var j := s.jobs[0];
    assert JobOk(s, 0) && LiveOk(s, 0) && MigOk(s, j.id) && BlockOk(s, j.id);
    var p := s.(jobs := s.jobs[1..], cursor := s.cursor - 1, head := s.head + 1);
    assert s.jobs[1..][k - 1..] == s.jobs[k..];
    SettleThenPop(p, j, k - 1);
  }

  /** What a drain may do: complete some of the migrations in flight, and return slots. */
  ghost predicate Drained(v: View, v': View) {
    && v'.rc == v.rc && v'.val == v.val && |v'.free| == |v.free|
    && v'.tier.Keys == v.tier.Keys
    && (forall id :: id in v'.target ==> id in v.target && v'.target[id] == v.target[id])
    && (forall id :: id in v.tier && id in v'.tier ==> Settled(v, v', id))
    && Room(v') >= Room(v)
  }

  ghost predicate Settled(v: View, v': View, id: BlockId)
    requires id in v.tier && id in v'.tier
  {
    if id in v.target && id !in v'.target then v'.tier[id] == v.target[id] else v'.tier[id] == v.tier[id]
  }

  lemma DrainedRoom(v: View, v': View)
    requires Drained(v, v')
    ensures Room(v') >= Room(v)
  {
  }

  /** Completing one migration is a drain, and drains compose. */
  lemma DrainedStep(v: View, id: BlockId, v': View)
    requires id in v.target && id in v.tier && v.tier[id] < |v.free|
    requires Drained(AfterMigration(v, id), v')
    ensures Drained(v, v')
  {
    var m := AfterMigration(v, id);
    RoomSettle(v, id);
    forall x | x in v.tier && x in v'.tier ensures Settled(v, v', x) {
      assert Settled(m, v', x);
    }
  }

  /** The tier whose slot a job gives back when it is retired. */
  ghost function GivesBack(j: Job): TierIndex {
    if j.cancelled then j.dst.tier else j.src.tier
  }

  /** How many slots of tier `t` the first `k` jobs give back. */
  ghost function Returned(jobs: seq<Job>, k: nat, t: TierIndex): nat
    requires k <= |jobs|
  {
    if k == 0 then 0 else (if GivesBack(jobs[0]) == t then 1 else 0) + Returned(jobs[1..], k - 1, t)
  }

  /** The migrations completed are those of the first `k` jobs, and every job retired gave back one slot. */
  ghost predicate Completes(s: Pool, v: View, v': View, k: nat) {
    && k <= |s.jobs| && |v'.free| == |v.free|
    && (forall id :: id in v.target && id in s.migrating ==> (id in v'.target <==> s.migrating[id] >= s.head + k))
    && (forall t :: 0 <= t < |v.free| ==> v'.free[t] == v.free[t] + Returned(s.jobs, k, t))
  }

  lemma CompletesNone(s: Pool, v: View)
    requires Shows(s, v)
    ensures Completes(s, v, v, 0) && Drained(v, v)
  {
    assert forall id :: id in v.target ==> ShowsBlock(s, v, id);
  }

  /** Returning a slot first makes no difference to what was completed. */
  lemma DrainedFree(v: View, t: TierIndex, v': View)
    requires t < |v.free| && Drained(v.(free := v.free[t := v.free[t] + 1]), v')
    ensures Drained(v, v')
  {
    var m := v.(free := v.free[t := v.free[t] + 1]);
    assert Resident(m) == Resident(v);
    forall x | x in v.tier && x in v'.tier ensures Settled(v, v', x) {
      assert Settled(m, v', x);
    }
  }

  lemma CompletesCancelled(s: Pool, v: View, v': View, k: nat)
    requires Inv(s) && Shows(s, v) && CanDrain(s) && s.jobs[0].cancelled && s.jobs[0].dst.tier < |v.free|
    requires var t := s.jobs[0].dst.tier; Completes(DrainFront(s), v.(free := v.free[t := v.free[t] + 1]), v', k)
    ensures Completes(s, v, v', k + 1)
  {
    hide IdsOk, SlotsOk, WorkersOk;
    assert DrainFront(s).jobs == s.jobs[1..];
  }

  lemma CompletesLive(s: Pool, v: View, v': View, k: nat)
    requires Inv(s) && Shows(s, v) && CanDrain(s) && !s.jobs[0].cancelled
    requires var id := s.jobs[0].id; id in v.target && id in v.tier && v.tier[id] < |v.free|
    requires Completes(DrainFront(s), AfterMigration(v, s.jobs[0].id), v', k)
    requires Drained(AfterMigration(v, s.jobs[0].id), v')
    ensures Completes(s, v, v', k + 1)
  {
    hide IdsOk, WorkersOk;
    var s', j := DrainFront(s), s.jobs[0];
    assert s'.jobs == s.jobs[1..];
    assert LiveOk(s, 0) && MigOk(s, j.id) && ShowsBlock(s, v, j.id);
    assert GivesBack(j) == v.tier[j.id];
  }

  /**
   Draining retires the finished jobs at the front of the queue and no others: it completes exactly
   their migrations, moves nothing else, and keeps every block's bytes.
   */
  lemma {:induction false} DrainView(s: Pool, v: View) returns (v': View, k: nat)
    requires Inv(s) && Shows(s, v)
    ensures Shows(DrainOp(s), v') && Drained(v, v')
    ensures FinishedFront(s, k) && Completes(s, v, v', k)
    decreases |s.jobs|
  {
    hide IdsOk, SlotsOk, WorkersOk, JobsOk, Completes, Drained;
    if CanDrain(s) {
      DrainFrontInv(s);
      var j := s.jobs[0];
      if j.cancelled {
        DrainCancelledView(s, v);
        v', k := DrainView(DrainFront(s), v.(free := v.free[j.dst.tier := v.free[j.dst.tier] + 1]));
        CompletesCancelled(s, v, v', k);
        DrainedFree(v, j.dst.tier, v');
      } else {
        DrainLiveView(s, v);
        v', k := DrainView(DrainFront(s), AfterMigration(v, j.id));
        DrainedStep(v, j.id, v');
        CompletesLive(s, v, v', k);
      }
      FrontGrows(s, k);
      k := k + 1;
    } else {
      CompletesNone(s, v);
      v', k := v, 0;
    }
  }

  lemma FrontGrows(s: Pool, k: nat)
    requires Inv(s) && CanDrain(s) && FinishedFront(DrainFront(s), k)
    ensures FinishedFront(s, k + 1)
  {
    hide IdsOk, SlotsOk, WorkersOk, JobsOk;
    assert DrainFront(s).jobs == s.jobs[1..];
  }

  /** A drain takes off exactly the finished front. */
  lemma {:induction false} DrainTakesFront(s: Pool)
    requires Inv(s)
    ensures var k := FrontLen(s.jobs);
            && DrainOp(s).jobs == s.jobs[k..] && DrainOp(s).head == s.head + k && FrontLen(s.jobs[k..]) == 0
    decreases |s.jobs|
  {
    if CanDrain(s) {
      DrainFrontInv(s);
      DrainTakesFront(DrainFront(s));
      var k := FrontLen(s.jobs[1..]);
      assert DrainFront(s).jobs == s.jobs[1..];
      assert s.jobs[1..][k..] == s.jobs[k + 1..];
    } else {
      assert s.jobs[0..] == s.jobs;
    }
  }

  lemma FrontIs(s: Pool, k: nat)
    requires FinishedFront(s, k)
    ensures FrontLen(s.jobs) == k
  {
  }

  /** No block that had no migration in flight was rebound. */
  ghost predicate RestingStay(v: View, loc: seq<Location>, loc': seq<Location>) {
    |loc'| == |loc| && forall id :: 0 <= id < |loc| && id !in v.target ==> loc'[id] == loc[id]
  }

  /** A drain rebinds only blocks whose migration was in flight. */
  lemma {:induction false} DrainRebinds(s: Pool, v: View)
    requires Inv(s) && Shows(s, v)
    ensures RestingStay(v, s.location, DrainOp(s).location)
    decreases |s.jobs|
  {
    if CanDrain(s) {
      DrainFrontInv(s);
      var s', j := DrainFront(s), s.jobs[0];
      if j.cancelled {
        DrainCancelledView(s, v);
        DrainRebinds(s', v.(free := v.free[j.dst.tier := v.free[j.dst.tier] + 1]));
      } else {
        DrainLiveView(s, v);
        DrainRebinds(s', AfterMigration(v, j.id));
      }
    }
  }

  /** Blocks whose migration out of tier `t` is in flight: pending_departures(). */
  ghost function Leaving(v: View, t: TierIndex): set<BlockId> {
    set id | id in v.target && id in v.tier && v.tier[id] == t && v.target[id] != t
  }

  /** Compute slots that are free now or will be once the demotions in flight are drained. */
  ghost function Projected(v: View): nat
    requires |v.free| > 0
  {
    v.free[0] + |Leaving(v, 0)|
  }

  lemma OneMore(a: set<BlockId>, b: set<BlockId>, id: BlockId)
    requires id !in a && forall x: nat :: x in b <==> x in a || x == id
    ensures |b| == |a| + 1
  {
    assert b == a + {id};
  }

  /** Draining a finished, uncancelled job moves a slot from promised to free and loses none. */
  lemma DrainKeepsProjected(v: View, id: BlockId)
    requires id in v.target && id in v.tier && v.tier[id] < |v.free| && v.target[id] != v.tier[id]
    ensures Projected(AfterMigration(v, id)) == Projected(v)
  {
    var v' := AfterMigration(v, id);
    forall x: nat ensures x in Leaving(v, 0) <==> x in Leaving(v', 0) || (x == id && v.tier[id] == 0) {
    }
    assert id !in Leaving(v', 0);
    hide Leaving;
    if v.tier[id] == 0 {
      OneMore(Leaving(v', 0), Leaving(v, 0), id);
    } else {
      assert Leaving(v, 0) == Leaving(v', 0);
    }
  }

  /** Scheduling a demotion promises one more compute slot and takes none. */
  lemma DemotionProjects(v: View, id: BlockId, dst: TierIndex)
    requires 0 < dst < |v.free| && v.free[dst] > 0 && id in v.tier && v.tier[id] == 0 && id !in v.target
    ensures Projected(VReserve(v, id, dst)) == Projected(v) + 1
  {
    var v' := VReserve(v, id, dst);
    forall x: nat ensures x in Leaving(v', 0) <==> x in Leaving(v, 0) || x == id {
    }
    assert id !in Leaving(v, 0);
    hide Leaving;
    OneMore(Leaving(v, 0), Leaving(v', 0), id);
  }
}
