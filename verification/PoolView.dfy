/**
 What the layers above can observe of the pool, and how each step changes it.

 A `View` is a pool with no queue, no workers and no slots: blocks have a tier, a
 count and a value, and a migration is just a pending change of tier. The lemmas say that
 the concurrent pool refines it: worker steps are invisible, and the only step that
 completes a migration is a drain.
 */
module PoolView {
  import opened Types
  import opened PoolModel
  import opened PoolProofs

  datatype View = View(
    tier: map<BlockId, TierIndex>,      // every allocated block
    target: map<BlockId, TierIndex>,    // every block with a migration in flight
    val: map<BlockId, seq<Byte>>,       // the bytes of every allocated block
    rc: seq<nat>,
    free: seq<nat>)                     // free slots per tier

  ghost predicate ShowsBlock(s: Pool, v: View, id: BlockId) {
    && (id in v.tier <==> Allocated(s, id))
    && (id in v.val <==> Allocated(s, id))
    && (id in v.target <==> id in s.migrating)
    && (Allocated(s, id) ==>
          && id < |s.location| && s.location[id] in s.mem && s.location[id].tier < |s.free|
          && v.tier[id] == s.location[id].tier && v.val[id] == s.mem[s.location[id]])
    && (id in s.migrating ==>
          && Allocated(s, id)
          && s.head <= s.migrating[id] < s.head + |s.jobs|
          && v.target[id] == s.jobs[s.migrating[id] - s.head].dst.tier < |s.free|
          && v.target[id] != v.tier[id])
  }

  ghost predicate ShowsTier(s: Pool, v: View, t: TierIndex) {
    t < |v.free| && t < |s.free| ==> v.free[t] == |s.free[t]|
  }

  /** `v` is the view of `s`. */
  ghost predicate Shows(s: Pool, v: View) {
    && v.rc == s.refcount
    && |v.free| == |s.free| > 0
    && (forall id: nat :: ShowsBlock(s, v, id))
    && (forall t: nat :: ShowsTier(s, v, t))
  }

  /** Steps that leave the scheduler's tables and the bytes of allocated blocks alone change nothing in view. */
  lemma ShowsStill(s: Pool, s': Pool, v: View)
    requires Shows(s, v)
    requires s'.refcount == s.refcount && s'.location == s.location && s'.free == s.free
    requires s'.migrating == s.migrating && s'.head == s.head && |s'.jobs| == |s.jobs|
    requires forall i :: 0 <= i < |s.jobs| ==> s'.jobs[i].dst == s.jobs[i].dst
    requires s'.mem.Keys == s.mem.Keys
    requires forall id: nat :: Allocated(s, id) && id < |s.location| && s.location[id] in s.mem ==>
               s'.mem[s.location[id]] == s.mem[s.location[id]]
    ensures Shows(s', v)
  {
    forall id: nat ensures ShowsBlock(s', v, id) {
      assert ShowsBlock(s, v, id);
    }
    forall t: nat ensures ShowsTier(s', v, t) {
      assert ShowsTier(s, v, t);
    }
  }

  /** A worker writes to the destination of the job it holds, and to no table of the scheduler. */
  lemma WorkerFrame(s: Pool, w: nat)
    requires Inv(s)
    ensures var s' := WorkerStep(s, w);
            && s'.refcount == s.refcount && s'.location == s.location && s'.free == s.free
            && s'.migrating == s.migrating && s'.head == s.head && |s'.jobs| == |s.jobs|
            && (forall i :: 0 <= i < |s.jobs| ==> s'.jobs[i].dst == s.jobs[i].dst)
            && s'.mem.Keys == s.mem.Keys && s'.owner == s.owner && s'.bytes == s.bytes
    ensures forall l :: l in s.mem && WorkerStep(s, w).mem[l] != s.mem[l] ==>
              !Pc(s, w).Idle? && l == s.jobs[Place(s, w)].dst
  {
    hide IdsOk, SlotsOk;
    assert WorkerOk(s, w);
    if !Pc(s, w).Idle? {
      assert JobOk(s, Place(s, w));
    }
  }

  /** No worker step, in any interleaving, changes what the scheduler or the engine can see. */
  lemma WorkerInvisible(s: Pool, v: View, w: nat)
    requires Inv(s) && Shows(s, v)
    ensures Inv(WorkerStep(s, w)) && Shows(WorkerStep(s, w), v)
  {
    WorkerStepInv(s, w);
    WorkerFrame(s, w);
    if !Pc(s, w).Idle? {
      assert JobOk(s, Place(s, w));
    }
    hide IdsOk, WorkersOk, WorkerStep;
    forall id: nat | Allocated(s, id) && id < |s.location| && s.location[id] in s.mem
      ensures WorkerStep(s, w).mem[s.location[id]] == s.mem[s.location[id]]
    {
      assert BlockOk(s, id);
    }
    hide Inv, Shows;
    ShowsStill(s, WorkerStep(s, w), v);
  }

  lemma AllocateView(s: Pool, v: View, v': View)
    requires Inv(s) && Shows(s, v) && CanAllocate(s)
    requires var id := Last(s.freeIds);
             id < |v.rc| && v.free[0] > 0 && Location(0, Last(s.free[0])) in s.mem &&
             v' == v.(tier := v.tier[id := 0], val := v.val[id := s.mem[Location(0, Last(s.free[0]))]],
                      rc := v.rc[id := 1], free := v.free[0 := v.free[0] - 1])
    ensures Inv(Allocate(s)) && Shows(Allocate(s), v')
  {
    AllocateInv(s);
    var s', id := Allocate(s), Last(s.freeIds);
    assert IdOk(s, id);
    forall x: nat ensures ShowsBlock(s', v', x) {
      assert ShowsBlock(s, v, x) && MigOk(s, x);
    }
    forall t: nat ensures ShowsTier(s', v', t) {
      assert ShowsTier(s, v, t);
    }
  }

  lemma RecountView(s: Pool, v: View, id: BlockId, n: nat)
    requires Inv(s) && Shows(s, v) && Allocated(s, id) && n > 0
    ensures var s' := s.(refcount := s.refcount[id := n]);
            Inv(s') && Shows(s', v.(rc := v.rc[id := n]))
  {
    RecountInv(s, id, n);
    var s', v' := s.(refcount := s.refcount[id := n]), v.(rc := v.rc[id := n]);
    forall x: nat ensures ShowsBlock(s', v', x) {
      assert ShowsBlock(s, v, x);
    }
    forall t: nat ensures ShowsTier(s', v', t) {
      assert ShowsTier(s, v, t);
    }
  }

  lemma CancelView(s: Pool, v: View, id: BlockId)
    requires Inv(s) && Shows(s, v)
    ensures Inv(Cancel(s, id)) && Shows(Cancel(s, id), v.(target := v.target - {id}))
  {
    CancelInv(s, id);
    var s', v' := Cancel(s, id), v.(target := v.target - {id});
    assert MigOk(s, id);
    forall x: nat ensures ShowsBlock(s', v', x) {
      assert ShowsBlock(s, v, x);
    }
    forall t: nat ensures ShowsTier(s', v', t) {
      assert ShowsTier(s, v, t);
    }
  }

  lemma FreeView(s: Pool, v: View, id: BlockId)
    requires Inv(s) && Shows(s, v) && Allocated(s, id) && id !in s.migrating
    ensures id in v.tier && v.tier[id] < |v.free| && id < |v.rc|
    ensures Inv(Free(s, id))
    ensures Shows(Free(s, id), v.(tier := v.tier - {id}, val := v.val - {id}, rc := v.rc[id := 0],
                                  free := v.free[v.tier[id] := v.free[v.tier[id]] + 1]))
  {
    FreeInv(s, id);
    assert ShowsBlock(s, v, id);
    var s', v' := Free(s, id), v.(tier := v.tier - {id}, val := v.val - {id}, rc := v.rc[id := 0],
                                  free := v.free[v.tier[id] := v.free[v.tier[id]] + 1]);
    forall x: nat ensures ShowsBlock(s', v', x) {
      assert ShowsBlock(s, v, x);
    }
    forall t: nat ensures ShowsTier(s', v', t) {
      assert ShowsTier(s, v, t);
    }
  }

  lemma ReserveView(s: Pool, v: View, id: BlockId, dst: TierIndex)
    requires Inv(s) && Shows(s, v) && Allocated(s, id) && CanReserve(s, id, dst)
    ensures v.free[dst] > 0
    ensures Inv(Reserve(s, id, dst))
    ensures Shows(Reserve(s, id, dst), v.(target := v.target[id := dst], free := v.free[dst := v.free[dst] - 1]))
  {
    ReserveInv(s, id, dst);
    hide IdsOk, WorkersOk, JobsOk;
    assert ShowsTier(s, v, dst) && ShowsBlock(s, v, id);
    var s', v' := Reserve(s, id, dst), v.(target := v.target[id := dst], free := v.free[dst := v.free[dst] - 1]);
    forall x: nat ensures ShowsBlock(s', v', x) {
      assert ShowsBlock(s, v, x);
    }
    forall t: nat ensures ShowsTier(s', v', t) {
      assert ShowsTier(s, v, t);
    }
  }

  lemma MoveView(s: Pool, v: View, id: BlockId, dst: TierIndex)
    requires Inv(s) && Shows(s, v) && Allocated(s, id) && id !in s.migrating
    requires dst < |s.free| && s.location[id].tier != dst && s.free[dst] != []
    ensures v.free[dst] > 0 && id in v.tier && v.tier[id] < |v.free| && v.tier[id] != dst
    ensures Inv(Move(s, id, dst))
    ensures Shows(Move(s, id, dst),
                  v.(tier := v.tier[id := dst],
                     free := v.free[dst := v.free[dst] - 1][v.tier[id] := v.free[v.tier[id]] + 1]))
  {
    MoveInv(s, id, dst);
    hide IdsOk, WorkersOk, JobsOk;
    assert ShowsTier(s, v, dst) && ShowsBlock(s, v, id);
    var s', v' := Move(s, id, dst),
                  v.(tier := v.tier[id := dst],
                     free := v.free[dst := v.free[dst] - 1][v.tier[id] := v.free[v.tier[id]] + 1]);
    PopFree(s, dst);
    forall x: nat ensures ShowsBlock(s', v', x) {
      assert ShowsBlock(s, v, x) && BlockOk(s, x);
    }
    forall t: nat ensures ShowsTier(s', v', t) {
      assert ShowsTier(s, v, t);
    }
  }

  lemma WriteView(s: Pool, v: View, id: BlockId, k: nat, b: Byte)
    requires Inv(s) && Shows(s, v) && Allocated(s, id) && id !in s.migrating && k < s.bytes
    ensures id in v.val && k < |v.val[id]|
    ensures Inv(Write(s, id, k, b))
    ensures Shows(Write(s, id, k, b), v.(val := v.val[id := v.val[id][k := b]]))
  {
    WriteInv(s, id, k, b);
    assert ShowsBlock(s, v, id) && BlockOk(s, id);
    var s', v' := Write(s, id, k, b), v.(val := v.val[id := v.val[id][k := b]]);
    forall x: nat ensures ShowsBlock(s', v', x) {
      assert ShowsBlock(s, v, x) && BlockOk(s, x);
    }
    forall t: nat ensures ShowsTier(s', v', t) {
      assert ShowsTier(s, v, t);
    }
  }

  // -------------------------------------------------------------------- drain

  /** Retiring a cancelled job only returns its reserved slot. */
  lemma DrainCancelledView(s: Pool, v: View)
    requires Inv(s) && Shows(s, v) && CanDrain(s) && s.jobs[0].cancelled
    ensures s.jobs[0].dst.tier < |v.free|
    ensures Inv(DrainFront(s))
    ensures var t := s.jobs[0].dst.tier; Shows(DrainFront(s), v.(free := v.free[t := v.free[t] + 1]))
  {
    DrainCancelledInv(s);
    hide IdsOk, WorkersOk;
    assert JobOk(s, 0);
    var s', t := DrainFront(s), s.jobs[0].dst.tier;
    var v' := v.(free := v.free[t := v.free[t] + 1]);
    forall x: nat ensures ShowsBlock(s', v', x) {
      assert ShowsBlock(s, v, x) && MigOk(s, x) && MigOk(s', x);
    }
    forall u: nat ensures ShowsTier(s', v', u) {
      assert ShowsTier(s, v, u);
    }
  }

  /**
   Retiring a job that was not cancelled: the copy is complete, it came from where the block
   still is, and rebinding the block to its new slot keeps its bytes.
   */
  lemma DrainLiveView(s: Pool, v: View)
    requires Inv(s) && Shows(s, v) && CanDrain(s) && !s.jobs[0].cancelled
    ensures var id := s.jobs[0].id;
            id in v.target && id in v.tier && v.tier[id] < |v.free| && id < |s.location|
    ensures var j := s.jobs[0];
            && j.copied == s.bytes && j.src == s.location[j.id]
            && j.src in s.mem && j.dst in s.mem && s.mem[j.dst] == s.mem[j.src]
    ensures Inv(DrainFront(s))
    ensures Shows(DrainFront(s), AfterMigration(v, s.jobs[0].id))
  {
    DrainLiveInv(s);
    FinishedCopy(s, v);
    var s', v' := DrainFront(s), AfterMigration(v, s.jobs[0].id);
    forall x: nat ensures ShowsBlock(s', v', x) {
      DrainLiveBlock(s, v, x);
    }
    forall t: nat ensures ShowsTier(s', v', t) {
      assert ShowsTier(s, v, t);
    }
  }

  lemma FinishedCopy(s: Pool, v: View)
    requires Inv(s) && Shows(s, v) && CanDrain(s) && !s.jobs[0].cancelled
    ensures var id := s.jobs[0].id;
            && id in v.target && id in v.tier && v.tier[id] < |v.free| && id < |s.location|
            && v.target[id] == s.jobs[0].dst.tier && v.tier[id] == s.location[id].tier
    ensures var j := s.jobs[0];
            && j.copied == s.bytes && j.src == s.location[j.id]
            && j.src in s.mem && j.dst in s.mem && s.mem[j.dst] == s.mem[j.src]
  {
    hide IdsOk, WorkersOk;
    var j := s.jobs[0];
    assert JobOk(s, 0) && LiveOk(s, 0) && MigOk(s, j.id) && BlockOk(s, j.id) && CopyOk(s, 0);
    assert ShowsBlock(s, v, j.id);
  }

  lemma DrainLiveBlock(s: Pool, v: View, x: BlockId)
    requires Inv(s) && Shows(s, v) && CanDrain(s) && !s.jobs[0].cancelled && Inv(DrainFront(s))
    requires s.jobs[0].id in v.target && s.jobs[0].id in v.tier && v.tier[s.jobs[0].id] < |v.free|
    ensures ShowsBlock(DrainFront(s), AfterMigration(v, s.jobs[0].id), x)
  {
    FinishedCopy(s, v);
    hide IdsOk, WorkersOk, SlotsOk;
    var s' := DrainFront(s);
    assert ShowsBlock(s, v, x) && MigOk(s, x) && MigOk(s', x);
    assert ShowsBlock(s, v, s.jobs[0].id) && s'.jobs == s.jobs[1..];
  }

  /** The view once the migration of `id` has completed. */
  ghost function AfterMigration(v: View, id: BlockId): View
    requires id in v.target && id in v.tier && v.tier[id] < |v.free|
  {
    v.(tier := v.tier[id := v.target[id]], target := v.target - {id},
       free := v.free[v.tier[id] := v.free[v.tier[id]] + 1])
  }
}
