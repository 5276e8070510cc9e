/** Every step of the pool protocol keeps its invariant. */
module PoolProofs {
  import opened Types
  import opened PoolModel

  // ------------------------------------------------------------- worker steps

  lemma WorkerStepInv(s: Pool, w: nat)
    requires Inv(s)
    ensures Inv(WorkerStep(s, w))
  {
    match Pc(s, w)
    case Idle => if s.cursor < |s.jobs| { ClaimInv(s, w); }
    case Claimed(n) => TestInv(s, w);
    case Copying(n) => if s.jobs[Place(s, w)].copied < s.bytes { CopyByteInv(s, w); } else { CopiedInv(s, w); }
    case Finishing(n) => FinishInv(s, w);
  }

  lemma ClaimInv(s: Pool, w: nat)
    requires Inv(s) && Pc(s, w).Idle? && s.cursor < |s.jobs|
    ensures Inv(Claim(s, w))
  {
    var s' := Claim(s, w);
    BookUntouched(s, s');
    QueueUntouched(s, s');
    assert JobOk(s, s.cursor);
    forall v: nat ensures WorkerOk(s', v) {
      assert WorkerOk(s, v);
    }
    forall u: nat, v: nat ensures Apart(s', u, v) {
      assert Apart(s, u, v) && WorkerOk(s, u) && WorkerOk(s, v);
    }
  }

  lemma TestInv(s: Pool, w: nat)
    requires Inv(s) && Pc(s, w).Claimed?
    ensures Inv(Test(s, w))
  {
    var s' := Test(s, w);
    assert WorkerOk(s, w);
    BookUntouched(s, s');
    QueueUntouched(s, s');
    SameHolders(s, s', w);
  }

  lemma CopiedInv(s: Pool, w: nat)
    requires Inv(s) && Pc(s, w).Copying? && s.jobs[Place(s, w)].copied >= s.bytes
    ensures Inv(Copied(s, w))
  {
    var s' := Copied(s, w);
    assert WorkerOk(s, w) && JobOk(s, Place(s, w));
    BookUntouched(s, s');
    QueueUntouched(s, s');
    SameHolders(s, s', w);
  }

  lemma FinishInv(s: Pool, w: nat)
    requires Inv(s) && Pc(s, w).Finishing?
    ensures Inv(Finish(s, w))
  {
    var s' := Finish(s, w);
    assert WorkerOk(s, w);
    BookUntouched(s, s');
    QueueUntouched(s, s');
    forall v: nat ensures WorkerOk(s', v) {
      assert WorkerOk(s, v) && Apart(s, v, w);
    }
    forall u: nat, v: nat ensures Apart(s', u, v) {
      assert Apart(s, u, v);
    }
  }

  lemma CopyByteInv(s: Pool, w: nat)
    requires Inv(s) && Pc(s, w).Copying? && s.jobs[Place(s, w)].copied < s.bytes
    ensures Inv(CopyByte(s, w))
  {
    hide IdsOk;
    var s' := CopyByte(s, w);
    assert WorkerOk(s, w) && JobOk(s, Place(s, w));
    BookUntouched(s, s');
    forall i: nat ensures JobOk(s', i) && LiveOk(s', i) {
      assert JobOk(s, i) && LiveOk(s, i);
    }
    forall id: nat ensures MigOk(s', id) {
      assert MigOk(s, id);
    }
    forall i: nat ensures CopyOk(s', i) {
      CopyKeeps(s, w, i);
    }
    SameHolders(s, s', w);
  }

  /** A byte moved by one worker keeps every uncancelled job in agreement with its source. */
  lemma CopyKeeps(s: Pool, w: nat, i: nat)
    requires Inv(s) && Pc(s, w).Copying? && s.jobs[Place(s, w)].copied < s.bytes
    ensures CopyOk(CopyByte(s, w), i)
  {
    assert CopyOk(s, i) && JobOk(s, Place(s, w));
    if i < |s.jobs| && !s.jobs[i].cancelled {
      var j := s.jobs[i];
      assert JobOk(s, i) && LiveOk(s, i) && MigOk(s, j.id) && BlockOk(s, j.id);
    }
  }

  /** The tables only the scheduler writes are out of a worker's reach. */
  lemma BookUntouched(s: Pool, s': Pool)
    requires Shape(s) && IdsOk(s) && SlotsOk(s)
    requires s' == s.(jobs := s'.jobs, workers := s'.workers, cursor := s'.cursor, mem := s'.mem)
    requires s'.mem.Keys == s.mem.Keys && (forall l :: l in s.mem ==> |s'.mem[l]| == s.bytes)
    requires |s'.jobs| == |s.jobs|
    requires forall i :: 0 <= i < |s.jobs| ==> s'.jobs[i].dst == s.jobs[i].dst
    ensures Shape(s') && IdsOk(s') && SlotsOk(s')
  {
    forall id: nat ensures IdOk(s', id) && BlockOk(s', id) {
      assert IdOk(s, id) && BlockOk(s, id);
    }
    forall t: nat ensures TierOk(s', t) {
      assert TierOk(s, t);
      assert t < |s.free| ==> forall x :: Owns(s, Nobody, Location(t, x)) == Owns(s', Nobody, Location(t, x));
    }
    forall l ensures OwnerOk(s', l) {
      assert OwnerOk(s, l);
    }
  }

  /** Steps that only advance the cursor or set a justified `done` keep the queue's invariant. */
  lemma QueueUntouched(s: Pool, s': Pool)
    requires JobsOk(s)
    requires s' == s.(jobs := s'.jobs, workers := s'.workers, cursor := s'.cursor)
    requires s.cursor <= s'.cursor <= |s.jobs| == |s'.jobs|
    requires forall i :: 0 <= i < |s.jobs| ==>
               s'.jobs[i] == s.jobs[i].(done := s'.jobs[i].done)
               && (s'.jobs[i].done ==>
                     s.jobs[i].done || (i < s.cursor && (s.jobs[i].cancelled || s.jobs[i].copied == s.bytes)))
    ensures JobsOk(s')
  {
    forall i: nat ensures JobOk(s', i) && LiveOk(s', i) && CopyOk(s', i) {
      assert JobOk(s, i) && LiveOk(s, i) && CopyOk(s, i);
    }
    forall id: nat ensures MigOk(s', id) {
      assert MigOk(s, id);
    }
  }

  /** A step in the middle of worker `w`'s job moves no other worker and hands over no job. */
  lemma SameHolders(s: Pool, s': Pool, w: nat)
    requires WorkersOk(s) && !Pc(s, w).Idle? && !Pc(s', w).Idle? && Pc(s', w).job == Pc(s, w).job
    requires s'.head == s.head && s'.cursor == s.cursor <= |s.jobs| == |s'.jobs| && s'.bytes == s.bytes
    requires forall v: nat :: v != w ==> Pc(s', v) == Pc(s, v)
    requires forall i :: 0 <= i < |s.jobs| && s.head + i != Pc(s, w).job ==> s'.jobs[i] == s.jobs[i]
    requires s.head <= Pc(s, w).job < s.head + |s.jobs|
    requires var j := s'.jobs[Pc(s, w).job - s.head];
             !j.done && (Pc(s', w).Finishing? ==> j.cancelled || j.copied == s.bytes)
    ensures WorkersOk(s')
  {
    forall v: nat ensures WorkerOk(s', v) {
      assert WorkerOk(s, v) && Apart(s, v, w);
    }
    forall u: nat, v: nat ensures Apart(s', u, v) {
      assert Apart(s, u, v);
    }
  }

  // ---------------------------------------------------------- scheduler steps

  /** Workers and their jobs are untouched by a step that leaves the queue alone. */
  lemma SameWorkers(s: Pool, s': Pool)
    requires WorkersOk(s)
    requires s'.workers == s.workers && s'.jobs == s.jobs && s'.cursor == s.cursor && s'.head == s.head
    requires s'.bytes == s.bytes
    ensures WorkersOk(s')
  {
    forall v: nat ensures WorkerOk(s', v) {
      assert WorkerOk(s, v);
    }
    forall u: nat, v: nat ensures Apart(s', u, v) {
      assert Apart(s, u, v);
    }
  }

  /** The queue's invariant survives a step that keeps reservations, memory, and every migrating block in place. */
  lemma SameQueue(s: Pool, s': Pool)
    requires Shape(s) && JobsOk(s)
    requires s'.jobs == s.jobs && s'.head == s.head && s'.cursor == s.cursor && s'.bytes == s.bytes
    requires s'.migrating == s.migrating && s'.mem == s.mem
    requires forall l, n :: Owns(s, Reserved(n), l) ==> Owns(s', Reserved(n), l)
    requires forall id :: id in s.migrating && Allocated(s, id) && id < |s.location| ==>
               Allocated(s', id) && id < |s'.location| && s'.location[id] == s.location[id]
    ensures JobsOk(s')
  {
    forall i: nat ensures JobOk(s', i) && LiveOk(s', i) && CopyOk(s', i) {
      assert JobOk(s, i) && LiveOk(s, i) && CopyOk(s, i);
    }
    forall id: nat ensures MigOk(s', id) {
      assert MigOk(s, id);
    }
  }

  /** Popping the back of tier `t`'s free list takes a slot nobody owned. */
  lemma PopFree(s: Pool, t: TierIndex)
    requires SlotsOk(s) && t < |s.free| && s.free[t] != []
    ensures Owns(s, Nobody, Location(t, Last(s.free[t])))
    ensures NoDup(ButLast(s.free[t]))
    ensures forall x :: x in ButLast(s.free[t]) <==> x in s.free[t] && x != Last(s.free[t])
  {
    assert TierOk(s, t);
    NoDupPop(s.free[t]);
  }

  lemma AllocateInv(s: Pool)
    requires Inv(s) && CanAllocate(s)
    ensures Inv(Allocate(s))
  {
    var s' := Allocate(s);
    var id, l := Last(s.freeIds), Location(0, Last(s.free[0]));
    PopFree(s, 0);
    NoDupPop(s.freeIds);
    SumLenUpdate(s.free, 0, ButLast(s.free[0]));
    assert IdOk(s, id) && MigOk(s, id);
    SameWorkers(s, s');
    SameQueue(s, s');
    forall x: nat ensures IdOk(s', x) && BlockOk(s', x) {
      assert IdOk(s, x) && BlockOk(s, x);
    }
    forall t: nat ensures TierOk(s', t) {
      assert TierOk(s, t);
    }
    forall m ensures OwnerOk(s', m) {
      assert OwnerOk(s, m);
    }
  }

  /** Only the id's count changes, and it stays positive. */
  lemma RecountInv(s: Pool, id: BlockId, n: nat)
    requires Inv(s) && Allocated(s, id) && n > 0
    ensures Inv(s.(refcount := s.refcount[id := n]))
  {
    var s' := s.(refcount := s.refcount[id := n]);
    SameWorkers(s, s');
    SameQueue(s, s');
    forall x: nat ensures IdOk(s', x) && BlockOk(s', x) {
      assert IdOk(s, x) && BlockOk(s, x);
    }
    forall t: nat ensures TierOk(s', t) {
      assert TierOk(s, t);
    }
    forall m ensures OwnerOk(s', m) {
      assert OwnerOk(s, m);
    }
  }

  lemma CancelInv(s: Pool, id: BlockId)
    requires Inv(s)
    ensures Inv(Cancel(s, id))
  {
    if id in s.migrating {
      var s' := Cancel(s, id);
      assert MigOk(s, id);
      BookUntouched(s, s.(jobs := s'.jobs));
      assert Shape(s') && IdsOk(s') && SlotsOk(s') by {
        ForgetMigrating(s.(jobs := s'.jobs), s'.migrating);
      }
      forall i: nat ensures JobOk(s', i) && LiveOk(s', i) && CopyOk(s', i) {
        assert JobOk(s, i) && LiveOk(s, i) && CopyOk(s, i);
      }
      forall x: nat ensures MigOk(s', x) {
        assert MigOk(s, x);
      }
      forall v: nat ensures WorkerOk(s', v) {
        assert WorkerOk(s, v);
      }
      forall u: nat, v: nat ensures Apart(s', u, v) {
        assert Apart(s, u, v);
      }
    }
  }

  lemma ForgetMigrating(s: Pool, m: map<BlockId, nat>)
    requires Shape(s) && IdsOk(s) && SlotsOk(s)
    ensures var s' := s.(migrating := m); Shape(s') && IdsOk(s') && SlotsOk(s')
  {
    var s' := s.(migrating := m);
    forall x: nat ensures IdOk(s', x) && BlockOk(s', x) {
      assert IdOk(s, x) && BlockOk(s, x);
    }
    forall t: nat ensures TierOk(s', t) {
      assert TierOk(s, t);
    }
    forall l ensures OwnerOk(s', l) {
      assert OwnerOk(s, l);
    }
  }

  lemma FreeInv(s: Pool, id: BlockId)
    requires Inv(s) && Allocated(s, id) && id !in s.migrating
    ensures Inv(Free(s, id))
  {
    var s' := Free(s, id);
    assert BlockOk(s, id) && IdOk(s, id);
    var l := s.location[id];
    assert TierOk(s, l.tier);
    NoDupPush(s.free[l.tier], l.slot);
    NoDupPush(s.freeIds, id);
    SumLenUpdate(s.free, l.tier, s.free[l.tier] + [l.slot]);
    SameWorkers(s, s');
    SameQueue(s, s');
    forall x: nat ensures IdOk(s', x) && BlockOk(s', x) {
      assert IdOk(s, x) && BlockOk(s, x);
    }
    forall t: nat ensures TierOk(s', t) {
      assert TierOk(s, t);
    }
    forall m ensures OwnerOk(s', m) {
      assert OwnerOk(s, m);
    }
  }

  lemma ReserveInv(s: Pool, id: BlockId, dst: TierIndex)
    requires Inv(s) && Allocated(s, id) && CanReserve(s, id, dst)
    ensures Inv(Reserve(s, id, dst))
  {
    var s' := Reserve(s, id, dst);
    var l := Location(dst, Last(s.free[dst]));
    PopFree(s, dst);
    assert BlockOk(s, id);
    SumLenUpdate(s.free, dst, ButLast(s.free[dst]));
    forall x: nat ensures IdOk(s', x) && BlockOk(s', x) {
      assert IdOk(s, x) && BlockOk(s, x);
    }
    forall t: nat ensures TierOk(s', t) {
      assert TierOk(s, t);
    }
    forall m ensures OwnerOk(s', m) {
      assert OwnerOk(s, m);
    }
    ReserveQueue(s, id, dst);
    LongerQueue(s, s');
  }

  lemma ReserveQueue(s: Pool, id: BlockId, dst: TierIndex)
    requires Inv(s) && Allocated(s, id) && CanReserve(s, id, dst)
    ensures JobsOk(Reserve(s, id, dst))
  {
    var s' := Reserve(s, id, dst);
    PopFree(s, dst);
    assert BlockOk(s, id);
    forall i: nat ensures JobOk(s', i) && LiveOk(s', i) && CopyOk(s', i) {
      assert JobOk(s, i) && LiveOk(s, i) && CopyOk(s, i);
    }
    forall x: nat ensures MigOk(s', x) {
      assert MigOk(s, x);
    }
  }

  /** A job appended to the queue is nobody's yet. */
  lemma LongerQueue(s: Pool, s': Pool)
    requires WorkersOk(s) && s.cursor <= |s.jobs| <= |s'.jobs| && s'.jobs[..|s.jobs|] == s.jobs
    requires s'.workers == s.workers && s'.cursor == s.cursor && s'.head == s.head && s'.bytes == s.bytes
    ensures WorkersOk(s')
  {
    assert forall i :: 0 <= i < |s.jobs| ==> s.jobs[i] == s'.jobs[..|s.jobs|][i];
    forall v: nat ensures WorkerOk(s', v) {
      assert WorkerOk(s, v);
    }
    forall u: nat, v: nat ensures Apart(s', u, v) {
      assert Apart(s, u, v);
    }
  }

  lemma MoveInv(s: Pool, id: BlockId, dst: TierIndex)
    requires Inv(s) && Allocated(s, id) && id !in s.migrating
    requires dst < |s.free| && s.location[id].tier != dst && s.free[dst] != []
    ensures Inv(Move(s, id, dst))
  {
    var s' := Move(s, id, dst);
    var l, to := s.location[id], Location(dst, Last(s.free[dst]));
    assert BlockOk(s, id);
    PopFree(s, dst);
    assert TierOk(s, l.tier);
    NoDupPush(s.free[l.tier], l.slot);
    SumLenUpdate(s.free, dst, ButLast(s.free[dst]));
    SumLenUpdate(s.free[dst := ButLast(s.free[dst])], l.tier, s.free[l.tier] + [l.slot]);
    SameWorkers(s, s');
    MoveQueue(s, id, dst);
    forall x: nat ensures IdOk(s', x) && BlockOk(s', x) {
      assert IdOk(s, x) && BlockOk(s, x);
    }
    forall t: nat ensures TierOk(s', t) {
      assert TierOk(s, t);
    }
    forall m ensures OwnerOk(s', m) {
      assert OwnerOk(s, m);
    }
  }

  lemma MoveQueue(s: Pool, id: BlockId, dst: TierIndex)
    requires Inv(s) && Allocated(s, id) && id !in s.migrating
    requires dst < |s.free| && s.location[id].tier != dst && s.free[dst] != []
    ensures JobsOk(Move(s, id, dst))
  {
    var s' := Move(s, id, dst);
    PopFree(s, dst);
    assert BlockOk(s, id);
    forall x: nat ensures MigOk(s', x) {
      assert MigOk(s, x);
    }
    forall i: nat ensures JobOk(s', i) && LiveOk(s', i) && CopyOk(s', i) {
      assert JobOk(s, i) && LiveOk(s, i) && CopyOk(s, i);
      if i < |s.jobs| {
        assert MigOk(s, s.jobs[i].id) && BlockOk(s, s.jobs[i].id);
      }
    }
  }

  lemma WriteInv(s: Pool, id: BlockId, k: nat, b: Byte)
    requires Inv(s) && Allocated(s, id) && id !in s.migrating && k < s.bytes
    ensures Inv(Write(s, id, k, b))
  {
    var s' := Write(s, id, k, b);
    assert BlockOk(s, id);
    BookUntouched(s, s');
    SameWorkers(s, s');
    forall x: nat ensures MigOk(s', x) {
      assert MigOk(s, x);
    }
    forall i: nat ensures JobOk(s', i) && LiveOk(s', i) && CopyOk(s', i) {
      assert JobOk(s, i) && LiveOk(s, i) && CopyOk(s, i);
      if i < |s.jobs| {
        assert MigOk(s, s.jobs[i].id) && BlockOk(s, s.jobs[i].id);
      }
    }
  }

  // -------------------------------------------------------------------- drain

  /** The front job leaves the queue; everything else keeps its number. */
  lemma PopQueue(s: Pool, s': Pool)
    requires Inv(s) && CanDrain(s)
    requires s'.jobs == s.jobs[1..] && s'.cursor == s.cursor - 1 && s'.head == s.head + 1
    requires s'.workers == s.workers && s'.bytes == s.bytes
    ensures WorkersOk(s')
  {
    forall v: nat ensures WorkerOk(s', v) {
      assert WorkerOk(s, v);
    }
    forall u: nat, v: nat ensures Apart(s', u, v) {
      assert Apart(s, u, v);
    }
  }

  /** The jobs behind the front one are unaffected by its settlement. */
  lemma PopJobs(s: Pool)
    requires Inv(s) && CanDrain(s)
    ensures JobsOk(DrainFront(s))
  {
    hide IdsOk, WorkersOk;
    var s' := DrainFront(s);
    var j := s.jobs[0];
    assert JobOk(s, 0) && LiveOk(s, 0) && MigOk(s, j.id) && BlockOk(s, j.id);
    forall i: nat ensures JobOk(s', i) && LiveOk(s', i) && CopyOk(s', i) {
      assert JobOk(s, i + 1) && LiveOk(s, i + 1) && CopyOk(s, i + 1);
    }
    forall x: nat ensures MigOk(s', x) {
      assert MigOk(s, x);
    }
  }

  lemma DrainCancelledInv(s: Pool)
    requires Inv(s) && CanDrain(s) && s.jobs[0].cancelled
    ensures Inv(DrainFront(s))
  {
    var s' := DrainFront(s);
    var l := s.jobs[0].dst;
    assert JobOk(s, 0) && TierOk(s, l.tier);
    NoDupPush(s.free[l.tier], l.slot);
    SumLenUpdate(s.free, l.tier, s.free[l.tier] + [l.slot]);
    PopQueue(s, s');
    PopJobs(s);
    forall x: nat ensures IdOk(s', x) && BlockOk(s', x) {
      assert IdOk(s, x) && BlockOk(s, x);
    }
    forall t: nat ensures TierOk(s', t) {
      assert TierOk(s, t);
    }
    forall m ensures OwnerOk(s', m) {
      assert OwnerOk(s, m);
    }
  }

  lemma DrainLiveInv(s: Pool)
    requires Inv(s) && CanDrain(s) && !s.jobs[0].cancelled
    ensures Inv(DrainFront(s))
  {
    var s' := DrainFront(s);
    var j := s.jobs[0];
    assert JobOk(s, 0) && LiveOk(s, 0) && MigOk(s, j.id) && BlockOk(s, j.id);
    var l := s.location[j.id];
    assert TierOk(s, l.tier);
    NoDupPush(s.free[l.tier], l.slot);
    SumLenUpdate(s.free, l.tier, s.free[l.tier] + [l.slot]);
    PopQueue(s, s');
    PopJobs(s);
    forall x: nat ensures IdOk(s', x) && BlockOk(s', x) {
      assert IdOk(s, x) && BlockOk(s, x);
    }
    forall t: nat ensures TierOk(s', t) {
      assert TierOk(s, t);
    }
    forall m ensures OwnerOk(s', m) {
      assert OwnerOk(s, m);
    }
  }
}
