/** Theorems about every run of the pool: any sequence of scheduler, engine and worker steps. */
module PoolRuns {
  import opened Types
  import opened PoolModel
  import opened PoolProofs
  import opened PoolView
  import opened PoolOps

  /** One step of anybody. A drain is one retired job, so that worker steps may fall between two. */
  datatype Event =
    | AllocateEvent
    | IncrefEvent(id: BlockId)
    | DecrefEvent(id: BlockId)
    | CancelEvent(id: BlockId)
    | MigrateEvent(id: BlockId, dst: TierIndex)
    | MigrateAsyncEvent(id: BlockId, dst: TierIndex)
    | DrainEvent
    | WriteEvent(id: BlockId, k: nat, b: Byte)
    | WorkerEvent(w: nat)

  /** The conditions the pool checks fatally, and: nobody writes a block while it is being copied. */
  ghost predicate Enabled(s: Pool, e: Event) {
    match e
    case IncrefEvent(id) => Allocated(s, id)
    case DecrefEvent(id) => Allocated(s, id)
    case MigrateEvent(id, dst) => Allocated(s, id) && dst < |s.free|
    case MigrateAsyncEvent(id, dst) => Allocated(s, id) && dst < |s.free|
    case WriteEvent(id, k, b) => Allocated(s, id) && id !in s.migrating && k < s.bytes
    case _ => true
  }

  ghost function Next(s: Pool, e: Event): (r: Pool)
    requires Inv(s) && Enabled(s, e)
    ensures Inv(r)
  {
    match e
    case AllocateEvent => AllocateOp(s)
    case IncrefEvent(id) => RecountInv(s, id, s.refcount[id] + 1); Incref(s, id)
    case DecrefEvent(id) => DecrefOp(s, id)
    case CancelEvent(id) => CancelInv(s, id); Cancel(s, id)
    case MigrateEvent(id, dst) => MigrateOp(s, id, dst)
    case MigrateAsyncEvent(id, dst) => MigrateAsyncOp(s, id, dst)
    case DrainEvent => if CanDrain(s) then DrainFrontInv(s); DrainFront(s) else s
    case WriteEvent(id, k, b) => WriteInv(s, id, k, b); Write(s, id, k, b)
    case WorkerEvent(w) => WorkerStepInv(s, w); WorkerStep(s, w)
  }

  ghost predicate Runs(s: Pool, es: seq<Event>)
    requires Inv(s)
    decreases |es|
  {
    es == [] || (Enabled(s, es[0]) && Runs(Next(s, es[0]), es[1..]))
  }

  /** Where a run ends; the invariant holds there, and so in every reachable state. */
  ghost function Run(s: Pool, es: seq<Event>): (r: Pool)
    requires Inv(s) && Runs(s, es)
    ensures Inv(r)
    decreases |es|
  {
    if es == [] then s else Run(Next(s, es[0]), es[1..])
  }

  // ------------------------------------------------------------ state theorems

  /** Slot `l` is free, is where block `id` lives, is reserved by the job at position `i`. */
  ghost predicate IsFree(s: Pool, l: Location) { l.tier < |s.free| && l.slot in s.free[l.tier] }
  ghost predicate IsHome(s: Pool, l: Location, id: BlockId) {
    Allocated(s, id) && id < |s.location| && s.location[id] == l
  }
  ghost predicate IsReserved(s: Pool, l: Location, i: nat) { i < |s.jobs| && s.jobs[i].dst == l }

  /** Every slot is exactly one of free, one block's home, and one undrained job's destination. */
  lemma SlotPartition(s: Pool, l: Location)
    requires Inv(s) && InTier(s, l)
    ensures IsFree(s, l) || (exists id :: IsHome(s, l, id)) || (exists i :: IsReserved(s, l, i))
    ensures forall id :: IsHome(s, l, id) ==> !IsFree(s, l)
    ensures forall i :: IsReserved(s, l, i) ==> !IsFree(s, l)
    ensures forall id, i :: IsHome(s, l, id) ==> !IsReserved(s, l, i)
    ensures forall a, b :: IsHome(s, l, a) && IsHome(s, l, b) ==> a == b
    ensures forall i, j :: IsReserved(s, l, i) && IsReserved(s, l, j) ==> i == j
    ensures NoDup(s.free[l.tier])
  {
    assert OwnerOk(s, l) && TierOk(s, l.tier);
    match s.owner[l] {
      case Nobody => assert IsFree(s, l);
      case Block(id) => assert IsHome(s, l, id);
      case Reserved(n) => assert IsReserved(s, l, n - s.head);
    }
    forall id | IsHome(s, l, id) ensures s.owner[l] == Block(id) {
      assert BlockOk(s, id);
    }
    forall i | IsReserved(s, l, i) ensures s.owner[l] == Reserved(s.head + i) {
      assert JobOk(s, i);
    }
  }

  /** A worker, even one copying for a cancelled job, writes no free slot and no live block's slot. */
  lemma WorkerWritesReserved(s: Pool, w: nat, l: Location)
    requires Inv(s) && InTier(s, l) && l in WorkerStep(s, w).mem && WorkerStep(s, w).mem[l] != s.mem[l]
    ensures exists i: nat :: IsReserved(s, l, i) && i < s.cursor && !s.jobs[i].done
    ensures !IsFree(s, l) && forall id :: !IsHome(s, l, id)
  {
    assert WorkerOk(s, w);
    var i := Place(s, w);
    assert JobOk(s, i);
    assert IsReserved(s, l, i);
    SlotPartition(s, l);
  }

  /** `migrating` and the uncancelled jobs correspond one to one, each job reading where its block is. */
  lemma MigratingBijection(s: Pool)
    requires Inv(s)
    ensures forall i :: 0 <= i < |s.jobs| && !s.jobs[i].cancelled ==>
              s.jobs[i].id in s.migrating && s.migrating[s.jobs[i].id] == s.head + i
    ensures forall id :: id in s.migrating ==>
              exists i :: 0 <= i < |s.jobs| && !s.jobs[i].cancelled && s.jobs[i].id == id
                          && s.migrating[id] == s.head + i
                          && Allocated(s, id) && s.jobs[i].src == s.location[id]
    ensures forall i, j | 0 <= i < |s.jobs| && 0 <= j < |s.jobs| && !s.jobs[i].cancelled && !s.jobs[j].cancelled ::
              s.jobs[i].id == s.jobs[j].id ==> i == j
  {
    forall i | 0 <= i < |s.jobs| && !s.jobs[i].cancelled
      ensures s.jobs[i].id in s.migrating && s.migrating[s.jobs[i].id] == s.head + i
    {
      assert LiveOk(s, i);
    }
    forall id | id in s.migrating
      ensures exists i :: 0 <= i < |s.jobs| && !s.jobs[i].cancelled && s.jobs[i].id == id
                          && s.migrating[id] == s.head + i
                          && Allocated(s, id) && s.jobs[i].src == s.location[id]
    {
      assert MigOk(s, id);
      var i := s.migrating[id] - s.head;
      assert s.jobs[i].id == id;
    }
  }

  /** Ids never run out before compute slots: allocate() fails only when tier 0 is full. */
  lemma IdsOutlastSlots(s: Pool)
    requires Inv(s)
    ensures CanAllocate(s) <==> s.free[0] != []
  {
    SumLenBounds(s.free, 0);
  }

  /** When every queued copy has finished, a drain empties the queue and leaves nothing in flight. */
  lemma {:induction false} DrainAll(s: Pool)
    requires Inv(s) && forall i :: 0 <= i < |s.jobs| ==> s.jobs[i].done
    ensures DrainOp(s).jobs == [] && DrainOp(s).migrating == map[]
    decreases |s.jobs|
  {
    if s.jobs != [] {
      DrainFrontInv(s);
      DrainAll(DrainFront(s));
    } else {
      assert forall id :: id in s.migrating ==> MigOk(s, id);
    }
  }

  /** The job worker `w` holds is in the queue of `s'` as it was in that of `s`. */
  ghost predicate StillHeld(s: Pool, s': Pool, w: nat) {
    !Pc(s, w).Idle? ==>
      var n := Pc(s, w).job;
      && Pc(s', w) == Pc(s, w)
      && s.head <= n < s.head + |s.jobs| && s'.head <= n < s'.head + |s'.jobs|
      && s'.jobs[n - s'.head] == s.jobs[n - s.head]
  }

  /** A finished job is held by nobody, so retiring it spares the jobs that are. */
  lemma DrainFrontSpares(s: Pool, w: nat)
    requires Inv(s) && CanDrain(s)
    ensures StillHeld(s, DrainFront(s), w)
  {
    hide IdsOk, SlotsOk, JobsOk;
    assert WorkerOk(s, w);
  }

  /** A job some worker still holds is never destroyed by a drain, nor changed. */
  lemma {:induction false} DrainSparesHeld(s: Pool, w: nat)
    requires Inv(s)
    ensures StillHeld(s, DrainOp(s), w)
    decreases |s.jobs|
  {
    if CanDrain(s) {
      DrainFrontInv(s);
      DrainFrontSpares(s, w);
      DrainSparesHeld(DrainFront(s), w);
    } else {
      assert WorkerOk(s, w);
    }
  }

  /** Byte offset of an allocated block within its tier's arena: block_offset(). */
  ghost function Offset(s: Pool, id: BlockId): nat
    requires Inv(s) && Allocated(s, id)
  {
    s.location[id].slot * s.bytes
  }

  /** Blocks of one tier occupy disjoint byte ranges inside the capacity the pool was given. */
  lemma BlocksDoNotOverlap(s: Pool, a: BlockId, b: BlockId)
    requires Inv(s) && Allocated(s, a) && Allocated(s, b)
    ensures s.location[a].tier < |s.caps|
    ensures Offset(s, a) + s.bytes <= s.caps[s.location[a].tier] * s.bytes
    ensures a != b && s.location[a].tier == s.location[b].tier ==>
              Offset(s, a) + s.bytes <= Offset(s, b) || Offset(s, b) + s.bytes <= Offset(s, a)
  {
    assert BlockOk(s, a) && BlockOk(s, b);
    var x, y, c := s.location[a].slot, s.location[b].slot, s.caps[s.location[a].tier];
    Spaced(x, c, s.bytes);
    if x < y {
      Spaced(x, y, s.bytes);
    } else if y < x {
      Spaced(y, x, s.bytes);
    }
  }

  lemma {:induction false} Spaced(x: nat, y: nat, n: nat)
    requires x < y
    ensures x * n + n <= y * n
  {
    if x + 1 < y {
      Spaced(x, y - 1, n);
      assert y * n == (y - 1) * n + n;
    }
  }

  // -------------------------------------------------------------- run theorems

  ghost predicate Claims(s: Pool, e: Event)
    requires Inv(s)
  {
    e.WorkerEvent? && Pc(s, e.w).Idle? && s.cursor < |s.jobs|
  }

  /** The numbers of the jobs claimed along a run, in order. */
  ghost function ClaimLog(s: Pool, es: seq<Event>): seq<nat>
    requires Inv(s) && Runs(s, es)
    decreases |es|
  {
    if es == [] then []
    else (if Claims(s, es[0]) then [s.head + s.cursor] else []) + ClaimLog(Next(s, es[0]), es[1..])
  }

  lemma CursorMoves(s: Pool, e: Event)
    requires Inv(s) && Enabled(s, e)
    ensures var s' := Next(s, e);
            s'.head + s'.cursor == s.head + s.cursor + (if Claims(s, e) then 1 else 0)
  {
    if e.DrainEvent? && CanDrain(s) {
      assert JobOk(s, 0);
    } else if e.WorkerEvent? {
      assert WorkerOk(s, e.w);
    }
  }

  /** Jobs are claimed in queue order and each of them once, whatever the number of workers. */
  lemma {:induction false} ClaimedOnceInOrder(s: Pool, es: seq<Event>)
    requires Inv(s) && Runs(s, es)
    ensures var log := ClaimLog(s, es);
            && (forall k :: 0 <= k < |log| ==> log[k] == s.head + s.cursor + k)
            && Run(s, es).head + Run(s, es).cursor == s.head + s.cursor + |log|
    decreases |es|
  {
    if es != [] {
      CursorMoves(s, es[0]);
      ClaimedOnceInOrder(Next(s, es[0]), es[1..]);
    }
  }

  /** Worker `w` takes `m` steps. */
  ghost function WorkOn(s: Pool, w: nat, m: nat): (r: Pool)
    requires Inv(s)
    ensures Inv(r)
    decreases m
  {
    if m == 0 then s else
      WorkerStepInv(s, w);
      WorkOn(WorkerStep(s, w), w, m - 1)
  }

  /** The steps left to the worker that holds a job: one per byte left, and those around the copy. */
  ghost function StepsLeft(s: Pool, w: nat): nat
    requires Inv(s)
  {
    match Pc(s, w)
    case Idle => 0
    case Claimed(n) => if s.jobs[Place(s, w)].cancelled then 2 else s.bytes - Min(s.jobs[Place(s, w)].copied, s.bytes) + 3
    case Copying(n) => s.bytes - Min(s.jobs[Place(s, w)].copied, s.bytes) + 2
    case Finishing(n) => 1
  }

  function Min(a: nat, b: nat): nat { if a <= b then a else b }

  /** A step of the worker that holds a job brings it closer to its end, and the last one sets `done`. */
  lemma StepNearer(s: Pool, w: nat)
    requires Inv(s) && !Pc(s, w).Idle?
    ensures var s', n := WorkerStep(s, w), Pc(s, w).job;
            && Inv(s') && s'.head == s.head && |s'.jobs| == |s.jobs| && s.head <= n < s.head + |s.jobs|
            && StepsLeft(s', w) < StepsLeft(s, w)
            && (if Pc(s', w).Idle? then s'.jobs[n - s.head].done else Pc(s', w).job == n)
  {
    WorkerStepInv(s, w);
    hide IdsOk, SlotsOk;
    assert WorkerOk(s, w) && JobOk(s, Place(s, w));
  }

  /** Left to itself, a worker finishes the job it holds: it ends idle, with the job done. */
  lemma {:induction false} JobGetsDone(s: Pool, w: nat) returns (m: nat)
    requires Inv(s) && !Pc(s, w).Idle?
    ensures var s', n := WorkOn(s, w, m), Pc(s, w).job;
            && m <= StepsLeft(s, w) && s'.head == s.head && Pc(s', w).Idle?
            && s.head <= n < s.head + |s'.jobs| && s'.jobs[n - s.head].done
    decreases StepsLeft(s, w)
  {
    StepNearer(s, w);
    var s' := WorkerStep(s, w);
    if Pc(s', w).Idle? {
      m := 1;
      assert WorkOn(s', w, 0) == s';
    } else {
      m := JobGetsDone(s', w);
      m := m + 1;
    }
  }

  /** Block `id` stays allocated along the run and nobody writes to it. */
  ghost predicate Quiet(s: Pool, es: seq<Event>, id: BlockId)
    requires Inv(s) && Runs(s, es)
    decreases |es|
  {
    && Allocated(s, id)
    && (es != [] ==> !(es[0].WriteEvent? && es[0].id == id) && Quiet(Next(s, es[0]), es[1..], id))
  }

  ghost function BytesOf(s: Pool, id: BlockId): seq<Byte>
    requires Inv(s) && Allocated(s, id)
  {
    assert BlockOk(s, id);
    s.mem[s.location[id]]
  }

  /** One step keeps the bytes of every block it neither frees nor writes. */
  lemma StepKeepsBytes(s: Pool, v: View, e: Event, id: BlockId)
    requires Inv(s) && Shows(s, v) && Enabled(s, e)
    requires Allocated(s, id) && Allocated(Next(s, e), id) && !(e.WriteEvent? && e.id == id)
    ensures exists v' :: Shows(Next(s, e), v')
    ensures BytesOf(Next(s, e), id) == BytesOf(s, id)
  {
    var v' := StepView(s, v, e);
    assert ShowsBlock(s, v, id) && ShowsBlock(Next(s, e), v', id);
  }

  /** Every step has a view, in which every surviving, unwritten block has the value it had. */
  lemma StepView(s: Pool, v: View, e: Event) returns (v': View)
    requires Inv(s) && Shows(s, v) && Enabled(s, e)
    ensures Shows(Next(s, e), v')
    ensures forall id :: id in v.val && id in v'.val && !(e.WriteEvent? && e.id == id) ==> v'.val[id] == v.val[id]
  {
    match e
    case AllocateEvent =>
      if CanAllocate(s) {
        v' := AllocateInView(s, v);
      } else {
        v' := v;
      }
    case IncrefEvent(id) =>
      RecountView(s, v, id, s.refcount[id] + 1);
      v' := v.(rc := v.rc[id := s.refcount[id] + 1]);
    case DecrefEvent(id) => DecrefView(s, v, id); v' := VDecref(v, id);
    case CancelEvent(id) => CancelView(s, v, id); v' := v.(target := v.target - {id});
    case MigrateEvent(id, dst) => MigrateView(s, v, id, dst); v' := VMigrate(v, id, dst);
    case MigrateAsyncEvent(id, dst) =>
      MigrateAsyncView(s, v, id, dst);
      v' := if CanReserve(s, id, dst) then VReserve(v, id, dst) else v;
    case DrainEvent => v' := DrainEventView(s, v);
    case WriteEvent(id, k, b) => WriteView(s, v, id, k, b); v' := v.(val := v.val[id := v.val[id][k := b]]);
    case WorkerEvent(w) => WorkerInvisible(s, v, w); v' := v;
  }

  lemma DrainEventView(s: Pool, v: View) returns (v': View)
    requires Inv(s) && Shows(s, v)
    ensures Shows(Next(s, DrainEvent), v') && v'.val == v.val
  {
    if !CanDrain(s) {
      v' := v;
    } else if s.jobs[0].cancelled {
      DrainCancelledView(s, v);
      var t := s.jobs[0].dst.tier;
      v' := v.(free := v.free[t := v.free[t] + 1]);
    } else {
      DrainLiveView(s, v);
      v' := AfterMigration(v, s.jobs[0].id);
    }
  }

  /**
   Migration preserves content over every run: a block that stays allocated and is not
   written to keeps its bytes, however it is moved, and however the copies are
   interleaved, cancelled and torn.
   */
  lemma {:induction false} RunKeepsBytes(s: Pool, v: View, es: seq<Event>, id: BlockId)
    requires Inv(s) && Shows(s, v) && Runs(s, es) && Quiet(s, es, id)
    ensures Allocated(Run(s, es), id) && BytesOf(Run(s, es), id) == BytesOf(s, id)
    decreases |es|
  {
    if es != [] {
      StepKeepsBytes(s, v, es[0], id);
      var v' :| Shows(Next(s, es[0]), v');
      RunKeepsBytes(Next(s, es[0]), v', es[1..], id);
    }
  }
}
