/**
 The block pool as a transition system: one scheduler thread, any number of copy
 workers, and every interleaving of their steps.

 `jobs` is the FIFO of queued copies. A job is referred to by its enqueue number, which
 plays the part of the job's address: the job numbered n sits at position `n - head`,
 where `head` counts the jobs already drained. A worker's memcpy is one step per byte, so
 that cancellation, reuse of the source slot, and engine writes can all land inside it.

 `owner` is an auxiliary variable: it names, for every slot, the one party the slot
 belongs to. No step reads it.
 */
module PoolModel {
  import opened Types

  datatype Location = Location(tier: TierIndex, slot: nat)

  /** A queued copy. `copied` counts the bytes its worker has moved so far. */
  datatype Job = Job(id: BlockId, src: Location, dst: Location,
                     copied: nat, done: bool, cancelled: bool)

  /** Where a worker stands: about to test `cancelled`, inside memcpy, about to set `done`. */
  datatype Worker = Idle | Claimed(job: nat) | Copying(job: nat) | Finishing(job: nat)

  datatype Owner = Nobody | Block(id: BlockId) | Reserved(job: nat)

  datatype Pool = Pool(
    bytes: nat,                       // bytes per block
    caps: seq<nat>,                   // slots per tier
    host: seq<bool>,                  // is the tier host-addressable?
    free: seq<seq<nat>>,              // free slots per tier, popped from the back
    location: seq<Location>,          // by block id
    refcount: seq<nat>,               // by block id
    freeIds: seq<BlockId>,
    jobs: seq<Job>,
    migrating: map<BlockId, nat>,     // block id -> number of its live job
    cursor: nat,                      // position of the first unclaimed job
    head: nat,
    workers: map<nat, Worker>,
    mem: map<Location, seq<Byte>>,
    owner: map<Location, Owner>)

  // ---------------------------------------------------------------- invariant

  ghost predicate InTier(s: Pool, l: Location) {
    l.tier < |s.caps| && l.slot < s.caps[l.tier]
  }

  predicate Allocated(s: Pool, id: BlockId) {
    id < |s.refcount| && s.refcount[id] > 0
  }

  ghost predicate Owns(s: Pool, o: Owner, l: Location) {
    l in s.owner && s.owner[l] == o
  }

  ghost predicate Shape(s: Pool) {
    && |s.free| == |s.caps| == |s.host| > 0
    && |s.location| == |s.refcount|
    && s.owner.Keys == s.mem.Keys
    && (forall l :: l in s.mem <==> InTier(s, l))
    && (forall l :: l in s.mem ==> |s.mem[l]| == s.bytes)
  }

  /** The free ids are exactly the ids nobody holds. */
  ghost predicate IdOk(s: Pool, id: BlockId) {
    id in s.freeIds <==> id < |s.refcount| && s.refcount[id] == 0
  }

  /** The free list of tier `t` has no repeats and holds exactly the slots nobody owns. */
  ghost predicate TierOk(s: Pool, t: TierIndex) {
    t < |s.free| ==> NoDup(s.free[t]) && forall x :: x in s.free[t] <==> Owns(s, Nobody, Location(t, x))
  }

  ghost predicate BlockOk(s: Pool, id: BlockId) {
    Allocated(s, id) ==> id < |s.location| && Owns(s, Block(id), s.location[id])
  }

  ghost predicate JobOk(s: Pool, i: nat) {
    i < |s.jobs| ==>
      && s.jobs[i].src in s.mem
      && Owns(s, Reserved(s.head + i), s.jobs[i].dst)
      && s.jobs[i].copied <= s.bytes
      && (s.jobs[i].done ==> i < s.cursor && (s.jobs[i].cancelled || s.jobs[i].copied == s.bytes))
  }

  /** Whatever `owner` says about a slot is backed by the pool's own tables. */
  ghost predicate OwnerOk(s: Pool, l: Location) {
    l in s.owner ==>
      match s.owner[l]
      case Nobody => l.tier < |s.free| && l.slot in s.free[l.tier]
      case Block(id) => Allocated(s, id) && id < |s.location| && s.location[id] == l
      case Reserved(n) => s.head <= n < s.head + |s.jobs| && s.jobs[n - s.head].dst == l
  }

  /** A block marked migrating has one uncancelled job, copying from where the block is. */
  ghost predicate MigOk(s: Pool, id: BlockId) {
    id in s.migrating ==>
      && s.head <= s.migrating[id] < s.head + |s.jobs|
      && Allocated(s, id) && id < |s.location|
      && var j := s.jobs[s.migrating[id] - s.head];
         j.id == id && !j.cancelled && j.src == s.location[id] && j.dst.tier != j.src.tier
  }

  /** An uncancelled job is the one its block is marked with. */
  ghost predicate LiveOk(s: Pool, i: nat) {
    i < |s.jobs| && !s.jobs[i].cancelled ==>
      s.jobs[i].id in s.migrating && s.migrating[s.jobs[i].id] == s.head + i
  }

  function Pc(s: Pool, w: nat): Worker {
    if w in s.workers then s.workers[w] else Idle
  }

  /** A busy worker holds a claimed, unfinished job that is still in the queue. */
  ghost predicate WorkerOk(s: Pool, w: nat) {
    var pc := Pc(s, w);
    !pc.Idle? ==>
      && s.cursor <= |s.jobs|
      && s.head <= pc.job < s.head + s.cursor
      && !s.jobs[pc.job - s.head].done
      && (pc.Finishing? ==> s.jobs[pc.job - s.head].cancelled || s.jobs[pc.job - s.head].copied == s.bytes)
  }

  /** No two workers hold the same job. */
  ghost predicate Apart(s: Pool, v: nat, w: nat) {
    v != w && !Pc(s, v).Idle? && !Pc(s, w).Idle? ==> Pc(s, v).job != Pc(s, w).job
  }

  /** What an uncancelled job has copied so far agrees with its source. */
  ghost predicate CopyOk(s: Pool, i: nat) {
    i < |s.jobs| && !s.jobs[i].cancelled ==> Agrees(s, s.jobs[i])
  }

  ghost predicate Agrees(s: Pool, j: Job) {
    && j.src in s.mem && j.dst in s.mem
    && j.copied <= |s.mem[j.src]| && j.copied <= |s.mem[j.dst]|
    && forall k :: 0 <= k < j.copied ==> s.mem[j.src][k] == s.mem[j.dst][k]
  }

  ghost predicate SlotsOk(s: Pool) {
    && (forall t: nat :: TierOk(s, t))
    && (forall id: nat :: BlockOk(s, id))
    && (forall l :: OwnerOk(s, l))
  }

  ghost predicate JobsOk(s: Pool) {
    && s.cursor <= |s.jobs|
    && (forall i: nat :: JobOk(s, i))
    && (forall id: nat :: MigOk(s, id))
    && (forall i: nat :: LiveOk(s, i))
    && (forall i: nat :: CopyOk(s, i))
  }

  ghost predicate WorkersOk(s: Pool) {
    && (forall w: nat :: WorkerOk(s, w))
    && (forall v: nat, w: nat :: Apart(s, v, w))
  }

  ghost predicate IdsOk(s: Pool) {
    && NoDup(s.freeIds)
    && (forall id: nat :: IdOk(s, id))
    // every slot that is not free is paid for by an id in use or by a queued job
    && |s.freeIds| == SumLen(s.free) + |s.jobs|
  }

  ghost predicate Inv(s: Pool) {
    Shape(s) && IdsOk(s) && SlotsOk(s) && JobsOk(s) && WorkersOk(s)
  }

  /** No block but possibly `id` was rebound. */
  ghost predicate OthersStay(loc: seq<Location>, loc': seq<Location>, id: BlockId) {
    |loc'| == |loc| && forall x :: 0 <= x < |loc| && x != id ==> loc'[x] == loc[x]
  }

  /** How many jobs at the front of the queue are finished. */
  ghost function FrontLen(jobs: seq<Job>): (k: nat)
    ensures k <= |jobs| && (forall i :: 0 <= i < k ==> jobs[i].done) && (k < |jobs| ==> !jobs[k].done)
  {
    if jobs == [] || !jobs[0].done then 0 else
      assert forall i :: 0 < i < |jobs| ==> jobs[i] == jobs[1..][i - 1];
      1 + FrontLen(jobs[1..])
  }

  /** Finished jobs stay finished, and none is lost. */
  ghost predicate DoneStay(js: seq<Job>, js': seq<Job>) {
    |js'| >= |js| && forall i :: 0 <= i < |js| && js[i].done ==> js'[i].done
  }

  lemma FrontGoesOn(js: seq<Job>, js': seq<Job>)
    requires DoneStay(js, js')
    ensures FrontLen(js') >= FrontLen(js)
  {
    var k := FrontLen(js');
    assert k < |js| ==> !js[k].done;
  }

  // ------------------------------------------------------------- worker steps

  /** The next step of worker `w`, whichever it is; an idle worker with nothing to claim waits. */
  ghost function WorkerStep(s: Pool, w: nat): Pool
    requires Inv(s)
  {
    assert WorkerOk(s, w);
    match Pc(s, w)
    case Idle => if s.cursor < |s.jobs| then Claim(s, w) else s
    case Claimed(n) => Test(s, w)
    case Copying(n) => if s.jobs[n - s.head].copied < s.bytes then CopyByte(s, w) else Copied(s, w)
    case Finishing(n) => Finish(s, w)
  }

  /** The job worker `w` holds, and its place in the queue. */
  ghost function Place(s: Pool, w: nat): (i: nat)
    requires Inv(s) && !Pc(s, w).Idle?
    ensures i < s.cursor <= |s.jobs|
  {
    assert WorkerOk(s, w);
    Pc(s, w).job - s.head
  }

  ghost function Claim(s: Pool, w: nat): Pool
    requires Inv(s) && Pc(s, w).Idle? && s.cursor < |s.jobs|
  {
    s.(workers := s.workers[w := Claimed(s.head + s.cursor)], cursor := s.cursor + 1)
  }

  ghost function Test(s: Pool, w: nat): Pool
    requires Inv(s) && Pc(s, w).Claimed?
  {
    var n := Pc(s, w).job;
    s.(workers := s.workers[w := if s.jobs[Place(s, w)].cancelled then Finishing(n) else Copying(n)])
  }

  ghost function CopyByte(s: Pool, w: nat): Pool
    requires Inv(s) && Pc(s, w).Copying? && s.jobs[Place(s, w)].copied < s.bytes
  {
    var i := Place(s, w);
    var j := s.jobs[i];
    assert JobOk(s, i);
    s.(mem := s.mem[j.dst := s.mem[j.dst][j.copied := s.mem[j.src][j.copied]]],
       jobs := s.jobs[i := j.(copied := j.copied + 1)])
  }

  ghost function Copied(s: Pool, w: nat): Pool
    requires Inv(s) && Pc(s, w).Copying? && s.jobs[Place(s, w)].copied >= s.bytes
  {
    s.(workers := s.workers[w := Finishing(Pc(s, w).job)])
  }

  ghost function Finish(s: Pool, w: nat): Pool
    requires Inv(s) && Pc(s, w).Finishing?
  {
    var i := Place(s, w);
    s.(jobs := s.jobs[i := s.jobs[i].(done := true)], workers := s.workers[w := Idle])
  }

  // ---------------------------------------------------------- scheduler steps

  ghost predicate CanAllocate(s: Pool) {
    s.freeIds != [] && |s.free| > 0 && s.free[0] != []
  }

  /** allocate(), when it does not return kInvalidBlock; the id is the last free id. */
  ghost function Allocate(s: Pool): Pool
    requires Inv(s) && CanAllocate(s)
  {
    var id := Last(s.freeIds);
    var l := Location(0, Last(s.free[0]));
    assert IdOk(s, id);
    s.(freeIds := ButLast(s.freeIds),
       location := s.location[id := l],
       free := s.free[0 := ButLast(s.free[0])],
       refcount := s.refcount[id := 1],
       owner := s.owner[l := Block(id)])
  }

  ghost function Incref(s: Pool, id: BlockId): Pool
    requires Inv(s) && Allocated(s, id)
  {
    s.(refcount := s.refcount[id := s.refcount[id] + 1])
  }

  /** decref(), while another holder remains. */
  ghost function Decrement(s: Pool, id: BlockId): Pool
    requires Inv(s) && Allocated(s, id) && s.refcount[id] > 1
  {
    s.(refcount := s.refcount[id := s.refcount[id] - 1])
  }

  ghost function Cancel(s: Pool, id: BlockId): Pool
    requires Inv(s)
  {
    if id !in s.migrating then s
    else
      assert MigOk(s, id);
      var i := s.migrating[id] - s.head;
      s.(jobs := s.jobs[i := s.jobs[i].(cancelled := true)], migrating := s.migrating - {id})
  }

  /** The last decref() of a block, once its migration is cancelled. */
  ghost function Free(s: Pool, id: BlockId): Pool
    requires Inv(s) && Allocated(s, id) && id !in s.migrating
  {
    assert BlockOk(s, id);
    var l := s.location[id];
    s.(refcount := s.refcount[id := 0],
       free := s.free[l.tier := s.free[l.tier] + [l.slot]],
       freeIds := s.freeIds + [id],
       owner := s.owner[l := Nobody])
  }

  ghost predicate CanReserve(s: Pool, id: BlockId, dst: TierIndex)
    requires Inv(s) && Allocated(s, id)
  {
    assert BlockOk(s, id);
    && dst < |s.free|
    && s.location[id].tier != dst
    && id !in s.migrating
    && s.free[dst] != []
    && s.host[s.location[id].tier] && s.host[dst]
  }

  /** migrate_async(), when it returns true. */
  ghost function Reserve(s: Pool, id: BlockId, dst: TierIndex): Pool
    requires Inv(s) && Allocated(s, id) && CanReserve(s, id, dst)
  {
    var l := Location(dst, Last(s.free[dst]));
    s.(jobs := s.jobs + [Job(id, s.location[id], l, 0, false, false)],
       migrating := s.migrating[id := s.head + |s.jobs|],
       free := s.free[dst := ButLast(s.free[dst])],
       owner := s.owner[l := Reserved(s.head + |s.jobs|)])
  }

  /** The copying half of migrate(), once a stale job is cancelled. */
  ghost function Move(s: Pool, id: BlockId, dst: TierIndex): Pool
    requires Inv(s) && Allocated(s, id) && id !in s.migrating
    requires dst < |s.free| && s.location[id].tier != dst && s.free[dst] != []
  {
    assert BlockOk(s, id);
    var l := s.location[id];
    var to := Location(dst, Last(s.free[dst]));
    s.(free := s.free[dst := ButLast(s.free[dst])][l.tier := s.free[l.tier] + [l.slot]],
       mem := s.mem[to := s.mem[l]],
       location := s.location[id := to],
       owner := s.owner[l := Nobody][to := Block(id)])
  }

  ghost predicate CanDrain(s: Pool) {
    s.jobs != [] && s.jobs[0].done
  }

  /** One round of drain_migrations(): retire the finished job at the front. */
  ghost function DrainFront(s: Pool): Pool
    requires Inv(s) && CanDrain(s)
  {
    var j := s.jobs[0];
    assert JobOk(s, 0) && LiveOk(s, 0) && MigOk(s, j.id) && BlockOk(s, j.id);
    Settle(s.(jobs := s.jobs[1..], cursor := s.cursor - 1, head := s.head + 1), j)
  }

  ghost predicate CanSettle(s: Pool, j: Job) {
    && j.dst.tier < |s.free|
    && (!j.cancelled ==> j.id < |s.location| && s.location[j.id].tier < |s.free|)
  }

  /** The bookkeeping drain does for a job it has taken off the queue. */
  ghost function Settle(s: Pool, j: Job): Pool
    requires CanSettle(s, j)
  {
    if j.cancelled then
      s.(free := s.free[j.dst.tier := s.free[j.dst.tier] + [j.dst.slot]],
         owner := s.owner[j.dst := Nobody])
    else
      var l := s.location[j.id];
      s.(free := s.free[l.tier := s.free[l.tier] + [l.slot]],
         location := s.location[j.id := j.dst],
         migrating := s.migrating - {j.id},
         owner := s.owner[l := Nobody][j.dst := Block(j.id)])
  }

  /** A write by the engine into byte `k` of block `id`. */
  ghost function Write(s: Pool, id: BlockId, k: nat, b: Byte): Pool
    requires Inv(s) && Allocated(s, id) && k < s.bytes
  {
    assert BlockOk(s, id);
    var l := s.location[id];
    s.(mem := s.mem[l := s.mem[l][k := b]])
  }
}
