/** The block pool as the program has it: an object whose methods update its tables in place. */
module BlockPool {
  import opened Types
  import opened PoolModel
  import opened PoolProofs
  import opened PoolView
  import opened PoolOps
  import PoolRuns

  /** What one tier offers: is there a tier at all, its capacity, the blocks asked of it. */
  datatype TierSpec = TierSpec(present: bool, capacity: nat, numBlocks: nat, host: bool)

  datatype InitError = NoTiers | NullTier | TierTooSmall

  function SpecFault(spec: TierSpec, bytes: nat): Option<InitError> {
    if !spec.present then Some(NullTier)
    else if spec.capacity < spec.numBlocks * bytes then Some(TierTooSmall)
    else None
  }

  /** There is a tier, and it has room for the blocks asked of it. */
  ghost predicate Acceptable(spec: TierSpec, bytes: nat) {
    spec.present && spec.numBlocks * bytes <= spec.capacity
  }

  /** Tier `t` is the first that is not acceptable. */
  ghost predicate FirstBad(specs: seq<TierSpec>, bytes: nat, t: nat) {
    t < |specs| && !Acceptable(specs[t], bytes) && forall u :: 0 <= u < t ==> Acceptable(specs[u], bytes)
  }

  /** The first fault init() throws on, in its order of checking. */
  function SpecsFault(specs: seq<TierSpec>, bytes: nat): (r: Option<InitError>)
    ensures r.None? <==> specs != [] && forall t :: 0 <= t < |specs| ==> Acceptable(specs[t], bytes)
    ensures r == Some(NoTiers) <==> specs == []
    ensures r == Some(NullTier) <==> exists t: nat :: FirstBad(specs, bytes, t) && !specs[t].present
    ensures r == Some(TierTooSmall) <==> exists t: nat :: FirstBad(specs, bytes, t) && specs[t].present
    decreases |specs|
  {
    if specs == [] then Some(NoTiers)
    else if SpecFault(specs[0], bytes).Some? || |specs| == 1 then
      FirstIsBad(specs, bytes);
      SpecFault(specs[0], bytes)
    else
      RestIsBad(specs, bytes);
      SpecsFault(specs[1..], bytes)
  }

  lemma FirstIsBad(specs: seq<TierSpec>, bytes: nat)
    requires specs != []
    ensures FirstBad(specs, bytes, 0) <==> !Acceptable(specs[0], bytes)
    ensures FirstBad(specs, bytes, 0) ==> forall t: nat :: FirstBad(specs, bytes, t) ==> t == 0
  {
  }

  lemma RestIsBad(specs: seq<TierSpec>, bytes: nat)
    requires specs != [] && Acceptable(specs[0], bytes)
    ensures forall t: nat :: FirstBad(specs[1..], bytes, t) ==> FirstBad(specs, bytes, t + 1)
    ensures forall t: nat :: FirstBad(specs, bytes, t) ==> t > 0 && FirstBad(specs[1..], bytes, t - 1)
    ensures forall t: nat :: t < |specs[1..]| ==> specs[1..][t] == specs[t + 1]
  {
    var rest := specs[1..];
    forall t: nat | FirstBad(rest, bytes, t) ensures FirstBad(specs, bytes, t + 1) {
      forall u | 0 <= u < t + 1 ensures Acceptable(specs[u], bytes) {
        assert u > 0 ==> Acceptable(rest[u - 1], bytes);
      }
    }
    forall t: nat | FirstBad(specs, bytes, t) ensures t > 0 && FirstBad(rest, bytes, t - 1) {
      forall u | 0 <= u < t - 1 ensures Acceptable(rest[u], bytes) {
        assert Acceptable(specs[u + 1], bytes);
      }
    }
  }

  ghost function TotalBlocks(specs: seq<TierSpec>): nat {
    if specs == [] then 0 else TotalBlocks(ButLast(specs)) + Last(specs).numBlocks
  }

  lemma TotalAppend(specs: seq<TierSpec>, i: nat)
    requires i < |specs|
    ensures TotalBlocks(specs[..i + 1]) == TotalBlocks(specs[..i]) + specs[i].numBlocks
  {
    assert ButLast(specs[..i + 1]) == specs[..i];
  }

  /** Each tier has the slots asked of it, and room for them. */
  ghost predicate Fits(specs: seq<TierSpec>, bytes: nat, caps: seq<nat>) {
    && |caps| == |specs|
    && forall t :: 0 <= t < |specs| ==> caps[t] == specs[t].numBlocks && caps[t] * bytes <= specs[t].capacity
  }

  /** n-1, n-2, ..., 0: popping from the back hands out low numbers first. */
  ghost predicate CountsDown(xs: seq<nat>, n: nat) {
    |xs| == n && forall k :: 0 <= k < n ==> xs[k] == n - 1 - k
  }

  lemma CountsDownRange(xs: seq<nat>, n: nat)
    requires CountsDown(xs, n)
    ensures NoDup(xs) && forall x: nat :: x in xs <==> x < n
  {
    forall x: nat | x < n ensures x in xs {
      assert xs[n - 1 - x] == x;
    }
  }

  function Slots(caps: seq<nat>): set<Location> {
    set t, x | 0 <= t < |caps| && 0 <= x < caps[t] :: Location(t, x)
  }

  lemma InitialInv(s: Pool, v: View)
    requires |s.free| == |s.caps| == |s.host| > 0
    requires forall t :: 0 <= t < |s.caps| ==> CountsDown(s.free[t], s.caps[t])
    requires CountsDown(s.freeIds, SumLen(s.free))
    requires |s.location| == |s.refcount| == SumLen(s.free) && forall id :: 0 <= id < |s.refcount| ==> s.refcount[id] == 0
    requires s.jobs == [] && s.migrating == map[] && s.cursor == 0 && s.workers == map[]
    requires s.mem.Keys == s.owner.Keys == Slots(s.caps)
    requires forall l :: l in s.mem ==> |s.mem[l]| == s.bytes && s.owner[l] == Nobody
    requires v.tier == map[] && v.target == map[] && v.val == map[] && v.rc == s.refcount && v.free == s.caps
    ensures Inv(s) && Shows(s, v)
  {
    CountsDownRange(s.freeIds, SumLen(s.free));
    forall t: nat ensures TierOk(s, t) && ShowsTier(s, v, t) {
      if t < |s.free| {
        CountsDownRange(s.free[t], s.caps[t]);
        assert forall x: nat :: x < s.caps[t] <==> Location(t, x) in Slots(s.caps);
      }
    }
    forall l ensures OwnerOk(s, l) {
      if l in s.owner {
        CountsDownRange(s.free[l.tier], s.caps[l.tier]);
      }
    }
    assert Shape(s) by {
      assert forall l :: l in s.mem <==> InTier(s, l);
    }
  }

  /** The pool's constructor, faults and all. */
  method Create(specs: seq<TierSpec>, bytes: nat, arena: Location -> seq<Byte>)
    returns (pool: BlockPool?, fault: Option<InitError>)
    requires forall l :: |arena(l)| == bytes
    ensures fault == SpecsFault(specs, bytes)
    ensures fault.None? <==> pool != null
    ensures pool != null ==>
              && fresh(pool) && pool.Valid() && pool.bytes == bytes && Fits(specs, bytes, pool.caps)
              && pool.view.tier == map[] && pool.view.target == map[]
              && |pool.view.free| == |specs| && (forall t :: 0 <= t < |specs| ==> pool.view.free[t] == specs[t].numBlocks)
              && |pool.view.rc| == TotalBlocks(specs)
  {
    fault := SpecsFault(specs, bytes);
    if fault.Some? {
      pool := null;
    } else {
      pool := new BlockPool(specs, bytes, arena);
    }
  }

  /** Two tiers of one block each. */
  function TwoByOne(bytes: nat): (specs: seq<TierSpec>)
    ensures SpecsFault(specs, bytes).None?
  {
    [TierSpec(true, bytes, 1, true), TierSpec(true, bytes, 1, true)]
  }

  /** A run in which migrate() fails and yet does something: the demotion in flight is gone. */
  method FailedMigrateWitness(bytes: nat, arena: Location -> seq<Byte>)
    returns (id: BlockId, moved: bool, ghost before: View, ghost after: View)
    requires forall l :: |arena(l)| == bytes
    ensures !moved && before.target == map[id := 1] && after.target == map[] && after.free == before.free
  {
    var pool;
    pool, id := OneBlock(bytes, arena);
    hide BlockPool.Valid, MigrateAsyncOp, MigrateOp;
    var queued := pool.MigrateAsync(id, 1);
    before := pool.view;
    moved := pool.Migrate(id, 1);
    after := pool.view;
  }

  /**
   A run that leaves no block in use and yet no compute slot free: the promotion of a block since freed is
   cancelled, and its slot comes back only when the job is drained.
   */
  method StaleJobWitness(bytes: nat, arena: Location -> seq<Byte>) returns (full: bool, ghost v: View)
    requires forall l :: |arena(l)| == bytes
    ensures full && v.tier == map[] && v.target == map[]
  {
    var pool, id := SpilledBlock(bytes, arena);
    hide BlockPool.Valid, MigrateAsyncOp, DecrefOp, AllocateOp;
    var queued := pool.MigrateAsync(id, 0);
    assert queued;
    var freed := pool.Decref(id);
    v := pool.view;
    var none := pool.Allocate();
    full := none.None?;
  }

  /** A pool with one block, spilled. */
  method SpilledBlock(bytes: nat, arena: Location -> seq<Byte>) returns (pool: BlockPool, id: BlockId)
    requires forall l :: |arena(l)| == bytes
    ensures fresh(pool) && pool.Valid() && pool.host == [true, true]
    ensures pool.view.tier == map[id := 1] && pool.view.target == map[] && pool.view.free == [1, 0]
    ensures id < |pool.view.rc| && pool.view.rc[id] == 1
  {
    pool, id := OneBlock(bytes, arena);
    hide BlockPool.Valid, MigrateOp, VMigrate, OthersStay, BlockPool.Onward, BlockPool.Front;
    SpillOnly(pool.view, id);
    var demoted := pool.Migrate(id, 1);
  }

  lemma SpillOnly(v: View, id: BlockId)
    requires v.tier == map[id := 0] && v.target == map[] && v.free == [0, 1]
    ensures var v' := VMigrate(v, id, 1);
            v'.tier == map[id := 1] && v'.target == map[] && v'.free == [1, 0] && v'.rc == v.rc
  {
  }

  method OneBlock(bytes: nat, arena: Location -> seq<Byte>) returns (pool: BlockPool, id: BlockId)
    requires forall l :: |arena(l)| == bytes
    ensures fresh(pool) && pool.Valid() && pool.host == [true, true]
    ensures pool.view.tier == map[id := 0] && pool.view.target == map[] && pool.view.free == [0, 1]
    ensures id < |pool.view.rc| && pool.view.rc[id] == 1
  {
    pool := new BlockPool(TwoByOne(bytes), bytes, arena);
    hide BlockPool.Valid, AllocateOp;
    assert pool.view.free == [1, 1] && pool.host == [true, true];
    var r := pool.Allocate();
    id := r.value;
  }

  /** The same jobs, as far as the scheduler can tell; some more of them may be finished. */
  ghost predicate SameJobs(js: seq<Job>, js': seq<Job>) {
    && |js'| == |js|
    && forall i :: 0 <= i < |js| ==>
         && js'[i].id == js[i].id && js'[i].src == js[i].src && js'[i].dst == js[i].dst
         && js'[i].cancelled == js[i].cancelled && (js[i].done ==> js'[i].done)
  }

  lemma StepKeepsQueue(s: Pool, w: nat)
    requires Inv(s)
    ensures SameJobs(s.jobs, PoolModel.WorkerStep(s, w).jobs)
  {
    hide IdsOk, SlotsOk;
    assert WorkerOk(s, w);
  }

  class BlockPool {
    const bytes: nat
    const caps: seq<nat>
    const host: seq<bool>
    var free: seq<seq<nat>>
    var location: seq<Location>
    var refcount: seq<nat>
    var freeIds: seq<BlockId>
    var jobs: seq<Job>
    var migrating: map<BlockId, nat>
    var cursor: nat
    var head: nat
    var workers: map<nat, Worker>
    var mem: map<Location, seq<Byte>>
    ghost var owner: map<Location, Owner>
    ghost var view: View

    ghost function State(): Pool
      reads this
    {
      Pool(bytes, caps, host, free, location, refcount, freeIds, jobs, migrating, cursor, head, workers, mem, owner)
    }

    ghost predicate Valid()
      reads this
    {
      Inv(State()) && Shows(State(), view)
    }

    /** The number of the first job that is queued and not finished, or of the next one to be queued. */
    ghost function Front(): nat
      reads this
    {
      head + FrontLen(jobs)
    }

    /** The queue only goes on. */
    twostate predicate Onward()
      reads this
    {
      head >= old(head) && Front() >= old(Front())
    }

    /** No block was rebound, and the queue only went on. */
    twostate predicate Still()
      reads this
    {
      location == old(location) && Onward()
    }

    // --------------------------------------------------------------- set-up

    /** init(): every slot and every id free, nothing queued; the arenas hold whatever they held. */
    constructor (specs: seq<TierSpec>, bytes: nat, arena: Location -> seq<Byte>)
      requires SpecsFault(specs, bytes).None? && forall l :: |arena(l)| == bytes
      ensures Valid()
      ensures this.bytes == bytes && |host| == |specs| && Fits(specs, bytes, caps)
      ensures forall t :: 0 <= t < |specs| ==> host[t] == specs[t].host
      ensures view.tier == map[] && view.target == map[] && view.val == map[]
      ensures |view.free| == |specs| && forall t :: 0 <= t < |specs| ==> view.free[t] == specs[t].numBlocks
      ensures |view.rc| == TotalBlocks(specs) && forall id :: 0 <= id < |view.rc| ==> view.rc[id] == 0
    {
      var sizes, hosts, lists, ids, total, contents;
      ghost var owners, v;
      sizes, hosts, lists, ids, total, contents, owners, v := Blank(specs, bytes, arena);
      this.bytes, caps, host := bytes, sizes, hosts;
      free, freeIds := lists, ids;
      location, refcount := seq(total, _ => Location(0, 0)), seq(total, _ => 0);
      jobs, migrating, cursor, head, workers := [], map[], 0, 0, map[];
      mem, owner, view := contents, owners, v;
    }

    static method Blank(specs: seq<TierSpec>, bytes: nat, arena: Location -> seq<Byte>)
      returns (sizes: seq<nat>, hosts: seq<bool>, lists: seq<seq<nat>>, ids: seq<nat>, total: nat,
               contents: map<Location, seq<Byte>>, ghost owners: map<Location, Owner>, ghost v: View)
      requires specs != [] && forall l :: |arena(l)| == bytes
      ensures |hosts| == |specs| && forall t :: 0 <= t < |specs| ==> hosts[t] == specs[t].host
      ensures |sizes| == |specs| && forall t :: 0 <= t < |specs| ==> sizes[t] == specs[t].numBlocks
      ensures v.tier == map[] && v.target == map[] && v.val == map[]
      ensures |v.free| == |specs| && forall t :: 0 <= t < |specs| ==> v.free[t] == specs[t].numBlocks
      ensures |v.rc| == TotalBlocks(specs) && forall id :: 0 <= id < |v.rc| ==> v.rc[id] == 0
      ensures var s := Pool(bytes, sizes, hosts, lists, seq(total, _ => Location(0, 0)), seq(total, _ => 0), ids,
                            [], map[], 0, 0, map[], contents, owners);
              Inv(s) && Shows(s, v)
    {
      lists, total := FreeLists(specs);
      ids := Descending(total);
      sizes := seq(|specs|, t requires 0 <= t < |specs| => specs[t].numBlocks);
      hosts := seq(|specs|, t requires 0 <= t < |specs| => specs[t].host);
      var slots := Slots(sizes);
      contents := map l | l in slots :: arena(l);
      owners := map l | l in slots :: Nobody;
      v := View(map[], map[], map[], seq(total, _ => 0), sizes);
      InitialInv(Pool(bytes, sizes, hosts, lists, seq(total, _ => Location(0, 0)), seq(total, _ => 0), ids,
                      [], map[], 0, 0, map[], contents, owners), v);
    }

    static method Descending(n: nat) returns (xs: seq<nat>)
      ensures CountsDown(xs, n)
    {
      xs := [];
      var i := n;
      while i > 0
        invariant 0 <= i <= n && |xs| == n - i
        invariant forall k :: 0 <= k < |xs| ==> xs[k] == n - 1 - k
      {
        xs := xs + [i - 1];
        i := i - 1;
      }
    }

    static method FreeLists(specs: seq<TierSpec>) returns (lists: seq<seq<nat>>, total: nat)
      ensures |lists| == |specs|
      ensures forall t :: 0 <= t < |specs| ==> CountsDown(lists[t], specs[t].numBlocks)
      ensures total == SumLen(lists) == TotalBlocks(specs)
    {
      lists, total := [], 0;
      var i := 0;
      while i < |specs|
        invariant i == |lists| <= |specs|
        invariant forall t :: 0 <= t < i ==> CountsDown(lists[t], specs[t].numBlocks)
        invariant total == SumLen(lists) == TotalBlocks(specs[..i])
      {
        var slots := Descending(specs[i].numBlocks);
        SumLenAppend(lists, slots);
        TotalAppend(specs, i);
        lists, total := lists + [slots], total + specs[i].numBlocks;
        i := i + 1;
      }
      assert specs[..|specs|] == specs;
    }

    // -------------------------------------------------------------- workers

    /** worker_loop(), one step of it, taken by worker `w`. */
    method WorkerStep(w: nat)
      requires Valid()
      modifies this`jobs, this`cursor, this`workers, this`mem
      ensures Valid() && State() == PoolModel.WorkerStep(old(State()), w)
    {
      assert WorkerOk(State(), w);
      match if w in workers then workers[w] else Idle {
        case Idle => if cursor < |jobs| { Claim(w); }
        case Claimed(n) => TestCancelled(w);
        case Copying(n) => if jobs[n - head].copied < bytes { CopyByte(w); } else { Copied(w); }
        case Finishing(n) => SetDone(w);
      }
    }

    method Claim(w: nat)
      requires Valid() && Pc(State(), w).Idle? && cursor < |jobs|
      modifies this`cursor, this`workers
      ensures Valid() && State() == PoolModel.Claim(old(State()), w)
    {
      WorkerInvisible(State(), view, w);
      workers, cursor := workers[w := Claimed(head + cursor)], cursor + 1;
    }

    /** Go on to the copy, or straight to the end if the job was cancelled meanwhile. */
    method TestCancelled(w: nat)
      requires Valid() && w in workers && workers[w].Claimed?
      modifies this`workers
      ensures Valid() && State() == PoolModel.Test(old(State()), w)
    {
      WorkerInvisible(State(), view, w);
      assert WorkerOk(State(), w);
      var n := workers[w].job;
      workers := workers[w := if jobs[n - head].cancelled then Finishing(n) else Copying(n)];
    }

    method CopyByte(w: nat)
      requires Valid() && w in workers && workers[w].Copying? && jobs[Place(State(), w)].copied < bytes
      modifies this`jobs, this`mem
      ensures Valid() && State() == PoolModel.CopyByte(old(State()), w)
    {
      WorkerInvisible(State(), view, w);
      assert WorkerOk(State(), w) && JobOk(State(), Place(State(), w));
      MoveByte(workers[w].job - head);
    }

    method MoveByte(i: nat)
      requires i < |jobs| && jobs[i].src in mem && jobs[i].dst in mem
      requires jobs[i].copied < |mem[jobs[i].src]| && jobs[i].copied < |mem[jobs[i].dst]|
      modifies this`jobs, this`mem
      ensures var j := old(jobs)[i];
              State() == old(State()).(mem := old(mem)[j.dst := old(mem)[j.dst][j.copied := old(mem)[j.src][j.copied]]],
                                       jobs := old(jobs)[i := j.(copied := j.copied + 1)])
    {
      var j := jobs[i];
      mem, jobs := mem[j.dst := mem[j.dst][j.copied := mem[j.src][j.copied]]],
                   jobs[i := j.(copied := j.copied + 1)];
    }

    method Copied(w: nat)
      requires Valid() && w in workers && workers[w].Copying? && jobs[Place(State(), w)].copied >= bytes
      modifies this`workers
      ensures Valid() && State() == PoolModel.Copied(old(State()), w)
    {
      WorkerInvisible(State(), view, w);
      hide Inv, Shows;
      workers := workers[w := Finishing(workers[w].job)];
    }

    method SetDone(w: nat)
      requires Valid() && w in workers && workers[w].Finishing?
      modifies this`jobs, this`workers
      ensures Valid() && State() == PoolModel.Finish(old(State()), w)
    {
      WorkerInvisible(State(), view, w);
      assert WorkerOk(State(), w);
      var i := workers[w].job - head;
      jobs, workers := jobs[i := jobs[i].(done := true)], workers[w := Idle];
    }

    /** The workers run for a while: any number of steps, by any workers, in any order. */
    method WorkersRun()
      requires Valid()
      modifies this`jobs, this`cursor, this`workers, this`mem
      ensures Valid() && SameJobs(old(jobs), jobs) && Onward()
    {
      hide Inv, Shows, PoolModel.WorkerStep;
      var steps: nat :| true;
      while steps > 0
        invariant Valid() && SameJobs(old(jobs), jobs)
      {
        steps := steps - 1;
        var w: nat :| true;
        StepKeepsQueue(State(), w);
        WorkerStep(w);
      }
      FrontGoesOn(old(jobs), jobs);
    }

    // ------------------------------------------------------------ scheduler

    /** Fails exactly when tier 0 is full. */
    method Allocate() returns (r: Option<BlockId>)
      requires Valid()
      modifies this
      ensures Valid() && State() == AllocateOp(old(State()))
      ensures r.Some? <==> old(view).free[0] > 0
      ensures r.None? ==> view == old(view) && location == old(location)
      ensures r.Some? ==> OthersStay(old(location), location, r.value)
      ensures Onward()
      ensures r.Some? ==>
                && r.value !in old(view).tier && r.value < |old(view).rc| && r.value in view.val
                && view == old(view).(tier := old(view).tier[r.value := 0],
                                      val := old(view).val[r.value := view.val[r.value]],
                                      rc := old(view).rc[r.value := 1],
                                      free := old(view).free[0 := old(view).free[0] - 1])
    {
      PoolRuns.IdsOutlastSlots(State());
      assert ShowsTier(State(), view, 0);
      if freeIds == [] || free[0] == [] {
        return None;
      }
      ghost var v := AllocateInView(State(), view);
      r := Some(Last(freeIds));
      BindBlock(Last(freeIds), Location(0, Last(free[0])));
      view := v;
    }

    method BindBlock(id: BlockId, l: Location)
      requires id < |location| && id < |refcount| && freeIds != [] && 0 < |free| && free[0] != []
      modifies this`freeIds, this`location, this`free, this`refcount, this`owner
      ensures State() == old(State()).(freeIds := ButLast(old(freeIds)), location := old(location)[id := l],
                                       free := old(free)[0 := ButLast(old(free)[0])],
                                       refcount := old(refcount)[id := 1], owner := old(owner)[l := Block(id)])
    {
      freeIds, location, free, refcount :=
        ButLast(freeIds), location[id := l], free[0 := ButLast(free[0])], refcount[id := 1];
      owner := owner[l := Block(id)];
    }

    method Incref(id: BlockId)
      requires Valid() && id in view.tier
      modifies this
      ensures Valid() && id < |old(view).rc| && Still()
      ensures view == old(view).(rc := old(view).rc[id := old(view).rc[id] + 1])
    {
      assert ShowsBlock(State(), view, id);
      RecountView(State(), view, id, refcount[id] + 1);
      refcount := refcount[id := refcount[id] + 1];
      view := view.(rc := refcount);
    }

    method CancelMigration(id: BlockId)
      requires Valid()
      modifies this
      ensures Valid() && State() == Cancel(old(State()), id) && Still()
      ensures view == old(view).(target := old(view).target - {id})
    {
      CancelView(State(), view, id);
      if id in migrating {
        assert MigOk(State(), id);
        var i := migrating[id] - head;
        FrontGoesOn(jobs, jobs[i := jobs[i].(cancelled := true)]);
        jobs, migrating := jobs[i := jobs[i].(cancelled := true)], migrating - {id};
      }
      view := view.(target := view.target - {id});
    }

    /** Give up one reference. The last one frees the block: its slot, its id, and its migration if any. */
    method Decref(id: BlockId) returns (freed: bool)
      requires Valid() && id in view.tier
      modifies this
      ensures Valid() && Allocated(old(State()), id) && State() == DecrefOp(old(State()), id)
      ensures id < |old(view).rc| && old(view).rc[id] > 0 && old(view).tier[id] < |old(view).free|
      ensures view == VDecref(old(view), id) && Still()
      ensures freed <==> old(view).rc[id] == 1
    {
      ghost var v := view;
      assert ShowsBlock(State(), view, id);
      DecrefView(State(), view, id);
      hide Inv, Shows;
      freed := DropReference(id);
      view := VDecref(v, id);
    }

    method DropReference(id: BlockId) returns (freed: bool)
      requires Valid() && Allocated(State(), id) && id < |refcount|
      modifies this
      ensures State() == DecrefOp(old(State()), id) && Still()
      ensures freed <==> old(refcount)[id] == 1
    {
      hide Inv, Shows;
      if refcount[id] > 1 {
        refcount := refcount[id := refcount[id] - 1];
        freed := false;
      } else {
        CancelMigration(id);
        FreeBlock(id);
        freed := true;
      }
    }

    method FreeBlock(id: BlockId)
      requires Valid() && Allocated(State(), id) && id !in migrating
      modifies this`refcount, this`free, this`freeIds, this`owner
      ensures State() == Free(old(State()), id)
    {
      assert BlockOk(State(), id);
      var l := location[id];
      refcount, free, freeIds := refcount[id := 0], free[l.tier := free[l.tier] + [l.slot]], freeIds + [id];
      owner := owner[l := Nobody];
    }

    /** False when `dst` has no free slot; a migration in flight is then cancelled all the same. */
    method Migrate(id: BlockId, dst: TierIndex) returns (moved: bool)
      requires Valid() && id in view.tier && dst < |view.free|
      modifies this
      ensures Valid() && Allocated(old(State()), id) && State() == MigrateOp(old(State()), id, dst)
      ensures old(view).tier[id] < |old(view).free|
      ensures view == VMigrate(old(view), id, dst) && OthersStay(old(location), location, id) && Onward()
      ensures moved <==> old(view).tier[id] == dst || old(view).free[dst] > 0
    {
      ghost var v := view;
      assert ShowsBlock(State(), view, id) && ShowsTier(State(), view, dst);
      MigrateView(State(), view, id, dst);
      hide Inv, Shows;
      moved := CancelAndMove(id, dst);
      view := VMigrate(v, id, dst);
    }

    method CancelAndMove(id: BlockId, dst: TierIndex) returns (moved: bool)
      requires Valid() && Allocated(State(), id) && dst < |free| && id < |location|
      modifies this
      ensures State() == MigrateOp(old(State()), id, dst) && OthersStay(old(location), location, id) && Onward()
      ensures moved <==> old(location)[id].tier == dst || old(free)[dst] != []
    {
      hide Inv, Shows;
      CancelMigration(id);
      moved := MoveIfRoom(id, dst);
    }

    method MoveIfRoom(id: BlockId, dst: TierIndex) returns (moved: bool)
      requires Valid() && Allocated(State(), id) && id !in migrating && dst < |free| && id < |location|
      modifies this`free, this`mem, this`location, this`owner
      ensures moved <==> old(location)[id].tier == dst || old(free)[dst] != []
      ensures State() == if CanMove(old(State()), id, dst) then Move(old(State()), id, dst) else old(State())
      ensures OthersStay(old(location), location, id)
    {
      hide Inv, Shows;
      moved := location[id].tier == dst || free[dst] != [];
      if location[id].tier != dst && free[dst] != [] {
        MoveBlock(id, dst);
      }
    }

    method MoveBlock(id: BlockId, dst: TierIndex)
      requires Valid() && Allocated(State(), id) && id !in migrating
      requires dst < |free| && location[id].tier != dst && free[dst] != []
      modifies this`free, this`mem, this`location, this`owner
      ensures State() == Move(old(State()), id, dst)
    {
      assert BlockOk(State(), id);
      var l, to := location[id], Location(dst, Last(free[dst]));
      free := free[dst := ButLast(free[dst])][l.tier := free[l.tier] + [l.slot]];
      mem, location := mem[to := mem[l]], location[id := to];
      owner := owner[l := Nobody][to := Block(id)];
    }

    method MigrateAsync(id: BlockId, dst: TierIndex) returns (queued: bool)
      requires Valid() && id in view.tier && dst < |view.free|
      modifies this
      ensures Valid() && Allocated(old(State()), id) && State() == MigrateAsyncOp(old(State()), id, dst)
      ensures old(view).tier[id] < |host| == |old(view).free|
      ensures queued <==> VCanReserve(old(view), host, id, dst)
      ensures view == (if queued then VReserve(old(view), id, dst) else old(view)) && Still()
    {
      ghost var v := view;
      queued := CanQueue(id, dst);
      MigrateAsyncView(State(), view, id, dst);
      if queued {
        ghost var js := jobs;
        QueueJob(id, location[id], dst);
        FrontGoesOn(js, jobs);
        view := VReserve(v, id, dst);
      }
    }

    method CanQueue(id: BlockId, dst: TierIndex) returns (b: bool)
      requires Valid() && id in view.tier && dst < |view.free|
      ensures Allocated(State(), id) && b == CanReserve(State(), id, dst)
    {
      assert ShowsBlock(State(), view, id);
      var t := location[id].tier;
      b := t != dst && id !in migrating && free[dst] != [] && host[t] && host[dst];
    }

    method QueueJob(id: BlockId, l: Location, dst: TierIndex)
      requires dst < |free| && free[dst] != []
      modifies this`jobs, this`migrating, this`free, this`owner
      ensures var to, n := Location(dst, Last(old(free)[dst])), head + |old(jobs)|;
              State() == old(State()).(jobs := old(jobs) + [Job(id, l, to, 0, false, false)],
                                       migrating := old(migrating)[id := n],
                                       free := old(free)[dst := ButLast(old(free)[dst])],
                                       owner := old(owner)[to := Reserved(n)])
    {
      var to, n := Location(dst, Last(free[dst])), head + |jobs|;
      jobs, migrating, free :=
        jobs + [Job(id, l, to, 0, false, false)], migrating[id := n], free[dst := ButLast(free[dst])];
      owner := owner[to := Reserved(n)];
    }

    /** Take every finished job off the front of the queue, then settle them in order. */
    method DrainMigrations()
      requires Valid()
      modifies this
      ensures Valid() && State() == DrainOp(old(State())) && Drained(old(view), view)
      ensures RestingStay(old(view), old(location), location)
      ensures head == Front() == old(Front()) && jobs == old(jobs)[FrontLen(old(jobs))..]
      ensures exists k: nat :: FinishedFront(old(State()), k) && Completes(old(State()), old(view), view, k)
    {
      ghost var s := State();
      ghost var v, k := DrainView(s, view);
      DrainRebinds(s, view);
      DrainTakesFront(s);
      if jobs == [] {
        view := v;
        return;
      }
      var finished := CollectFinished();
      var i := 0;
      while i < |finished|
        invariant i <= |finished|
        invariant CanSettleAll(State(), finished[i..])
        invariant SettleAll(State(), finished[i..]) == DrainOp(s)
      {
        assert finished[i..][1..] == finished[i + 1..];
        SettleJob(finished[i]);
        i := i + 1;
      }
      view := v;
    }

    method CollectFinished() returns (finished: seq<Job>)
      requires Valid()
      modifies this`jobs, this`cursor, this`head
      ensures CanSettleAll(State(), finished)
      ensures SettleAll(State(), finished) == DrainOp(old(State()))
    {
      ghost var s := State();
      finished := [];
      while jobs != [] && jobs[0].done
        invariant |finished| <= |s.jobs| && |finished| <= s.cursor
        invariant State() == Popped(s, |finished|)
        invariant finished == s.jobs[..|finished|]
        invariant forall i :: 0 <= i < |finished| ==> s.jobs[i].done
        decreases |jobs|
      {
        FinishedClaimed(s, |finished| + 1);
        finished := finished + [jobs[0]];
        jobs, cursor, head := jobs[1..], cursor - 1, head + 1;
      }
      DrainInTwoPhases(s, |finished|);
    }

    method SettleJob(j: Job)
      requires CanSettle(State(), j)
      modifies this`free, this`location, this`migrating, this`owner
      ensures State() == Settle(old(State()), j)
    {
      if j.cancelled {
        free := free[j.dst.tier := free[j.dst.tier] + [j.dst.slot]];
        owner := owner[j.dst := Nobody];
      } else {
        var l := location[j.id];
        free := free[l.tier := free[l.tier] + [l.slot]];
        location := location[j.id := j.dst];
        migrating := migrating - {j.id};
        owner := owner[l := Nobody][j.dst := Block(j.id)];
      }
    }

    /** The engine writes a byte of a block nobody is copying. */
    method Write(id: BlockId, k: nat, b: Byte)
      requires Valid() && id in view.tier && id !in view.target && k < bytes
      modifies this`mem, this`view
      ensures Valid() && id in old(view).val && k < |old(view).val[id]|
      ensures view == old(view).(val := old(view).val[id := old(view).val[id][k := b]])
    {
      assert ShowsBlock(State(), view, id) && BlockOk(State(), id);
      WriteView(State(), view, id, k, b);
      var l := location[id];
      mem := mem[l := mem[l][k := b]];
      view := view.(val := view.val[id := view.val[id][k := b]]);
    }

    /**
     In a pool made from `specs`, whatever has been done with it since, every block lies inside the
     capacity of its tier, and blocks of one tier do not overlap.
     */
    lemma InsideTier(specs: seq<TierSpec>, a: BlockId, b: BlockId)
      requires Valid() && Fits(specs, bytes, caps) && a in view.tier && b in view.tier
      ensures Allocated(State(), a) && Allocated(State(), b) && view.tier[a] < |specs|
      ensures PoolRuns.Offset(State(), a) + bytes <= specs[view.tier[a]].capacity
      ensures a != b && view.tier[a] == view.tier[b] ==>
                || PoolRuns.Offset(State(), a) + bytes <= PoolRuns.Offset(State(), b)
                || PoolRuns.Offset(State(), b) + bytes <= PoolRuns.Offset(State(), a)
    {
      assert ShowsBlock(State(), view, a) && ShowsBlock(State(), view, b);
      PoolRuns.BlocksDoNotOverlap(State(), a, b);
    }

    // -------------------------------------------------------------- queries

    method NumTiers() returns (n: nat)
      requires Valid()
      ensures n == |view.free| > 0
    {
      n := |free|;
    }

    method NumFree() returns (n: nat)
      requires Valid()
      ensures |view.free| > 0 && n == view.free[0]
    {
      assert ShowsTier(State(), view, 0);
      n := |free[0]|;
    }

    method Refcount(id: BlockId) returns (n: nat)
      requires Valid() && id < |view.rc|
      ensures n == view.rc[id]
    {
      n := refcount[id];
    }

    method BlockTier(id: BlockId) returns (t: TierIndex)
      requires Valid() && id in view.tier
      ensures t == view.tier[id]
    {
      assert ShowsBlock(State(), view, id);
      t := location[id].tier;
    }

    method Migrating(id: BlockId) returns (b: bool)
      requires Valid()
      ensures b <==> id in view.target
    {
      assert ShowsBlock(State(), view, id);
      b := id in migrating;
    }

    method MigrationTarget(id: BlockId) returns (t: TierIndex)
      requires Valid() && id in view.target
      ensures t == view.target[id]
    {
      assert ShowsBlock(State(), view, id);
      t := jobs[migrating[id] - head].dst.tier;
    }

    /** Counted over the unordered map of migrations in flight. */
    method PendingDepartures(t: TierIndex) returns (count: nat)
      requires Valid()
      ensures count == |Leaving(view, t)|
    {
      var rest := migrating.Keys;
      ghost var seen: set<BlockId> := {};
      count := 0;
      forall id | id in view.target ensures id in migrating {
        assert ShowsBlock(State(), view, id);
      }
      while rest != {}
        invariant rest <= migrating.Keys
        invariant seen == Leaving(view, t) - rest && count == |seen|
        decreases rest
      {
        var id :| id in rest;
        assert ShowsBlock(State(), view, id);
        if location[id].tier == t && jobs[migrating[id] - head].dst.tier != t {
          count := count + 1;
          seen := seen + {id};
        }
        rest := rest - {id};
      }
    }
  }
}
