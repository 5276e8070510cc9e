/**
 Worker steps that fall inside a scheduler operation, and why the operations may be taken as one step.

 drain_migrations() gives up the queue's lock between taking finished jobs off and settling them, and
 migrate() copies its bytes while the workers copy theirs. Here workers may step between any two
 jobs popped, any two jobs settled, and any two bytes copied.
 */
module Interleaving {
  import opened Types
  import opened PoolModel
  import opened PoolProofs
  import opened PoolView
  import opened PoolOps

  /** Whose turn it is. What the scheduler does with its turn depends on where it is. */
  datatype Act = WorkerAct(w: nat) | SchedulerAct

  // ------------------------------------------------------- a worker by itself

  /** What a worker can reach: the queue, the program counters and the memory. No table of the scheduler. */
  datatype Bench = Bench(bytes: nat, jobs: seq<Job>, cursor: nat, head: nat, workers: map<nat, Worker>,
                         mem: map<Location, seq<Byte>>)

  ghost function BenchOf(s: Pool): Bench {
    Bench(s.bytes, s.jobs, s.cursor, s.head, s.workers, s.mem)
  }

  ghost function Put(s: Pool, b: Bench): Pool {
    s.(jobs := b.jobs, cursor := b.cursor, head := b.head, workers := b.workers, mem := b.mem)
  }

  ghost function At(b: Bench, w: nat): Worker {
    if w in b.workers then b.workers[w] else Idle
  }

  /** What a worker relies on. */
  ghost predicate Safe(b: Bench, w: nat) {
    && b.cursor <= |b.jobs|
    && (!At(b, w).Idle? ==> b.head <= At(b, w).job < b.head + b.cursor)
    && (At(b, w).Copying? ==> CanCopy(b, b.jobs[At(b, w).job - b.head]))
  }

  ghost predicate CanCopy(b: Bench, j: Job) {
    && j.src in b.mem && j.dst in b.mem
    && (j.copied < b.bytes ==> j.copied < |b.mem[j.src]| && j.copied < |b.mem[j.dst]|)
  }

  ghost function Work(b: Bench, w: nat): Bench {
    if !Safe(b, w) then b
    else
      match At(b, w)
      case Idle =>
        if b.cursor < |b.jobs| then
          b.(workers := b.workers[w := Claimed(b.head + b.cursor)], cursor := b.cursor + 1)
        else b
      case Claimed(n) =>
        b.(workers := b.workers[w := if b.jobs[n - b.head].cancelled then Finishing(n) else Copying(n)])
      case Copying(n) =>
        var i, j := n - b.head, b.jobs[n - b.head];
        if j.copied < b.bytes then
          b.(mem := b.mem[j.dst := b.mem[j.dst][j.copied := b.mem[j.src][j.copied]]],
             jobs := b.jobs[i := j.(copied := j.copied + 1)])
        else b.(workers := b.workers[w := Finishing(n)])
      case Finishing(n) =>
        var i := n - b.head;
        b.(jobs := b.jobs[i := b.jobs[i].(done := true)], workers := b.workers[w := Idle])
  }

  /** A worker's step in any state, be the scheduler's tables in order or not. */
  ghost function Raw(s: Pool, w: nat): Pool {
    Put(s, Work(BenchOf(s), w))
  }

  lemma SafeNow(s: Pool, w: nat)
    requires Inv(s)
    ensures Safe(BenchOf(s), w)
  {
    hide IdsOk, SlotsOk;
    assert WorkerOk(s, w);
    if !Pc(s, w).Idle? {
      assert JobOk(s, Place(s, w));
    }
  }

  /** In a sound state it is the step of the pool. */
  lemma RawIsStep(s: Pool, w: nat)
    requires Inv(s)
    ensures Raw(s, w) == WorkerStep(s, w) && Inv(Raw(s, w))
  {
    WorkerStepInv(s, w);
    SafeNow(s, w);
    RawEquals(s, w);
    hide Inv, Safe, Raw, WorkerStep;
  }

  lemma RawEquals(s: Pool, w: nat)
    requires Inv(s) && Safe(BenchOf(s), w)
    ensures Raw(s, w) == WorkerStep(s, w)
  {
    hide Inv;
    match Pc(s, w)
    case Idle =>
    case Claimed(n) => assert Place(s, w) == n - s.head;
    case Copying(n) => assert Place(s, w) == n - s.head;
    case Finishing(n) => assert Place(s, w) == n - s.head;
  }

  /** The worker steps among `acts`. */
  ghost function Steps(s: Pool, acts: seq<Act>): Pool
    decreases |acts|
  {
    if acts == [] then s
    else Steps(if acts[0].WorkerAct? then Raw(s, acts[0].w) else s, acts[1..])
  }

  // ------------------------------------------------------------ settling jobs

  /** Settling a job and a worker's step do not touch what the other does. */
  lemma SettleCommutes(s: Pool, j: Job, w: nat)
    requires CanSettle(s, j)
    ensures CanSettle(Raw(s, w), j) && Raw(Settle(s, j), w) == Settle(Raw(s, w), j)
  {
    hide Work;
    assert BenchOf(Settle(s, j)) == BenchOf(s);
  }

  lemma {:induction false} SettleAllCommutes(s: Pool, js: seq<Job>, w: nat)
    requires CanSettleAll(s, js)
    ensures CanSettleAll(Raw(s, w), js) && Raw(SettleAll(s, js), w) == SettleAll(Raw(s, w), js)
    decreases |js|
  {
    if js != [] {
      SettleCommutes(s, js[0], w);
      SettleAllCommutes(Settle(s, js[0]), js[1..], w);
    }
  }

  /** Drain's second loop, with `acts` saying who moves when; in the end all of `js` are settled. */
  ghost function Settling(s: Pool, js: seq<Job>, acts: seq<Act>): Pool
    requires CanSettleAll(s, js)
    decreases |acts|
  {
    if acts == [] then SettleAll(s, js)
    else if acts[0].WorkerAct? then
      SettleAllCommutes(s, js, acts[0].w);
      Settling(Raw(s, acts[0].w), js, acts[1..])
    else if js == [] then Settling(s, js, acts[1..])
    else Settling(Settle(s, js[0]), js[1..], acts[1..])
  }

  lemma {:induction false} SettleInterleaved(s: Pool, js: seq<Job>, acts: seq<Act>)
    requires CanSettleAll(s, js)
    ensures Settling(s, js, acts) == Steps(SettleAll(s, js), acts)
    decreases |acts|
  {
    if acts != [] {
      if acts[0].WorkerAct? {
        SettleAllCommutes(s, js, acts[0].w);
        SettleInterleaved(Raw(s, acts[0].w), js, acts[1..]);
      } else if js == [] {
        SettleInterleaved(s, js, acts[1..]);
      } else {
        SettleInterleaved(Settle(s, js[0]), js[1..], acts[1..]);
      }
    }
  }

  // ---------------------------------------------------------- collecting jobs

  /** The first `k` jobs are finished. */
  ghost predicate DoneUpTo(s: Pool, k: nat) {
    k <= |s.jobs| && k <= s.cursor && forall i :: 0 <= i < k ==> s.jobs[i].done
  }

  ghost function PoppedBench(b: Bench, k: nat): Bench
    requires k <= |b.jobs| && k <= b.cursor
  {
    b.(jobs := b.jobs[k..], cursor := b.cursor - k, head := b.head + k)
  }

  /** Worker `w` holds none of the first `k` jobs. */
  ghost predicate Beyond(b: Bench, k: nat, w: nat) {
    k <= b.cursor <= |b.jobs| && (!At(b, w).Idle? ==> At(b, w).job >= b.head + k)
  }

  lemma PopKeepsSafe(b: Bench, k: nat, w: nat)
    requires Beyond(b, k, w)
    ensures Safe(PoppedBench(b, k), w) <==> Safe(b, w)
    ensures Safe(b, w) && !At(b, w).Idle? ==> PoppedBench(b, k).jobs[At(b, w).job - b.head - k] == b.jobs[At(b, w).job - b.head]
  {
  }

  lemma PopThenSet(js: seq<Job>, k: nat, i: nat, j: Job)
    requires k <= i < |js|
    ensures js[i := j][k..] == js[k..][i - k := j] && js[i := j][..k] == js[..k]
  {
  }

  lemma PopWork(b: Bench, k: nat, w: nat)
    requires Beyond(b, k, w)
    ensures k <= Work(b, w).cursor <= |Work(b, w).jobs| && Work(b, w).jobs[..k] == b.jobs[..k]
    ensures Work(PoppedBench(b, k), w) == PoppedBench(Work(b, w), k)
  {
    PopKeepsSafe(b, k, w);
    if Safe(b, w) {
      match At(b, w)
      case Idle =>
      case Claimed(n) =>
      case Copying(n) => PopThenSet(b.jobs, k, n - b.head, b.jobs[n - b.head].(copied := b.jobs[n - b.head].copied + 1));
      case Finishing(n) => PopThenSet(b.jobs, k, n - b.head, b.jobs[n - b.head].(done := true));
    }
  }

  lemma BeyondNow(s: Pool, k: nat, w: nat)
    requires Inv(s) && DoneUpTo(s, k)
    ensures Beyond(BenchOf(s), k, w)
  {
    hide IdsOk, SlotsOk;
    assert WorkerOk(s, w);
  }

  /** Taking finished jobs off the queue and a worker's step commute: nobody holds a finished job. */
  lemma PopCommutes(s: Pool, k: nat, w: nat)
    requires Inv(s) && DoneUpTo(s, k)
    ensures DoneUpTo(Raw(s, w), k) && Raw(s, w).jobs[..k] == s.jobs[..k]
    ensures Raw(Popped(s, k), w) == Popped(Raw(s, w), k)
  {
    BeyondNow(s, k, w);
    hide Inv, Raw, Popped, Beyond;
    PopRaw(s, k, w);
    forall i | 0 <= i < k ensures Raw(s, w).jobs[i].done {
      assert Raw(s, w).jobs[..k][i] == s.jobs[..k][i];
    }
  }

  lemma PopRaw(s: Pool, k: nat, w: nat)
    requires Beyond(BenchOf(s), k, w)
    ensures k <= s.cursor && k <= |s.jobs| && k <= Raw(s, w).cursor && k <= |Raw(s, w).jobs|
    ensures Raw(s, w).jobs[..k] == s.jobs[..k] && Raw(Popped(s, k), w) == Popped(Raw(s, w), k)
  {
    hide Work;
    PopWork(BenchOf(s), k, w);
    assert BenchOf(Popped(s, k)) == PoppedBench(BenchOf(s), k);
  }

  /** Drain's first loop, with `acts` saying who moves when. */
  ghost function Collect(p: Pool, finished: seq<Job>, acts: seq<Act>): (Pool, seq<Job>)
    decreases |acts|
  {
    if acts == [] then (p, finished)
    else if acts[0].WorkerAct? then Collect(Raw(p, acts[0].w), finished, acts[1..])
    else if CanDrain(p) && p.cursor > 0 then Collect(Popped(p, 1), finished + [p.jobs[0]], acts[1..])
    else Collect(p, finished, acts[1..])
  }

  /** It ends as if the workers had stepped first and the jobs been popped at once. */
  lemma {:induction false} CollectInterleaved(s: Pool, k: nat, acts: seq<Act>) returns (n: nat)
    requires Inv(s) && DoneUpTo(s, k)
    ensures Inv(Steps(s, acts)) && DoneUpTo(Steps(s, acts), n)
    ensures Collect(Popped(s, k), s.jobs[..k], acts) == (Popped(Steps(s, acts), n), Steps(s, acts).jobs[..n])
    decreases |acts|
  {
    if acts == [] {
      n := k;
    } else if acts[0].WorkerAct? {
      RawIsStep(s, acts[0].w);
      PopCommutes(s, k, acts[0].w);
      n := CollectInterleaved(Raw(s, acts[0].w), k, acts[1..]);
    } else if CanDrain(Popped(s, k)) {
      PopOneMore(s, k);
      n := CollectInterleaved(s, k + 1, acts[1..]);
    } else {
      n := CollectInterleaved(s, k, acts[1..]);
    }
  }

  lemma PopOneMore(s: Pool, k: nat)
    requires Inv(s) && DoneUpTo(s, k) && CanDrain(Popped(s, k))
    ensures DoneUpTo(s, k + 1) && Popped(Popped(s, k), 1) == Popped(s, k + 1)
    ensures s.jobs[..k] + [Popped(s, k).jobs[0]] == s.jobs[..k + 1]
  {
    hide IdsOk, SlotsOk, WorkersOk;
    assert JobOk(s, k);
    assert s.jobs[k..][1..] == s.jobs[k + 1..];
  }

  /**
   drain_migrations() with workers stepping anywhere inside it is the atomic drain with the workers'
   steps before and after it.
   */
  lemma DrainInterleaved(s: Pool, collecting: seq<Act>, settling: seq<Act>)
    requires Inv(s) && !CanDrain(Collect(s, [], collecting).0)
    ensures Inv(Steps(s, collecting))
    ensures var (p, finished) := Collect(s, [], collecting);
            CanSettleAll(p, finished) && Settling(p, finished, settling) == Steps(DrainOp(Steps(s, collecting)), settling)
  {
    assert Popped(s, 0) == s && s.jobs[..0] == [];
    var n := CollectInterleaved(s, 0, collecting);
    var s' := Steps(s, collecting);
    assert FinishedFront(s', n);
    DrainInTwoPhases(s', n);
    SettleInterleaved(Popped(s', n), s'.jobs[..n], settling);
  }

  // ------------------------------------------------------------- copying bytes

  /** Block `id` can move to the free slot `to`. */
  ghost predicate Movable(s: Pool, id: BlockId, to: Location) {
    Allocated(s, id) && id !in s.migrating && Owns(s, Nobody, to)
  }

  /** Whatever is written to a free slot concerns nobody. */
  lemma ScribbleInv(s: Pool, v: View, to: Location, x: seq<Byte>)
    requires Inv(s) && Shows(s, v) && Owns(s, Nobody, to) && |x| == s.bytes
    ensures Inv(s.(mem := s.mem[to := x])) && Shows(s.(mem := s.mem[to := x]), v)
  {
    var s' := s.(mem := s.mem[to := x]);
    BookUntouched(s, s');
    forall i: nat ensures JobOk(s', i) && LiveOk(s', i) {
      assert JobOk(s, i) && LiveOk(s, i);
    }
    forall i: nat ensures CopyOk(s', i) {
      assert JobOk(s, i) && LiveOk(s, i) && CopyOk(s, i);
      if i < |s.jobs| && !s.jobs[i].cancelled {
        assert MigOk(s, s.jobs[i].id) && BlockOk(s, s.jobs[i].id);
      }
    }
    forall id: nat ensures MigOk(s', id) {
      assert MigOk(s, id);
    }
    forall w: nat ensures WorkerOk(s', w) {
      assert WorkerOk(s, w);
    }
    forall u: nat, w: nat ensures Apart(s', u, w) {
      assert Apart(s, u, w);
    }
    forall id: nat | Allocated(s, id) && id < |s.location| && s.location[id] in s.mem
      ensures s'.mem[s.location[id]] == s.mem[s.location[id]]
    {
      assert BlockOk(s, id);
    }
    ShowsStill(s, s', v);
  }

  /** The scheduler copies byte `c` of block `id` to the slot `to`. */
  ghost function CopyIn(s: Pool, id: BlockId, to: Location, c: nat): Pool
    requires Inv(s) && Movable(s, id, to) && c < s.bytes
  {
    assert BlockOk(s, id);
    s.(mem := s.mem[to := s.mem[to][c := s.mem[s.location[id]][c]]])
  }

  /** The first `c` bytes of block `id` are in `to`. */
  ghost predicate InCopy(s: Pool, id: BlockId, to: Location, c: nat)
    requires Inv(s) && Movable(s, id, to)
  {
    assert BlockOk(s, id);
    c <= s.bytes && s.mem[to][..c] == s.mem[s.location[id]][..c]
  }

  /** The scheduler's tables are those of `s`. */
  ghost predicate SameBooks(s: Pool, s': Pool) {
    && s'.location == s.location && s'.free == s.free && s'.refcount == s.refcount && s'.migrating == s.migrating
    && s'.owner == s.owner && s'.bytes == s.bytes
  }

  lemma CopyInStep(s: Pool, v: View, id: BlockId, to: Location, c: nat)
    requires Inv(s) && Shows(s, v) && Movable(s, id, to) && c < s.bytes && InCopy(s, id, to, c)
    ensures var s' := CopyIn(s, id, to, c);
            Inv(s') && Shows(s', v) && SameBooks(s, s') && Movable(s', id, to) && InCopy(s', id, to, c + 1)
  {
    assert BlockOk(s, id);
    var l := s.location[id];
    ScribbleInv(s, v, to, s.mem[to][c := s.mem[l][c]]);
    var s' := CopyIn(s, id, to, c);
    assert s'.mem[to][..c + 1] == s.mem[to][..c] + [s.mem[l][c]];
    assert s.mem[l][..c + 1] == s.mem[l][..c] + [s.mem[l][c]];
  }

  /** A worker disturbs neither the block nor its copy. */
  lemma WorkerSparesCopy(s: Pool, v: View, id: BlockId, to: Location, c: nat, w: nat)
    requires Inv(s) && Shows(s, v) && Movable(s, id, to) && InCopy(s, id, to, c)
    ensures var s' := WorkerStep(s, w);
            Inv(s') && Shows(s', v) && SameBooks(s, s') && Movable(s', id, to) && InCopy(s', id, to, c)
  {
    WorkerInvisible(s, v, w);
    WorkerFrame(s, w);
    assert BlockOk(s, id);
    if !Pc(s, w).Idle? {
      assert JobOk(s, Place(s, w));
    }
  }

  /** migrate()'s copy, from byte `c` on, with `acts` saying who moves when. */
  ghost function CopyingBytes(s: Pool, v: View, id: BlockId, to: Location, c: nat, acts: seq<Act>): (r: (Pool, nat))
    requires Inv(s) && Shows(s, v) && Movable(s, id, to) && InCopy(s, id, to, c)
    ensures Inv(r.0) && Shows(r.0, v) && SameBooks(s, r.0) && Movable(r.0, id, to) && InCopy(r.0, id, to, r.1)
    decreases |acts|
  {
    if acts == [] then (s, c)
    else if acts[0].WorkerAct? then
      WorkerSparesCopy(s, v, id, to, c, acts[0].w);
      CopyingBytes(WorkerStep(s, acts[0].w), v, id, to, c, acts[1..])
    else if c < s.bytes then
      CopyInStep(s, v, id, to, c);
      CopyingBytes(CopyIn(s, id, to, c), v, id, to, c + 1, acts[1..])
    else CopyingBytes(s, v, id, to, c, acts[1..])
  }

  /** migrate()'s bookkeeping, once the bytes are copied. */
  ghost function Rebind(s: Pool, id: BlockId, dst: TierIndex): Pool
    requires Inv(s) && Allocated(s, id) && dst < |s.free| && s.free[dst] != []
  {
    assert BlockOk(s, id);
    var l, to := s.location[id], Location(dst, Last(s.free[dst]));
    s.(free := s.free[dst := ButLast(s.free[dst])][l.tier := s.free[l.tier] + [l.slot]],
       location := s.location[id := to],
       owner := s.owner[l := Nobody][to := Block(id)])
  }

  /**
   migrate() with workers stepping between any two bytes it copies: the state reached shows the same view and
   has the same tables as the one it began in, and rebinding the block there is the atomic move from there.
   (A stale worker may read the half-written slot; what it copies, nobody will see.)
   */
  lemma MoveInterleaved(s: Pool, v: View, id: BlockId, dst: TierIndex, acts: seq<Act>)
    requires Inv(s) && Shows(s, v) && Allocated(s, id) && id !in s.migrating && id < |s.location|
    requires dst < |s.free| && s.free[dst] != [] && s.location[id].tier != dst
    ensures var to := Location(dst, Last(s.free[dst]));
            && Movable(s, id, to) && InCopy(s, id, to, 0)
            && var (s', c) := CopyingBytes(s, v, id, to, 0, acts);
               && Shows(s', v) && SameBooks(s, s')
               && (c == s.bytes ==> Rebind(s', id, dst) == Move(s', id, dst))
  {
    var to := Location(dst, Last(s.free[dst]));
    assert TierOk(s, dst) && BlockOk(s, id);
    var r := CopyingBytes(s, v, id, to, 0, acts);
    var s' := r.0;
    if r.1 == s.bytes {
      CopyComplete(s', id, to);
    }
  }

  lemma CopyComplete(s: Pool, id: BlockId, to: Location)
    requires Inv(s) && Movable(s, id, to) && InCopy(s, id, to, s.bytes)
    ensures id < |s.location| && s.location[id] in s.mem && to in s.mem && s.mem[to] == s.mem[s.location[id]]
    ensures s.mem[to := s.mem[s.location[id]]] == s.mem
  {
    assert BlockOk(s, id);
    var l := s.location[id];
    assert s.mem[to][..s.bytes] == s.mem[to] && s.mem[l][..s.bytes] == s.mem[l];
  }
}
