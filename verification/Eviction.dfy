/** Eviction as a sequence of drops: which leaves go, in which order, and that there is no choice in it. */
module Eviction {
  import opened Types
  import opened TreeModel
  import opened TreeSteps
  import opened TreeWalk
  import opened PoolView
  import opened Backing

  /** The least recently used of the unpinned leaves whose blocks only the tree holds. */
  ghost predicate OldestSole(ns: Nodes, v: View, n: NodeId) {
    && Eligible(ns, {}, n) && Sole(v, ns[n].blocks)
    && forall m: nat :: Eligible(ns, {}, m) && Sole(v, ns[m].blocks) ==> ns[n].lastAccess <= ns[m].lastAccess
  }

  ghost predicate DropStep(key: Key, v: View, ns: Nodes, n: NodeId, ns': Nodes) {
    OldestSole(ns, v, n) && CanDrop(key, ns, n) && ns' == Drop(key, ns, n)
  }

  /** `victims` were dropped one after the other, the tree going through the states of `trace`. */
  ghost predicate DropRun(key: Key, v: View, trace: seq<Nodes>, victims: seq<NodeId>) {
    |trace| == |victims| + 1 && forall i :: 0 <= i < |victims| ==> DropStep(key, v, trace[i], victims[i], trace[i + 1])
  }

  ghost function BlocksIn(ns: Nodes, n: NodeId): nat {
    if n in ns then |ns[n].blocks| else 0
  }

  /** Blocks freed by the first `k` drops. */
  ghost function Freed(trace: seq<Nodes>, victims: seq<NodeId>, k: nat): nat
    requires k <= |trace| && k <= |victims|
  {
    if k == 0 then 0 else Freed(trace, victims, k - 1) + BlocksIn(trace[k - 1], victims[k - 1])
  }

  /** evict(num): drop until enough is freed or nothing droppable is left, and not once more. */
  ghost predicate EvictRun(key: Key, v: View, num: nat, trace: seq<Nodes>, victims: seq<NodeId>) {
    && DropRun(key, v, trace, victims)
    && (Freed(trace, victims, |victims|) >= num || Exhausted(Last(trace), v))
    && (victims != [] ==> Freed(trace, victims, |victims| - 1) < num)
  }

  /** The eviction that started from `ns`. */
  ghost predicate Dropping(key: Key, v: View, ns: Nodes, trace: seq<Nodes>, victims: seq<NodeId>) {
    DropRun(key, v, trace, victims) && trace[0] == ns
  }

  /** If a leaf was dropped at all, `free` is less than `enough` and the size of the last one together. */
  ghost predicate NotBeyond(free: nat, enough: int, trace: seq<Nodes>, victims: seq<NodeId>) {
    victims != [] && |trace| >= |victims| ==> free < enough + BlocksIn(trace[|victims| - 1], Last(victims))
  }

  /** Had it not been for the last leaf dropped, evict() would have gone on. */
  lemma LastDrop(key: Key, v: View, num: nat, trace: seq<Nodes>, victims: seq<NodeId>)
    requires EvictRun(key, v, num, trace, victims)
    ensures NotBeyond(Freed(trace, victims, |victims|), num, trace, victims)
    ensures victims == [] ==> Freed(trace, victims, |victims|) == 0
  {
  }

  lemma RunStart(key: Key, v: View, ns: Nodes)
    ensures DropRun(key, v, [ns], []) && Freed([ns], [], 0) == 0
  {
  }

  lemma RunMore(key: Key, v: View, trace: seq<Nodes>, victims: seq<NodeId>, n: NodeId, ns': Nodes)
    requires DropRun(key, v, trace, victims) && DropStep(key, v, Last(trace), n, ns')
    ensures DropRun(key, v, trace + [ns'], victims + [n])
    ensures Freed(trace + [ns'], victims + [n], |victims|) == Freed(trace, victims, |victims|)
    ensures Freed(trace + [ns'], victims + [n], |victims| + 1) ==
            Freed(trace, victims, |victims|) + BlocksIn(Last(trace), n)
  {
    hide DropStep;
    var trace', victims' := trace + [ns'], victims + [n];
    FreedSame(trace, victims, trace', victims', |victims|);
    forall i | 0 <= i < |victims'| ensures DropStep(key, v, trace'[i], victims'[i], trace'[i + 1]) {
      if i < |victims| {
        assert DropStep(key, v, trace[i], victims[i], trace[i + 1]);
        assert trace'[i] == trace[i] && victims'[i] == victims[i] && trace'[i + 1] == trace[i + 1];
      } else {
        assert trace'[i] == Last(trace) && victims'[i] == n && trace'[i + 1] == ns';
      }
    }
  }

  /** The drops so far, none of them after enough had been freed. */
  ghost predicate Logged(key: Key, v: View, num: nat, trace: seq<Nodes>, victims: seq<NodeId>, freed: nat) {
    && trace != [] && |victims| <= |trace| && DropRun(key, v, trace, victims)
    && freed == Freed(trace, victims, |victims|)
    && (victims != [] ==> Freed(trace, victims, |victims| - 1) < num)
  }

  lemma LogDrop(key: Key, v: View, num: nat, trace: seq<Nodes>, victims: seq<NodeId>, freed: nat, n: NodeId, ns': Nodes)
    requires Logged(key, v, num, trace, victims, freed) && freed < num
    requires DropStep(key, v, Last(trace), n, ns')
    ensures Logged(key, v, num, trace + [ns'], victims + [n], freed + BlocksIn(Last(trace), n))
  {
    RunMore(key, v, trace, victims, n, ns');
  }

  lemma NoneShared(ns: Nodes, v: View)
    ensures AllShared(ns, v, {})
  {
  }

  lemma RejectShared(ns: Nodes, v: View, rejected: set<NodeId>, n: NodeId)
    requires AllShared(ns, v, rejected) && n in ns && !Sole(v, ns[n].blocks)
    ensures AllShared(ns, v, rejected + {n})
  {
  }

  lemma {:induction false} FreedSame(trace: seq<Nodes>, victims: seq<NodeId>, trace': seq<Nodes>, victims': seq<NodeId>,
                                     k: nat)
    requires k <= |trace| && k <= |victims| && k <= |trace'| && k <= |victims'|
    requires forall i :: 0 <= i < k ==> trace[i] == trace'[i] && victims[i] == victims'[i]
    ensures Freed(trace, victims, k) == Freed(trace', victims', k)
  {
    if k > 0 {
      FreedSame(trace, victims, trace', victims', k - 1);
    }
  }

  // ---------------------------------------------------------------- one drop

  /** What is still stored is counted as it was when the eviction began. */
  lemma SoleSame(t: Tree, idx: map<Path, BlockId>, v: View, m: View, gone: set<BlockId>, n: NodeId)
    requires Inv(t) && Evicting(idx, t.index, v, m, gone) && n in t.nodes
    ensures Sole(m, t.nodes[n].blocks) <==> Sole(v, t.nodes[n].blocks)
  {
    var bs := t.nodes[n].blocks;
    forall i | 0 <= i < |bs|
      ensures bs[i] < |m.rc| <==> bs[i] < |v.rc|
      ensures bs[i] < |m.rc| ==> m.rc[bs[i]] == v.rc[bs[i]]
    {
      NodeIsStored(t, n, bs[i]);
    }
  }

  lemma ExhaustedSame(t: Tree, idx: map<Path, BlockId>, v: View, m: View, gone: set<BlockId>)
    requires Inv(t) && Evicting(idx, t.index, v, m, gone) && Exhausted(t.nodes, m)
    ensures Exhausted(t.nodes, v)
  {
    hide Inv, Evicting, Sole;
    forall n: nat | Eligible(t.nodes, {}, n) ensures !Sole(v, t.nodes[n].blocks) {
      SoleSame(t, idx, v, m, gone, n);
    }
  }

  /** The least recently used leaf not set aside is the oldest that can go: those set aside cannot. */
  lemma LruIsOldestSole(t: Tree, idx: map<Path, BlockId>, v: View, m: View, gone: set<BlockId>,
                        rejected: set<NodeId>, n: NodeId)
    requires Inv(t) && Evicting(idx, t.index, v, m, gone)
    requires IsLru(t.nodes, rejected, Some(n)) && AllShared(t.nodes, m, rejected) && Sole(m, t.nodes[n].blocks)
    ensures OldestSole(t.nodes, v, n)
  {
    hide Inv, Evicting, Sole;
    SoleSame(t, idx, v, m, gone, n);
    forall q: nat | Eligible(t.nodes, {}, q) && Sole(v, t.nodes[q].blocks)
      ensures t.nodes[n].lastAccess <= t.nodes[q].lastAccess
    {
      SoleSame(t, idx, v, m, gone, q);
      assert Eligible(t.nodes, rejected, q);
    }
  }

  lemma DropPaths(key: Key, ns: Nodes, n: NodeId)
    requires CanDrop(key, ns, n)
    ensures Drop(key, ns, n).Keys == ns.Keys - {n}
    ensures forall m :: m in Drop(key, ns, n) ==> m in ns && Drop(key, ns, n)[m].path == ns[m].path
  {
    DropShape(key, ns, n);
  }

  /** All that dropping `n` does to a running eviction. */
  lemma DropLogged(t: Tree, n: NodeId, idx: map<Path, BlockId>, v: View, m: View, v': View, gone: set<BlockId>,
                   rejected: set<NodeId>, num: nat, trace: seq<Nodes>, victims: seq<NodeId>, freed: nat)
    returns (gone': set<BlockId>, trace': seq<Nodes>)
    requires Inv(t) && Backed(t.index, m) && OldestSole(t.nodes, v, n) && Sole(m, t.nodes[n].blocks)
    requires AllShared(t.nodes, m, rejected) && Evicting(idx, t.index, v, m, gone)
    requires trace != [] && Logged(t.key, v, num, trace, victims, freed) && Last(trace) == t.nodes && freed < num
    requires Shed(m, v', Ids(t.nodes[n].blocks)) && CanDrop(t.key, t.nodes, n)
    requires |t.nodes[n].blocks| == |t.nodes[n].tokens| <= |t.nodes[n].path|
    ensures AllShared(Drop(t.key, t.nodes, n), v', rejected)
    ensures Evicting(idx, t.index - Own(t.nodes[n]).Keys, v, v', gone')
    ensures Logged(t.key, v, num, trace', victims + [n], freed + |t.nodes[n].blocks|)
    ensures trace' != [] && Last(trace') == Drop(t.key, t.nodes, n) && trace'[0] == trace[0]
  {
    hide Inv, Backed, Evicting, AllShared, Shed, Sole, Logged;
    SharedStay(t.key, t.nodes, n, m, v', rejected);
    EvictingMore(t, n, idx, v, m, v', gone);
    assert DropStep(t.key, v, t.nodes, n, Drop(t.key, t.nodes, n));
    LogDrop(t.key, v, num, trace, victims, freed, n, Drop(t.key, t.nodes, n));
    gone', trace' := gone + Ids(t.nodes[n].blocks), trace + [Drop(t.key, t.nodes, n)];
  }

  // ------------------------------------------------------------- determinism

  lemma OldestUnique(ns: Nodes, clock: nat, v: View, n: NodeId, m: NodeId)
    requires Stamped(ns, clock) && OldestSole(ns, v, n) && OldestSole(ns, v, m)
    ensures n == m
  {
    assert StampsApart(ns, n, m);
  }

  lemma DropKeepsStamps(key: Key, ns: Nodes, n: NodeId, clock: nat)
    requires CanDrop(key, ns, n) && Stamped(ns, clock)
    ensures Stamped(Drop(key, ns, n), clock)
  {
    DropShape(key, ns, n);
    var ns' := Drop(key, ns, n);
    forall m: nat ensures StampOk(ns', clock, m) {
      assert StampOk(ns, clock, m);
    }
    forall m: nat, q: nat ensures StampsApart(ns', m, q) {
      assert StampsApart(ns, m, q);
    }
  }

  /** Two runs from the same state agree as far as both go. */
  lemma {:induction false} RunsAgree(key: Key, v: View, clock: nat, trace: seq<Nodes>, victims: seq<NodeId>,
                                     trace': seq<Nodes>, victims': seq<NodeId>, k: nat)
    requires DropRun(key, v, trace, victims) && DropRun(key, v, trace', victims')
    requires trace[0] == trace'[0] && Stamped(trace[0], clock) && k <= |victims| && k <= |victims'|
    ensures Stamped(trace[k], clock) && trace[k] == trace'[k]
    ensures forall i :: 0 <= i < k ==> trace[i] == trace'[i] && victims[i] == victims'[i]
  {
    if k > 0 {
      var j := k - 1;
      RunsAgree(key, v, clock, trace, victims, trace', victims', j);
      assert DropStep(key, v, trace[j], victims[j], trace[j + 1]);
      assert DropStep(key, v, trace'[j], victims'[j], trace'[j + 1]);
      OldestUnique(trace[j], clock, v, victims[j], victims'[j]);
      DropKeepsStamps(key, trace[j], victims[j], clock);
    }
  }

  lemma {:induction false} FreedGrows(trace: seq<Nodes>, victims: seq<NodeId>, j: nat, k: nat)
    requires j <= k <= |trace| && k <= |victims|
    ensures Freed(trace, victims, j) <= Freed(trace, victims, k)
  {
    if j < k {
      FreedGrows(trace, victims, j, k - 1);
    }
  }

  /** No run stops before another from the same state does. */
  lemma NoShorterRun(key: Key, v: View, clock: nat, num: nat, trace: seq<Nodes>, victims: seq<NodeId>,
                     trace': seq<Nodes>, victims': seq<NodeId>)
    requires EvictRun(key, v, num, trace, victims) && EvictRun(key, v, num, trace', victims')
    requires trace[0] == trace'[0] && Stamped(trace[0], clock)
    ensures |victims'| <= |victims|
  {
    if |victims| < |victims'| {
      var k := |victims|;
      assert DropStep(key, v, trace'[k], victims'[k], trace'[k + 1]);
      assert |trace| == k + 1 && |trace'| == |victims'| + 1 && !Exhausted(trace'[k], v);
      hide DropRun, DropStep, Exhausted, Stamped;
      FreedGrows(trace', victims', k, |victims'| - 1);
      RunsAgree(key, v, clock, trace, victims, trace', victims', k);
      FreedSame(trace, victims, trace', victims', k);
    }
  }

  /** evict() has no choice: whatever the order in which children are visited, the same leaves go. */
  lemma EvictDeterministic(key: Key, v: View, clock: nat, num: nat, trace: seq<Nodes>, victims: seq<NodeId>,
                           trace': seq<Nodes>, victims': seq<NodeId>)
    requires EvictRun(key, v, num, trace, victims) && EvictRun(key, v, num, trace', victims')
    requires trace[0] == trace'[0] && Stamped(trace[0], clock)
    ensures victims == victims' && trace == trace'
  {
    NoShorterRun(key, v, clock, num, trace, victims, trace', victims');
    NoShorterRun(key, v, clock, num, trace', victims', trace, victims);
    RunsAgree(key, v, clock, trace, victims, trace', victims', |victims|);
  }

  // ------------------------------------------------------------ several rounds

  /** Only the tree holds what it stores. */
  ghost predicate AllSole(v: View, ns: Nodes) {
    forall n: nat :: n in ns ==> Sole(v, ns[n].blocks)
  }

  lemma {:induction false} SoleAlong(key: Key, v: View, w: View, trace: seq<Nodes>, victims: seq<NodeId>, k: nat)
    requires DropRun(key, w, trace, victims) && AllSole(v, trace[0]) && k <= |victims|
    ensures AllSole(v, trace[k])
  {
    if k > 0 {
      var j := k - 1;
      SoleAlong(key, v, w, trace, victims, j);
      assert DropStep(key, w, trace[j], victims[j], trace[j + 1]);
      DropShape(key, trace[j], victims[j]);
    }
  }

  /** The order in which leaves go is that of their last use, whatever view one takes of the counts. */
  lemma RunElsewhere(key: Key, w: View, v: View, trace: seq<Nodes>, victims: seq<NodeId>)
    requires DropRun(key, w, trace, victims) && AllSole(w, trace[0]) && AllSole(v, trace[0])
    ensures DropRun(key, v, trace, victims)
  {
    forall i | 0 <= i < |victims| ensures DropStep(key, v, trace[i], victims[i], trace[i + 1]) {
      SoleAlong(key, v, w, trace, victims, i);
      SoleAlong(key, w, w, trace, victims, i);
      assert DropStep(key, w, trace[i], victims[i], trace[i + 1]);
    }
  }

  /** One round of eviction after another is an eviction. */
  lemma RunJoin(key: Key, v: View, trace: seq<Nodes>, victims: seq<NodeId>, trace': seq<Nodes>, victims': seq<NodeId>)
    requires DropRun(key, v, trace, victims) && DropRun(key, v, trace', victims') && Last(trace) == trace'[0]
    ensures DropRun(key, v, trace + trace'[1..], victims + victims')
    ensures (trace + trace'[1..])[0] == trace[0] && Last(trace + trace'[1..]) == Last(trace')
    ensures victims' != [] ==> (trace + trace'[1..])[|victims + victims'| - 1] == trace'[|victims'| - 1]
  {
    hide DropStep;
    var tr, vs := trace + trace'[1..], victims + victims';
    forall i | 0 <= i < |vs| ensures DropStep(key, v, tr[i], vs[i], tr[i + 1]) {
      if i < |victims| {
        assert DropStep(key, v, trace[i], victims[i], trace[i + 1]);
      } else {
        var j := i - |victims|;
        assert DropStep(key, v, trace'[j], victims'[j], trace'[j + 1]);
        assert tr[i] == trace'[j];
      }
    }
  }

  // --------------------------------------------------------------- overshoot

  /** Every node but the root holds one block. */
  ghost predicate Singles(ns: Nodes) {
    forall n: nat :: n in ns && n != ROOT ==> |ns[n].blocks| == 1
  }

  lemma {:induction false} SinglesStay(key: Key, v: View, trace: seq<Nodes>, victims: seq<NodeId>, k: nat)
    requires DropRun(key, v, trace, victims) && Singles(trace[0]) && k <= |victims|
    ensures Singles(trace[k])
  {
    if k > 0 {
      var j := k - 1;
      SinglesStay(key, v, trace, victims, j);
      assert DropStep(key, v, trace[j], victims[j], trace[j + 1]);
      DropShape(key, trace[j], victims[j]);
    }
  }

  /** With one block to a node, evict() frees no more than it is asked to. */
  lemma NoOvershoot(key: Key, v: View, num: nat, trace: seq<Nodes>, victims: seq<NodeId>)
    requires EvictRun(key, v, num, trace, victims) && Singles(trace[0])
    ensures Freed(trace, victims, |victims|) <= num
  {
    if victims != [] {
      var k := |victims| - 1;
      SinglesStay(key, v, trace, victims, k);
      assert DropStep(key, v, trace[k], victims[k], trace[k + 1]);
    }
  }

  /** A tree of one leaf with two blocks. */
  ghost function TwoBlockLeaf(key: Key): Nodes {
    map[ROOT := Node([], [], map[key([0]) := 1], ROOT, 0, 0, []),
        1 := Node([[0], [1]], [0, 1], map[], ROOT, 0, 1, [[0], [1]])]
  }

  /** Asked for one block, evict() frees both. */
  lemma OvershootWitness(key: Key, v: View) returns (trace: seq<Nodes>, victims: seq<NodeId>)
    requires v.rc == [1, 1]
    ensures EvictRun(key, v, 1, trace, victims) && trace[0] == TwoBlockLeaf(key)
    ensures Freed(trace, victims, |victims|) == 2
  {
    var ns := TwoBlockLeaf(key);
    assert Structure(key, ns);
    assert CanDrop(key, ns, 1);
    trace, victims := [ns, Drop(key, ns, 1)], [1];
    assert OldestSole(ns, v, 1);
    assert DropStep(key, v, trace[0], victims[0], trace[1]);
    assert Freed(trace, victims, 0) == 0;
    assert Freed(trace, victims, 1) == 2;
  }
}
