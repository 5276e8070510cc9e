# kvslab: a verified model of a tiered, prefix-sharing KV cache

This project models the three layers of kvslab and proves what they promise together.

* **The block pool** hands out fixed-size blocks with stable ids. A block lives in a slot of some
  tier and can be moved: synchronously, or by a job in a queue that worker threads copy while the
  scheduler goes on. The model is a transition system in which every scheduler operation may fall
  between any two worker steps, and a worker step is as small as the copy of one byte. Jobs may be
  cancelled in mid-copy, their source slots freed and reused, and their block ids recycled.
* **The prefix tree** speeds up a simple thing: a prefix-closed map from block-aligned token
  sequences to block ids. Its key function is arbitrary, so any two blocks of tokens may collide.
* **The cache manager** runs the requests: acquire, ready, release, abandon, and handle moves.

The theorem at the top: whatever clients do, in whatever order, and however the copy workers are
interleaved, a table handed out from the cache reads, once it is ready, exactly as if it had been
recomputed (`CacheManager.CacheManager.Ready`); and until the handle is released, dropped or moved, whatever anybody
demotes, promotes, evicts, drains, writes, polls or releases, each of its blocks in the compute tier stays there, at
the same address, and each that is not written keeps its bytes; its cached blocks nobody writes (`Clients.Session`).

## How it is built

| file | what it holds |
|---|---|
| `Types.dfy` | shared vocabulary |
| `PoolModel.dfy`, `PoolProofs.dfy` | the pool's state, its atomic steps, its invariant, and that each step keeps it |
| `PoolView.dfy`, `PoolOps.dfy` | the pool as the layers above see it, and the refinement between the two |
| `PoolRuns.dfy` | theorems about every run of scheduler and workers |
| `Interleaving.dfy` | worker steps that fall inside a drain or a synchronous move, and why both may be taken as one step |
| `BlockPool.dfy` | the pool as an object, its methods proved against the steps |
| `TreeModel.dfy`, `TreeSteps.dfy`, `TreeWalk.dfy`, `Recency.dfy`, `Eviction.dfy` | the tree's state, updates, walks, LRU order and eviction runs |
| `Backing.dfy` | how index and pool fit together |
| `RadixTree.dfy` | the tree as an object |
| `SystemModel.dfy`, `Requests.dfy`, `Planning.dfy`, `Guarantees.dfy` | the system invariant, what keeps it, acquire's arithmetic, and what the invariant is worth |
| `Stability.dfy` | what a live table can rely on while the cache is used |
| `Accounting.dfy` | where the compute slots are, and exactly when a request is refused |
| `CacheManager.dfy` | the manager as an object |
| `Clients.dfy` | an engine that fills its own blocks, and any script of client requests |

Choices a reader should know:

* Invariants are quantified over named predicates on one element (`BlockOk(s, id)`), so that a proof
  says which instances it uses.
* A tree edge is a sequence of *chunks*, one chunk being one block's worth of tokens; the source
  keeps a flat token vector and steps through it a block at a time. `ChunksAreWholeBlocks` relates the
  two.
* Nodes live in an arena under ids that are never reused, in place of node pointers. `path`, the chunks from
  the root to the end of a node, is an auxiliary field that is read only to extend it.
* The pool's `owner` and `view`, the tree's `index` and `pins`, and a handle's `tokens` and `data` are
  auxiliary too. A handle is a value held in one of the client's variables; `handles` maps variables to
  handles, and a pin is named after the variable that holds it.
* `Acquire` returns as auxiliary results the matched prefix and its `Course`, the states it went through while it
  drained and made room, so that its contract can speak of them.
* A job is addressed by its number since the pool was made (`head` plus its place in the queue),
  in place of a job pointer.
* The walk that match_prefix and insert both contain is written once, as `RadixTree.Walk`. The end
  that release and abandon share is `CacheManager.Finish`.
* The atomics are sequentially consistent flags, and any number of workers may run. Workers run between
  the scheduler's pool operations (`WorkersRun`); `Interleaving.DrainInterleaved` and
  `Interleaving.MoveInterleaved` show that steps inside an operation lead nowhere else.
* `kInvalidBlock` becomes `None`; the exceptions of init() become `InitError`; the fatal checks on ids,
  tiers and reference counts become preconditions.

Environment assumptions, stated as preconditions: release() is given the tokens its handle was
acquired for, after the engine has filled every whole fresh block; the engine writes only into fresh blocks
of live handles; clients use the manager and their handles only. The tree's insert() asks that the blocks
offered be distinct and allocated, and stored nowhere else unless their prefix is stored already; the tree
has no way to tell. `Requests.TableFitsInsert` shows that every live table meets this.

Where documentation and code disagree the model follows the code:

* include/kvslab/block_pool.hpp:71-75 says that a migrate() that returns false leaves the block untouched. It
  cancels a migration in flight all the same. `FailedMigrateUntouched` says exactly when the promise
  holds, and `FailedMigrateWitness` is a run in which it does not.
* src/cache_manager.cpp:177 calls a refused request "oversubscribed by in-flight sequences". That is not the whole
  condition. A request for `need` blocks is refused if and only if `need`, the blocks of live tables that it does not share, and
  the compute slots that cancelled jobs still hold come to more than the compute tier has
  (`CacheManager.CacheManager.Acquire`, by `Accounting.FullAccount` and `Accounting.TablesFit`). So the sentence is true
  of a refusal exactly when `need` and the unshared blocks alone are too many, and false when only the stale slots make the difference: drop a handle
  whose promotion is unfinished, and let the next request evict the block; the job is cancelled, and the slot it
  reserves comes back only when the job is drained. `StaleJobWitness` is the pool's half of that run (no block in
  use, no compute slot free). What a caller can check beforehand: if the sum counts every job bound for the compute tier at the time of
  the call that is not in the finished front of the queue, and still fits, the request is served; with nothing live and
  nothing queued it is served if and only if its tokens fit (`CacheManager.CacheManager.AcquireIdle`).
* include/kvslab/block_pool.hpp:90-93 gives two reasons for migrate_async() to fail; it also fails when the block is in `dst` already
  and when one of the tiers is not host-addressable (`BlockPool.MigrateAsync`).
* include/kvslab/radix_tree.hpp:68-70 says that evict() frees up to the number asked for. It drops whole leaves and may free
  more, by less than the size of the last one (`EvictRun`). `OvershootWitness` is a run that does, and `NoOvershoot` says
  that a tree with one block to a node never does.

## Model

| member | source | states |
|---|---|---|
| `PoolRuns.SlotPartition` | src/block_pool.cpp:101-215 | in every state of the invariant each slot is exactly one of free, the home of one block, or the destination of one undrained job, and no free list repeats a slot |
| `PoolRuns.WorkerWritesReserved` | src/block_pool.cpp:101-122 | a worker step that changes a slot changes one reserved by a claimed, unfinished job; never a free slot and never a live block's |
| `PoolRuns.MigratingBijection` | src/block_pool.cpp:124-184 | the migrations in flight and the uncancelled queued jobs correspond one to one, each job reading from where its block is, even after ids were recycled |
| `PoolRuns.IdsOutlastSlots` | src/block_pool.cpp:236-249 | ids never run out before compute slots |
| `PoolRuns.DrainAll` | src/block_pool.cpp:186-228 | once every queued copy is done, a drain empties the queue and leaves nothing in flight |
| `PoolRuns.DrainSparesHeld` | src/block_pool.cpp:186-200 | a job that a worker still holds is neither destroyed nor changed by a drain |
| `PoolRuns.ClaimedOnceInOrder` | src/block_pool.cpp:101-122 | over every run, jobs are claimed in queue order and each once, whatever the number of workers; the cursor and the queue's head advance consistently |
| `PoolRuns.StepNearer` | src/block_pool.cpp:101-122 | every step of a worker that holds a job takes it nearer to the end of it, and its last step leaves the job done |
| `PoolRuns.JobGetsDone` | src/block_pool.cpp:101-122 | after finitely many steps of the worker that holds a job, the job is done |
| `PoolRuns.RunKeepsBytes` | src/block_pool.cpp:101-215 | over every run, a block that stays allocated and is not written keeps its bytes, however often it is moved and however copies are cancelled and torn |
| `PoolRuns.StepView` | src/block_pool.cpp:101-318 | every step has a view in which every surviving, unwritten block has the value it had |
| `PoolRuns.BlocksDoNotOverlap` | src/block_pool.cpp:320-323 | in every state of the invariant distinct blocks of one tier occupy disjoint byte ranges among the slots of the tier |
| `BlockPool.BlockPool.InsideTier` | src/block_pool.cpp:38-64 | a pool made from a specification keeps every block inside the capacity that specification gives its tier, and blocks apart |
| `Interleaving.RawIsStep` | src/block_pool.cpp:101-122 | a worker's step depends on the queue, its program counter and memory alone, and on no table of the scheduler |
| `Interleaving.PopCommutes` | src/block_pool.cpp:192-200 | taking finished jobs off the queue commutes with a worker's step |
| `Interleaving.SettleCommutes` | src/block_pool.cpp:202-214 | settling a job commutes with a worker's step, also while the scheduler's tables are in disorder |
| `Interleaving.DrainInterleaved` | src/block_pool.cpp:186-215 | a drain with worker steps anywhere inside either of its loops and between them is the atomic drain with those steps before and after it |
| `Interleaving.ScribbleInv` | src/block_pool.cpp:298-313 | what is written to a free slot changes neither the invariant nor the view |
| `Interleaving.MoveInterleaved` | src/block_pool.cpp:282-318 | with worker steps between any two of its bytes a synchronous move reaches a state of the same view and tables, and its bookkeeping there is the atomic move from there |
| `PoolProofs.WorkerStepInv` | src/block_pool.cpp:101-122 | every worker step, in any interleaving, keeps the pool's invariant |
| `PoolProofs.CancelInv` | src/block_pool.cpp:176-184 | cancelling between any two worker steps keeps the invariant: the reserved slot stays the job's |
| `PoolProofs.FreeInv` | src/block_pool.cpp:257-271 | freeing a block, and so its slot and id, keeps the invariant though a stale copy may still read the slot |
| `PoolProofs.ReserveInv` | src/block_pool.cpp:124-155 | reserving a slot and queueing a copy keeps the invariant |
| `PoolProofs.MoveInv` | src/block_pool.cpp:282-318 | a synchronous move keeps the invariant |
| `PoolView.WorkerInvisible` | src/block_pool.cpp:101-122 | no worker step changes what the scheduler or the engine can see |
| `PoolView.DrainLiveView` | src/block_pool.cpp:202-214 | when drain rebinds a block its copy is complete, came from where the block still is, and the new slot holds the same bytes |
| `PoolView.DrainCancelledView` | src/block_pool.cpp:202-208 | retiring a cancelled job returns its slot and does nothing else |
| `PoolOps.DrainInTwoPhases` | src/block_pool.cpp:186-215 | taking all finished jobs off the queue and settling them afterwards is the same as retiring them one at a time |
| `PoolOps.DrainView` | src/block_pool.cpp:186-215 | a drain retires exactly the finished jobs at the front: it completes their migrations and no other, each gives back one slot, no other block moves, and no count and no byte changes |
| `PoolOps.DrainRebinds` | src/block_pool.cpp:202-214 | a drain rebinds no block that had no migration in flight |
| `PoolOps.DrainTakesFront` | src/block_pool.cpp:186-200 | a drain takes exactly the finished jobs off the front of the queue: the first one left is not finished |
| `PoolOps.DecrefView` | src/block_pool.cpp:257-271 | decref in view: one reference less, or the block gone with its migration and its slot free |
| `PoolOps.MigrateView` | src/block_pool.cpp:282-318 | migrate in view: the block moves with its bytes, or only loses its migration |
| `PoolOps.MigrateAsyncView` | src/block_pool.cpp:124-155 | migrate_async in view succeeds exactly under its four conditions and takes one slot of the destination |
| `PoolOps.FailedMigrateUntouched` | include/kvslab/block_pool.hpp:71-75 | a migrate() that fails leaves the pool as it was if and only if no migration of the block was in flight |
| `PoolOps.DrainKeepsProjected` | src/block_pool.cpp:161-168 | draining a finished uncancelled job keeps free plus departing compute slots |
| `PoolOps.DemotionProjects` | src/block_pool.cpp:161-168 | scheduling a demotion adds one to that sum |
| `BlockPool.SpecsFault` | src/block_pool.cpp:38-51 | accepted if and only if there is a tier and every tier is there and has room for its blocks; otherwise the error is that of the first tier that is missing or too small, or that there is none |
| `BlockPool.Create` | src/block_pool.cpp:33-76 | the constructor fails exactly on a faulty specification, and otherwise yields a valid, empty pool with the slots asked for, each tier large enough |
| `BlockPool.FailedMigrateWitness` | src/block_pool.cpp:282-290 | for every block size, a run in which migrate() fails and yet cancels the demotion in flight |
| `BlockPool.StaleJobWitness` | src/block_pool.cpp:176-215 | for every block size, a run that leaves no block in use, nothing in flight, and yet no compute slot free |
| `BlockPool.BlockPool.constructor` | src/block_pool.cpp:38-76 | every slot and id free, one id per slot, as many slots as asked for, nothing queued, the invariant holds |
| `BlockPool.BlockPool.WorkerStep` | src/block_pool.cpp:101-122 | the loop of a worker, step by step: claim, test, copy, set done |
| `BlockPool.BlockPool.WorkersRun` | src/block_pool.cpp:91-122 | any number of steps by any workers keep the pool valid, its view and the queued jobs the same; what is finished stays finished |
| `BlockPool.BlockPool.Allocate` | src/block_pool.cpp:236-249 | fails exactly when tier 0 is full; otherwise a new id with count one in tier 0 |
| `BlockPool.BlockPool.Incref` | src/block_pool.cpp:251-255 | one reference more, nothing else |
| `BlockPool.BlockPool.Decref` | src/block_pool.cpp:257-271 | one reference less; true exactly when it was the last, and then id, slot and migration are gone |
| `BlockPool.BlockPool.CancelMigration` | src/block_pool.cpp:176-184 | the block keeps its location and has no migration any more |
| `BlockPool.BlockPool.Migrate` | src/block_pool.cpp:282-318 | true exactly when the block is there already or a slot is free; the bytes move with it |
| `BlockPool.BlockPool.MigrateAsync` | src/block_pool.cpp:124-155 | queues a copy and reserves its slot exactly when it is possible, else nothing |
| `BlockPool.BlockPool.DrainMigrations` | src/block_pool.cpp:186-215 | the two-phase loop equals retiring finished jobs one by one, and completes exactly those; it takes all finished jobs off the front and no other |
| `BlockPool.BlockPool.PendingDepartures` | src/block_pool.cpp:161-168 | the number of blocks whose migration out of the tier is in flight, in any order of the map |
| `BlockPool.BlockPool.MigrationTarget` | src/block_pool.cpp:170-174 | the tier the migration in flight is headed to |
| `BlockPool.BlockPool.Write` | src/block_pool.cpp:325-330 | the engine's write of one byte reaches that block and no other |
| `TreeModel.Unique` | src/radix_tree.cpp:84-130 | one child per key makes a prefix stored in one place only, for every key function |
| `TreeModel.PrefixClosed` | src/radix_tree.cpp:132-200 | the abstract map is prefix-closed |
| `TreeSteps.SplitInv` | src/radix_tree.cpp:52-82 | a split keeps the whole invariant: abstract map, pin counts, distinct time stamps, counters |
| `TreeSteps.SplitThrough` | src/radix_tree.cpp:45-82 | the pins through the new parent are exactly those through the node split, so the inherited count is right |
| `TreeSteps.AddLeafInv` | src/radix_tree.cpp:187-200 | hanging a leaf keeps the invariant and extends the map by the leaf's entries |
| `TreeSteps.DropInv` | src/radix_tree.cpp:211-224 | dropping an unpinned leaf keeps the invariant and removes its entries |
| `TreeSteps.LockInv` | src/radix_tree.cpp:304-308 | after lock every count is again the number of live pins at or below the node |
| `TreeSteps.UnlockInv` | src/radix_tree.cpp:310-315 | likewise after unlock |
| `TreeSteps.PinsCounted` | src/radix_tree.cpp:310-315 | a node above a live pin has a positive count, so unlock never underflows |
| `TreeSteps.LocksClimb` | src/radix_tree.cpp:304-308 | pins are upward closed |
| `TreeSteps.MovePinInv` | src/cache_manager.cpp:21-45 | a pin that changes hands counts as before |
| `TreeWalk.ChunksAreWholeBlocks` | src/radix_tree.cpp:87-89 | chunking drops less than one block of tokens and nothing else |
| `TreeWalk.BlocksFor` | src/cache_manager.cpp:118 | the blocks a sequence needs have room for every token of it, and one block less has not |
| `TreeWalk.SpansBound` | src/cache_manager.cpp:117-118 | there is one such number: it is within a number of blocks if and only if the tokens are |
| `TreeWalk.BlocksForChunks` | src/cache_manager.cpp:117-118 | the whole blocks of a sequence are among those it needs, and leave room for at most one partial block |
| `TreeWalk.LongestMatch` | src/radix_tree.cpp:84-130 | a walk that matches and ends has found the longest stored prefix |
| `TreeWalk.AllReached` | src/radix_tree.cpp:233-248 | the stack walk reaches every node |
| `TreeWalk.LruIsUnique` | src/radix_tree.cpp:233-248 | there is one least recently used eligible leaf, so the order of children does not matter |
| `TreeWalk.UnpinnedLeafBelow` | src/radix_tree.cpp:226-248 | below any unpinned node there is an unpinned leaf |
| `Recency.UsedIsYoungest` | include/kvslab/radix_tree.hpp:98 | after a walk every node on its path is more recent than every other node |
| `Recency.RecentSplit` | src/radix_tree.cpp:114-121 | a walk that ends inside a node touches the new parent and not the tail |
| `Eviction.LruIsOldestSole` | src/radix_tree.cpp:250-270 | the leaf that goes is the oldest of all unpinned leaves that only the tree holds, whatever was set aside |
| `Eviction.OvershootWitness` | src/radix_tree.cpp:250-277 | a run in which evict(1) frees two blocks |
| `Eviction.NoOvershoot` | src/radix_tree.cpp:250-277 | with one block to a node evict() frees no more than it is asked to |
| `Eviction.EvictDeterministic` | src/radix_tree.cpp:233-277 | two evictions from the same state drop the same leaves in the same order |
| `Eviction.RunElsewhere` | src/cache_manager.cpp:171-175 | with every stored block held by the tree alone, which leaf goes next does not depend on what was freed before |
| `Eviction.RunJoin` | src/cache_manager.cpp:171-175 | one call of evict() after another makes one run of drops, oldest first |
| `Eviction.LastDrop` | src/radix_tree.cpp:250-277 | evict() frees less than the number asked for and the size of the last leaf together |
| `Backing.TakenMeansCollision` | src/radix_tree.cpp:173-185 | after the walk the key slot is taken if and only if a stored block of tokens collides |
| `Backing.BlocksApart` | src/radix_tree.cpp:187-199 | no block is stored in two nodes |
| `Backing.PickCold` | src/radix_tree.cpp:279-302 | picks come from the coldest leaves first |
| `Backing.PickOrdered` | src/radix_tree.cpp:279-302 | picks come in the order of their leaves' recency |
| `Backing.PrefixIsCold` | src/cache_manager.cpp:159-170 | if only the first picks are demoted, no block that could still be is in a colder leaf |
| `Backing.AllBlocks` | src/radix_tree.cpp:16-43 | the blocks of all nodes are exactly the stored ones |
| `RadixTree.RadixTree.SplitNode` | src/radix_tree.cpp:52-82 | interposes a parent for the head; the node itself keeps its identity and the tail |
| `RadixTree.RadixTree.Walk` | src/radix_tree.cpp:91-126 | finds where the stored prefix ends and touches exactly the nodes along it; the map is unchanged and no node moves |
| `RadixTree.RadixTree.MatchPrefix` | src/radix_tree.cpp:84-130 | the longest block-aligned stored prefix with exactly its blocks, and a node whose path spells exactly the match |
| `RadixTree.RadixTree.Insert` | src/radix_tree.cpp:132-200 | adds exactly the missing suffix and a reference for each block adopted, or refuses exactly on a collision and changes no mapping; existing entries stay |
| `RadixTree.RadixTree.Lock` | src/radix_tree.cpp:304-308 | one more live pin; all counts agree |
| `RadixTree.RadixTree.Unlock` | src/radix_tree.cpp:310-315 | one live pin less; no count goes below zero |
| `RadixTree.RadixTree.AddAlongPath` | src/radix_tree.cpp:304-315 | the climb changes the counts of exactly the nodes on the path to the root |
| `RadixTree.RadixTree.FindLruLeaf` | src/radix_tree.cpp:233-248 | the least recently used unpinned leaf not rejected, or none if there is none |
| `RadixTree.RadixTree.TreeIsSoleOwner` | src/radix_tree.cpp:202-209 | whether every block of the node has a count of one |
| `RadixTree.RadixTree.DropLeaf` | src/radix_tree.cpp:211-224 | the leaf's entries go, exactly its blocks are freed, and nothing else changes |
| `RadixTree.RadixTree.Evict` | src/radix_tree.cpp:250-277 | drops oldest sole-owned unpinned leaves in order until enough is freed or none is left, and none after that; exactly their blocks are freed |
| `RadixTree.RadixTree.PickDemotionVictims` | src/radix_tree.cpp:279-302 | distinct compute-tier blocks at rest that only the tree holds, from unpinned leaves, coldest first; fewer than asked only if there are no more |
| `RadixTree.RadixTree.Teardown` | src/radix_tree.cpp:16-43 | terminates and takes one reference from each stored block, once |
| `SystemModel.DrainKeeps` | src/cache_manager.cpp:120-122 | a drain keeps the system invariant and the gate |
| `SystemModel.EvictKeeps` | src/cache_manager.cpp:171-175 | eviction keeps the system invariant and takes no block of any live table |
| `SystemModel.VictimMeansUnheld` | src/cache_manager.cpp:159-170 | a demotion victim is in no live table, nor in that of the request being served |
| `SystemModel.CachedMeansPinned` | src/cache_manager.cpp:124-130 | the node that stores a cached entry of a live table is pinned, also after splits |
| `SystemModel.AllocateKeeps` | src/cache_manager.cpp:204-209 | a block allocated for a table belongs to it alone |
| `Requests.InsertTakesFresh` | src/cache_manager.cpp:225-239 | release's insert never adopts the cached prefix |
| `Requests.InsertPublishes` | src/cache_manager.cpp:228-231 | what release adopts are fresh blocks that hold what their new entries promise |
| `Requests.GivingNext` | src/cache_manager.cpp:233-238 | each decref of the loop keeps an adopted block and frees any other |
| `Requests.EndKeeps` | src/cache_manager.cpp:47-57 | the end of a request keeps everything that holds of the others |
| `Requests.MoveKeeps` | src/cache_manager.cpp:21-45 | moving a handle frees, duplicates and unpins nothing |
| `Planning.UnmovedNeed` | src/cache_manager.cpp:147-175 | demotions and evictions in between leave the demand unchanged |
| `Planning.PromotionShifts` | src/cache_manager.cpp:184-202 | either way of promoting takes exactly one compute slot |
| `Planning.DemoteNext` | src/cache_manager.cpp:100-104 | each background demotion raises free plus departing slots by one and leaves the other victims demotable |
| `Guarantees.Transparent` | src/cache_manager.cpp:107-247 | cached entry i of a live table holds the data of the first i + 1 blocks of its tokens |
| `Guarantees.TransparentInMemory` | src/cache_manager.cpp:107-247 | the same of the bytes in the arena at the block's address |
| `Guarantees.GateOpens` | src/cache_manager.cpp:73-80 | with nothing in flight every live table is in the compute tier |
| `Guarantees.QuietIsHome` | include/kvslab/cache_manager.hpp:102-105 | with no promotion in flight every live table is in the compute tier |
| `Guarantees.GateAnswers` | src/cache_manager.cpp:73-80 | after a drain a table is in the compute tier if and only if each of its blocks had nothing in flight or a job in the finished front of the queue |
| `Guarantees.Conserved` | src/cache_manager.cpp:225-247 | the blocks in use are the stored and the fresh ones, disjoint, each counted once, and as many as the tree and the live handles say |
| `Guarantees.UsedCount` | include/kvslab/block_pool.hpp:141-143 | num_used() is the number of allocated blocks |
| `Guarantees.StoredCount` | include/kvslab/radix_tree.hpp:85-86 | stored_blocks() is what a walk over all nodes would count |
| `Guarantees.TeardownEmpties` | src/radix_tree.cpp:16-43 | with no handle live, taking the tree apart leaves the pool empty |
| `Guarantees.ExhaustedMeansPinned` | src/cache_manager.cpp:171-182 | when nothing is left to evict every node is pinned |
| `Guarantees.AllHeld` | src/cache_manager.cpp:176-182 | with every node pinned, every block in use is in some live table |
| `Stability.ShiftSteady` | src/cache_manager.cpp:159-202 | moving, or starting or cancelling the move of, a block that is not home or in no table disturbs no live table |
| `Stability.DrainSteady` | src/block_pool.cpp:186-215 | a drain disturbs no block that is home |
| `Stability.WriteSteady` | include/kvslab/cache_manager.hpp:18 | a write into a fresh block moves nothing, and changes no other entry of any table, its own included |
| `Stability.StillLocated` | src/cache_manager.cpp:73-80 | an undisturbed table's blocks in the compute tier are at the same address, and those not written have the same bytes |
| `Accounting.SlotCount` | src/block_pool.cpp:38-64 | every compute slot is free, holds a block, or is held in reserve by one queued job: the three add up to the tier |
| `Accounting.ReserveCount` | src/block_pool.cpp:124-184 | the jobs bound for the compute tier are one for each block on its way there, and the cancelled ones |
| `Accounting.TablesFit` | src/cache_manager.cpp:147-209 | the blocks of live tables and the slots held by cancelled jobs fit into the compute tier together |
| `Accounting.FullAccount` | src/cache_manager.cpp:171-182 | when nothing is left to evict, free slots, unshared blocks of live tables, the matched prefix and stale slots make up the tier exactly |
| `Accounting.RoomDrained` | src/block_pool.cpp:186-215 | after a drain every compute slot is free or holds a block, but for at most as many as there were jobs bound for them behind the finished front |
| `Accounting.StaleWereBehind` | src/cache_manager.cpp:171-182 | the stale slots at a refusal are no more than the jobs that were queued for the compute tier behind the finished front |
| `CacheManager.CacheManager.constructor` | src/cache_manager.cpp:59-71 | the system starts sound, on a pool with the slots asked for, each tier large enough |
| `CacheManager.CacheManager.Drain` | src/cache_manager.cpp:120-122 | folds in every job of the finished front and whatever is finished until then: the first job left is not finished, and all compute slots but those of unfinished jobs are free or hold a block; no table is disturbed |
| `CacheManager.CacheManager.MatchAndPin` | src/cache_manager.cpp:124-133 | the longest cached prefix is pinned before anything can evict it |
| `CacheManager.CacheManager.StopDemotions` | src/cache_manager.cpp:135-145 | cancels the demotions of the matched blocks and nothing else: no promotion, and no migration of another block |
| `CacheManager.CacheManager.CountPromotions` | src/cache_manager.cpp:147-156 | the number of matched blocks away from the compute tier with no migration in flight |
| `CacheManager.CacheManager.MakeRoom` | src/cache_manager.cpp:159-175 | demotes first, coldest leaves first and no more blocks than are short; drops leaves only if that is not enough and no demotion is possible any more, oldest first, and none once there is room; ends with enough slots or with every node pinned; the counts are what was demoted and what the index lost |
| `CacheManager.CacheManager.Spill` | src/cache_manager.cpp:159-170 | the blocks demoted were victims, no victim left is in a colder leaf, no more are demoted than are short, and fewer only if the spill tier is full or no victim is left |
| `CacheManager.CacheManager.EvictFor` | src/cache_manager.cpp:171-175 | the eviction loop terminates, with enough slots or every node pinned; over all its rounds the oldest leaves go first, none without need, and the slots free in the end are fewer than the demand and the size of the last leaf together; the count of evicted blocks is what the index lost |
| `CacheManager.CacheManager.Reserve` | src/cache_manager.cpp:135-176 | succeeds if and only if the compute tier can meet the demand, having cancelled the demotions of the match and made room as above |
| `CacheManager.CacheManager.PromoteAll` | src/cache_manager.cpp:184-202 | once the demand is met no promotion can fail, the slots for the fresh blocks are left, and as many promotions are counted as were needed; a block is left in flight if and only if so configured and both its tiers are host-addressable, and is in the compute tier otherwise |
| `CacheManager.CacheManager.AllocateFresh` | src/cache_manager.cpp:204-209 | no allocation can fail |
| `CacheManager.CacheManager.Refuse` | src/cache_manager.cpp:176-182 | a refusal gives back the pin and leaves every other handle intact |
| `CacheManager.CacheManager.Acquire` | src/cache_manager.cpp:107-223 | a table with room for all of the tokens and no block to spare, that starts with the longest cached prefix; refused only when the slots are short, every node off the matched path is pinned by others, and every block in use is in a live table or matched; served if and only if the blocks needed, the unshared blocks of live tables and the stale slots fit into the compute tier, and in any case if they do counting every job bound there that was not in the finished front of the queue, all of which is drained; room is made as above, from the drained pool and the pinned tree; what of the match was away is promoted, in the background if and only if so configured and possible, and with that off the whole table is in the compute tier on return; no other handle changes and no other table is disturbed; the statistics and the headroom follow |
| `CacheManager.CacheManager.AlwaysReady` | include/kvslab/cache_manager.hpp:102-105 | with promotions configured synchronous, every live table is in the compute tier, at any time |
| `CacheManager.CacheManager.AcquireIdle` | src/cache_manager.cpp:107-223 | with nothing live and nothing queued a request is served if and only if its tokens fit into the blocks of the compute tier |
| `CacheManager.CacheManager.SlotAccount` | src/cache_manager.cpp:176-182 | at a refusal a compute slot is the home of, or reserved by an uncancelled job for, a block of a live table or of the matched prefix, if and only if it is neither free nor the destination of a cancelled undrained job |
| `CacheManager.CacheManager.Maintain` | src/cache_manager.cpp:89-105 | never pushes free plus departing slots above the watermark, and falls short of it only when spilling is blocked or nothing is left to demote; what it schedules were victims, and no victim left is in a colder leaf |
| `CacheManager.CacheManager.GiveBack` | src/cache_manager.cpp:47-53 | of the references dropped, those on adopted blocks leave the block in place and all others free it |
| `CacheManager.CacheManager.Publish` | src/cache_manager.cpp:225-244 | the index gains exactly what it lacked of the tokens, or nothing on a collision, and the handle is disarmed |
| `CacheManager.CacheManager.Release` | src/cache_manager.cpp:225-247 | the same for every handle, live, empty or refused, with the drain of the whole finished front and the refill after it; no other table is disturbed and nothing but background demotions is counted |
| `CacheManager.CacheManager.Abandon` | src/cache_manager.cpp:47-57 | gives back all the handle holds and publishes nothing |
| `CacheManager.CacheManager.IdleHoldsNothing` | src/cache_manager.cpp:8-15 | a handle that is not live has no block, no pin, nothing cached and no owner |
| `CacheManager.CacheManager.Destroy` | src/cache_manager.cpp:17-19 | a live handle is abandoned when it goes out of scope |
| `CacheManager.CacheManager.MoveConstruct` | src/cache_manager.cpp:21-30 | the target gets what the source had, the source is disarmed |
| `CacheManager.CacheManager.MoveAssign` | src/cache_manager.cpp:32-45 | what the target held is given back first; assigning a handle to itself changes nothing |
| `CacheManager.CacheManager.Ready` | src/cache_manager.cpp:73-80 | true exactly when each block of the table had nothing in flight or its job in the finished front of the queue; then the whole table is in the compute tier and every cached entry reads as computed; true at the latest once every queued copy is done |
| `CacheManager.CacheManager.UsedBlocks` | include/kvslab/block_pool.hpp:141-143 | num_used equals stored blocks plus live fresh blocks between any two calls |
| `Clients.Compute` | include/kvslab/cache_manager.hpp:15-20 | an engine that fills its fresh blocks meets what release asks for; nothing moves, and nothing but those blocks is written |
| `Clients.WriteByte` | include/kvslab/cache_manager.hpp:18 | one byte of a fresh block: it changes, nothing moves, and no other entry of any table changes |
| `Clients.EngineStep` | include/kvslab/cache_manager.hpp:15-20 | a single byte written, a block noted as done, or a whole table computed: the system stays sound and no other table is disturbed |
| `Clients.Session` | include/kvslab/cache_manager.hpp:15-20 | any script of acquires, single writes, releases, drops, moves, polls and drains keeps the system sound; a handle it does not release, drop or move stays the same, its blocks in the compute tier stay at their addresses, what is not written keeps its bytes, and every cached entry that read as computed still does |

## Left out

- Condition variables and wake-up: no claim that a waiter is woken or that wait_for_migrations() and
  wait_ready() return. `PoolRuns.JobGetsDone` says that a worker's job ends, `PoolRuns.DrainAll` and
  `CacheManager.CacheManager.Ready` what holds once all copies are done.
- C++ memory ordering, thread creation and joining, and the choice of the number of workers.
- BlockPool.BlockPool.Write: not for a block whose migration is in flight; the engine writes its own fresh blocks
  only, and those are never moved. A write during a copy would be lost or not, depending on where the copy stands.
- RadixTree.RadixTree.Insert: not for repeated blocks or blocks stored under another prefix, which the source takes and then holds
  twice; the manager never offers any (`Requests.TableFitsInsert`).
- RadixTree.RadixTree.DropLeaf: stated for leaves that only the tree holds, which is all that evict() drops.
- CacheManager.CacheManager.Publish: not for tables the engine has not filled, whose entries would promise what is not there.
- CacheManager.CacheManager.Release: not for other tokens than those acquired, nor for tables not filled, for the same reason.
- HostTier allocation, alignment and raw pointers; a tier is a map from slots to bytes.
- The FNV computation of block_key(): it is an arbitrary function, and nothing depends on which.
- The bounce-buffer path of migrate(): it means the same as the direct copy.
- Machine overflow of sizes, clock, lock counts and statistics, and the ids reserved for kInvalidBlock.
- hit_rate(): floating point over two counters; that hits never exceed the total is part of the manager's invariant.
- The scratch vector of demotion picks is a local variable, and pick_demotion_victims() returns its picks
  instead of appending to it.
- Direct use of the pool or the tree by clients beside the manager.
- Benchmarks, tests, build files and the printing of fatal messages.
