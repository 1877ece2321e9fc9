# LLDK core: a Dafny model and its proofs

LLDK's core is four small stateful components stacked on each other, each with a fast structure that must agree with
a simpler one. This project models all four and proves what they keep, over every input, every trace of calls and every
interleaving of threads. `dafny verify dfyconfig.toml` checks it.

* **The registry of thread-local objects** (`src/utilities/lldk_thread_local.cpp`, `.h`) and the three exported
  functions of the global allocator under it (`src/base/allocator_impl.cpp:276-326`).
  `Protocol.dfy` is a state machine: any number of threads run constructors, destructors, `foreach` and direct calls of
  `__lldkAllocate` and `__lldkFree`, and a step is one access to shared memory, one critical section, or one call of
  malloc or free. `foreach` holds the mutex across many steps while other threads store into their tables without it.
  `ProtocolInvariant`, `ProtocolSteps`, `ProtocolTables` and `ProtocolRuns` prove one inductive invariant over every
  run, `ProtocolAccounts` and `ProtocolCounts` the counting laws, `ProtocolTheorems` and `ProtocolWalks` what follows, and
  `ProtocolStale` builds a run that leaves a dangling slot behind. `ThreadLocal.dfy`, `LldkThreadLocal.dfy` and `GlobalAllocator.dfy` hold the same
  operations in the source's imperative form, one call at a time.
* **The cached hash map** (`src/utilities/lldk_unordered_map.h`). `UnorderedMap.dfy` is the class, with elements as heap
  objects and an array of nullable references in front of a map. `CacheTrace.dfy` says what it should do, on plain
  values; `UnorderedMapRuns.dfy` proves that every trace agrees with it, results and miss counter.
* **The counting allocator** (`src/base/allocator_impl.cpp:18-146`). `AllocatorImpl.dfy` is the class, with its
  statistics in a slot of the registry. `AllocatorModel.dfy`, `AllocatorRuns.dfy` and `AllocatorCounts.dfy` have its calls
  under any interleaving. `Singleton.dfy` is the double-checked `lldkGetAllocatorSingleton`.
* **The bitset** (`src/utilities/lldk_bitset.h`). `Words.dfy` and `Bitset.dfy` prove packed 64-bit words against a set of
  positions, `BitsetRuns.dfy` whole traces of operations.

## What the code does that its comments do not say

* `setThreadLocalStorage(id, nullptr)` is rejected, so the destructor's clearing call does nothing and the slot keeps
  a pointer to the freed block. Ids are reused, so such a slot can belong to an id that is live again.
  `get()` on the constructing thread is right all the same (`GetReturnsOwnStorage`); `foreach` on a live object sees
  only that object's storage if and only if no other thread ever stored under its id (`ForeachSeesOnlyOwnStorage`), and
  otherwise it may be called back with freed storage (`DanglingSlotIsReachable`).
* `foreach` returns -1 when a callback returns nonzero; the comment at `src/utilities/lldk_thread_local.h:57` says 0.
* A constructor that cannot allocate its storage throws without returning its id. The set bits are therefore the live
  objects plus the runs that failed this way (`IdAccounting`).
* `AllocatorImpl` counts a call only if the calling thread has a statistics slot. Allocated minus freed is conserved in
  every run exactly when all callers have one (`ConservedIffCallersHaveSlots`); the constructor gives a slot to its own
  thread only.
* The singleton's pointer is published before `init`: a caller on the fast path may get the allocator before `init` has
  run (`FastPathBeforeInit`), and only while the constructing thread has not reached it.

## What is assumed

* Memory is sequentially consistent. A critical section of a mutex is one step, except that of `foreach`, and except in
  `Singleton.dfy`, where locking is a step of its own.
* malloc and realloc return an address not in use, or null; realloc keeps the bytes both sizes have. Sizes do not
  overflow when the 8 header bytes are added. `push_back`, `new` and node allocation may fail where the source handles
  it. What they return is a parameter or a choice of the step.
* `T()` and the hash function do not throw, and the hash function is a function of the key. Objects are not moved and
  are destroyed on the thread that constructed them; `get` is called on threads that have a table. Direct callers of
  `__lldkFree` pass blocks they got from `__lldkAllocate`, once.
* A callback of `foreach` returns any number but does not call back into the registry, whose mutex is held.
* `erase` compares the key of the element it has just unlinked: the model reads that key as it was. Element addresses
  survive rehashing (section 23.2.5 of ISO/IEC 14882:2011).
* Bit positions are `uint32_t` values taken as integers, with `% 64` for `& 63`; `MaskIsRemainder` is the reason.
  Counters are wrapped at 2^64 where the source's wrap, and balances are stated modulo 2^64 (`CongruentIsSameWord`).
* State and tags marked `aux` record history; no step reads them to decide what to do.

## Model

| member | source | states |
|---|---|---|
| `ProtocolTheorems.GetReturnsOwnStorage` | src/utilities/lldk_thread_local.h:85-153 | In every reachable state, `get()` on the constructing thread returns exactly the block that object's constructor allocated, live and with the header it asked for, whatever ids were reused and slots left stale |
| `ProtocolTheorems.LiveObjectsAreApart` | src/utilities/lldk_thread_local.h:85-144 | Two live objects never share an id or a block, and both ids are set in the bitset |
| `ProtocolTheorems.EachBlockFreedOnce` | src/base/allocator_impl.cpp:295-313 | A block being freed is live and carries the size it was asked with; no live object, registered table, direct caller or other freeing thread has it, so nothing is freed twice or while in use |
| `ProtocolTheorems.IdAccounting` | src/utilities/lldk_thread_local.h:87-106 | With no call in progress the set bits number the live objects plus the constructor runs that failed at storage allocation |
| `ProtocolCounts.IdsAreObjectsAndFailures` | src/utilities/lldk_thread_local.h:87-106 | The same over the run: the set bits number the live objects plus the steps of the run at which a constructor could not allocate its storage |
| `ProtocolTheorems.NewIdFailsWhenFull` | src/utilities/lldk_thread_local.cpp:18-28 | In every reachable state `newInstanceId` fails exactly when all 2048 bits are set, and otherwise yields the least id not in use |
| `ProtocolTheorems.TallyIsConserved` | src/base/allocator_impl.cpp:276-313 | At every step of every interleaving the tally's differences equal, modulo 2^64, the number and the header sum of the blocks counted in and not yet counted out |
| `ProtocolCounts.TallyCountsRun` | src/base/allocator_impl.cpp:288-310 | Over every run, each of the four fields on its own: allocated count and bytes are those of the blocks the run counted in, freed count and bytes those of the blocks it counted out, as 64-bit words |
| `ProtocolTheorems.TallyCountsObjectsAndTables` | src/utilities/lldk_thread_local.cpp:36-70 | With no call in progress allocated minus freed counts live objects, registered tables and direct callers' blocks, across table failure, `push_back` rollback and constructor failure |
| `ProtocolCounts.TallyCountsBytes` | src/utilities/lldk_thread_local.cpp:36-70 | The byte totals match likewise: each object's size, 8 bytes for each slot of each table, and what direct callers asked for |
| `ProtocolTheorems.VectorHoldsEachTableOnce` | src/utilities/lldk_thread_local.cpp:44-66 | With no call in progress the shared vector holds every thread's table, each once, and nothing else, and no two threads share a table |
| `ProtocolCounts.TableFitsItsSlots` | src/utilities/lldk_thread_local.cpp:46-52 | In every reachable state a registered table has 2048 slots and its block exactly 8 bytes for each, so every store lies inside the block |
| `ProtocolWalks.VectorOnlyGrows` | src/utilities/lldk_thread_local.cpp:54-58 | The vector changes only by appending the calling thread's table, and no step moves another thread |
| `ProtocolWalks.SlotKept` | src/utilities/lldk_thread_local.cpp:68-69 | A step changes what listed tables hold only under the id that it stores under |
| `ProtocolTheorems.FailedTableLeavesNone` | src/utilities/lldk_thread_local.cpp:59-65 | When `push_back` throws, the table was never in the vector, is freed, the thread has none, and the constructor goes on to free its storage |
| `ProtocolTheorems.FailedAllocationLeavesNone` | src/utilities/lldk_thread_local.cpp:46-51 | When the table cannot be allocated, the thread has none, the vector is as it was, and the constructor goes on to free its storage |
| `ProtocolTheorems.StoreWritesOneSlot` | src/utilities/lldk_thread_local.cpp:68-69 | A store changes the (calling thread, id) slot and no other slot that any thread reads |
| `ProtocolTheorems.OthersReadTheSame` | src/utilities/lldk_thread_local.cpp:36-75 | No step of one thread changes what another registered thread reads |
| `ProtocolTheorems.SlotNeverCleared` | src/utilities/lldk_thread_local.cpp:38-42 | No step turns a filled slot to null: the null store is rejected |
| `ProtocolTheorems.SlotFilledIffStored` | src/utilities/lldk_thread_local.cpp:36-70 | A registered thread's slot is filled exactly when that thread ever stored under that id |
| `ProtocolTheorems.WalkSeesFixedVector` | src/utilities/lldk_thread_local.cpp:85-96 | While a `foreach` walks, it holds the mutex and the vector is the one it started with |
| `ProtocolTheorems.CallbackNeverGetsNull` | src/utilities/lldk_thread_local.cpp:88-90 | The second, unsynchronised read of the slot never yields null to the callback |
| `ProtocolWalks.InvokePassesSlot` | src/utilities/lldk_thread_local.cpp:90 | Each callback is passed what the slot at its index holds at that step |
| `ProtocolWalks.ForeachWalksWhatItFound` | src/utilities/lldk_thread_local.cpp:85-97 | Whatever other threads do meanwhile, a `foreach` walks the vector it found, on the id it was given, and `before` is what the slots held when it took the mutex |
| `ProtocolWalks.ForeachPassesFilledSlots` | src/utilities/lldk_thread_local.cpp:86-97 | When no thread stores under the id meanwhile, the pointers passed by a `foreach` that returned 0 are exactly the filled slots in registration order; one that returned -1 had come so far with them |
| `ProtocolTheorems.ForeachVisitsFilledSlots` | src/utilities/lldk_thread_local.cpp:86-97 | A finished `foreach` called back in registration order, no index twice and never with null; all answers were 0 if it returned 0, and if it returned -1 it stopped at the first other answer |
| `ProtocolTheorems.ForeachLeavesNoneOut` | src/utilities/lldk_thread_local.cpp:86-97 | A `foreach` that returned 0 called back for every slot that was filled when it took the mutex, whatever was stored meanwhile |
| `ProtocolTheorems.ForeachSeesOnlyOwnStorage` | src/utilities/lldk_thread_local.h:140-171 | `foreach` on a live object would see that object's storage alone if and only if no other thread ever stored under its id |
| `ProtocolStale.ConstructRun` | src/utilities/lldk_thread_local.h:85-108 | A thread's first constructor, uninterrupted, reaches the state with id, storage, table, vector and slot in place, through both allocations |
| `ProtocolStale.DestroyRun` | src/utilities/lldk_thread_local.h:133-144 | A destructor, uninterrupted, frees the storage and returns the id and leaves every slot as it was |
| `ProtocolStale.DanglingSlotIsReachable` | src/utilities/lldk_thread_local.h:136-143 | A reachable state in which a live object's id has, on another thread's table, a filled slot pointing at freed memory |
| `ProtocolRuns.StepKeeps` | src/utilities/lldk_thread_local.cpp:18-98 | Every step of every thread keeps the structural invariant |
| `ProtocolRuns.ReachableStructure` | src/utilities/lldk_thread_local.cpp:18-98 | The structural invariant holds in every reachable state |
| `ProtocolWalks.NobodyIsStuck` | src/utilities/lldk_thread_local.cpp:18-98 | In every reachable state every thread can take a step, unless it waits for the mutex of a `foreach`, and then the thread that walks can |
| `ProtocolWalks.EveryAnswerIsPossible` | src/utilities/lldk_thread_local.cpp:44-94 | The runs range over every answer of malloc, `push_back` and the callbacks |
| `ProtocolWalks.EveryCallIsPossible` | src/utilities/lldk_thread_local.h:85-171 | And over every call an idle thread may make |
| `ProtocolAccounts.AccountsStep` | src/base/allocator_impl.cpp:276-313 | Every step keeps the id law, the law of who answers for each counted block, and the law over the heap itself |
| `ProtocolAccounts.ReachableAccounts` | src/base/allocator_impl.cpp:276-313 | The three laws hold in every reachable state, calls in progress included |
| `GlobalAllocator.GlobalAllocator.Allocate` | src/base/allocator_impl.cpp:276-293 | Null leaves everything as it was; otherwise the block's header is the size asked, the allocated fields grow by it and by one, the freed fields stay, and tally and live blocks stay in balance |
| `GlobalAllocator.GlobalAllocator.Free` | src/base/allocator_impl.cpp:295-313 | Null is ignored; otherwise the block goes, the freed fields grow by the size in its header and by one, the allocated fields stay, and the balance stays |
| `GlobalAllocator.GlobalAllocator.GetAllocateStats` | src/base/allocator_impl.cpp:315-326 | -1 on null; otherwise a copy of the tally, which balances with the live blocks |
| `ThreadLocal.Registry.NewInstanceId` | src/utilities/lldk_thread_local.cpp:18-28 | The least id not in use, now in use, or the invalid id when there is none; no slot changes |
| `ThreadLocal.Registry.DeleteInstanceId` | src/utilities/lldk_thread_local.cpp:30-34 | The id is no longer in use; no other id and no slot changes |
| `ThreadLocal.Registry.AddTable` | src/utilities/lldk_thread_local.cpp:44-66 | A blank table of 2048 slots in a block of 8 bytes a slot, registered at the end of the vector; or no change when malloc or `push_back` fails, with the table freed again |
| `ThreadLocal.Registry.SetThreadLocalStorage` | src/utilities/lldk_thread_local.cpp:36-70 | Fails on the invalid id, on null, or without a table to be had, changing no slot; otherwise writes one slot, creating the thread's table at most once, with room for every slot |
| `ThreadLocal.Registry.GetThreadLocalStorage` | src/utilities/lldk_thread_local.cpp:72-75 | The calling thread's slot for the id |
| `ThreadLocal.Registry.Foreach` | src/utilities/lldk_thread_local.cpp:77-98 | 0 exactly when every filled slot, in registration order, is answered with 0; otherwise -1 right after the first nonzero answer |
| `LldkThreadLocal.LldkThreadLocal.Construct` | src/utilities/lldk_thread_local.h:85-108 | Exactly when it throws; on success the least free id, one new slot and the new blocks, a new table with 8 bytes for each of its slots; on failure nothing remains, except the id when the storage could not be allocated |
| `LldkThreadLocal.LldkThreadLocal.Destroy` | src/utilities/lldk_thread_local.h:133-144 | The storage is freed and the id returned, and every slot, this one included, keeps its contents |
| `LldkThreadLocal.LldkThreadLocal.Get` | src/utilities/lldk_thread_local.h:150-153 | The calling thread's slot for the object's id |
| `LldkThreadLocal.LldkThreadLocal.Foreach` | src/utilities/lldk_thread_local.h:161-171 | -1 on the invalid id or without a function; otherwise 0 exactly when every filled slot is answered with 0, and -1 right after the first other answer |
| `UnorderedMapRuns.Replay` | src/utilities/lldk_unordered_map.h:15-123 | Every legal trace of insert, erase, find, contains, clear, operator[] and accesses through returned pointers gives a plain map's results, and the miss counter of a direct-mapped cache of keys |
| `UnorderedMapRuns.Step` | src/utilities/lldk_unordered_map.h:26-116 | One operation keeps the agreement with the plain map, with the pointers into it and with the cache of keys |
| `UnorderedMap.LldkUnorderedMap.constructor` | src/utilities/lldk_unordered_map.h:19-22 | Empty map, null slots, no misses |
| `UnorderedMap.LldkUnorderedMap.Insert` | src/utilities/lldk_unordered_map.h:26-42 | True exactly for a new key that could be allocated, which is then cached in its slot; otherwise nothing changes |
| `UnorderedMap.LldkUnorderedMap.Erase` | src/utilities/lldk_unordered_map.h:44-52 | The key is gone, and its slot is emptied exactly if it held that key |
| `UnorderedMap.LldkUnorderedMap.Find` | src/utilities/lldk_unordered_map.h:54-71 | The map's element for the key or null; a miss is counted exactly when the slot did not hold the key, and fills the slot only with a present key |
| `UnorderedMap.LldkUnorderedMap.Contains` | src/utilities/lldk_unordered_map.h:73-76 | Whether the key is present, with find's effect on slots and counter |
| `UnorderedMap.LldkUnorderedMap.Clear` | src/utilities/lldk_unordered_map.h:78-82 | Empty map and null slots; the counter stays |
| `UnorderedMap.LldkUnorderedMap.Index` | src/utilities/lldk_unordered_map.h:99-116 | The present element, or a new one with the default value that is then cached, or a throw exactly when it cannot be allocated |
| `CacheTrace.SlotsAreResidues` | src/utilities/lldk_unordered_map.h:33 | Every slot index is below the cache size, a hash below it is its own slot, and two keys share a slot exactly when the difference of their hashes is a multiple of it |
| `CacheTrace.ConflictFreeLaw` | src/utilities/lldk_unordered_map.h:44-71 | When no two keys of a trace have hashes that differ by a multiple of the cache size, every present key is cached at the end and the misses grow by exactly the lookups of absent keys |
| `CacheTrace.ConflictFreeFromEmpty` | src/utilities/lldk_unordered_map.h:44-71 | The same for a new map, after every prefix of the trace |
| `AllocatorRuns.StatsAccountForBlocks` | src/base/allocator_impl.cpp:18-91 | At every point of every interleaving the statistics, the calls in progress and what slotless threads missed add up to the live blocks and their headers, modulo 2^64 |
| `AllocatorCounts.StatsCountOwnCalls` | src/base/allocator_impl.cpp:30-88 | After any run each slot's four fields are, as 64-bit words, the numbers and bytes of that thread's own allocations and frees, a reallocation counting once in each, and no thread gains or loses a slot |
| `AllocatorRuns.SlotsConserve` | src/base/allocator_impl.cpp:18-91 | After any run by threads with slots, allocated minus freed over all slots equals the live blocks and bytes, whichever thread frees or reallocates a block |
| `AllocatorRuns.ConservedIffCallersHaveSlots` | src/base/allocator_impl.cpp:30-35 | All runs by a set of callers conserve if and only if each of them has a slot |
| `AllocatorRuns.LoneAllocationIsMissed` | src/base/allocator_impl.cpp:30-37 | One allocation by a thread without a slot breaks conservation |
| `AllocatorRuns.HeaderIsLastRequest` | src/base/allocator_impl.cpp:61-78 | After any run the word before each live pointer holds the size last requested for that block, and the block is that long |
| `AllocatorRuns.ContentsSurvive` | src/base/allocator_impl.cpp:61-90 | However often a block is reallocated, by whatever threads, its first bytes up to the least size it was given are unchanged |
| `AllocatorRuns.LeastSizeIsLeast` | src/base/allocator_impl.cpp:71-78 | That least size is one of the sizes the block was given, and none is less |
| `AllocatorRuns.KeptUnlessFreed` | src/base/allocator_impl.cpp:40-58 | The block is kept exactly when `free` is never called on the address it has then |
| `AllocatorRuns.AllocateIsRun` | src/base/allocator_impl.cpp:18-38 | The two steps of `allocate` together change heap and statistics as the method of the class does |
| `AllocatorRuns.FreeIsRun` | src/base/allocator_impl.cpp:40-59 | The same for `free` |
| `AllocatorRuns.ReAllocateIsRun` | src/base/allocator_impl.cpp:61-91 | The same for `reAllocate` |
| `AllocatorModel.StepBalances` | src/base/allocator_impl.cpp:18-91 | Every step keeps the balance between statistics and blocks |
| `AllocatorImpl.AllocatorImpl.Allocate` | src/base/allocator_impl.cpp:18-38 | A block with its header; the calling thread's allocated fields grow by its size and by one and its freed fields stay, if it has statistics; no change on null |
| `AllocatorImpl.AllocatorImpl.Free` | src/base/allocator_impl.cpp:40-59 | The block goes, the calling thread's freed fields grow by its size and by one and its allocated fields stay; null is ignored |
| `AllocatorImpl.AllocatorImpl.ReAllocate` | src/base/allocator_impl.cpp:61-91 | Null allocates; failure changes nothing; otherwise the header is rewritten and all four fields grow, the old size freed and the new one allocated |
| `AllocatorImpl.AllocatorImpl.GetAllocateStats` | src/base/allocator_impl.cpp:125-146 | Writes the first min(capacity, n) statistics in registration order, n being the number of threads with a slot, returns that number, and leaves the rest of the array alone |
| `AllocatorImpl.AllocatorImpl.CopyWhileRoom` | src/base/allocator_impl.cpp:133-141 | The callback copies while there is room and never past the capacity, though the walk goes on |
| `AllocatorImpl.CountOwners` | src/base/allocator_impl.cpp:143-144 | As many filled slots are walked as there are threads that have one |
| `Singleton.OneAllocator` | src/base/allocator_impl.cpp:243-271 | Under every interleaving at most one allocator is constructed, and every call that returns an allocator returns that one, on the fast and the locked path |
| `Singleton.OnlyFailedNewFails` | src/base/allocator_impl.cpp:255-260 | As many calls fail as had their own `new` fail: a failure leaves nothing behind for other callers |
| `Singleton.EveryCallReturns` | src/base/allocator_impl.cpp:243-271 | What was returned has one entry for each completed call |
| `Singleton.SamePointerForAll` | src/base/allocator_impl.cpp:243-271 | With `new` succeeding, every completed call, on either path, returns the same non-null pointer |
| `Singleton.LockedPathReturnsInitialised` | src/base/allocator_impl.cpp:252-270 | The locked path returns the allocator after `init` |
| `Singleton.FastPathMayPrecedeInit` | src/base/allocator_impl.cpp:247-250 | The fast path returns a non-null pointer, not yet initialised exactly while the constructing thread has yet to run `init` |
| `Singleton.FastPathBeforeInit` | src/base/allocator_impl.cpp:247-262 | A run in which that happens |
| `Singleton.NobodyIsStuck` | src/base/allocator_impl.cpp:252-271 | A caller is held up only by the mutex, and then its holder can go on |
| `BitsetRuns.Replay` | src/utilities/lldk_bitset.h:12-130 | Any trace of all eleven operations on a new bitset of any legal size gives the answers a plain set of positions would give |
| `Bitset.LldkBitset.Test` | src/utilities/lldk_bitset.h:35-38 | Membership of the position |
| `Bitset.LldkBitset.Set` | src/utilities/lldk_bitset.h:40-43 | The position is added, and no other position in any word changes |
| `Bitset.LldkBitset.Clear` | src/utilities/lldk_bitset.h:45-48 | The position is removed, and no other changes |
| `Bitset.LldkBitset.TestAll` | src/utilities/lldk_bitset.h:50-60 | True exactly when all kSize positions are set |
| `Bitset.LldkBitset.TestAny` | src/utilities/lldk_bitset.h:62-72 | True exactly when the count is positive |
| `Bitset.LldkBitset.TestNone` | src/utilities/lldk_bitset.h:79-82 | True exactly when the count is zero |
| `Bitset.LldkBitset.ClearAll` | src/utilities/lldk_bitset.h:74-77 | The empty set |
| `Bitset.LldkBitset.SetAll` | src/utilities/lldk_bitset.h:84-87 | All positions below kSize |
| `Bitset.LldkBitset.Count` | src/utilities/lldk_bitset.h:89-97 | The number of set positions, without overflow of the `uint32_t` sum |
| `Bitset.LldkBitset.FindFirstSet` | src/utilities/lldk_bitset.h:104-114 | The least set position, or kSize exactly if there is none, without overflow of `i * 64 + ctz` |
| `Bitset.LldkBitset.FindFirstNone` | src/utilities/lldk_bitset.h:116-126 | The least clear position, or kSize if there is none |
| `Bitset.FirstIsLeastMember` | src/utilities/lldk_bitset.h:104-114 | What "least set position" means: a member that no member is below, and kSize for the empty set |
| `Bitset.LeastFreeUnique` | src/utilities/lldk_bitset.h:116-126 | What "least clear position" means: free, with everything below it taken |
| `Bitset.LeastFreeIsLimit` | src/utilities/lldk_bitset.h:116-126 | kSize is the answer exactly when kSize positions are set |
| `Bitset.AddressIdentifies` | src/utilities/lldk_bitset.h:21-29 | Word index and bit index together identify a position |
| `Bitset.RewriteMembers` | src/utilities/lldk_bitset.h:40-48 | Rewriting one bit of one word adds or removes one position of the whole set |
| `Bitset.WordCountIsExact` | src/utilities/lldk_bitset.h:16-19 | For every legal kSize, the largest included, where the intermediate sum wraps, the array has exactly kSize / 64 words |
| `Words.MaskIsRemainder` | src/utilities/lldk_bitset.h:26-29 | On 32-bit indices masking by 63 is the remainder by 64 |
| `Words.TrailingZeros` | src/utilities/lldk_bitset.h:110 | The count of trailing zeros is the index of the lowest set bit |
| `Words.TrailingOnes` | src/utilities/lldk_bitset.h:122 | That of the complement is the index of the lowest clear bit |
| `Sums.WrapIsWord` | src/base/allocator_impl.cpp:288-290 | Counter arithmetic leaves the one 64-bit value congruent to the sum |
| `Sums.WordIsPastAllOnes` | include/lldk/base/allocator.h:18-21 | Counters wrap just past the largest 64-bit word |

## Left out

- Named allocators (`lldkCreateAllocator`, `lldkDestroyAllocator`): lookup and insertion are separate critical sections and erasing runs a deleter under the mutex, so neither uniqueness nor completion holds as written.
- Moves of `LldkThreadLocal`: a moved-from object holds the invalid id, with which its destructor indexes past the table.
- `get` on a thread without a table: the code reads through a null table, so having one is a precondition.
- `getAllocateStats` while other threads update their statistics: it is modelled as a call on its own, not as steps.
- `Next` of AllocatorModel: the set of threads that have a statistics slot does not change during a run, and stale slots of earlier objects with the same id are not followed into it.
- `createAllocateStats`, `deleteAllocateStats` and `uTid`: not on the live path.
- A failing `init` of the singleton: the code's `init` always returns 0.
- Error codes, logging, names, `LLDK_ALIGN_BASE` and the `size`, `empty` and `getName` accessors: they would only add easy members.
- The C++ weak memory model, and the insides of malloc, `std::mutex` and `std::unordered_map`: each has a contract instead.
