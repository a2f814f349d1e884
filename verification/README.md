# Verified model of AtomicDict, reduce and AtomicCache

This project models the concurrent hash table of cereggii (`AtomicDict`, free-threaded build) and what is
built directly on it (`reduce`, `AtomicCache`), and proves what they promise. `dafny verify dfyconfig.toml`
checks all of it.

## What is modelled

The index of an `AtomicDict` is open addressing by linear probing over `2^log_size` words, each holding
`index | tag | distance`; the index part refers to an entry in a page. Slots never become empty again within
one generation. When the table grows, threads migrate the index to an uninitialised one of twice the size,
block by block and without locks between them, and publish it as the next generation.

| file | what it holds |
|---|---|
| `NodeCodec.dfy` | the packed words, by quotients and remainders of powers of two |
| `ProbeIndex.dfy` | parsed words, the linear-probing invariant `WellFormed`, the probe loop of a lookup, `unsafe_insert` |
| `CellLayout.dfy`, `Migration.dfy` | what migration computes, as a function of the frozen old index: position `i` of the old index owns the new slots `2i` and `2i + 1` (`CellLayout`), `NewIndex` wraps them round, and lookups answer the same |
| `BlockMigrate.dfy` | the loops of `resize.c` over arrays, for any block size, against `NewIndex` |
| `ConcurrentMigration.dfy` | any number of participants, one access to shared memory per step: cursor, states 0/1/2, non-atomic scan, completion event |
| `ResizeProtocol.dfy`, `ResizeInvariant.dfy`, `ResizeSteps.dfy`, `ResizeProgress.dfy`, `ResizeLength.dfy` | locks, leader election, the three events, late registrations and `len()` as a state machine; its invariant; no deadlock; what `len()` answers |
| `ResizeMigration.dfy` | `ResizeProtocol` with `ConcurrentMigration` as its working phase |
| `MapSpec.dfy` | what get, compare-and-set and delete do to a plain map, and how they are counted |
| `DictMachine.dfy`, `DictInvariant.dfy`, `DictSteps.dfy`, `StepInvariant.dfy`, `Linearizability.dfy` | get, compare-and-set and delete as interleaved steps over all generations; a rely-guarantee invariant; linearizability over whole runs |
| `Updates.dfy`, `LiveNodes.dfy` | what those operations have done when they return, in terms of the map alone, and that a later get reads it; what deletion leaves in the index |
| `DictInit.dfy`, `DictLength.dfy` | an initial dict filled into the index, where those runs start; the length counters in those runs |
| `Allocator.dfy`, `AllocatorInvariant.dfy`, `AllocatorProgress.dfy` | reservation blocks, pages and the page array, across generations; that `get_empty_entry` ends |
| `DictAllocator.dfy`, `LostInsertion.dfy`, `JointLinearizability.dfy` | `DictMachine` and `Allocator` together: from which initial dicts the whole is linearizable, and the run in which it is not |
| `ReduceInputs.dfy`, `ReduceTable.dfy`, `ReduceFlush.dfy` | the values that items give to a key; the local table of `reduce` as a class over arrays; concurrent flushes, and what the built-in reductions leave |
| `CacheFill.dfy`, `CacheRefill.dfy` | the reservation protocol of `AtomicCache`; what `invalidate` and a TTL promise |
| `FastIter.dfy` | the partitioned page walk |
| `Arith.dfy`, `Options.dfy` | arithmetic, the pigeonhole principle, an option type |

The parts meet in named lemmas. `ResizeMigration.PublishedIsComplete` says that a leader publishes `NewIndex`
of the index it froze, because the working phase of the protocol is a run of `ConcurrentMigration`;
`Linearizability.NewIndexIsMigrated` and `MigrationApplies` say that this is what `DictMachine` publishes in its
one migration step and that the frozen index meets the assumptions; `Linearizability.FrozenWhileMigrating` says
that nothing moves meanwhile, which is why one step is enough.

In a run of `DictMachine` reservations are exclusive: a thread reserves a location in `[1, 2^log_size)` that is
unpublished and not reserved by another thread. `DictAllocator` does not assume that: there a thread gets
whatever entry the allocator returns. `DictAllocator.AllocatorSupplies` and `DictsRun` say that from every
initial dict that does not share its first buffer, and from none, the dict's part of a run with the allocator is
such a run; for the other initial dicts it is not, see below. `MapSpec.CountedIsGrowth` ties what operations count
to the map: in the runs of `DictMachine` (`DictLength.LengthInRuns`), and under `len()` in those of
`ResizeProtocol`, whose critical sections apply the same atomic operations to the map
(`ResizeLength.LenIsExact`).

Conventions: atomic accesses are sequentially consistent and a step is one of them; a load followed by a
compare-and-set that repeats its test is one step in the election of the leader. `REHASH` is any function to
64-bit words and a user's hash is any function of the key; equal keys are the same key. `log_size` is between
7 and 30: the masks of the source shift an `int` (`node_ops.c:83`, `insert.c:107`). Objects are immortal values compared by
identity.

## Where the code is not what it seems

- `AtomicCache.__getitem__` can return the tombstone sentinel when an `invalidate` lands between its read and
  its own compare-and-set. That never happens if and only if nobody calls `invalidate`, with or without a TTL
  (`CacheFill.TombstoneNeverReturnedIff`). `CacheFill.TombstoneHasCause` says what overtook a call that
  returned it, and `CacheFill.TombstoneCanBeReturned` is such a run.
- With an initial dict, another thread can get an entry that the creating thread's first buffer holds. In all
  runs reservations are exclusive if and only if it is not the case that `len + 1` is a multiple of the buffer
  size and `len` is below 64 or 127 (`AllocatorInvariant.InitialExclusiveIff`): only then is the first buffer a
  whole block that nobody flagged on a page that others scan (`AllocatorInvariant.InitialTakenTwice`).
- On exactly those initial dicts, 15 items with the default buffer size of 16 for one, the dict is not
  linearizable (`JointLinearizability.JointLinearizableIff`): both threads store their key into the entry, and an
  insertion that has returned is lost for a later `get` (`LostInsertion.LosesInsertion`).
- The debug assertion on a migrated node's range (`resize.c:227-233`) is looser than what holds; the tight
  bound, on which the second clear rests, is `Migration.ClusterFootprint`.
- The comment in `pages.c:120` that the compare-and-set on `greatest_allocated_page` may fail is wrong:
  `AllocatorInvariant.BumpSucceeds`.

## Model

| member | source | states |
|---|---|---|
| NodeCodec.ParseEncode | src/cereggii/atomic_dict/node_ops.c:17-46 | a written word is below 2^64 and parses back to its index, its masked tag and min(distance, 255) |
| NodeCodec.EncodeParse | src/cereggii/atomic_dict/node_ops.c:128-137 | every word is determined by its parse, so the expected word that a slot CAS recomputes from a parsed node is the word that was read |
| NodeCodec.WordKinds | src/cereggii/atomic_dict/node_ops.c:87-96 | empty, tombstone and live words are told apart by the two tests of the source, both ways |
| NodeCodec.TombstoneWord | src/include/cereggii/internal/atomic_dict.h:46-49 | the tombstone word is not zero, has index 0, and the word of index, tag and distance 0 is zero |
| NodeCodec.HomeInRange | src/cereggii/atomic_dict/node_ops.c:65-68 | distance0_of is a slot of the index |
| NodeCodec.HomeDoubles | src/cereggii/atomic_dict/resize.c:245-261 | the home in the doubled index is the old home followed by the tag's top bit, and narrowing a stored tag gives the tag of the full hash |
| ProbeIndex.SlotWordRoundTrip | src/cereggii/atomic_dict/node_ops.c:71-112 | working on parsed slots loses nothing: a slot written as a word and read back is the slot with its tag masked and its distance saturated |
| ProbeIndex.Lookup | src/cereggii/atomic_dict/lookup.c:14-67 | on a well-formed index the probe loop returns a slot whose live entry holds the key, or there is no such slot in the whole index |
| ProbeIndex.UnsafeInsert | src/cereggii/atomic_dict/atomic_dict.c:367-391 | keeps the probing invariant and adds exactly the new location, or the index is full and unchanged |
| CellLayout.Frontier | src/cereggii/atomic_dict/resize.c:216-242 | before position i is migrated all new slots from 2i on are empty, and its node ends at 2i + 1 at the latest, for any homes |
| CellLayout.Separated | src/cereggii/atomic_dict/resize.c:365-373 | moves with homes beyond a slot leave every slot before it as it is |
| Migration.UnsaturatedHome | src/cereggii/atomic_dict/resize.c:257-261 | below distance 255 the shortcut, from position, distance and one tag bit, is the new home without underflow |
| Migration.ShortcutHome | src/cereggii/atomic_dict/resize.c:245-269 | both ways of migrate_node_d0 denote the slot that distance0_of gives for the full hash in the new index |
| Migration.ClusterFootprint | src/cereggii/atomic_dict/resize.c:216-242 | the node at position i of the cluster starting at a is put into an empty slot of [2a, 2(i + 1)), modulo the new size, and stays there |
| Migration.EmptySeparates | src/cereggii/atomic_dict/resize.c:377-390 | an old empty slot s leaves 2s and 2s + 1 empty and separates what is moved before it from what is moved after it |
| Migration.NewIndexWellFormed | src/cereggii/atomic_dict/resize.c:333-429 | the new index satisfies the probing invariant, has an empty slot and makes exactly the same entries reachable |
| Migration.NewIndexNoTombstones | src/cereggii/atomic_dict/resize.c:368-375 | tombstones are dropped |
| Migration.LookupPreserved | src/cereggii/atomic_dict/lookup.c:15-67 | every answer of a lookup in the new index, entry or not found, is an answer in the old one, and back |
| BlockMigrate.InitializeInNewMeta | src/cereggii/atomic_dict/resize.c:271-290 | exactly the slots of the old range, wrapped, may change, and they are empty afterwards |
| BlockMigrate.MigrateNode | src/cereggii/atomic_dict/resize.c:215-242 | moves the node to the slot that the layout gives it and touches no slot outside the block's cells |
| BlockMigrate.BlockWiseMigrate | src/cereggii/atomic_dict/resize.c:333-414 | whatever the new array held, all slots that the block touches get their final content and no other slot changes; the count is the number of live nodes from the block's first empty slot to the first empty slot after it |
| BlockMigrate.MigrateTrailing | src/cereggii/atomic_dict/resize.c:386-410 | the cluster running past the block's end, possibly wrapping, is cleared and moved without erasing what the block has moved |
| BlockMigrate.TrailingCleared | src/cereggii/atomic_dict/resize.c:396-398 | the second clear erases no moved node |
| BlockMigrate.MigrateNodes | src/cereggii/atomic_dict/resize.c:416-429 | claiming every block, of any size, leaves the new index and counts each reachable entry once |
| ConcurrentMigration.SharedCellsEmpty | src/cereggii/atomic_dict/resize.c:363-398 | different block calls have only cells of old empty slots in common |
| ConcurrentMigration.CompletionIsSafe | src/cereggii/atomic_dict/resize.c:179-213 | in every interleaving, with late participants and a non-atomic scan, once node_migration_done is set the new index is complete, looks up the same entries, and the migrated counts add up to the live nodes |
| ConcurrentMigration.ProbesReadInitialised | src/cereggii/atomic_dict/resize.c:222-240 | no probe reads an uninitialised slot: what it reads is determined by the old index |
| ConcurrentMigration.MigrationNeverStuck | src/cereggii/atomic_dict/resize.c:195-212 | whoever waits for node_migration_done has an active participant to wait for, and both participant CASes succeed |
| StepInvariant.StepInv | src/cereggii/atomic_dict/insert.c:73-175 | every step of every thread keeps the invariant of the dict and only evolves the shared state: slots never become empty again, published keys never change, a NULL value stays NULL, nobody touches what another thread holds |
| StepInvariant.AlwaysEmptySlot | src/cereggii/atomic_dict/pages.c:128-191 | an index whose slots were filled by distinct entries of [1, size) has an empty slot |
| StepInvariant.EmptyMeansAbsent | src/cereggii/atomic_dict/lookup.c:25-26 | a probe that reaches an empty slot has passed every live entry of its key |
| StepInvariant.RunInv | src/cereggii/atomic_dict/insert.c:177-310 | the invariant holds in every state of every run with exclusive reservations |
| JointLinearizability.JointLinearizableIff | src/cereggii/atomic_dict/insert.c:177-310 | given two threads, a key that is not in the dict and another whose scan for an entry starts at the first buffer, every run of the dict with its allocator from an initial dict (or none) is linearizable if and only if it is not the case that len + 1 is a multiple of the buffer size and len is below 64 or 127 |
| JointLinearizability.SafeLinearizes | src/cereggii/atomic_dict/atomic_dict.c:268-287 | from every other initial dict, and from none, every completed call of every run, resizes included, is one atomic operation at a moment of the call |
| JointLinearizability.SafeStores | src/cereggii/atomic_dict/insert.c:46-65 | in those runs a compare-and-set(k, e, d) that succeeded has set k to d at its own moment, answers the value that it replaced, or NOT_FOUND if there was none, and that is what it expected |
| JointLinearizability.SafeRemoves | src/cereggii/atomic_dict/delete.c:22-33 | and a delete that succeeded has removed a key that was there |
| JointLinearizability.SafeReadsLastWrite | src/cereggii/atomic_dict/lookup.c:98-130 | and a get called after that compare-and-set returned reads d, unless another operation on k takes effect meanwhile |
| JointLinearizability.SafeStates | src/cereggii/atomic_dict/insert.c:177-310 | and in all its states the dict's invariant holds, every generation has an empty slot and the length counters balance |
| LostInsertion.LosesInsertion | src/cereggii/atomic_dict/insert.c:255-257 | from such an initial dict, whatever it holds, a run in which a get misses a key that was inserted before the call and that nobody deletes, because another thread has stored its key into the same entry |
| Linearizability.Linearizable | src/cereggii/atomic_dict/insert.c:177-310 | in every run with exclusive reservations, every completed get, compare-and-set (a value, NOT_FOUND or ANY) and delete, in any interleaving of any number of threads with resizes, returns what one atomic operation on a plain map returns at one moment of the call; if it changed the map, that moment is its own effect |
| Updates.CompareAndSetStores | src/cereggii/atomic_dict/insert.c:46-65 | a compare-and-set(k, e, d) that succeeded changed the map at its own moment to the same map with d at k; it answers what was there before, and that is what it expected |
| Updates.CompareAndSetFails | src/cereggii/atomic_dict/insert.c:46-56 | one that failed met something else than it expected at a moment of the call, and ANY never fails |
| Updates.DeleteRemoves | src/cereggii/atomic_dict/delete.c:22-33 | a delete that succeeded removed its key, which was there, at its own moment |
| Updates.DeleteFails | src/cereggii/atomic_dict/delete.c:28-31 | any other answer of a delete is a KeyError, and the key was absent at a moment of the call |
| Updates.GetReads | src/cereggii/atomic_dict/lookup.c:98-130 | a get answers what the key held, or that it was absent, at a moment of the call |
| Updates.ReadsLastWrite | src/cereggii/atomic_dict/insert.c:177-310 | a get called after a compare-and-set returned reads what that stored, if no other operation on the key takes effect up to the get's return |
| LiveNodes.IndexIsMap | src/cereggii/atomic_dict/delete.c:35-43 | in every run, resizes included, whenever nobody is about to write a tombstone the newest index refers to the live entries of the map's keys, one for each, and to no dead entry |
| Linearizability.EffectsDistinct | src/cereggii/atomic_dict/insert.c:46-65 | moments of effect are one-to-one: calls that return with the same moment are the same call |
| Linearizability.OneEffect | src/cereggii/atomic_dict/insert.c:46-65 | the map changes only by an operation taking its one effect, which is the atomic one |
| Linearizability.CallBegan | src/cereggii/atomic_dict/insert.c:218-225 | a thread that is busy has been busy with the same operation since the moment of its call, through all retries |
| Linearizability.LogIsHistory | src/cereggii/atomic_dict/insert.c:177-310 | the moments that linearizability speaks of are the states of the run |
| Linearizability.StaleReader | src/cereggii/atomic_dict/lookup.c:98-130 | in every run with exclusive reservations, a get still probing generation g after newer ones were published stays on g until it returns, and yet answers with a value that the key held, or an absence that was true, at a moment of the call |
| MapSpec.CountedIsGrowth | src/cereggii/atomic_dict/insert.c:277-285 | what an operation adds to the length counter is how much the atomic operation makes the map grow |
| DictLength.LengthInRuns | src/cereggii/atomic_dict/accessor_storage.c:168-175 | in every state of every run with exclusive reservations the size of the map is self->len plus all local_len plus what operations between their effect and their last step have not counted |
| DictLength.LengthWhenQuiet | src/cereggii/atomic_dict/delete.c:80-90 | so in those runs, when no operation is in between, self->len plus all local_len is the size of the map |
| DictInit.Fill | src/cereggii/atomic_dict/atomic_dict.c:241-266 | filling an initial dict never fails while it has fewer keys than the index has slots, and leaves a state in which the runs of DictMachine start: its map and the entries of its keys hold exactly the items' keys with their values |
| DictAllocator.AllocatorSupplies | src/cereggii/atomic_dict/insert.c:232-258 | in every reachable state, from no initial dict or from any that does not share its first buffer, the entry that get_empty_entry returns is a location of the current generation, never published and reserved by no other thread |
| DictAllocator.JointIsBoth | src/cereggii/atomic_dict/insert.c:226-275 | in such runs of the dict with its allocator each part only takes steps of its own machine, resizes included |
| DictAllocator.DictsRun | src/cereggii/atomic_dict/insert.c:226-275 | so the dict's part, without the steps in which it rests, is a run with exclusive reservations |
| Linearizability.AlwaysRoom | src/cereggii/atomic_dict/insert.c:106-147 | in every state of every run with exclusive reservations every generation has an empty slot and no probe has gone round the index |
| Linearizability.AlwaysInRange | src/cereggii/atomic_dict/accessor_storage.c:90-103 | a thread only points to generations that exist |
| Linearizability.TombstoneCasSucceeds | src/cereggii/atomic_dict/delete.c:35-43 | the CAS that writes the tombstone always meets the node of the deleted entry |
| Linearizability.FrozenWhileMigrating | src/cereggii/atomic_dict/resize.c:85-132 | while the leader holds every lock, no other thread's step changes an index, an entry or the map, and none is in its critical section |
| Linearizability.SingleSuccession | src/cereggii/atomic_dict/resize.c:50-67 | generations form one chain with log_size rising by one, and a generation keeps the one leader it ever has |
| Linearizability.StepSucceeds | src/cereggii/atomic_dict/resize.c:131-134 | only publication adds a generation, by the current generation's leader, so its CAS does not fail |
| Linearizability.NewIndexIsMigrated | src/cereggii/atomic_dict/resize.c:333-429 | what the participants leave is what the dict may publish |
| Linearizability.MigrationApplies | src/cereggii/atomic_dict/resize.c:85-134 | in every reachable state where a leader migrates, the frozen index meets the assumptions of the migration, whose result it may publish |
| DictSteps.WithTombstone | src/cereggii/atomic_dict/delete.c:35-41 | a tombstone in place of a node keeps the probing invariant and makes exactly that entry unreachable |
| DictSteps.InsertsKeeps | src/cereggii/atomic_dict/insert.c:110-125 | filling the first empty slot of the probe keeps every shared invariant, and the key enters the map with its one live entry |
| DictSteps.KilledKeeps | src/cereggii/atomic_dict/delete.c:22-33 | setting a live value to NULL takes the key out of the map and leaves one thread alone to bury the node |
| DictInvariant.OthersStable | src/cereggii/atomic_dict/insert.c:73-175 | what a thread knows about its probe, its entry and its moments survives the steps of the others |
| ResizeSteps.StepInv | src/cereggii/atomic_dict/resize.c:69-213 | every step of writers, leaders, followers, registrations and len() keeps the invariant of locks, generations and participants |
| ResizeProgress.NeverDeadlocked | src/cereggii/atomic_dict/resize.c:168-213 | in every reachable state where some thread has not returned, some thread that has not returned can step |
| ResizeProgress.SectionIsNewest | src/cereggii/atomic_dict/accessor_storage.c:193-205 | a writer past its check of resize_leader is in the newest generation, and that is not replaced while it is inside |
| ResizeProgress.FollowersRefetch | src/cereggii/atomic_dict/resize.c:168-177 | a follower goes on only when the generation that it helped to migrate has been replaced |
| ResizeProgress.FrozenWriters | src/cereggii/atomic_dict/accessor_storage.c:105-125 | while a leader or len() holds every lock no other thread is in its critical section |
| ResizeProgress.PublishCasSucceeds | src/cereggii/atomic_dict/resize.c:131-134 | the publishing CAS finds the newest generation, its completion event set, led by this thread |
| ResizeProgress.ParticipantCasSucceeds | src/cereggii/atomic_dict/resize.c:195-205 | a participant's state is 0 when it enters and 1 when it leaves, also for latecomers |
| ResizeProgress.OneLeaderEver | src/cereggii/atomic_dict/resize.c:50-67 | a generation never changes its leader, and every replaced generation had its completion event set |
| ResizeProgress.LeaderServed | src/cereggii/atomic_dict/resize.c:85-153 | a leader that has not set resize_done can step or waits for somebody who can |
| ResizeMigration.PublishedIsComplete | src/cereggii/atomic_dict/resize.c:121-134 | the index that a leader is about to publish, and that of every generation that replaced another, is the complete new index of the frozen one: well formed, with the same entries, each moved once |
| ResizeMigration.MigratedIsComplete | src/cereggii/atomic_dict/resize.c:179-213 | whenever node_migration_done is set, a run of the migration by this resize's participants has set it and left the complete new index |
| ResizeMigration.JointRunInv | src/cereggii/atomic_dict/resize.c:179-213 | each participant's phase and state are those of the migration under way, latecomers and threads that come back included, and every step is one of the protocol |
| ResizeMigration.NobodyHeldUp | src/cereggii/atomic_dict/resize.c:179-213 | whoever can step in the protocol can step with the migration as its working phase |
| ResizeSteps.ScanStops | src/cereggii/atomic_dict/resize.c:431-446 | a scan that gives up has seen a participant that is still at work |
| ResizeLength.LengthConserved | src/cereggii/atomic_dict/accessor_storage.c:168-175 | whenever nobody is in a critical section or a count, self->len plus all local_len is the size of the map that the operations have made, and a dict that is not dirty has only zero local_len |
| ResizeLength.LenIsExact | src/cereggii/atomic_dict/atomic_dict.c:469-518 | the answer of len() is the size of the map while it holds every lock |
| ResizeLength.CountKeeps | src/cereggii/atomic_dict/atomic_dict.c:476-502 | each step of folding the local counters keeps the conservation |
| Allocator.ScanCovers | src/cereggii/atomic_dict/pages.c:84-104 | the scan, from any start and wrapping, passes every block of the page |
| AllocatorInvariant.EntriesExclusive | src/cereggii/atomic_dict/accessor_storage.c:131-166 | over all runs and generations, from no initial dict or from any that does not share its first buffer, no entry is in two reservation buffers, and none that a thread holds or may still get (so none put back) was ever published |
| AllocatorInvariant.PublishedOnce | src/cereggii/atomic_dict/pages.c:169-191 | in those runs an entry handed out was never published before and is not entry 0 |
| AllocatorInvariant.PageArray | src/cereggii/atomic_dict/pages.c:110-126 | pages up to the greatest are set, and the next cell is NULL or the one page being added, never uninitialised |
| AllocatorInvariant.BumpSucceeds | src/cereggii/atomic_dict/pages.c:115-118 | the CAS on greatest_allocated_page never fails |
| AllocatorInvariant.GrowsOnlyWhenFull | src/cereggii/atomic_dict/pages.c:137-146 | a thread is told to grow only when every block of every page is reserved, from the last page of the initial dict on |
| AllocatorProgress.AllocationEnds | src/cereggii/atomic_dict/pages.c:128-166 | from any reachable state, unless another thread is in the middle of adding a page, get_empty_entry returns after at most 5000 steps of its own |
| AllocatorInvariant.RegeneratesInv | src/cereggii/atomic_dict/meta.c:82-118 | copying the pages to a new generation keeps pages, reservations and buffers |
| AllocatorInvariant.InitialExclusiveIff | src/cereggii/atomic_dict/atomic_dict.c:268-287 | with an initial dict and a second thread, reservations are exclusive in every run if and only if it is not the case that len + 1 is a multiple of the buffer size and len is below 64 or 127 |
| AllocatorInvariant.InitialTakenTwice | src/cereggii/atomic_dict/pages.c:128-166 | otherwise three steps of the second thread take an entry of the first thread's buffer |
| ReduceTables.ReduceTable.constructor | src/include/cereggii/internal/reduce_table.h:42-80 | a new table is valid and empty, of at least the minimum size |
| ReduceTables.ReduceTable.Lookup | src/include/cereggii/internal/reduce_table.h:154-199 | finds the entry of the key, or no entry has the key |
| ReduceTables.ReduceTable.Get | src/include/cereggii/internal/reduce_table.h:259-276 | agrees with the map that the table stands for |
| ReduceTables.ReduceTable.Set | src/include/cereggii/internal/reduce_table.h:201-257 | replaces the pair of the key in place, or appends the key, whether or not the table is resized first; a failed resize changes nothing |
| ReduceTables.ReduceTable.Resize | src/include/cereggii/internal/reduce_table.h:93-152 | doubles the index and keeps the entries in their order |
| ReduceTables.ReduceTable.Aggregate | src/cereggii/atomic_dict/insert.c:499-540 | after the loop over the items the table holds exactly the items' keys, each with the left fold of the function, from NOT_FOUND, over the key's values in order, through any number of resizes |
| ReduceTables.AggregatedIsFold | src/cereggii/atomic_dict/insert.c:516-532 | aggregating item by item is, for each key, that left fold |
| ReduceTables.ReduceTable.Flush | src/cereggii/atomic_dict/insert.c:435-454 | visits the entries in rotated order, each exactly once |
| ReduceTables.SetIsUpdate | src/include/cereggii/internal/reduce_table.h:204-257 | a set is an update of the map keyed by equality, and keys stay distinct |
| ReduceTables.HasRoom | src/include/cereggii/internal/reduce_table.h:133-145 | with fewer entries than slots a slot is empty, so probes end |
| ReduceFlush.ReduceLosesNothing | src/cereggii/atomic_dict/insert.c:371-562 | when all concurrent reduce calls have returned, each key holds its initial value combined with every input for it, for every interleaving and any number of retries |
| ReduceFlush.StepKeepsTotal | src/cereggii/atomic_dict/insert.c:388-418 | no step changes what the dict and the threads together owe to a key |
| ReduceFlush.CollectsTable | src/cereggii/atomic_dict/insert.c:499-540 | the loop over the items, step by step, builds the table that ReduceTable.Aggregate computes |
| ReduceFlush.TableMeasure | src/cereggii/atomic_dict/insert.c:524-532 | what the local table holds for a key is worth the key's items together, for every lawful aggregate |
| ReduceFlush.ReducesInputs | src/cereggii/atomic_dict/insert.c:371-562 | when all calls have returned, exactly the keys with an initial value or an input are there, each worth all of them |
| ReduceFlush.SumLeavesSum | src/cereggii/atomic_dict/insert.c:590-600 | reduce_sum leaves at each key the arithmetic sum of its initial value and of every input of every thread |
| ReduceFlush.MaxLeavesGreatest | src/cereggii/atomic_dict/insert.c:711-734 | reduce_max leaves one of them that is at least each of them |
| ReduceFlush.MinLeavesLeast | src/cereggii/atomic_dict/insert.c:761-784 | reduce_min leaves one of them that is at most each of them |
| ReduceFlush.AndLeavesAll | src/cereggii/atomic_dict/insert.c:628-643 | reduce_and leaves something true if and only if all of them are true |
| ReduceFlush.OrLeavesAny | src/cereggii/atomic_dict/insert.c:671-684 | reduce_or leaves something true if and only if one of them is true |
| ReduceFlush.ListLeavesItems | src/cereggii/atomic_dict/insert.c:811-855 | reduce_list leaves all their items, each as often as it came |
| CacheFill.StoreCasSucceeds | src/cereggii/atomic_dict/atomic_cache.py:103-127 | in every run, with a TTL and with invalidate, a reservation stays until its maker replaces it, so the CAS after the fill succeeds |
| CacheFill.WaitersServed | src/cereggii/atomic_dict/atomic_cache.py:143-150 | whoever waits for a reservation is woken or its maker can step |
| CacheFill.FillsOnce | src/cereggii/atomic_dict/atomic_cache.py:129-154 | without TTL and invalidate, a __getitem__ that returns gives the outcome of the one fill of its key |
| CacheFill.NeverFilledTwice | src/cereggii/atomic_dict/atomic_cache.py:103-127 | without TTL and invalidate, fill runs at most once per key |
| CacheFill.ReturnsFilled | src/cereggii/atomic_dict/atomic_cache.py:129-154 | without invalidate, with or without a TTL, a __getitem__ that returns gives the outcome of a fill |
| CacheFill.TombstoneNeverReturnedIff | src/cereggii/atomic_dict/atomic_cache.py:103-110 | no run of a cache returns the tombstone if and only if nobody calls invalidate, whatever the TTL |
| CacheFill.TombstoneHasCause | src/cereggii/atomic_dict/atomic_cache.py:103-110 | a __getitem__ that returns the tombstone was overtaken between its two reads by another thread's invalidate of the key and, unless what it read had expired, before that by another thread's fill |
| CacheFill.TombstoneCanBeReturned | src/cereggii/atomic_dict/atomic_cache.py:198-229 | with a TTL and without one, a run of two threads in which __getitem__ returns the tombstone |
| CacheRefill.InvalidateClears | src/cereggii/atomic_dict/atomic_cache.py:216-229 | when invalidate(k) returns, the key held nothing, or the tombstone, at a moment of the call: a fill under way has ended before |
| CacheRefill.InvalidatedIsRefilled | src/cereggii/atomic_dict/atomic_cache.py:198-229 | a __getitem__ called after invalidate(k) returned gives, if a value, the outcome of a fill that was called and stored after a moment of the invalidate |
| CacheRefill.ExpiredNotReturned | src/cereggii/atomic_dict/atomic_cache.py:156-162 | a __getitem__ that reads an expired entry never returns that entry, then or later |
| CacheRefill.HitReturned | src/cereggii/atomic_dict/atomic_cache.py:143-154 | one that reads an entry which has not expired returns it and calls no fill |
| CacheRefill.GettingEnds | src/cereggii/atomic_dict/atomic_cache.py:143-154 | a __getitem__ ends only by returning the entry that it holds |
| FastIter.PartitionsCover | src/cereggii/atomic_dict/iter.c:14-46 | every location belongs to exactly one partition |
| FastIter.Advance | src/cereggii/atomic_dict/iter.c:93-100 | the position after the next one in the walk stays in the partition and skips nothing of it |
| FastIter.FastIterator.constructor | src/cereggii/atomic_dict/iter.c:42-44 | the live locations to come are all those of the partition |
| FastIter.FastIterator.Next | src/cereggii/atomic_dict/iter.c:70-109 | yields the least live location to come, which then is behind, or none is left |

## Left out

- Reference counts, `_Py_TryIncref` retries of a get, weakref flags and garbage collection: objects are values.
- Exceptions from a user's hash, equality or aggregate function, re-entrant calls, and failed allocations, among them the branch of `leader_resize` that leaves `resize_leader` set.
- Memory orders weaker than sequential consistency, prefetching and the CRC that `REHASH` computes.
- `log_size` above 30, where the masks of the source overflow an `int`; a migration to such a size is not a step of the model.
- The fields of an entry that is put back after an update are cleared by separate stores (`insert.c:263-270`); no index refers to the entry, so they are not modelled, and neither are the separate stores to a new entry before it is published.
- `DictMachine` has a fixed set of registered threads and no `len()`, and `ResizeProtocol` has no table: its
  critical sections are atomic operations on the map. Registration, `accessors_lock`, `sync_op` and `len()` are
  proved there only. In `DictMachine` counting and unlocking are one step.
- The linked list of accessors is a sequence, and reservation buffers are values inside the allocator's state: update in place of these small records is not captured.
- Readers do not keep their generation in their accessor; a get just remembers the one it fetched.
- The growth threshold (`insert.c:290-303`) is any choice, and `local_inserted`, `local_tombstones`, `approx_len` and the debug counters are not modelled.
- Progress is freedom from deadlock, from endless probes and from endless scans for an entry; that retries of a compare-and-set or of a full table end is not claimed.
- ReduceTables.ReduceTable.Set: fails when the index would reach 2^60 slots, where the source would run out of memory.
- FastIter.FastIterator.Next: is proved for a dict that nobody changes meanwhile, as its documentation asks.
- `batch_getitem`, `delete` bookkeeping for tombstone counts, the other containers of the package, argument parsing, module set-up and type stubs: they would only add easy members.
