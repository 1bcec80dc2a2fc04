# The pstress table directory, verified

pstress keeps track of the tables it has created in `metadata::Metadata`: an array of table pointers with one
shared mutex per slot, two atomic counters (`tableCount`, `reservedSize`) and a forwarding map (`movedToMap`).
CREATE reserves room without a slot and appends at commit time; ALTER locks a slot, edits a copy and installs it;
DROP moves the last table into the hole it leaves. `metadata.hpp` argues in prose that this leaves no holes, cannot
deadlock, guarantees capacity and keeps moved tables traceable. This project models that protocol one atomic action
at a time and proves those claims, for any number of agents, any capacity and any interleaving, or states exactly
when they fail. On top of it come the DDL actions that drive the directory, the DML actions that rely on the table
shape, and the weighted registry that chooses the actions.

## How the model is built

* `Protocol` is the step relation. An agent is one sequence of calls on one `Reservation` (or one `operator[]`);
  its program counter names the source line of its next atomic action (a load, store, lock or unlock). `Plan` gives
  the next program counter and the one atomic action, `Step` performs it. A mutex is waited for by not being
  enabled. Safety results let one thread own several agents; the deadlock results read one agent as one thread.
* `Invariants` holds the inductive invariant: facts of each program counter, who owns which lock, density of the
  array and conservation of capacity. `Refinement` maps a state to the plain list of `TableList`.
* `Requests` ties what an agent does to what it was asked for; `Contents` what is in a version to the edits made to it.
* `Deadlock`, `Retry`, `Objects`, `Versions`, `Forwarding`, `Tracking`, `NonEmpty` and `SoftLimits` prove the further
  protocol properties; `Unguarded` those that hold in every run whatsoever; `Witness` constructs the runs that go wrong,
  from the constructor and by steps of the program's own actions.
* `Reservations` is the sequential reading: the classes `Metadata` and `Reservation` with their arrays and fields
  updated in place. `Handles` is the accounting over any history of handle operations.
* `Ddl`, `DdlRuns`, `Dml`, `DmlRuns` and `Registry` are the actions, what they make of the directory over whole runs,
  the registry and the worker loop. `Workload` puts everything together, from the constructor of the directory over
  the preparation of the tables to the end of any interleaving of the workers.

SQL execution may succeed or throw. Either way the reservation ends with the commit, because the destructor of an
open reservation completes it; in the model both are the client's decision `Complete`.

## What the proofs found

* **The empty branch of CREATE needs an assumption that the code does not check.** Lines 131 and 132 of
  `metadata.cpp` read `size()` separately, and on an empty directory nothing is locked or rechecked. `Guarded` states
  what the path relies on: the two reads agree on emptiness, and the store at 165 without an outer lock still finds
  the directory empty. The store damages the directory exactly when that fails (`UnlockedStoreExact`). Reads that
  disagree lead to the lock with index -1 (`ReadsZeroThenOne`) or to a hole (`ReadsOneThenZero`), and two overlapping
  CREATEs lose a table (`OverlappingCreatesLoseATable`). All three are reached from the constructor. That -1 is the only
  index outside the array in any run, and even there no counter wraps around (`IndicesAreInside`).
  The guard follows if commits overlap only while there is at least one table (`NonEmptyRunsAreGuarded`), which
  `W <= min_table_count` ensures for the workers (`EnoughTablesGuard`).
* **DROP can deadlock with itself.** Lines 74 and 95 read `size()` separately. If another DROP commits in between,
  the thread locks the mutex it already holds. This is the only deadlock of the protocol
  (`DeadlockIffSelfWait`), a guarded run ends in it exactly if some DROP has read in that way (`DeadlockIffDoubleRead`),
  it is permanent
  (`SelfWaitIsForever`), and the program's own actions reach it from the start, also where every other promise of
  the workload theorem holds (`ProgramCanDeadlock`, `ReadyCanDeadlock`). There is none as long as no two DROPs are
  inside `complete()` at the same time, whatever else overlaps (`LoneDropsNeverDeadlock`). The header (lines 95 to 105)
  claims freedom from deadlock without this condition, and for two DROPs in particular; the model follows the code.
* **Where the commits take effect.** CREATE takes effect at 170, ALTER at 67, DROP of the last table at 80 and any
  other DROP at 105, so between 105 and 109 the list is one shorter than `tableCount`.
* **Copies beyond the list.** The source slot of a move keeps its pointer from 105 to 111, after the count has
  gone down, so several drops can leave several such copies at a time. A table is listed at most once, and every
  other copy lies beyond the list in a slot locked by a drop between 105 and 111 (`DuplicatesAreStale`).
* **When the forwarding map can be trusted.** The chase from a table's old slot finds the table for as long as no CREATE
  takes back a slot that the table has left (`SurvivorsAreFound`). The condition is exact: the first CREATE that does
  makes the chase end at the created table (`TrackExact`), so one DROP and one CREATE are enough to lose a table that
  is still listed (`TakenSlotLosesTheTrack`), where `metadata.hpp` lines 83 to 93 need a second DROP. The stored map
  agrees as long as no slot on the path still waits for its entry at 112 or its decrement at 109, and only then unless
  an older entry happens to help (`StoredSurvivorsAreFound`, `WindowHidesTheTable`).
* **An empty registry does not resolve offset 0.** The first factory gets one offset more than its weight, so a
  non-empty registry resolves every offset up to its total, but an empty one throws, outside the `try` block of the
  worker loop (`RemoveMayFail`, `RunThread`).

## Model

| member | source | states |
|---|---|---|
| TableList.RemoveIsExact | libpstress/include/metadata.hpp:72-77 | swap-with-last loses exactly the dropped table and keeps every other one as often as before |
| TableList.DistinctKept | libpstress/include/metadata.hpp:72-77 | appending an unlisted table, replacing one entry or removing one keeps the entries distinct |
| Invariants.InitInv | libpstress/src/metadata.cpp:198 | the invariant holds of the freshly constructed directory |
| Invariants.PlanIsDisciplined | libpstress/src/metadata.cpp:66-170 | locks change hands only by lock and unlock; slots, map entries and tableCount are written only under the lock of the slot and of the last slot |
| Invariants.StepInv | libpstress/src/metadata.cpp:50-244 | every guarded atomic step of any call keeps facts, lock ownership, density and capacity |
| Invariants.RunInv | libpstress/src/metadata.cpp:50-244 | the invariant holds throughout every guarded run |
| Invariants.ConservedKept | libpstress/src/metadata.cpp:86-87 | capacity conservation is kept by every step, guarded or not |
| Invariants.CapacityOverRuns | libpstress/src/metadata.cpp:180-215 | over every run from a conserved state, guarded or not, the account of CapacityAccount holds |
| Invariants.CapacityAccount | libpstress/src/metadata.cpp:180-215 | reservedSize = tables + granted creates + overshooting attempts + half-finished drops, and without the overshooting attempts never more than the array |
| Invariants.GrantedHasRoom | libpstress/include/metadata.hpp:111-115 | a granted CREATE always has room: tableCount is below the capacity and its commit index is inside the array |
| Unguarded.RunSound | libpstress/src/metadata.cpp:50-244 | over every run, guarded or not, locks keep their owners, agents' indices and filled slots are as they have seen them, and tableCount covers every filled slot |
| Unguarded.IndicesAreInside | libpstress/src/metadata.cpp:72-161 | over every run from the constructor, guarded or not, 0 <= tableCount <= capacity, size() - 1 never underflows in DROP, the index at 160 is inside the array, and -1 at 138 is the only index that is not |
| Refinement.LengthShrinks | libpstress/src/metadata.cpp:105-109 | the length of the list is tableCount, or one less exactly while a drop is between its effect and its decrement |
| Refinement.HalfGoneOwnsLast | libpstress/src/metadata.cpp:98-103 | at most one drop is in that window, and it owns the lock of the last counted slot |
| Refinement.NoHoles | libpstress/include/metadata.hpp:149-153 | every slot below the length is filled; an unlocked slot is filled exactly when it is below tableCount |
| Refinement.ReadersSeeTheList | libpstress/src/metadata.cpp:242-243 | a reader holding the shared lock of a slot sees the entry of the list at that slot, or null exactly beyond its end |
| Requests.RequestsAreServed | libpstress/src/metadata.cpp:180-244 | over every run, guarded or not, an agent works on the slot it was asked for, as ALTER or DROP as asked; it opens a reservation exactly on the table found there and misses exactly a null slot; createTable is refused exactly on a full array; it commits exactly if told to complete |
| Requests.ReadersGetWhatTheyAskedFor | libpstress/src/metadata.cpp:240-244 | operator[](i) returns entry i of the list, or null exactly beyond its end, for the index the caller gave |
| Requests.ReservationsAreAsAskedFor | libpstress/src/metadata.cpp:217-236 | an open reservation is for the slot and the operation its caller named, and still holds the table found there |
| Requests.OpenIsFree | libpstress/include/metadata.hpp:283-287 | an open reservation can always be completed or cancelled, and edited unless it is a DROP |
| Requests.CancelUndoes | libpstress/src/metadata.cpp:180-190 | cancel() ends the call at once, leaves list, map, objects and size alone, gives back the room of a CREATE and holds no lock |
| Refinement.StepRefines | libpstress/src/metadata.cpp:50-178 | a guarded step leaves the list alone or performs the one applicable list operation it emits |
| Refinement.RunRefines | libpstress/src/metadata.cpp:50-178 | any interleaving is its append, replace and swap-with-last operations done one after the other |
| Refinement.OpenPins | libpstress/src/metadata.cpp:72-73 | an open ALTER or DROP keeps its slot below the length and unchanged, so size() is at least 1 and the version replaced is the version copied |
| Refinement.StepDue | libpstress/src/metadata.cpp:50-178 | an agent owes one list operation from its complete() until it takes effect, and none at any other time |
| Refinement.EachCompleteDoesItsOwn | libpstress/src/metadata.cpp:50-178 | in every run each complete() performs the very operation its reservation was made for, in the order of the calls, and no other takes effect |
| Refinement.OneEffectPerComplete | libpstress/src/metadata.cpp:50-178 | in every run each complete() performs exactly one list operation |
| Deadlock.WaitsAscend | libpstress/include/metadata.hpp:95-109 | except for a DROP waiting for itself, every lock waited for lies above every lock held |
| Deadlock.SomebodyMoves | libpstress/include/metadata.hpp:95-109 | from any pending agent the chain of lock holders leads to a pending agent that can step |
| Deadlock.DeadlockIffSelfWait | libpstress/src/metadata.cpp:95-97 | a group waiting for each other's locks exists exactly when some DROP waits for the lock it holds itself |
| Deadlock.SelfWaitOrigin | libpstress/src/metadata.cpp:74-95 | a self-wait is born exactly when the second size() finds that the agent's slot has become the last |
| Deadlock.SelfWaitIsForever | libpstress/src/metadata.cpp:95-97 | a self-waiting DROP never moves again and never releases its slot, whatever the others do |
| Deadlock.DeadlockIffDoubleRead | libpstress/src/metadata.cpp:74-97 | a guarded run ends in a deadlock if and only if some DROP's two reads have straddled a commit that made its slot the last |
| Deadlock.LoneDropsReadOnce | libpstress/src/metadata.cpp:74-95 | while no two DROPs complete at the same time, the two reads of size() never straddle a commit that makes the slot the last |
| Deadlock.LoneDropsNeverDeadlock | libpstress/include/metadata.hpp:99-104 | while no two DROPs complete at the same time, no reachable state has a deadlock, and while a call is pending somebody can step |
| Deadlock.OneReadRunsNeverDeadlock | libpstress/include/metadata.hpp:95-109 | with 74 and 95 read as one, no reachable state has a deadlock, and while a call is pending somebody can step |
| Deadlock.NextSlotIsBeingLeft | libpstress/src/metadata.cpp:153-161 | a CREATE that verified the last slot waits for the next slot only behind an agent that is leaving it and can step |
| Deadlock.NextSlotIsNull | libpstress/src/metadata.cpp:158-165 | once acquired, the slot a guarded CREATE stores into is inside the array, at tableCount, and null |
| Retry.FailureMeansChange | libpstress/src/metadata.cpp:98-147 | an iteration of either loop fails only if tableCount has changed since the agent read it |
| Retry.RetriesArePaidFor | libpstress/src/metadata.cpp:70-147 | in every guarded run an agent's failed iterations never exceed the changes of tableCount by others |
| Retry.CommitsTerminate | libpstress/src/metadata.cpp:70-176 | the steps spent inside complete() are bounded by a constant per call plus a constant per change by others, so both loops end |
| Retry.CallsTerminate | libpstress/src/metadata.cpp:50-244 | the steps an agent takes on its own, in any call, are bounded by a constant per decision of its client plus a constant per change of tableCount by others |
| Objects.PublishedIsImmutable | libpstress/include/metadata.hpp:63-68 | a table object that has been published is never modified again in any guarded run |
| Objects.ListedIsPublished | libpstress/src/metadata.cpp:240-244 | every object operator[] can return is published |
| Objects.EffectsAreMeaningful | libpstress/src/metadata.cpp:66-170 | CREATE appends a table that is not listed, ALTER replaces exactly the version its object was copied from, DROP removes the table it was reserved for |
| Objects.StepObjInv | libpstress/src/metadata.cpp:50-244 | every guarded step keeps ownership of objects, lineage of copies and distinctness of the listed tables |
| Objects.RunObjInv | libpstress/src/metadata.cpp:50-244 | the same over every guarded run |
| Objects.DuplicatesAreStale | libpstress/src/metadata.cpp:105-111 | the same table in two slots means that the higher one is beyond the list and locked by the drop that copied it away, between 105 and 111 |
| Versions.VersionStep | libpstress/src/metadata.cpp:66-68 | in one step a listed table keeps its version, gets one whose origin it is, or is gone for good |
| Versions.UpdatesCompose | libpstress/src/metadata.cpp:217-226 | over any guarded run the version listed at the end descends, origin by origin, from the one listed at the beginning, wherever drops moved the table |
| Contents.CopyIsWhole | libpstress/src/metadata.cpp:224 | the private copy of ALTER has the contents, and the identity, of the version in the slot |
| Contents.EveryCopyIsWhole | libpstress/src/metadata.cpp:217-226 | over guarded runs from the constructor, every object has the contents of the version it was copied from, or of an empty table, unless its client has edited it, and then exactly those of the last edit |
| Contents.EveryCopyAlters | libpstress/src/action/ddl.cpp:150-224 | over such runs of the DDL actions each edit of a copy keeps the name and makes an ALTER of the columns before it |
| Contents.NoUpdateIsLost | libpstress/include/metadata.hpp:59-70 | the contents listed for a table are those listed earlier with the edits of all ALTERs in between applied one after the other, and nothing else |
| Forwarding.RunBackward | libpstress/src/metadata.cpp:105-112 | movedToMap entries are always npos or strictly below their own index, so chasing them ends |
| Forwarding.ChaseStep | libpstress/src/metadata.cpp:88-112 | one guarded step moves the result of a chase exactly as the list operation moves the table that was found there |
| Forwarding.StoredChaseExact | libpstress/src/metadata.cpp:105-112 | the stored map and tableCount give the same as the effective map if no slot on the path is pending, and only then if pending slots have no older entry |
| Forwarding.WindowHidesTheTable | libpstress/src/metadata.cpp:105-112 | while a drop that has lowered tableCount has not written its entry, the stored map finds the table it moved exactly if an old entry happens to name the new slot |
| Forwarding.ForwardRun | libpstress/src/metadata.cpp:88-112 | over any guarded run the effective map is determined by the list operations alone |
| Tracking.MapRun | libpstress/src/metadata.cpp:88-112 | over any guarded run the whole effective map is a function of the list operations |
| Tracking.TrackTable | libpstress/src/metadata.cpp:105-112 | over any guarded run a table is listed where the list operations have taken it, or gone for good |
| Tracking.SurvivorsAreFound | libpstress/include/metadata.hpp:79-81 | over any stretch in which no CREATE takes back a slot that the table has left, chasing from its old slot finds its current slot, in the effective map, which counts the entries that drops are about to write |
| Tracking.TrackExact | libpstress/include/metadata.hpp:83-93 | the condition is exact: the next operation keeps the table in reach if and only if it takes no such slot back; otherwise it is a CREATE and the chase ends at the created table |
| Tracking.CreateFreeIsUntaken | libpstress/include/metadata.hpp:79-81 | in particular a stretch without CREATE satisfies the condition |
| Tracking.StoredSurvivorsAreFound | libpstress/include/metadata.hpp:79-81 | over such a stretch the stored map finds every surviving table whose path is settled, and only those if pending slots have no older entry |
| Tracking.SettledSurvivorsAreFound | libpstress/include/metadata.hpp:79-81 | in particular it finds all of them whenever no drop is between its effect and its map entry |
| NonEmpty.NonEmptyRunsAreGuarded | libpstress/src/metadata.cpp:131-134 | if commits overlap only on a non-empty directory, every step satisfies the guard |
| NonEmpty.UnlockedStoreExact | libpstress/src/metadata.cpp:131-165 | a store without the last slot's lock leaves the list alone if and only if the directory is still as it was read |
| NonEmpty.EmptyReadThenNonEmptyIsStuck | libpstress/src/metadata.cpp:131-139 | reading 0 at 131 and more at 132 leads to the lock with index -1, outside the array; the agent can never go on |
| NonEmpty.NonEmptyReadThenEmptyLeavesHole | libpstress/src/metadata.cpp:131-165 | reading more than 0 at 131 and 0 at 132 stores behind the end and leaves a hole in slot 0 |
| NonEmpty.GuardedRunsLeaveNoHole | libpstress/include/metadata.hpp:117-127 | with the guard no reachable state has a hole |
| Witness.FinishAlone | libpstress/src/metadata.cpp:50-178 | an undisturbed commit always finishes, and changes the size by exactly its one effect |
| Witness.ReadsZeroThenOne | libpstress/src/metadata.cpp:131-139 | from the constructor a run of the actions brings a CREATE to the lock of slot -1, where it stays for ever |
| Witness.ReadsOneThenZero | libpstress/src/metadata.cpp:131-165 | from the constructor a run of the actions makes a CREATE store behind the end and leave a hole in slot 0 |
| Witness.TakenSlotLosesTheTrack | libpstress/include/metadata.hpp:83-93 | from the constructor, with no overlapping commits, a run of the actions moves a table by a DROP and takes its old slot by a CREATE; the stored map then leads from there to the created table |
| Witness.DropsCollide | libpstress/src/metadata.cpp:74-97 | on every unused directory with two tables and more than min_table_count, two workers reach a deadlock by steps of the DROP action |
| Witness.DoubleReadDeadlocks | libpstress/src/metadata.cpp:74-97 | from the empty directory a run of the actions with two creates and two drops ends in a deadlock |
| Witness.OverlappingCreatesLoseATable | libpstress/src/metadata.cpp:131-165 | from the empty directory two overlapping CREATE actions both complete, one table is lost and slot 1 is a hole below tableCount |
| SoftLimits.UpperLimit | libpstress/src/action/ddl.cpp:70-78 | with W agents, tables plus creates in flight plus half-finished drops never exceed max_table_count + W - 1 |
| SoftLimits.ActionsChooseAny | libpstress/src/action/ddl.cpp:70-148 | the actions create exactly below max_table_count, drop exactly above min_table_count, and may choose any table there is |
| SoftLimits.CreatesAreNeverRefused | libpstress/src/metadata.cpp:200-215 | if max_table_count + W - 1 fits the array, no createTable() of a run returns a closed reservation |
| SoftLimits.LowerLimit | libpstress/src/action/ddl.cpp:121-139 | once the count has reached min_table_count + 1 - W it never falls below that again, whatever drops were under way at that moment |
| SoftLimits.OnceReachedForever | libpstress/src/action/ddl.cpp:121-139 | the same for every run of the actions from the fresh directory: if a prefix reaches the count, every continuation keeps it |
| SoftLimits.EnoughTablesGuard | libpstress/src/action/ddl.cpp:121-139 | with W <= min_table_count the directory never empties, so every run of the actions is guarded |
| Ddl.NewColumnsAreWellShaped | libpstress/src/action/ddl.cpp:33-47 | a table of at least two generated columns starts with the serial key and has no other key or auto-increment column |
| Ddl.BuildCreate | libpstress/src/action/ddl.cpp:75-108 | one column per draw, the first the serial INT key and every other a plain one of the drawn name and kind, with a length in 1..100 exactly for CHAR and VARCHAR; their definitions in order, and a PRIMARY KEY definition exactly if there are key columns |
| Ddl.CreateStatementDeclaresTheTable | libpstress/src/action/ddl.cpp:49-112 | reading the definition list back gives exactly the stored columns, with the first as the key |
| Ddl.BuildAlter | libpstress/src/action/ddl.cpp:150-215 | the clause loop edits the copy in place to the stored columns, the last of which are the generated columns of the ADD rounds in order, and emits the clauses of its rounds, leaving the name alone |
| Ddl.RoundEmits | libpstress/src/action/ddl.cpp:171-211 | a round emits: its generated column; a column but the first if there are three or more; the first INT or REAL column if there is one; a configured access method unless one is set; and nothing else |
| Ddl.AnyChoiceCanBeDrawn | libpstress/src/action/ddl.cpp:183-208 | any column but the first can be the dropped one and any configured method the one set |
| Ddl.StatementCounts | libpstress/src/action/ddl.cpp:167-212 | the statement has one ADD and one ALTER COLUMN per such round, DROPs until two columns are left, and one access method if any round sets it |
| Ddl.EveryLengthCanBeDrawn | libpstress/src/action/ddl.cpp:22-24 | every length from 1 to 100 can be drawn for CHAR and VARCHAR |
| Ddl.FindNumeric | libpstress/src/action/ddl.cpp:190-199 | the first INT or REAL column, or none |
| Ddl.StatementReplays | libpstress/src/action/ddl.cpp:161-215 | from any point of the loop, with distinct old and fresh new names, replaying the remaining clauses left to right gives the stored columns |
| Ddl.AlterReplays | libpstress/src/action/ddl.cpp:161-215 | a server executing the ALTER clauses left to right on the old columns accepts them all and ends with exactly the stored columns |
| Ddl.DropsThenAdds | libpstress/src/action/ddl.cpp:161-215 | a server executing all drops first and then all adds accepts them too and also ends with exactly the stored columns |
| Ddl.KeptThenAdded | libpstress/src/action/ddl.cpp:183-215 | the stored columns are those left by the drops, followed by the added ones |
| Ddl.DropsAreOldAndDistinct | libpstress/src/action/ddl.cpp:176-189 | no column is dropped twice, and only columns of the old table are dropped |
| Ddl.NewColumnsAreUntouched | libpstress/src/action/ddl.cpp:172-201 | no DROP or ALTER COLUMN clause names a column added by the same statement |
| Ddl.OneAccessMethod | libpstress/src/action/ddl.cpp:202-210 | at most one clause sets the access method |
| Ddl.OnlyTheKeyIsRetyped | libpstress/src/action/ddl.cpp:190-201 | on a well-shaped table every ALTER COLUMN clause names column 0 |
| Ddl.AlterKeepsShape | libpstress/src/action/ddl.cpp:180-215 | ALTER keeps the table shape and never touches the key column |
| DdlRuns.StepShaped | libpstress/src/action/ddl.cpp:75-224 | each step of the DDL actions keeps every listed or private table well shaped |
| DdlRuns.VisibleTablesAreWellShaped | libpstress/src/action/ddl.cpp:33-224 | over all guarded runs of the DDL actions every table ever visible has the shape the DML code relies on |
| Dml.ListWritten | libpstress/src/action/dml.cpp:58-66 | exactly the columns that are not auto-increment, in order; on a well-shaped table all but the first, and at least one |
| Dml.BuildInsert | libpstress/src/action/dml.cpp:53-87 | every row has one value for each listed column, and on a well-shaped table the list is not empty |
| Dml.BuildUpdate | libpstress/src/action/dml.cpp:137-159 | on a well-shaped table UPDATE assigns every column but the key, at least one, and selects by the key |
| Dml.DeleteKey | libpstress/src/action/dml.cpp:110-116 | on a well-shaped table the chosen column is exactly the PRIMARY KEY of the CREATE statement |
| DmlRuns.ReadersCanWrite | libpstress/src/action/dml.cpp:47-159 | in every guarded run of the DDL actions the object operator[] is about to return has at least one column to write and columns[0] as its only key, and keeps its contents through any further steps |
| Registry.ActionRegistry.Insert | libpstress/src/action/action_registry.cpp:92-106 | appends a factory with a new name and returns its index; a known name throws and changes nothing |
| Registry.ActionRegistry.Remove | libpstress/src/action/action_registry.cpp:108-119 | erases one factory with the name and keeps all others in their order, or throws exactly when there is none and changes nothing |
| Registry.ActionRegistry.Has | libpstress/src/action/action_registry.cpp:161-167 | true exactly for the names in the registry |
| Registry.ActionRegistry.Use | libpstress/src/action/action_registry.cpp:81-84 | takes over all factories of the other registry |
| Registry.ActionRegistry.TotalWeight | libpstress/src/action/action_registry.cpp:152-159 | the accumulation in a 32-bit int is the true sum wrapped to int and then converted to size_t |
| Registry.ActionRegistry.LookupByWeightOffset | libpstress/src/action/action_registry.cpp:169-186 | the first factory whose prefix sum reaches the offset, or the exception |
| Registry.TotalWeightExact | libpstress/src/action/action_registry.cpp:155-157 | that value is the true total if and only if the total is below 2^31 or in the last 2^31 values of size_t |
| Registry.SelectExact | libpstress/src/action/action_registry.cpp:169-186 | for every total that fits size_t, offset selects factory i exactly when it lies in i's share of the prefix sums, and throws exactly above the total |
| Registry.SelectionMatchesWeights | libpstress/src/action/action_registry.cpp:169-186 | exactly weight_i offsets of 0..total select factory i, and one more for the first |
| Registry.InsertsKeepSelection | libpstress/src/workload.cpp:70-71 | if only inserts happen between the total and the lookup, the drawn offset selects the same factory |
| Registry.RemoveMayFail | libpstress/src/workload.cpp:70-71 | after a remove the drawn offset fails exactly when it exceeds the new total or nothing is left |
| Registry.NamesStayDistinct | libpstress/src/action/action_registry.cpp:71-119 | names stay distinct in every registry over every history of insert, remove, copy and use |
| Registry.FactoriesStay | libpstress/src/action/action_registry.cpp:71-119 | over every history a factory stays in a registry until a remove of its own name, or a use, of that registry |
| Registry.CallIsLocal | libpstress/src/action/action_registry.cpp:71-119 | a call changes no registry but its own, and copy and use take the other registry over whole |
| Registry.FactoriesComeFromSomewhere | libpstress/src/action/action_registry.cpp:71-119 | a factory comes into a registry only by its own insert or from a registry that has it |
| Registry.RunThread | libpstress/src/workload.cpp:54-85 | each round selects what its draw up to the (possibly wrapped) total selects; successes and failures add up; a failing lookup ends the process; for totals below 2^31 each draw lies in the share of its pick and only an empty registry ends the process |
| Handles.FailsUnlessOpen | libpstress/src/metadata.cpp:50-60 | complete() throws exactly on handles for which open() is false |
| Handles.FinishedHandlesFail | libpstress/src/metadata.cpp:26-60 | completing a completed, cancelled or moved-from handle fails, with the right one of the two exceptions |
| Handles.NewHandleIsAsAskedFor | libpstress/src/metadata.cpp:200-236 | a new handle is open exactly if it was granted, and then for the slot, the operation and the table it was asked for |
| Handles.CallKeepsBalance | libpstress/src/metadata.cpp:20-60 | every reserve, move, complete, cancel or destroy keeps each single grant and each single lock accounted for |
| Handles.HeldByOne | libpstress/src/metadata.cpp:26-48 | no grant is ever held by two open handles |
| Handles.EveryHistoryBalances | libpstress/src/metadata.cpp:20-194 | over any history each grant, of CREATE, ALTER or DROP, is held by exactly one open handle, or was committed once, or was cancelled once; each lock is held by one handle or released as often as taken |
| Handles.EveryGrantEndsOnce | libpstress/src/metadata.cpp:20-194 | from the start, once no handle is open, every single grant was committed exactly once or cancelled exactly once, not both, and every lock is free |
| Reservations.SettledIsSound | libpstress/src/metadata.cpp:50-178 | complete() keeps the directory in order and performs exactly the append, replacement or swap-with-last of the handle |
| Reservations.SettledIsPerformed | libpstress/src/metadata.cpp:50-178 | case by case: CREATE reports the index its table is at; ALTER replaces its entry; DROP fills the hole with the last table and the map entry of the slot it left names the slot it is in; all other entries of list and map, and all other locks, are as before |
| Reservations.OthersStayKnown | libpstress/src/metadata.cpp:50-178 | completing one handle leaves the room or the lock of every other open handle in place |
| Reservations.OthersStayKnownElsewise | libpstress/src/metadata.cpp:26-48 | so does cancelling or moving it |
| Reservations.Metadata.constructor | libpstress/src/metadata.cpp:198 | an empty, unlocked directory whose map is all npos |
| Reservations.Metadata.At | libpstress/src/metadata.cpp:240-244 | the listed table, or null beyond the end; blocked exactly on a slot locked through an open handle |
| Reservations.Metadata.CreateTable | libpstress/src/metadata.cpp:200-215 | an open handle and one unit of room on its account exactly if there is room, otherwise a closed handle; nothing else changes |
| Reservations.Metadata.ReserveSlot | libpstress/src/metadata.cpp:217-236 | an open handle owning the slot's lock exactly if the slot is filled and free; nothing else changes |
| Reservations.Reservation.Move | libpstress/src/metadata.cpp:26-33 | the new handle takes the place of the old one, which is moved from; the directory does not change |
| Reservations.Reservation.MoveAssign | libpstress/src/metadata.cpp:35-48 | the same for assignment onto a handle that is not open |
| Reservations.Reservation.Complete | libpstress/src/metadata.cpp:50-178 | the same of the method, with the exact cases in which it throws (and which exception) or waits for a lock of the same thread, then without any effect |
| Reservations.Reservation.CompleteDrop | libpstress/src/metadata.cpp:69-122 | the loop fills the hole with the last table, enters its new slot in the map (npos for the last slot itself), leaves every other entry alone and releases only its own lock |
| Reservations.Reservation.CompleteCreate | libpstress/src/metadata.cpp:123-177 | appends the table, reports the old size as the index at which it now is, and leaves every lock as it was |
| Reservations.Reservation.Destroy | libpstress/src/metadata.cpp:20-24 | completes an open handle, with the same effect, and leaves everything alone otherwise; never throws |
| Reservations.Reservation.Cancel | libpstress/src/metadata.cpp:180-190 | gives back the room of an open CREATE or the lock of an open ALTER or DROP; tables, size and map are as before |
| Workload.WorkloadIsSafe | libpstress/src/workload.cpp:54-85 | with W <= min_table_count and max_table_count + W - 1 within capacity, every interleaving of the actions stays dense, linearizable, free of duplicates, within the soft limits, lists only tables the DML statements are right for and refuses no CREATE; and it does not deadlock unless two DROPs complete at the same time |
| Workload.PreparedIsReady | libpstress/src/workload.cpp:111-115 | an idle directory in order, with enough well-shaped tables, satisfies every assumption of that theorem |
| Workload.PreparationIsReady | libpstress/src/workload.cpp:23-28 | from the fresh directory, a run of the DDL actions whose commits overlap only on a non-empty directory, and that ends idle with enough tables, leads to such a directory |
| Workload.OneWorkerNeverOverlaps | libpstress/src/workload.cpp:23-28 | preparation by one worker never overlaps commits |
| Workload.WholeProgramIsSafe | libpstress/src/workload.cpp:54-115 | from the constructor of the directory: one worker prepares the tables, then W workers interleave in any way, and all of this holds |
| Workload.ReadyCanDeadlock | libpstress/src/metadata.cpp:74-97 | from every idle ready directory in which DROP is allowed, two workers can reach a deadlock by the actions alone, and one of them never moves again |
| Workload.ProgramCanDeadlock | libpstress/src/metadata.cpp:74-97 | such a run exists from the constructor on whenever two workers, min_table_count and max_table_count leave room for one |

## Left out

- Agreement with the database: an SQL call may fail, and the reservation commits all the same; nothing is claimed about the server.
- A type or access-method change is not recorded by the source, so the model stores none either.
- Fairness and real time: progress is stated as enabledness, retry bounds and step bounds.
- The C++ memory model below sequential consistency, and `shared_ptr` reference counts; table identities and versions take their place.
- Reading `size()` to draw an index (ddl.cpp 128 and 148, dml.cpp 49, 106 and 133) is one step with the draw.
- The one index outside the array (-1 at line 138 of metadata.cpp after reads of size() that disagree) is undefined behaviour in the source; in the model such a step is never enabled.
- Ddl.RandomNumber: the random generator is any choice within its bounds; the narrowing of 64-bit bounds to int inside the generator is not modelled.
- SoftLimits.UpperLimit: runs in which an index is drawn from an empty directory (`size() - 1` underflows at ddl.cpp 128 and 148 and in dml.cpp) are outside the runs of the actions considered.
- Ddl.AlterReplays: names are random in the source; freshness and distinctness of the names are a precondition.
- Ddl.BuildAlter: an empty list of access methods, whose size minus one underflows, is excluded; the set of allowed subcommands is part of the draws.
- Reservations.Reservation.Complete: one thread at a time; waiting for a lock held through another handle of the same thread is reported as `Blocked`, and the interleaved reading is in `Protocol`.
- Reservations.Reservation.MoveAssign: moving onto an open reservation drops it without accounting and is excluded.
- Registry.RunThread: the duration clock is the number of draws; a registry that other threads change between the two calls is covered by InsertsKeepSelection and RemoveMayFail.
- Registry.SelectExact: totals that do not fit size_t, where the lookup wraps around, are described by LookupByWeightOffset only.
- Objects.PublishedIsImmutable: a DROP reservation hands out the published object itself; the DDL actions only read it, and client edits through it are excluded.
- Dml.BuildInsert: generated values are represented by the column they are for, and the loop that draws an index until operator[] returns a table is a `BeginRead` per attempt.
- Index, partition and tablespace fields of `Table`, and the column fields no action uses.
- Exact SQL text; statements are clause and column lists.
- `BitFlags`, process control, SQL clients, logging, the Lua bindings, scenarios and build files.
