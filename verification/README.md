# Verification of logicblocks.event.store

A Dafny model of the parts of the library whose correctness depends on every input, every
interleaving or every run, with proofs about them. Nothing in it is meant to be executed.

1. **Keyset paging.** A search compiles to one of nine SQL statements (`KeySetPaging`), which a
   small relational evaluator gives a meaning (`Evaluation`). Every statement means a page of one
   totally ordered list (`PagingRefinement`, `MixedPaging`, `PagingLaws`, `PageWalks`), so walking
   pages reads everything once, and the in-memory back end returns the same rows exactly where
   `MemorySearch` says. Row comparison follows section 8.2 of ISO/IEC 9075-2. Rendering the query
   trees to text and parameters keeps both in step (`Rendering`, `RenderedFragments`,
   `RenderingLaws`), and a reader with its own table of words reads the bound text back as the tree
   (`SqlReader`, `Wording`, `ReadingBack`, `TextLaws`), so that the text itself serves the page
   (`PagingRendering`, `ScanRendering`).
2. **Distributed subscriptions.** The coordinator's distribution (`Distribution`) meets a relation
   on who holds what (`Allocations`), the store applies it (`Subscriptions`), nodes follow it
   (`Difference`), and the whole broker converges (`Broker`).
3. **Event store writes.** Each save is a small program whose steps interleave with those of any
   number of others (`Saves`); what they write, in which order, and that they finish are invariants
   and laws over all schedules (`SaveContents`, `SaveOrder`, `SaveLaws`, `SaveScopes`,
   `SaveProgress`). The database classes (`EventsDb`), the adapter run without interruption
   (`StorageAdapter`), the write conditions (`Conditions`) and the PostgreSQL scan loop
   (`PagedScan`) are proved against the plain commit log.
4. **Checkpointed consumers.** The checkpoint store (`ConsumerState`) and the consume loop, over a
   growing source with processor failures and crashes (`ConsumerRuns`).

`Prelude`, `Values`, `Ordering`, `SqlQuery`, `Events` and `LockNames` hold what these share.
A schedule is a list naming the process or action that moves next; naming one that cannot move
changes nothing (`Saves.Run`) or is ruled out (`Broker.Runs`, `ConsumerRuns.Runs`). Sets are
enumerated in an arbitrary order wherever the library iterates over them.

Where the code and its documentation could be read differently, the model follows the code:
numbers drawn by a save that fails are lost, an empty category or stream name does not confine a
PostgreSQL scan (`PagedScan.ScansItsTargetExactly`), and an empty Or condition passes alone but not
beside a failing condition (`Conditions.CombineMeaningExactly`).

## Model

Paths are relative to the repository root.

| member | source | states |
|---|---|---|
| PageWalks.EveryShapeMeansItsPage | src/logicblocks/event/persistence/postgres/converters/clause.py:606-675 | For every filter, every supported sort and both directions, the statement chosen by `apply` evaluates to the same thing: the first n filtered rows, the first n after the last one, or the n before it in forward order, in the order of the sorts completed by the id (descending only when all sorts are) |
| PagingLaws.FirstPageMeaning | src/logicblocks/event/persistence/postgres/converters/clause.py:206-243 | A first page of a sorted query is the first n of the filtered rows ranked by the sorts and then the id |
| PagingLaws.FirstPageNoSortMeaning | src/logicblocks/event/persistence/postgres/converters/clause.py:200-203 | Without a sort the first page is the first n filtered rows by ascending id |
| PagingLaws.NoSortForwardsMeaning | src/logicblocks/event/persistence/postgres/converters/clause.py:246-277 | Comparing ids selects exactly the rows after the last id, also when no record has it |
| PagingLaws.NoSortBackwardsMeaning | src/logicblocks/event/persistence/postgres/converters/clause.py:280-292 | Reading downwards, limiting and sorting again gives the n rows immediately before the last id, in forward order |
| PagingRefinement.RowComparisonMeaning | src/logicblocks/event/persistence/postgres/converters/clause.py:159-167 | Comparing the row of sort expressions with `SELECT * FROM last` is the lexicographic order of the sorts, on the side asked for |
| PagingRefinement.UniformForwardsMeaning | src/logicblocks/event/persistence/postgres/converters/clause.py:295-325 | With all sorts in one direction, the row comparison with a limit yields the first n rows after the last one (also lines 376-406) |
| PagingRefinement.UniformBackwardsMeaning | src/logicblocks/event/persistence/postgres/converters/clause.py:328-373 | With all sorts in one direction, reverse, limit and sort again yields the n rows before the last one, in forward order (also lines 409-454) |
| PagingEvaluation.EvalRecord | src/logicblocks/event/persistence/postgres/converters/clause.py:180-197 | The record query yields the projection of the one row with that id, and nothing when there is none |
| MixedPaging.BranchConditionMeaning | src/logicblocks/event/persistence/postgres/converters/clause.py:475-505 | Each condition of a branch says what it should about a row: equality with the last row before the branch's own sort, strictly beyond it on that sort, in that sort's direction |
| MixedPaging.BranchesPartition | src/logicblocks/event/persistence/postgres/converters/clause.py:482-513 | The branches split the rows after the last one: as multisets, their union is exactly those rows, none twice |
| Ordering.TopOfUnion | src/logicblocks/event/persistence/postgres/converters/clause.py:504-520 | Limiting each part of a union before uniting, sorting and limiting it loses none of the first n of the whole |
| MixedPaging.UnionOfBranches | src/logicblocks/event/persistence/postgres/converters/clause.py:457-520 | The first n of the union of each branch's first n are the first n ranked rows after the last one |
| PagingLaws.MixedForwardsMeaning | src/logicblocks/event/persistence/postgres/converters/clause.py:457-520 | The forwards union query yields exactly the first n filtered rows strictly after the last one in the mixed-direction order |
| PagingLaws.MixedBackwardsMeaning | src/logicblocks/event/persistence/postgres/converters/clause.py:523-594 | The backwards union query yields exactly the n rows immediately before the last one, in forward order |
| PageWalks.MixedNestedPathFails | src/logicblocks/event/persistence/postgres/converters/clause.py:475-480 | With a last id, building the statement fails if and only if the directions are mixed and some sort is on a nested path, whose expression cannot key a dict |
| PageWalks.SupportedExactly | src/logicblocks/event/persistence/postgres/converters/clause.py:467-505 | Of the sorts the converter makes, those the laws cover are exactly those of one direction and the mixed ones whose statement builds and reads no name of `last` that it outputs twice, forwards and backwards; a name output twice is ambiguous to PostgreSQL, which then refuses the statement |
| MixedPaging.ResolvesExactly | src/logicblocks/event/persistence/postgres/converters/clause.py:473-503 | The conditions of the branches read every name of `last` unambiguously if and only if no sort column is repeated, the id included |
| PageWalks.UnknownLastIdGivesNothing | src/logicblocks/event/persistence/postgres/converters/clause.py:180-197 | A sorted statement whose last id names no record yields nothing, in every shape and direction |
| PageWalks.StatementsServePages | src/logicblocks/event/persistence/postgres/converters/clause.py:597-675 | The compiled statements serve the pages of one ranking beside each of its rows, forwards and backwards |
| PageWalks.WalkingTheStatements | src/logicblocks/event/persistence/postgres/converters/clause.py:597-675 | Running the compiled statements page after page reads Take(k * n) of the ranked filtered rows, all of them for k large enough; a page is empty exactly past the end, and the statement backwards from a page's first row returns the page read before it |
| Walking.WalkReadsEverything | src/logicblocks/event/persistence/postgres/converters/clause.py:597-675 | Following last ids forwards from the first page reads Take(k * n) of the ranking after k pages, hence all of it in order without gap or repeat, and a page is empty exactly past the end |
| Walking.WalkBackReturns | src/logicblocks/event/persistence/postgres/converters/clause.py:597-675 | Paging backwards from the first row of a non-empty page returns the page before it |
| MemorySearch.PassesSortLexicographically | src/logicblocks/event/persistence/memory/converters/clause.py:108-130 | One stable sort per field, last field first, in any mix of directions, is the one stable sort by the lexicographic order of all fields |
| MemorySearch.SortRowsIsTheStableArrangement | src/logicblocks/event/persistence/memory/converters/clause.py:108-130 | The sorted results are a permutation, sorted, with full ties in input order, and every arrangement with these properties is equal to them |
| MemorySearch.SortRowsByFirstDifference | src/logicblocks/event/persistence/memory/converters/clause.py:108-130 | Of any two sorted rows, the first field they differ in has the lower value first if it sorts ascending and the higher one first if it sorts descending |
| Values.StringBelowByFirstDifference | src/logicblocks/event/persistence/memory/converters/clause.py:108-130 | Texts are ordered by code point at their first difference, a beginning before the whole |
| MemorySearch.SlicesServePages | src/logicblocks/event/persistence/memory/converters/clause.py:166-215 | Slicing a ranking around the index of the last id serves the same pages as the statements do |
| MemorySearch.BackEndsAgree | src/logicblocks/event/persistence/memory/converters/clause.py:183-215 | Without ties, and with a last id that names a row passing the filters (or none, forwards), the in-memory pipeline and the compiled statement return the same rows |
| MemorySearch.BackEndsAgreeExactly | src/logicblocks/event/persistence/memory/converters/clause.py:183-215 | For every last id and direction: the two back ends agree if and only if the clause is anchored like that, or nothing is asked for, or no filtered row lies on the side asked for |
| MemorySearch.StatementIsEmpty | src/logicblocks/event/persistence/postgres/converters/clause.py:606-675 | A statement yields nothing if and only if the page size is zero or no filtered row is asked for: none in the table, none beyond the named record, or (sorted) an unknown id |
| MemorySearch.OffsetPagesAgree | src/logicblocks/event/persistence/memory/converters/clause.py:218-230 | LIMIT and OFFSET cut the slice of the sorted, filtered rows that the in-memory converter cuts, ties included |
| MemorySearch.OffsetPagesAreRight | src/logicblocks/event/query/clauses.py:92-93 | In both back ends row i of page p is row (p - 1) * n + i of the sorted, filtered rows, and the page has n rows or as many as are left |
| MemorySearch.RightPagesReadEverything | src/logicblocks/event/query/clauses.py:92-93 | Pages 1 to k read Take(k * n) of the rows, and for n >= 1 page k is empty exactly when (k - 1) * n reaches their number |
| RenderingLaws.RendersUnlessFaulty | src/logicblocks/event/persistence/postgres/query.py:379-398 | Rendering a query of any depth fails if and only if some node is defective (a condition not fully specified, a schema without a table), with the error of the first one in reading order |
| RenderingLaws.EveryPlaceholderHasItsParameter | src/logicblocks/event/persistence/postgres/query.py:731-767 | The parameters are exactly the constants of the tree in the order of the text; placeholders number as many, plus those raw text brings along, so they match if and only if it brings none |
| RenderingLaws.FillingIsRenderingInPlace | src/logicblocks/event/persistence/postgres/query.py:578-767 | Filling the placeholders from the parameters left to right gives the text with each constant in its own place |
| Wording.SignsRead | src/logicblocks/event/persistence/postgres/query.py:189-201 | Each operator is written as the sign an independent table of words has for it |
| TextLaws.TextReadsBack | src/logicblocks/event/persistence/postgres/query.py:19-767 | For every readable tree of any depth, the text with its constants in place is read back, by a reader written from the grammar, as that very tree |
| TextLaws.BoundTextReadsBack | src/logicblocks/event/persistence/postgres/query.py:731-767 | So is the text with placeholders once the driver has put the parameters into them, left to right |
| TextLaws.TextsDiffer | src/logicblocks/event/persistence/postgres/query.py:731-767 | Two readable statements with the same text and parameters are the same statement |
| TextLaws.NestedComparisonsAreAmbiguous | src/logicblocks/event/persistence/postgres/query.py:379-398 | Why comparisons inside comparisons are left out: two groupings have one text |
| TextLaws.BlankSubqueriesAreAmbiguous | src/logicblocks/event/persistence/postgres/query.py:333-365 | Why blank subqueries are left out: one is written like an empty list |
| TextLaws.SmallUnionsAreAmbiguous | src/logicblocks/event/persistence/postgres/query.py:603-622 | Why unions of fewer than two queries are read as ALL only: their text does not show the kind |
| PagingRendering.EveryPagingStatementBinds | src/logicblocks/event/persistence/postgres/converters/clause.py:606-675 | Every statement the paging clause compiles to renders, with one parameter per placeholder, each constant bound in its own place, provided filters and sorts are well formed and bring no placeholders |
| PagingRendering.EveryPagingStatementReadsBack | src/logicblocks/event/persistence/postgres/converters/clause.py:606-675 | Its bound text is read back as that statement, provided filters and sorts are readable |
| PagingRendering.TextServesPage | src/logicblocks/event/persistence/postgres/converters/clause.py:606-675 | From the clause to the rows: for every shape, the text and parameters, read and evaluated, give the page asked for |
| PagingRendering.OffsetStatementReadsBack | src/logicblocks/event/persistence/postgres/converters/clause.py:691-701 | The bound text of an offset page is read back as its statement |
| ScanRendering.ScanTextServesPage | src/logicblocks/event/store/adapters/postgres/adapter.py:177-210 | The text and parameters of a scan's query, read and evaluated, give the first rows of the one-shot scan |
| Conditions.CombineMeaningExactly | src/logicblocks/event/store/conditions.py:7-23 | For all operands: combining two conditions into a set form means their conjunction or disjunction if and only if it is not an empty Or that is combined by or with a condition that fails; in that case the combination fails, where the disjunction holds |
| Conditions.CombineMeaning | src/logicblocks/event/store/conditions.py:7-23 | Hence of operands other than the empty Or the set form means what the operator says, and is not an empty Or itself |
| Conditions.BuildMeaning | src/logicblocks/event/store/conditions.py:7-35 | Whatever expression is built with the and and or operators, its flattened set form holds exactly when the boolean expression does |
| Conditions.BuildFlat | src/logicblocks/event/store/conditions.py:7-23 | And inside And, and Or inside Or, never survive combination, at any depth |
| Conditions.CombineAssociates | src/logicblocks/event/store/conditions.py:7-23 | Grouping and order of operands of one kind leave no trace in the set form |
| Conditions.EmptyOrLosesItsMeaning | src/logicblocks/event/store/adapters/memory/converters.py:185-198 | An empty Or passes alone; combined by or with any condition it leaves just that condition's outcome |
| Conditions.AssertSatisfied | src/logicblocks/event/store/adapters/memory/converters.py:98-198 | The enforcers pass if and only if the condition holds, whatever order the sets iterate in, and otherwise raise the error of a failing part |
| SaveContents.LengthAsked | src/logicblocks/event/store/adapters/memory/converters.py:117-142 | Of a contiguous log, the plain conditions hold exactly of streams of the length they ask for, and no condition always |
| EventsDb.AddRepresents | src/logicblocks/event/store/adapters/memory/db.py:103-113 | Adding an event with an unused number, however far beyond the last slot, keeps the database representing the commit log: slots, and every index as the log filtered by its key |
| EventsDb.CommitsAreRepresented | src/logicblocks/event/store/adapters/memory/db.py:80-150 | Committing any events of distinct numbers in any order leaves a database that represents exactly that order |
| EventsDb.EntryPointsAtItsEvent | src/logicblocks/event/store/adapters/memory/db.py:143-152 | Every index entry points at a filled slot holding the matching event of the filtered log, with that number |
| EventsDb.InMemorySequence.Next | src/logicblocks/event/store/adapters/memory/db.py:31-34 | Hands out the current number and moves past it |
| EventsDb.InMemoryEventsDB.Add | src/logicblocks/event/store/adapters/memory/db.py:103-113 | The log grows by the event; slots are padded with empty ones, and all three indexes grow |
| EventsDb.InMemoryEventsDB.Snapshot | src/logicblocks/event/store/adapters/memory/db.py:68-75 | A new database with the same log |
| EventsDb.InMemoryEventsDB.ScanEvents | src/logicblocks/event/store/adapters/memory/db.py:122-141 | Never fails, and yields, in commit order, exactly the events of the source whose number exceeds every number given |
| Events.AcceptedExactly | src/logicblocks/event/store/adapters/memory/db.py:136-140 | An event is yielded if and only if it is there and its number exceeds n for every constraint to come after n |
| Events.AcceptedUnconstrained | src/logicblocks/event/store/adapters/memory/db.py:136-140 | Without constraints every event is yielded |
| Events.AcceptedTogether | src/logicblocks/event/store/adapters/memory/db.py:136-140 | All constraints at once yield what one set after the other does |
| Events.AcceptedConcat | src/logicblocks/event/store/adapters/memory/db.py:136-140 | Events are yielded one by one, in the order they come in |
| EventsDb.InMemoryEventsDB.LastEvent | src/logicblocks/event/store/adapters/memory/db.py:115-120 | The last event of the commit log filtered by source |
| EventsDb.InMemoryEventsDB.StreamEvents | src/logicblocks/event/store/adapters/memory/db.py:80-91 | The commit log filtered by stream; the invalid-state error never occurs |
| EventsDb.InMemoryEventsDB.LastStreamPosition | src/logicblocks/event/store/adapters/memory/db.py:93-101 | The position of the stream's last committed event, or -1 |
| EventsDb.Transaction.Commit | src/logicblocks/event/store/adapters/memory/db.py:160-165 | Appends everything added, in order |
| LockNames.SortedStreamsAreValid | src/logicblocks/event/store/adapters/memory/adapter.py:243-255 | Sorting the streams of a mapping, however it iterates, yields strictly increasing names |
| LockNames.RequiredLocksOrdered | src/logicblocks/event/store/adapters/memory/adapter.py:97-116 | The locks a save takes are in strictly increasing name order: the common category prefix keeps stream order, even with dotted names, and no lock is taken twice |
| LockNames.RequiredLocksProtect | src/logicblocks/event/store/adapters/base.py:45-76 | The locks of a save include the one protecting each stream it writes, under every guarantee |
| Saves.MutualExclusion | src/logicblocks/event/store/adapters/memory/adapter.py:182-183 | No lock is held by two saves |
| Saves.StepKeepsLocks | src/logicblocks/event/store/adapters/memory/locks.py:12-24 | Taking locks one by one and releasing them on success or failure keeps lock table and holders consistent at every step |
| SaveContents.RunKeepsSound | src/logicblocks/event/store/adapters/memory/adapter.py:169-314 | Every interleaving keeps the invariant: positions contiguous, what each save has read and checked still true of the log, and what it has drawn exactly its events at the next positions |
| SaveContents.LocksKeepOut | src/logicblocks/event/store/adapters/memory/adapter.py:182-312 | While a save holds its locks no other active save has drawn an event for any of its streams |
| SaveOrder.RunKeepsNumbered | src/logicblocks/event/store/adapters/memory/adapter.py:199-227 | Every interleaving keeps numbers unique and below the sequence, and events under one lock committed in the order of their numbers |
| SaveLaws.IndexesIncrease | src/logicblocks/event/store/adapters/memory/adapter.py:97-116 | For any number of saves and any schedule, each index within the scope of one lock is strictly increasing in sequence number: the log under LOG, categories under CATEGORY, streams under STREAM |
| SaveScopes.IncreasesExactlyWithinOneLock | src/logicblocks/event/store/adapters/base.py:45-76 | An index increases in every run, and a reader resuming after the last number it saw of it never misses an event, if and only if one lock protects all its events; otherwise two saves can commit in the opposite order of their numbers and the reader misses one |
| SaveLaws.ResumingReaderMissesNothing | src/logicblocks/event/store/adapters/memory/converters.py:26-37 | For the log, a category or a stream within the scope of one lock: scanning it after the last number seen of it yields exactly its events committed since, after any further interleaving |
| SaveLaws.DatabaseRepresentsCommits | src/logicblocks/event/store/adapters/memory/db.py:80-150 | In every reachable state, holes left by failed saves included, the database built from the commits answers as the commit log does |
| SaveLaws.PositionsAreContiguous | src/logicblocks/event/store/adapters/memory/adapter.py:199-206 | In every reachable state the positions along every stream are exactly 0 to n - 1 |
| SaveLaws.StepIsAtomic | src/logicblocks/event/store/adapters/memory/adapter.py:182-314 | A step leaves the log alone, or commits a save: then its conditions hold of the streams at that moment and all events of all its streams go in, at the next positions, and nothing else |
| SaveLaws.ReadsNeverGoStale | src/logicblocks/event/store/adapters/memory/adapter.py:185-196 | The latest event a save has read is still the stream's latest when it checks its condition |
| SaveLaws.AtMostOneWins | src/logicblocks/event/store/adapters/memory/adapter.py:188-227 | Of any racing saves with events for one stream that claim the same end of it, by `position_is` or, for an empty stream, by `stream_is_empty`, in stream or category publishes, at most one commits |
| SaveLaws.CommitFindsAskedLength | src/logicblocks/event/store/adapters/memory/converters.py:117-142 | In any run, a save that commits finds each of its streams as long as its condition asks: without events under `stream_is_empty`, with n + 1 of them under `position_is(n)` |
| SaveProgress.NeverStuck | src/logicblocks/event/store/adapters/memory/locks.py:12-15 | In every sound state with an unfinished save some save can take a step |
| SaveProgress.RunsAreBounded | src/logicblocks/event/store/adapters/memory/adapter.py:169-314 | No run is longer than the work its saves bring along |
| SaveProgress.EverySaveFinishes | src/logicblocks/event/store/adapters/memory/locks.py:12-24 | From every reachable state, no step is possible if and only if all saves are finished, and every run ends |
| StorageAdapter.InMemoryEventStorageAdapter.SaveToStream | src/logicblocks/event/store/adapters/memory/adapter.py:169-229 | Uninterrupted: succeeds if and only if the condition holds of the stream (`stream_is_empty`: it has no events; `position_is`: its last index is that one; none: always; each with its own error), then stores the events at the next positions with the next numbers; otherwise changes nothing |
| StorageAdapter.InMemoryEventStorageAdapter.SaveToCategory | src/logicblocks/event/store/adapters/memory/adapter.py:231-314 | Uninterrupted: succeeds if and only if every stream's condition holds, then stores all streams' events; otherwise the log is unchanged, though numbers may be lost |
| StorageAdapter.InMemoryEventStorageAdapter.PublishPart | src/logicblocks/event/store/adapters/memory/adapter.py:257-310 | Checks one stream's condition and draws its events into the transaction, leaving the database alone |
| PagedScan.PageMeaning | src/logicblocks/event/store/adapters/postgres/adapter.py:177-210 | For every target, the query for a page, whatever order the constraint set iterates in, evaluates to the first rows of the one-shot constrained scan of what the target's non-empty names select |
| PagedScan.ConfinedExactly | src/logicblocks/event/store/adapters/postgres/adapter.py:184-198 | For every target: the query's conditions hold of exactly the rows of the target if and only if none of its category and stream names is empty |
| PagedScan.ScansItsTargetExactly | src/logicblocks/event/store/adapters/postgres/adapter.py:184-198 | For every target: the scan reads, on every event table and under all constraints, exactly the target's events if and only if none of its names is empty |
| PagedScan.ResumedIsRest | src/logicblocks/event/store/adapters/postgres/adapter.py:888-902 | Swapping the caller's sequence constraints for the cursor loses and repeats nothing: the resumed scan is the rest of the one-shot scan |
| PagedScan.GrowthExtends | src/logicblocks/event/store/adapters/postgres/adapter.py:869-917 | Rows appended with higher numbers only extend the one-shot scan at its end |
| PagedScan.Scan | src/logicblocks/event/store/adapters/postgres/adapter.py:869-917 | For every target and page size of at least one, the loop terminates and yields, in strictly ascending order, exactly the matches in the table as it was last read |
| PagedScan.ScanFixed | src/logicblocks/event/store/adapters/postgres/adapter.py:869-917 | On a table nobody writes to, the paged scan is the one-shot scan |
| Subscriptions.AppliedOutcome | src/logicblocks/event/processing/broker/strategies/distributed/subscriptions/stores/state/memory.py:61-77 | Changes with distinct keys that the store can take are all applied, and what they leave does not depend on their order |
| Subscriptions.InMemoryEventSubscriptionStateStore.Add | src/logicblocks/event/processing/broker/strategies/distributed/subscriptions/stores/state/memory.py:27-38 | Refuses an existing key, else stores the subscription under its own node id |
| Subscriptions.InMemoryEventSubscriptionStateStore.Remove | src/logicblocks/event/processing/broker/strategies/distributed/subscriptions/stores/state/memory.py:40-46 | Refuses a missing key, else drops it |
| Subscriptions.InMemoryEventSubscriptionStateStore.Replace | src/logicblocks/event/processing/broker/strategies/distributed/subscriptions/stores/state/memory.py:48-59 | Refuses a missing key, else overwrites it |
| Subscriptions.InMemoryEventSubscriptionStateStore.Apply | src/logicblocks/event/processing/broker/strategies/distributed/subscriptions/stores/state/memory.py:61-77 | Refuses repeated keys before changing anything; otherwise applies the changes up to the first that is refused |
| Distribution.ChunksPartition | src/logicblocks/event/processing/broker/strategies/distributed/coordinator.py:27-28 | The strided chunks put every value in exactly one chunk, none twice |
| Distribution.ChunksBalanced | src/logicblocks/event/processing/broker/strategies/distributed/coordinator.py:27-28 | Chunk lengths differ by at most one |
| Distribution.LongestRequest | src/logicblocks/event/processing/broker/strategies/distributed/coordinator.py:241-259 | The target is a request made in the group, and none is longer |
| Distribution.DistributeGroup | src/logicblocks/event/processing/broker/strategies/distributed/coordinator.py:239-350 | For one group: eligible subscribers keep what they hold of the target, sources nobody eligible holds go to exactly one of them, shares of new sources differ by at most one, and the others lose their subscriptions |
| Distribution.Distribute | src/logicblocks/event/processing/broker/strategies/distributed/coordinator.py:199-352 | The changes have distinct keys, the store accepts all of them, each one added or replaced carries the node id of the live subscriber with its key, and applying them is a distribution in the sense of `Allocations.Distributed` |
| Distribution.DistributeIn | src/logicblocks/event/processing/broker/strategies/distributed/coordinator.py:352-352 | Distributing into the store never raises |
| Allocations.DistributionKeepsExclusive | src/logicblocks/event/processing/broker/strategies/distributed/coordinator.py:228-350 | If no source of a group was held twice, none is afterwards, within or across subscriptions |
| Allocations.DistributionCovers | src/logicblocks/event/processing/broker/strategies/distributed/coordinator.py:251-350 | Afterwards each source of a group's target is held exactly once, and no other source is held |
| Allocations.HeldSourcesStay | src/logicblocks/event/processing/broker/strategies/distributed/coordinator.py:281-287 | A requested source held by an eligible live subscriber never moves |
| Allocations.DistributionIsStable | src/logicblocks/event/processing/broker/strategies/distributed/coordinator.py:199-352 | Repeating a distribution with the same subscribers and targets changes no set of allocated sources |
| Allocations.RoundsFromEmptyStore | src/logicblocks/event/processing/broker/strategies/distributed/coordinator.py:199-352 | From an empty store, over arbitrarily changing live subscribers, every round leaves groups exclusive and exactly covered, with subscriptions for exactly the live subscribers making the target request |
| Difference.Diff | src/logicblocks/event/processing/broker/strategies/distributed/difference.py:36-112 | Allocations are the pairs only the new list has, revocations those only the old one has: old minus revocations plus allocations is new, and the two are disjoint |
| Difference.EventSubscriptionConsumer.Accept | src/logicblocks/event/processing/consumers/subscription.py:130-147 | A new source gets a delegate, a known one keeps its own |
| Difference.EventSubscriptionConsumer.Withdraw | src/logicblocks/event/processing/consumers/subscription.py:149-166 | The source's delegate goes, if there is one |
| Difference.DefaultEventSubscriptionObserver.Synchronise | src/logicblocks/event/processing/broker/strategies/distributed/observer.py:77-105 | Each local subscriber loses the sources revoked from it and gains those allocated to it, others are passed over, and the list becomes what is remembered |
| Broker.ListedSources | src/logicblocks/event/processing/broker/strategies/distributed/observer.py:80-81 | The list a node reads gives each key exactly the sources the store holds for it |
| Broker.ChangesAreTheDifference | src/logicblocks/event/processing/broker/strategies/distributed/observer.py:80-83 | The changes a node sets out to make are the allocations and revocations of the difference that concern its own subscribers |
| Broker.RunKeepsInvariant | src/logicblocks/event/processing/broker/strategies/distributed/observer.py:77-105 | In any interleaving of distributions over changing subscribers with nodes that list the store, carry out one change at a time, revocations first, and then remember the list, every subscriber holds exactly what its node last completed, with the changes made since, and the store stays exclusive and covered |
| Broker.SynchronisedBrokerIsExact | src/logicblocks/event/processing/broker/strategies/distributed/observer.py:77-105 | Once every node has listed the store and finished its changes since the last distribution, each source a group's target requests is held by exactly one of its subscribers on any node, and no other source is held |
| ConsumerState.RoundTrip | src/logicblocks/event/processing/consumers/state/base.py:39-68 | Reading back a written state gives that state, whatever it holds |
| ConsumerState.BareNumberWins | src/logicblocks/event/processing/consumers/state/base.py:22-58 | A record with a bare last sequence number, with or without a state, resumes after that number |
| ConsumerState.OtherFieldsSurvive | src/logicblocks/event/processing/consumers/state/base.py:22-58 | Reading a record keeps every field of its state other than the last sequence number, and adds none |
| ConsumerState.DeserialisesExactly | src/logicblocks/event/processing/consumers/state/base.py:39-58 | A record is refused if and only if it is no object, or its state is neither an object nor null |
| ConsumerState.SavedKeepsInStep | src/logicblocks/event/processing/consumers/state/base.py:136-173 | A save leaves the remembered positions in step with the streams |
| ConsumerState.ResetIsNotPersisted | src/logicblocks/event/processing/consumers/state/base.py:114-150 | A save after a reset writes nothing |
| ConsumerState.EventConsumerStateStore.RecordProcessed | src/logicblocks/event/processing/consumers/state/base.py:94-112 | The partition's state becomes the event's with extra state on top, and its lag grows by one |
| ConsumerState.EventConsumerStateStore.SaveIfNeeded | src/logicblocks/event/processing/consumers/state/base.py:129-134 | Writes the state if and only if an interval is set and the lag has reached it; fails if and only if that write is due and refused |
| ConsumerRuns.HandlingWritesEveryInterval | src/logicblocks/event/processing/consumers/state/base.py:94-134 | With interval k and lag l < k, handling m events appends (l + m) / k states to the default stream and nothing else, and leaves lag (l + m) % k |
| ConsumerRuns.CheckpointHolds | src/logicblocks/event/processing/consumers/state/base.py:94-134 | The j-th state appended is that of the event which completed the j-th interval |
| ConsumerRuns.HandlingWritesNothing | src/logicblocks/event/processing/consumers/state/base.py:129-134 | Without an interval, or with zero, handling events writes nothing and only adds to the lag |
| ConsumerState.EventConsumerStateStore.SavePartition | src/logicblocks/event/processing/consumers/state/base.py:143-173 | Writes a lagging state at the position expected, fails if and only if the stream ends elsewhere, and then changes nothing |
| ConsumerState.EventConsumerStateStore.Save | src/logicblocks/event/processing/consumers/state/base.py:136-173 | Succeeds if and only if no partition's write is refused, and then has written each lagging partition's state exactly once and no other; a refused write ends it with some of the others written |
| ConsumerState.SavedNext | src/logicblocks/event/processing/consumers/state/base.py:143-173 | Saving one more partition gives the same tracker and streams whichever were saved before, so the order partitions are listed in leaves no trace |
| ConsumerState.SavedAllWrites | src/logicblocks/event/processing/consumers/state/base.py:136-173 | Unless some write is refused, saving all appends each lagging partition's state once to its stream and leaves no partition lagging |
| ConsumerState.EventConsumerStateStore.Load | src/logicblocks/event/processing/consumers/state/base.py:175-189 | The state in memory, or else the one read back from the end of the stream |
| ConsumerState.EventConsumerStateStore.LoadToQueryConstraint | src/logicblocks/event/processing/consumers/state/base.py:191-198 | The number to resume after, if the loaded state names one |
| ConsumerRuns.ProcessEvents | src/logicblocks/event/processing/consumers/source.py:67-86 | Events are handled in order until none is left, the processor fails on one, or a commit is refused, and the outcome says which; each one handled is acknowledged and committed, the one the processor fails on is neither, the one whose commit fails is acknowledged but not counted as consumed |
| ConsumerRuns.OwnCommitsPass | src/logicblocks/event/processing/consumers/source.py:76-86 | While nobody else writes the checkpoint no commit of a pass fails |
| ConsumerRuns.ConsumeAll | src/logicblocks/event/processing/consumers/source.py:113-136 | One pass: a checkpoint that cannot be read stops it with nothing changed; otherwise exactly the events the checkpoint does not cover are read and handled up to the first failure, and a pass nothing stopped saves every partition, when so set up, or fails as that save does (also lines 214-233) |
| ConsumerRuns.ConsumeAllIsRun | src/logicblocks/event/processing/consumers/source.py:214-233 | What a pass leaves in the store, the streams and the deliveries is what the run of its steps leaves, so the laws over runs hold of it |
| ConsumerRuns.AcknowledgingSeveral | src/logicblocks/event/processing/consumers/source.py:50-53 | Acknowledging several events makes the last one the checkpoint and counts every one towards the next save |
| ConsumerRuns.StateStoreEventProcessorManager.Acknowledge | src/logicblocks/event/processing/consumers/source.py:50-53 | Records each of one or several events as processed, in order, and counts it |
| ConsumerRuns.StateStoreEventProcessorManager.Commit | src/logicblocks/event/processing/consumers/source.py:55-59 | Forced, saves every partition, failing exactly when some write is refused; otherwise saves the default partition if the lag has reached the interval, failing exactly when that write is refused |
| ConsumerRuns.NoEventIsSkipped | src/logicblocks/event/processing/consumers/source.py:113-136 | Over every run of publishes, passes, failures and crashes, the events ever processed are exactly a beginning of the source in sequence order |
| ConsumerRuns.CrashRepeatsAtMostTheInterval | src/logicblocks/event/processing/consumers/state/base.py:94-198 | With persistence interval k of at least one, a crash at any moment of any run makes the next pass read at most k already-processed events again |
| ConsumerRuns.SavedPassRepeatsNothing | src/logicblocks/event/processing/consumers/source.py:113-136 | From every reachable idle state, a pass that handles all it reads and saves at its end leaves nothing to repeat: after a crash the next pass reads nothing old |

## Left out

- Filters: operators, regexes, JSON paths and similarity differ between the back ends by design; both are taken to accept the same rows, and filters are conditions without subqueries.
- Sort fields that are functions are not modelled.
- A table named `last`: the common table expression of that name would hide it, so paging laws ask for another name.
- PageWalks.EveryShapeMeansItsPage: asks that ids identify rows, that ids and sort values are not null, and, for mixed directions, that sorts are distinct top-level columns other than the id; `record_query` matches on id alone, and what the other mixed sorts lead to is `SupportedExactly`. That a database refuses an ambiguous name is not part of the evaluator, which would take the first.
- Nested-path sorts are covered through an uninterpreted evaluation of their expressions, not through JSON lookup.
- Item counts, limits and offsets are natural numbers; negative ones are not modelled. Offset paging is modelled from page one on.
- ORDER BY on ties: the evaluator keeps input order, where SQL leaves it open; the keyset laws concern orders without ties. `MemorySearch.OffsetPagesAgree` does compare ties and so assumes that choice.
- Rendering: quoting of identifiers and the driver's own scanning of the text are not part of this model; text is a sequence of tokens, and raw text is scanned for `%s` only.
- TextLaws.TextReadsBack: leaves out raw text, whose grammar is not that of the trees, and the trees whose text tells less than they do: comparisons inside comparisons, blank subqueries, and unions of fewer than two queries other than a single ALL. `TextLaws` shows each of these to share its text with another tree.
- Statements other than star selects with plain column, constant and subquery comparisons are evaluated through uninterpreted functions.
- Events: ids, timestamps and serialisation of names and payloads are not modelled; payloads are passed through.
- Saves.StepKeepsLocks: cancellation while waiting for locks is not modelled; a save waits until it gets each lock.
- The lock objects of `MultiLock` and their wait queues: acquiring and releasing are steps of `Saves`, not methods of a class, since waiting for another save has no counterpart in a sequential method; any waiting save may be served next.
- StorageAdapter.InMemoryEventStorageAdapter.SaveToStream: states what an uninterrupted save does; interleaving is the subject of `SaveLaws`.
- EventsDb.InMemoryEventsDB.Add: asks for an unused sequence number, which `SaveOrder.RunKeepsNumbered` shows every save provides.
- Conditions other than the five the library registers, and constraints other than those on sequence numbers for the in-memory scan, are not modelled; `PagedScan` takes registered ones as conditions without subqueries.
- PagedScan.Scan: asks for a page size of at least one, since an empty page of size zero counts as full and is followed by another; and that the table stops growing at some query, without which the loop need not end, and that rows are only appended, with higher numbers.
- Conditions.BuildMeaning: leaves the empty Or out, which no expression produces from other leaves; `EmptyOrLosesItsMeaning` shows why.
- Distribution.Distribute: takes the live subscribers as an arbitrary set with unique keys; the cutoff on when they were last seen, heartbeats and the purge of expired ones are not modelled.
- Distribution.DistributeIn: one distribution is one step under the leader's lock; the lock manager itself is not modelled.
- Broker.SynchronisedBrokerIsExact: every subscriber lives on one node from the start; an observer that stops on an error part way does not go on, as the library's does not. While a node carries out its changes a source can be held on two nodes or on none; nothing is claimed of those moments beyond `RunKeepsInvariant`.
- Difference.DefaultEventSubscriptionObserver.Synchronise: event source construction and failures of accept or withdraw are not modelled.
- ConsumerState.EventConsumerStateStore.Save: reading a lag does not create an entry for the partition, as a defaultdict would; such entries are zero and change nothing.
- ConsumerRuns.CrashRepeatsAtMostTheInterval: a reset sets the lag to zero and so is kept out of runs; one consumer writes the checkpoint, and the source is read under log serialisation.
- PostgreSQL writes: inserts, their batching and the locks they take are not modelled; only the scan loop is.
- Managed iterators, which leave acknowledging and committing to the processor, are modelled only through `Acknowledge` and `Commit`.
- ConsumerRuns.ConsumeAll: reads the source once when the pass starts; a source that grows during a pass is the subject of the runs (`Refresh`).
- Connection pools, cursors, advisory locks, logging, threads, wall-clock scheduling, service management, factories and type mappings are I/O or plumbing.
