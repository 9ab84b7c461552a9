# Ferrosa Memory: verified models of its core

This project models the parts of Ferrosa Memory whose correctness rests on more than one function,
and proves what they are for. `dafny verify dfyconfig.toml` checks all of it.

The mobile control store (`control_store.rs`):

- `ControlTypes.dfy` holds its records, validators and pure rules.
- `CursorAllocator.dfy`, `EventLog.dfy` and `CommandLifecycle.dfy` are step relations for the CQL store.
  Any number of calls interleave. A conditional write is sent, is evaluated atomically at any later
  moment (also after its caller got an error or gave up), and is answered with applied, not applied,
  nothing or an error; a caller settles "nothing" by reading back.
- `Replay.dfy` is the paged replay as a range scan, `CqlReplay.dfy` the one of the CQL store, whose reads each
  happen at a moment of their own. `Deliveries.dfy` is a reader that follows pages of any store, and `CqlReader.dfy`
  one that follows those of the CQL store.
- `MemoryStore.dfy` is the in-memory store, a class with one mutable map, and a reader among writers.

The other components:

- `Chains.dfy`: bounded breadth-first search with the map of parents.
- `Segmentation.dfy`: the greedy partition of a conversation.
- `ContentAddress.dfy`: the content-addressed ingest planner, over whole walks and passes.
- `MarkdownLines.dfy`, `MarkdownBlocks.dfy`, `TextPieces.dfy`, `ListChunks.dfy`, `DocumentChunks.dfy`, `ListBlocks.dfy`,
  `UniqueChunks.dfy`: the Markdown chunker, from lines to linked chunks.
- `FilterParser.dfy`, `FilterRoundTrip.dfy`, `FilterCalls.dfy`: the filter parser at the level of tokens, printing,
  and what stands before a parenthesis.
- `ManagedLines.dfy`, `ManagedConfig.dfy`: the managed block of the configuration file, line by line, for any sentinels
  and for those of the workbench. `HeaderReadings.dfy`, `ConfigHeaders.dfy`: its reading of table headers against the
  grammar of TOML.
- `TokenSelection.dfy`, `Crc32.dfy`: the selection step and the checksum of text compression.
- `Text.dfy`, `Arithmetic.dfy`: string operations, quotients and flattened sequences that several of them use.

## Assumptions

- Reservation tokens are fresh. An event id stands for one event; retries of the same event are allowed.
- Rows of one bucket come back in ascending cursor order. The engine may return more rows than the limit.
- Each query of a replay page sees the store of one moment; different queries may see different moments.
- A conditional write is atomic, is evaluated at most once, and a definite reply is truthful.
- Storage lookups in the chain search are a function of the entity for the duration of one search.
- Content and segment ids are a function of the content.

## Where the code differs from what it promises

- `control_store.rs:454-461` describes a row that holds `next_cursor` 0 or 1 as a case that no longer wedges
  the allocator. A row at 1 works; a row at 0 still never serves, because the condition compares with 1
  (`CursorAllocator.RowAtZeroNeverServes`, `QuietRoundAppliesIff`). Neither store ever writes a 0 itself.
- The CQL allocator refuses exactly one block that the in-memory one hands out, the block that ends at the largest
  i64 (`CursorAllocator.PlanAgreesUpToTheLastCursor`, `LastCursorIsServedByMemoryOnly`).
- A reader that follows CQL pages can get an event twice, because a page reads the high water before the
  partitions and returns that high water; an in-memory reader cannot (`CqlReader.RepeatsIff`,
  `LateEventComesTwice`, `MemoryStore.FollowReplay`).
- The text splitter with overlap 0 steps over one character per cut (`TextPieces.ReassemblesIff`, `KeptWithoutOverlapIff`).
- List chunks may exceed `max_chars` (`ListChunks.ListFitsIff`, `ListBlocks.ListBlockFitsIff`,
  `ListChunks.OverlapExceedsTheLimit`).
- A heading after a skipped level is filed under its own sibling (`MarkdownBlocks.PathIsTheOutlineIff`).
- Saving the configuration is absorbing unless the rendered settings hold the closing sentinel on a line of
  its own (`ManagedLines.SavingIsAbsorbingIff`, `ManagedConfig.WorkbenchSaveCanLeak`).
- `parse_table_header` wants the whole line in brackets, and TOML allows a comment after them. `[server] # prod` is no
  header to the code: after a managed table it is deleted with the table, although every other line is to be preserved
  (`ConfigHeaders.CommentedHeaderIsLost`). `[judge] # tuned` is none either: the table is kept, so the saved file has it
  twice, which `config.rs:1170-1172` says the stripping prevents (`CommentedTableIsKept`, `CommentedTableIsDoubled`).
  `[judge] # see [b]` is read as the table `judge] # see [b` (`BracketInCommentHides`). `KindsDifferIff` says which lines
  are read differently, and `WorkbenchKeepsByGrammarIff` when that changes what is kept.
- An append is refused as occupied although its own event is stored, when an earlier try of it applied and got an error
  for a reply: the check of `control_store.rs:700-717` whose event it is happens only when the reply is unknown, and not
  after a definite refusal (`EventLog.OccupiedByAnother`, `RetryIsToldOccupied`).

## Model

| member | source | states |
|---|---|---|
| `CursorAllocator.NextKeepsInv` | crates/ferrosa-memory-core/src/control_store.rs:542-636 | the invariant behind the allocator holds after every enabled step of every call: begin, read and send, evaluation of an in-flight write at any later time, reply (applied, not applied, nothing, error), read back |
| `CursorAllocator.RunKeepsInv` | crates/ferrosa-memory-core/src/control_store.rs:542-636 | every state of every interleaving of any number of allocator calls satisfies it |
| `CursorAllocator.ReturnedBlocksAreDisjoint` | crates/ferrosa-memory-core/src/control_store.rs:602-636 | two calls that both returned Ok never share a cursor, whatever replies they got |
| `CursorAllocator.ReturnedBlockWasApplied` | crates/ferrosa-memory-core/src/control_store.rs:602-630 | a returned block has the size asked for and is one of the blocks applied to the row: the read-back of an unknown reply is never fooled by another call's write |
| `CursorAllocator.AppliedBlocksTile` | crates/ferrosa-memory-core/src/control_store.rs:550-600 | a cursor is in [1, next_cursor) exactly when some applied block owns it, and then exactly one does |
| `CursorAllocator.NextCursorNeverFalls` | crates/ferrosa-memory-core/src/control_store.rs:550-600 | next_cursor and the log of applied writes only grow, equal next_cursor means no write in between (no ABA), and finished outcomes stay |
| `CursorAllocator.StaysAbandoned` | crates/ferrosa-memory-core/src/control_store.rs:602-636 | a write that its call gave up on is never taken up again |
| `CursorAllocator.AbandonedBlockIsNeverReturned` | crates/ferrosa-memory-core/src/control_store.rs:602-636 | a block applied by a write its call gave up on overlaps nothing that anyone is ever handed |
| `CursorAllocator.OneCallAdvancesAtMost32Blocks` | crates/ferrosa-memory-core/src/control_store.rs:550-551 | all writes of one call together move the row by at most 32 times its size, including writes applied after the call gave up |
| `CursorAllocator.AppliedWritesLinearize` | crates/ferrosa-memory-core/src/control_store.rs:202-224 | the applied writes of any run, in order, are what the in-memory allocator answers to the same sizes in that order |
| `CursorAllocator.LostReplyIsSettled` | crates/ferrosa-memory-core/src/control_store.rs:606-617 | a run in which a call whose write applied and whose reply was lost still gets its block |
| `CursorAllocator.OverwrittenTokenAbandonsABlock` | crates/ferrosa-memory-core/src/control_store.rs:617-620 | a run in which a lost reply and another call's write leave an applied block behind that belongs to nobody |
| `CursorAllocator.QuietRoundAppliesIff` | crates/ferrosa-memory-core/src/control_store.rs:552-590 | on an undisturbed row a round's write applies exactly when the row is absent or holds a next cursor of at least 1 |
| `CursorAllocator.PlanAgreesUpToTheLastCursor` | crates/ferrosa-memory-core/src/control_store.rs:553-558 | a round of the CQL allocator plans the block the in-memory allocator would hand out, and refuses exactly one more: the block that ends at the largest i64 |
| `CursorAllocator.LastCursorIsServedByMemoryOnly` | crates/ferrosa-memory-core/src/control_store.rs:214-224 | that block, at the last cursor itself |
| `CursorAllocator.RowAtZeroNeverServes` | crates/ferrosa-memory-core/src/control_store.rs:454-468 | from a row that holds next_cursor 0, with any token, no run ever changes the row and every finished call ends in an error |
| `EventLog.RunKeepsInv` | crates/ferrosa-memory-core/src/control_store.rs:638-726 | every state of every interleaving of reserves and appends satisfies the log invariant |
| `EventLog.StoredCursorsAreReserved` | crates/ferrosa-memory-core/src/control_store.rs:638-670 | every stored cursor is within 1..=high water of the same moment although check and insert are separate steps, and lies in a valid bucket |
| `EventLog.StoredEventsNeverChange` | crates/ferrosa-memory-core/src/control_store.rs:671-726 | a stored event is never changed or removed and a finished append keeps its outcome |
| `EventLog.OkMeansStoredForGood` | crates/ferrosa-memory-core/src/control_store.rs:677-726 | an append that returned Ok has its own event stored at that cursor from then on, also after an unknown reply |
| `EventLog.OneEventWinsACursor` | crates/ferrosa-memory-core/src/control_store.rs:369-399 | appends of different events are never both told Ok for one cursor |
| `EventLog.OccupiedMeansTaken` | crates/ferrosa-memory-core/src/control_store.rs:677-726 | an append refused as occupied names a cursor that does hold an event from then on |
| `EventLog.OccupiedByAnother` | crates/ferrosa-memory-core/src/control_store.rs:677-726 | the event it was refused for is another one, except exactly when another append of the same event inserted it |
| `EventLog.RetryIsToldOccupied` | crates/ferrosa-memory-core/src/control_store.rs:671-726 | a run in which an append applies, its reply is an error, and the retry of the same event is told that the cursor is occupied |
| `CommandLifecycle.TransitionsRaiseRank` | crates/ferrosa-memory-core/src/control_store.rs:1048-1067 | every allowed transition strictly raises the rank of the state |
| `CommandLifecycle.RunKeepsInv` | crates/ferrosa-memory-core/src/control_store.rs:811-970 | every state of every interleaving of inserts and updates satisfies the command invariant |
| `CommandLifecycle.StateGuardSeesTheWholeRow` | crates/ferrosa-memory-core/src/control_store.rs:932-950 | the condition on state alone holds exactly when the whole stored row is still the row the update read |
| `CommandLifecycle.RowsOnlyRise` | crates/ferrosa-memory-core/src/control_store.rs:905-970 | rows are never removed, keep their identity and change only by rising in rank |
| `CommandLifecycle.TerminalIsNeverRewritten` | crates/ferrosa-memory-core/src/control_store.rs:1048-1067 | a row in a terminal state is the same row for the rest of the run |
| `CommandLifecycle.AtMostTwoEffectiveUpdates` | crates/ferrosa-memory-core/src/control_store.rs:905-970 | at most two updates of a command take effect in any run |
| `CommandLifecycle.OkMatchedTheUpdate` | crates/ferrosa-memory-core/src/control_store.rs:950-970 | an update that answered Ok returned a row matching it, and the stored row is that one or has risen from it; a terminal one stays |
| `CommandLifecycle.OkReturnsTheStoredRow` | crates/ferrosa-memory-core/src/control_store.rs:905-970 | the row an Ok returns is the stored row of the very step that returned it |
| `CommandLifecycle.AtMostOneIsToldInserted` | crates/ferrosa-memory-core/src/control_store.rs:811-859 | however often a command is submitted, at most one caller is told Inserted |
| `CommandLifecycle.LostReplyReportsDuplicate` | crates/ferrosa-memory-core/src/control_store.rs:851-858 | a concrete run in which the only insert applies, its reply is lost and its caller is told Duplicate |
| `Replay.RemainingIsTheScan` | crates/ferrosa-memory-core/src/control_store.rs:256-290 | the recursive range is the ordered scan: every later event once, ascending, and nothing else |
| `EventLog.RunsFeedPages` | crates/ferrosa-memory-core/src/control_store.rs:638-809 | the pages a CQL reader reads in any run of reserves and appends, high water first and each partition at a moment of its own, are what the results about that reader ask for |
| `CqlReplay.CollectBuckets` | crates/ferrosa-memory-core/src/control_store.rs:745-793 | the bucket loop fails exactly when a query fails that the page gets to, and otherwise gives the page of the scan in which every event is as its own partition's query saw it |
| `CqlReplay.CqlEventsAfter` | crates/ferrosa-memory-core/src/control_store.rs:728-809 | the answer for every input: bad stream name, bad limit, failed high-water read, a bucket beyond an i32, a failed query the page gets to, or the page of that scan, for every start, limit, gap pattern and over-delivery |
| `CqlReplay.QuietPageIsTheMemoryPage` | crates/ferrosa-memory-core/src/control_store.rs:256-290 | when nothing changes during the page it is the page and high water of the in-memory scan, and fails exactly when there is something to scan and the bucket of the high water exceeds an i32 |
| `CqlReader.PageIsAnswered` | crates/ferrosa-memory-core/src/control_store.rs:728-809 | the page the reader results speak of is the one the CQL store answers when no query fails |
| `CqlReader.PageAscends` | crates/ferrosa-memory-core/src/control_store.rs:752-793 | within one page cursors ascend, so nothing comes twice |
| `CqlReader.NothingOldIsSkipped` | crates/ferrosa-memory-core/src/control_store.rs:794-805 | a reader that follows CQL pages skips nothing stored when it began, with reserves and appends between its pages and between the queries of one page |
| `Deliveries.EveryOldEventArrives` | crates/ferrosa-memory-core/src/control_store.rs:794-805 | every event stored when the reader began has arrived after at most as many pages as there were cursors left |
| `CqlReader.OverrunsIff` | crates/ferrosa-memory-core/src/control_store.rs:738-805 | a page holds an event past the cursor it returns exactly when the event lies past the high water read, landed before its partition was read, and the page ended its scan with room for it |
| `CqlReader.RepeatsIff` | crates/ferrosa-memory-core/src/control_store.rs:738-805 | once the reader has passed an event, it got it twice exactly when some page of it took the event late in that sense |
| `CqlReader.LateEventComesTwice` | crates/ferrosa-memory-core/src/control_store.rs:738-805 | two pages in which the event at cursor 2 lands after high water 1 was read and is delivered by both |
| `Replay.MemoryPageIsPage` | crates/ferrosa-memory-core/src/control_store.rs:256-290 | a page is, without naming how it is computed, stored later events in order, leaving out only what follows a full page, with the right cursor to go on from |
| `Replay.PageCoversItsRange` | crates/ferrosa-memory-core/src/control_store.rs:256-290 | a page holds exactly the events between the cursor asked for and the cursor returned, and is full when there is more |
| `Deliveries.CursorMovesOn` | crates/ferrosa-memory-core/src/control_store.rs:794-805 | a reader's cursor moves with every page until it has passed the old high water, whichever store the pages come from |
| `Deliveries.FollowingPagesMissesNothing` | crates/ferrosa-memory-core/src/control_store.rs:256-290 | following pages delivers in strictly ascending order, hence nothing twice, and skips nothing stored when the replay began, with reserves and appends between pages |
| `Deliveries.MemoryReaderIsChained` | crates/ferrosa-memory-core/src/control_store.rs:256-290 | following the pages of the in-memory store over growing snapshots is such a reader, and its pages are in order, so all of this holds of it |
| `Replay.QuietReplayTakesCeilingPages` | crates/ferrosa-memory-core/src/control_store.rs:256-290 | n > 0 remaining events take exactly ceil(n / limit) pages on a quiet store |
| `MemoryStore.InMemoryControlStore.ReserveCursorBlock` | crates/ferrosa-memory-core/src/control_store.rs:202-224 | the whole new store for every input, with the error cases; no stream loses or changes an event or lowers its high water |
| `MemoryStore.InMemoryControlStore.AppendEvent` | crates/ferrosa-memory-core/src/control_store.rs:226-254 | the answer for every input, with each error case; on Ok only that cursor changes, on an error nothing |
| `MemoryStore.InMemoryControlStore.EventsAfter` | crates/ferrosa-memory-core/src/control_store.rs:256-290 | the page of the ordered scan of the stream, as the declarative description of a page; an absent stream reads as a fresh one |
| `MemoryStore.FollowReplay` | crates/ferrosa-memory-core/src/control_store.rs:256-290 | a reader that asks the in-memory store for page after page, with any calls of others between its pages, gets events in ascending order, none twice, and skips none stored when it began; after as many pages as cursors were left it has them all |
| `MemoryStore.InMemoryControlStore.PutCommandIfAbsent` | crates/ferrosa-memory-core/src/control_store.rs:292-312 | Inserted exactly when absent, otherwise Duplicate with the stored command; the whole new store |
| `MemoryStore.InMemoryControlStore.GetCommand` | crates/ferrosa-memory-core/src/control_store.rs:314-327 | the stored command, or none |
| `MemoryStore.InMemoryControlStore.UpdateCommand` | crates/ferrosa-memory-core/src/control_store.rs:329-358 | Ok exactly for a match or an allowed transition; the returned command matches the update; the whole new store |
| `Chains.ChainNeighbors` | crates/ferrosa-memory-core/src/chains.rs:95-113 | every hop that either table lists, once, sorted; an answer exactly when both queries succeed |
| `Chains.FindChain` | crates/ferrosa-memory-core/src/chains.rs:36-93 | a returned chain is a path of real hops from source to destination within the bound that no path undercuts; None means that no path of at most max_hops exists and that everything in reach answered; a storage error names one in reach; the hop bound is refused outside 1..=10 |
| `Chains.Expand` | crates/ferrosa-memory-core/src/chains.rs:68-90 | one round keeps the search invariant, visits all neighbours, and answers only with a shortest chain |
| `Chains.VisitNeighbors` | crates/ferrosa-memory-core/src/chains.rs:69-90 | the inner loop keeps the search invariant and stops exactly when it meets the destination |
| `Chains.ReconstructPath` | crates/ferrosa-memory-core/src/chains.rs:115-137 | the backward walk terminates at the source and yields a real path whose length is the level of the destination |
| `Chains.LevelIsCovered` | crates/ferrosa-memory-core/src/chains.rs:63-90 | once everything below a level is expanded, that many hops reach only visited entities, each at its level or below |
| `Chains.UnvisitedIsFar` | crates/ferrosa-memory-core/src/chains.rs:63-90 | an entity unvisited while a level is expanded has no path of that many hops |
| `Chains.SearchIsComplete` | crates/ferrosa-memory-core/src/chains.rs:63-93 | an empty queue with the destination unvisited excludes every path within the bound |
| `Segmentation.CutIffTooMuch` | crates/ferrosa-memory-core/src/context_segment.rs:176-191 | the loop cuts exactly when the open segment would no longer meet the limits |
| `Segmentation.GreedyPartitions` | crates/ferrosa-memory-core/src/context_segment.rs:162-199 | the result is a partition in order into non-empty segments, each a single message or within the target, free of over-long pauses |
| `Segmentation.GreedyIsOptimal` | crates/ferrosa-memory-core/src/context_segment.rs:162-199 | no other contiguous partition that meets the limits has fewer segments |
| `Segmentation.AppendingKeepsCuts` | crates/ferrosa-memory-core/src/context_segment.rs:162-199 | with more messages every segment but the last is the same and the last one can only grow |
| `Segmentation.CutSegments` | crates/ferrosa-memory-core/src/context_segment.rs:162-199 | the loop computes the greedy partition and the fields of each segment, for any weights of the messages |
| `Segmentation.LinkSegments` | crates/ferrosa-memory-core/src/context_segment.rs:201-208 | each segment ends up with the ids of exactly its neighbours |
| `Segmentation.SegmentMessages` | crates/ferrosa-memory-core/src/context_segment.rs:162-209 | an error exactly on no messages; otherwise the linked segments of the greedy partition |
| `ContentAddress.NewContentIsIngestedOnce` | crates/ferrosa-memory-core/src/content_address.rs:102-135 | a walk ingests each content it meets and the store lacked exactly once, stored content never |
| `ContentAddress.WalkReflectsVisits` | crates/ferrosa-memory-core/src/content_address.rs:102-135 | the store after a walk, described by what was observed alone |
| `ContentAddress.VisitOrderDoesNotMatter` | crates/ferrosa-memory-core/src/content_address.rs:102-135 | the same visits in any order lead to the same store |
| `ContentAddress.RepeatWalkFindsNothing` | crates/ferrosa-memory-core/src/content_address.rs:102-135 | walking the same observations again yields only Unchanged and Missing and changes nothing |
| `ContentAddress.Vanished` | crates/ferrosa-memory-core/src/content_address.rs:141-151 | one unlink for every known location not seen, and no other action |
| `ContentAddress.Orphaned` | crates/ferrosa-memory-core/src/content_address.rs:157-181 | exactly the old contents that no location points at once the actions are applied |
| `ContentAddress.PassLocations` | crates/ferrosa-memory-core/src/content_address.rs:141-181 | the store after a walk and its unlinks: contents, locations and what they point at |
| `ContentAddress.OrphansAreComplete` | crates/ferrosa-memory-core/src/content_address.rs:157-181 | computed from the store before the pass it misses nothing: content first stored in the pass is still referenced at its end |
| `ContentAddress.SecondPassIsQuiet` | crates/ferrosa-memory-core/src/content_address.rs:102-181 | a second full pass over the same tree unlinks nothing and changes nothing |
| `MarkdownLines.HeadingsAreTheWrittenOnes` | crates/ferrosa-memory-core/src/document_chunking.rs:306-321 | a line parses as a heading of a level and title exactly when it is one to six hashes, white space beginning with a space, and the title without white space at its ends, with white space allowed around |
| `MarkdownLines.OrderedMarkersAreNumbers` | crates/ferrosa-memory-core/src/document_chunking.rs:336-341 | splitting at the first ". " recognises exactly digits, full stop, space and something more |
| `MarkdownBlocks.FenceEnd` | crates/ferrosa-memory-core/src/document_chunking.rs:128-144 | a fenced block ends after the first line that closes it, or with the document |
| `MarkdownBlocks.RunEnd` | crates/ferrosa-memory-core/src/document_chunking.rs:147-186 | a list or paragraph takes every line up to the first that stops it |
| `MarkdownBlocks.ParseMarkdownBlocks` | crates/ferrosa-memory-core/src/document_chunking.rs:103-195 | the blocks are a segmentation of the lines, with the kind, trimmed text and section path of each |
| `MarkdownBlocks.SegmentationIsUnique` | crates/ferrosa-memory-core/src/document_chunking.rs:103-195 | the block rules admit one segmentation, so the parser finds that one |
| `MarkdownBlocks.ParseIsUnique` | crates/ferrosa-memory-core/src/document_chunking.rs:103-195 | so kinds, texts and section paths are determined by the lines |
| `MarkdownBlocks.BlocksAreDisjoint` | crates/ferrosa-memory-core/src/document_chunking.rs:103-195 | no line is in two blocks |
| `MarkdownBlocks.OnlyBlankLinesAreLeftOut` | crates/ferrosa-memory-core/src/document_chunking.rs:109-114 | every line that is not blank is in a block |
| `MarkdownBlocks.ListsEndOnText` | crates/ferrosa-memory-core/src/document_chunking.rs:147-171 | a list never ends on a blank line |
| `MarkdownBlocks.BlockPathIsHeadingPath` | crates/ferrosa-memory-core/src/document_chunking.rs:116-126 | the section path of a block is the path of the headings up to it |
| `MarkdownBlocks.PathIsTheOutlineIff` | crates/ferrosa-memory-core/src/document_chunking.rs:116-126 | all through a document the path names the nearest heading of every level, exactly when no heading skips a level |
| `MarkdownBlocks.SiblingNestsAfterASkip` | crates/ferrosa-memory-core/src/document_chunking.rs:117-118 | after a skipped level a heading is filed under its own sibling |
| `TextPieces.SplitText` | crates/ferrosa-memory-core/src/document_chunking.rs:256-285 | the loop terminates with the specified pieces and flags |
| `TextPieces.GoesOnMeansMorePieces` | crates/ferrosa-memory-core/src/document_chunking.rs:266-281 | the trailing flag says that another piece follows, except after the last piece of a text cut without overlap whose last character is stepped over |
| `TextPieces.PiecesFit` | crates/ferrosa-memory-core/src/document_chunking.rs:265-274 | no piece is empty or longer than the limit, and all but the last have exactly that length |
| `TextPieces.NeighboursOverlap` | crates/ferrosa-memory-core/src/document_chunking.rs:275-282 | for an overlap of at least 1, neighbours share exactly the overlap and the later one adds to it |
| `TextPieces.ReassemblesIff` | crates/ferrosa-memory-core/src/document_chunking.rs:275-282 | dropping the shared prefix and concatenating gives the text back exactly when the overlap is at least 1 or nothing was cut |
| `TextPieces.PieceAt` | crates/ferrosa-memory-core/src/document_chunking.rs:265-281 | piece i is what stands at i strides, up to the limit or the end of the text |
| `TextPieces.KeptWithoutOverlapIff` | crates/ferrosa-memory-core/src/document_chunking.rs:278-281 | with overlap 0 a character is in some piece exactly when it is not the last of its stride of max + 1 |
| `TextPieces.CutDropsACharacter` | crates/ferrosa-memory-core/src/document_chunking.rs:278-281 | three characters, limit 1 and overlap 0: the middle one is in no piece |
| `TextPieces.PieceCount` | crates/ferrosa-memory-core/src/document_chunking.rs:265-282 | the number of pieces for every text, limit and overlap: 1 + ceil((n - max) / (max - overlap)) for n > max characters, and ceil(n / (max + 1)) without an overlap |
| `ListChunks.SplitListItems` | crates/ferrosa-memory-core/src/document_chunking.rs:287-304 | the items partition the lines: each later item starts on a marker and holds no other |
| `ListChunks.ItemsAreUnique` | crates/ferrosa-memory-core/src/document_chunking.rs:287-304 | the markers leave no choice where items begin |
| `ListChunks.ItemsRejoin` | crates/ferrosa-memory-core/src/document_chunking.rs:287-304 | joining the items again gives the text of the list, line for line |
| `ListChunks.SplitItems` | crates/ferrosa-memory-core/src/document_chunking.rs:218-240 | the items in order in consecutive groups, each cut only where the next item does not fit; only a final blank chunk is dropped |
| `ListChunks.OnlyAnOpeningExceeds` | crates/ferrosa-memory-core/src/document_chunking.rs:222-236 | a list chunk exceeds the limit exactly when its overlap and first item alone do |
| `ListChunks.ListFitsIff` | crates/ferrosa-memory-core/src/document_chunking.rs:222-240 | all chunks of a list are within the limit exactly when its first item is and every other item fits after the end of the item before it |
| `ListChunks.OverlapExceedsTheLimit` | crates/ferrosa-memory-core/src/document_chunking.rs:222-236 | two items of three characters, limit 3 and overlap 2: the second chunk has six characters |
| `ListBlocks.ParsedItemsAreVisible` | crates/ferrosa-memory-core/src/document_chunking.rs:147-171 | every item of a list that the parser found has something on it |
| `ListBlocks.ListBlockFitsIff` | crates/ferrosa-memory-core/src/document_chunking.rs:208-254 | the drafts of an oversized list block of a document are all within the limit exactly when it has one item or its items meet that condition |
| `ListChunks.ListNeighboursShare` | crates/ferrosa-memory-core/src/document_chunking.rs:224-227 | neighbouring chunks share the end of the item between them, of the overlap length or the whole item |
| `ListChunks.NothingIsDropped` | crates/ferrosa-memory-core/src/document_chunking.rs:238-240 | a last item with something on it keeps its chunk |
| `DocumentChunks.SplitOversizedBlock` | crates/ferrosa-memory-core/src/document_chunking.rs:197-254 | a list of two or more items is cut at its items, anything else as text, with flags and section kept |
| `DocumentChunks.JoinsIff` | crates/ferrosa-memory-core/src/document_chunking.rs:79-95 | the merger's guard holds exactly when the joint chunk has one section, fits and holds no list beside other blocks; text and kind of the joint draft |
| `DocumentChunks.MergeBlocks` | crates/ferrosa-memory-core/src/document_chunking.rs:63-100 | all blocks in order, in parts that are either whole chunks within the limits, none of which could have taken the next block, or oversized blocks cut up |
| `DocumentChunks.BlockSitsSomewhere` | crates/ferrosa-memory-core/src/document_chunking.rs:63-100 | every block sits in some part, at its own place in the order |
| `DocumentChunks.BlockSitsOnce` | crates/ferrosa-memory-core/src/document_chunking.rs:63-100 | no block sits in two places |
| `DocumentChunks.FittingBlockIsKeptWhole` | crates/ferrosa-memory-core/src/document_chunking.rs:63-100 | a block that fits appears whole in the one chunk of its part, in its own section, within the limit, and a list alone |
| `DocumentChunks.CutTextReassemblesIff` | crates/ferrosa-memory-core/src/document_chunking.rs:197-206 | an oversized block cut as text can be put together again exactly when there is an overlap |
| `DocumentChunks.ItemsAreTheListIff` | crates/ferrosa-memory-core/src/document_chunking.rs:287-304 | the items of a list, in order, are its text exactly when no line break in it has a carriage return before it and none ends it |
| `Text.LinesRejoinIff` | crates/ferrosa-memory-core/src/document_chunking.rs:105 | joining the lines of a text gives it back exactly under that condition |
| `DocumentChunks.EveryBlockIsAccounted` | crates/ferrosa-memory-core/src/document_chunking.rs:63-100 | every block of the parse is whole in a chunk of its section within the limit if it fits, and otherwise cut up by the splitting rule into chunks that follow each other |
| `DocumentChunks.EveryLineIsChunked` | crates/ferrosa-memory-core/src/document_chunking.rs:63-195 | from text to chunks: every line that is not blank lies in a block of the one parse, and that block is accounted for in that way |
| `UniqueChunks.ListChunksAreUnique` | crates/ferrosa-memory-core/src/document_chunking.rs:218-240 | the rule for list chunks leaves no choice: two lists of chunks of the same items are equal |
| `UniqueChunks.MergeIsUnique` | crates/ferrosa-memory-core/src/document_chunking.rs:63-100 | the merge plan leaves no choice: two lists of drafts for the same blocks are equal, since parts and groups are the longest that fit |
| `UniqueChunks.ChunkingIsUnique` | crates/ferrosa-memory-core/src/document_chunking.rs:63-101 | so what is promised of the chunker determines every chunk |
| `DocumentChunks.LinksAreAChain` | crates/ferrosa-memory-core/src/document_chunking.rs:405-422 | ordinals are positions, next and prev undo each other, and only the ends have none |
| `DocumentChunks.ChunkMarkdownDocument` | crates/ferrosa-memory-core/src/document_chunking.rs:63-101 | the whole chunker: segmentation, merge plan with the clamped limits, links |
| `FilterParser.ParseFilter` | crates/ferrosa-memory-core/src/datalog_filter_expr.rs:345-351 | only trees with the right arities and at least two branches per connective are accepted |
| `FilterRoundTrip.ExprRoundTrip` | crates/ferrosa-memory-core/src/datalog_filter_expr.rs:104-179 | an expression printed with any redundant parentheses reads back whole wherever no operator follows |
| `FilterRoundTrip.OperatorsGroup` | crates/ferrosa-memory-core/src/datalog_filter_expr.rs:128-179 | how any two operators share the operand between any three factors: the tighter one takes it, powers group to the right, the rest to the left |
| `FilterRoundTrip.GroupFails` | crates/ferrosa-memory-core/src/datalog_filter_expr.rs:267-281 | a parenthesised expression is never taken for a parenthesised filter, however deeply it is wrapped |
| `FilterRoundTrip.PrintedFilterParsesBack` | crates/ferrosa-memory-core/src/datalog_filter_expr.rs:226-326 | every tree the parser can yield, printed with minimal, full or any other redundant parentheses, parses back to itself with all input consumed |
| `FilterRoundTrip.ParserYieldsExactly` | crates/ferrosa-memory-core/src/datalog_filter_expr.rs:226-351 | the trees the parser can yield are exactly those with the right arities and branch counts |
| `FilterRoundTrip.NormalisingKeepsTheTree` | crates/ferrosa-memory-core/src/datalog_filter_expr.rs:345-351 | parsing, printing in any style and parsing again gives the same result |
| `FilterRoundTrip.PrintingIsUnambiguous` | crates/ferrosa-memory-core/src/datalog_filter_expr.rs:226-326 | no two trees print alike, even in different styles |
| `FilterCalls.ParenthesesBelong` | crates/ferrosa-memory-core/src/datalog_filter_expr.rs:62-122 | wherever an opening parenthesis stands in accepted input, what is directly before it takes it: a function as a call with the right number of arguments, a predicate as its arguments, and never a name, a literal or a closing bracket |
| `FilterCalls.MisspeltCallIsRefused` | crates/ferrosa-memory-core/src/datalog_filter_expr.rs:62-85 | a name that is no function, directly before a parenthesis, makes the whole filter fail: a misspelt call is never read as a variable |
| `FilterCalls.WrongArityIsRefused` | crates/ferrosa-memory-core/src/datalog_filter_expr.rs:70-85 | so does a function with the wrong number of arguments |
| `FilterCalls.ParenthesesBelongInHeads` | crates/ferrosa-memory-core/src/datalog_filter_expr.rs:338-343 | the same holds of head expressions |
| `FilterRoundTrip.BangsFlip` | crates/ferrosa-memory-core/src/datalog_filter_expr.rs:283-294 | a bang negates the primary after it |
| `FilterRoundTrip.MembershipIsItsExpansion` | crates/ferrosa-memory-core/src/datalog_filter_expr.rs:226-249 | membership parses to what the written-out disjunction of equalities parses to, and an empty set is refused |
| `ManagedLines.StripManagedAndTables` | crates/ferrosa-memory-core/src/config.rs:1188-1217 | the loop computes the specified stripping |
| `ManagedLines.StripKeepsForeignLines` | crates/ferrosa-memory-core/src/config.rs:1188-1217 | stripping keeps every line outside managed blocks and managed tables, in order, and no other |
| `ManagedLines.WriteManagedBlock` | crates/ferrosa-memory-core/src/config.rs:1239-1265 | the saved file: kept lines, a blank line if there are any, the new block |
| `ManagedLines.StripRewritten` | crates/ferrosa-memory-core/src/config.rs:1239-1260 | stripping a saved file gives the kept lines back, followed by what the old body leaks |
| `ManagedLines.SavingIsAbsorbingIff` | crates/ferrosa-memory-core/src/config.rs:1239-1260 | saving a then b equals saving b alone exactly when the block written for a leaks no visible line |
| `ManagedLines.LeaksNothingMeans` | crates/ferrosa-memory-core/src/config.rs:1188-1217 | what leaks is told by position: a visible line after a closing sentinel, in no reopened block and no managed table |
| `ManagedLines.SentinelInBodyEscapes` | crates/ferrosa-memory-core/src/config.rs:1199-1206 | a closing sentinel and a visible plain line after it, with anything around them, outlive the next save |
| `ManagedLines.KeepsByGrammarIff` | crates/ferrosa-memory-core/src/config.rs:1208-1214 | stripping by one reading of headers keeps what is foreign by another exactly when the two agree, at every line outside the blocks, on the table it stands in |
| `ManagedLines.SameKeptIffHarmless` | crates/ferrosa-memory-core/src/config.rs:1208-1214 | equivalently, exactly when every line outside the blocks that the two read differently leaves open what was open before it |
| `ManagedLines.TrimLinesIsTrimEnd` | crates/ferrosa-memory-core/src/config.rs:1255-1260 | dropping blank lines at the end and white space at the end of the last one is trimming the joined text |
| `ManagedLines.BodyWithoutEndLeaksNothing` | crates/ferrosa-memory-core/src/config.rs:1199-1206 | a body without the closing sentinel leaks nothing |
| `ManagedLines.SavedFileHasOneBlock` | crates/ferrosa-memory-core/src/config.rs:1239-1260 | a saved file is foreign lines followed by exactly the new block |
| `ManagedConfig.WorkbenchIsLawful` | crates/ferrosa-memory-core/src/config.rs:1167-1207 | the concrete sentinels and header rules meet the laws the generic theorems ask for |
| `ManagedConfig.WorkbenchSaveIsAbsorbing` | crates/ferrosa-memory-core/src/config.rs:1232-1260 | a later save absorbs an earlier one when no rendered line is the closing sentinel; so saving twice is saving once |
| `ManagedConfig.WorkbenchSaveCanLeak` | crates/ferrosa-memory-core/src/config.rs:1232-1260 | with a line that is the closing sentinel and a visible plain line after it anywhere in the rendered block, old text outlives the next save |
| `HeaderReadings.SortsDifferIff` | crates/ferrosa-memory-core/src/config.rs:1177-1184 | which lines are read as another sort of header than the grammar says, for any managed tables: those that go on after the first closing bracket, with a comment but no bracket at the end, with a bracket but no comment, or with both after the name of a managed table |
| `ConfigHeaders.KindsDifferIff` | crates/ferrosa-memory-core/src/config.rs:1177-1214 | the workbench treats a line differently from the grammar exactly when it is no sentinel and its header is such a line |
| `ConfigHeaders.WorkbenchKeepsByGrammarIff` | crates/ferrosa-memory-core/src/config.rs:1186-1217 | the workbench keeps exactly the lines that are foreign by the grammar, if and only if every such line outside the blocks leaves open what was open before it |
| `ConfigHeaders.ManagedTableByBoth` | crates/ferrosa-memory-core/src/config.rs:1170-1184 | the bare header of each managed table is one by both readings |
| `ConfigHeaders.CommentedHeaderIsLost` | crates/ferrosa-memory-core/src/config.rs:1177-1214 | after a managed table, a header of another table that carries a comment is dropped with the table |
| `ConfigHeaders.CommentedTableIsKept` | crates/ferrosa-memory-core/src/config.rs:1177-1265 | a header that carries a comment survives the save, also the header of a managed table |
| `ConfigHeaders.CommentedTableIsDoubled` | crates/ferrosa-memory-core/src/config.rs:1170-1265 | so a managed table whose header carries a comment is in the saved file twice |
| `ConfigHeaders.BracketInCommentHides` | crates/ferrosa-memory-core/src/config.rs:1177-1210 | the header of a managed table with a comment that ends in a bracket is read as the header of another table |
| `TokenSelection.RankedSorts` | crates/ferrosa-memory-core/src/compression.rs:125-133 | the ranking is a permutation in stable descending order of score |
| `TokenSelection.SelectTokens` | crates/ferrosa-memory-core/src/compression.rs:100-161 | exactly max(structural count, target count) positions, strictly increasing, with every structural token, and no dropped token ranks ahead of a kept content token |
| `Crc32.ComputeCrc32` | crates/ferrosa-memory-core/src/compression.rs:241-254 | the loop computes the checksum of the register function |
| `Crc32.ShiftIsInjective` | crates/ferrosa-memory-core/src/compression.rs:245-251 | one bit step is injective on 32-bit registers |
| `Crc32.RegisterIsInjective` | crates/ferrosa-memory-core/src/compression.rs:241-254 | so is the update by any message |
| `Crc32.TableFormAgrees` | crates/ferrosa-memory-core/src/compression.rs:241-254 | the bitwise loop computes the table-driven update of section 8 of RFC 1952 |
| `Crc32.BytesEnterAsAWord` | crates/ferrosa-memory-core/src/compression.rs:243-252 | up to four bytes enter the register as one word |
| `Crc32.BurstIsDetected` | crates/ferrosa-memory-core/src/compression.rs:241-254 | messages of equal length that differ only within four adjacent bytes, one changed byte included, get different checksums |

## Left out

- CQL text, driver row decoding, schema probes, migrations and connections (`control_store.rs:403-539`): input and output; only conditional write, read and replay query remain, as abstract steps.
- JSON payloads are opaque values with a size, timestamps are opaque; `updated_at` takes part in no comparison.
- Delivery of events that are appended below a cursor a reader has already passed: the code promises none.
- The CQL `get_command` read, which is one lookup; the in-memory one is modelled.
- Neighbour rows decoded from storage, tenants and sessions in the chain search.
- The rendered text, hashes and ids of segments: a segment holds its messages, and `idOf` stands for the derived id.
- Token counts are unbounded: the overflow of the i32 sum in `segment_messages` is not modelled.
- `ingest_context_segments`, `search_context_segments` and `get_context_window` (`context_segment.rs:280-640`): storage calls and floating-point ranking; the window need not contain its hit.
- The order of the lists that `vanished` and `orphaned` return, which is the order of the keys; the second is a set here.
- Splitting the input into lines keeps the rules of the standard library; `to_lowercase` for the search text of a chunk is a parameter.
- Character-level lexing of filters: number syntax (a minus sign directly before digits belongs to the number), keywords without word boundaries, string escapes, and white space between bangs.
- Evaluation, serialisation and legacy forms of filters, and time literals.
- Quoted keys in table headers, which may hold a bracket or a hash by the grammar of TOML.
- The configuration file is rewritten as lines: carriage returns, rendering of the TOML tables, the temporary file and the rename are not modelled.
- TokenSelection.SelectTokens: scores are arbitrary reals and the target count is rounded in the reals, so NaN scores and floating-point rounding are not modelled.
- Crc32.ComputeCrc32: the register is a sequence of 32 bits, lowest first, and the text is given as bytes; UTF-8 encoding is not modelled.
- Term frequencies, positional weights and the recognition of structural tokens in compression.
- `dream.rs`, `enrich.rs`, `entity.rs`, `expert_system.rs`, `graph_write.rs`, `audit.rs`, `feedback.rs`, `dedup.rs` and the servers: mostly calls into storage and language models.
- `auth.rs`, `artifact.rs`, `debug_stop.rs`, `capabilities.rs`, the control vocabulary and the rest of `config.rs`: settled by reading single branches.
- Scripts, installers, evaluation harnesses and hooks.
