# Verified model of the customer-service agent's core

This project models the parts of the repository whose correctness rests on state and on combinations of
functions, and proves what they promise for all inputs and all runs. Everything is checked by
`dafny verify dfyconfig.toml`.

- **Conversation compression** (`Turns`, `TurnStability`, `SurvivingTurns`, `Window`, `BudgetTrim`, `BudgetLaws`,
  `Grading`, `Compression`, `CompressionLaws`, `TurnUpdate`): messages are grouped into turns, turns are graded keep, summarise or
  discard, two token-budget passes trim the rest, and the result becomes a patch on the stored history. The main
  results: nothing is lost or doubled, no turn is ever split although turns are recomputed on thinned lists, the
  newest messages always survive, each pass makes the one cut its budget allows, everything that leaves is told to
  the summary, and the patch reproduces exactly the planned history.
- **Rolling summary** (`FactLists`, `SessionSummary`, `SettledFolding`, `SummaryText`, `SummaryLaws`): a capped,
  deduplicating, mutually exclusive label algebra that is a monoid, the exact effect of settling it between batches,
  with a bounded printer that gives up no fact in vain and a parser whose round trip is characterised exactly.
- **Leases, permits, breaker, lock and quota** (`ChatSlots`, `ChatSlotLaws`, `ToolPool`, `Circuit`, `SessionLock`,
  `Quota`): protocols as steps with explicit time, and invariants over every interleaving; both chat-slot stores
  answer what the history of grants, releases and lifetimes calls for.
- **Knowledge index and context** (`Ingest`, `RagContext`, `ContextLaws`, `StableSort`): incremental ingest against full
  rebuild, hit expansion as a group-by-minimum told in the fields of chunks, and a greedy budget trim.
- **Checkpoints and metrics** (`CheckpointCodec`, `Checkpoints`, `Metrics`): codec round trip, pruning, loading what
  was persisted, and merging worker snapshots into what one process would have seen.

Objects that the source updates in place are classes whose methods are proved against step functions; loops are
loops with invariants; runs are lists of steps.

Some promises hold only under a condition, which is then proved to be exact and shown at a failing input:
re-partitioning yields the surviving turns only without a segment that opens with other messages and an AI reply; a
summary survives printing only with clean facts; releasing a chat slot keeps the tables consistent only under the
tenant that acquired it; a put checkpoint survives only if it is the newest; merged histograms are complete only if
workers agree on bounds. An incremental ingest leaves what a rebuild would exactly when the store and the load pass a
check on their hashes; a file of the same name in the root directory and in the default tenant's directory gives two
hashes for one source (`app/rag/vectorstore.py:93-99`) and fails it as soon as one of the two changes. The patch
reproduces the kept list only if grading keeps the answer's turn; deployed settings always keep at least two recent
messages (`app/config/memory.py:19`), so that failure cannot occur there.

## Model

| member | source | states |
|---|---|---|
| `Turns.PartitionTurns` | app/context/summary/scoring.py:110-141 | The scan that collects messages into turns yields the system positions and the turns of the specification, for messages of every kind. |
| `Turns.CutTest` | app/context/summary/scoring.py:123-134 | The two tests made on the collected messages (human after an AI reply, AI before any human) say exactly when a turn is cut. |
| `Turns.TurnsTile` | app/context/summary/scoring.py:110-141 | Turns laid end to end are exactly the non-system positions in order; no turn is empty, nothing is lost, repeated or moved. |
| `Turns.TurnsAreRuns` | app/context/summary/scoring.py:110-141 | Every turn is a maximal run of neighbouring positions that the scan does not cut. |
| `Turns.TurnsInOrder` | app/context/summary/scoring.py:110-141 | Turns follow one another without overlap and each ends where the scan cuts. |
| `Turns.GluedInPlainHistory` | app/context/summary/scoring.py:116-138 | In a human/AI/system history: a human message joins the turn before it only after a human message, an AI message joins once its segment has had a human one. This describes turns without running the scan. |
| `TurnStability.ScansInStep` | app/context/summary/scoring.py:110-141 | Scanning a history and scanning it with whole turns dropped stay in step, message by message, for every kind of message. |
| `TurnStability.SurvivingTurnsStayWhole` | app/context/summary/scoring.py:110-141 | After dropping any set of whole turns, two neighbours of one surviving turn are neighbours of one turn of the new partition. |
| `TurnStability.LiftKeepsTurnsWhole` | app/context/summary/compress.py:58-83 | Choosing whole turns of the thinned list's own partition chooses whole turns of the original one, so budget passes can be stacked. |
| `SurvivingTurns.DroppingTurnsLeavesTheOthersIff` | app/context/summary/scoring.py:110-141 | Dropping whole turns and partitioning again gives exactly the list of turns not dropped, renumbered, for every choice of turns, if and only if no segment opens with other kinds of messages followed by an AI message and has a human message later. |
| `TurnStability.RepartitionIsExactIffNoHazard` | app/context/summary/scoring.py:110-141 | The same condition decides it survivor by survivor: every survivor continues the turn of the one before it exactly when it did so in the full history. |
| `TurnStability.PlainHasNoHazard` | app/context/summary/scoring.py:110-141 | Human/AI/system histories always meet that condition. |
| `TurnStability.HazardMergesTurns` | app/context/summary/scoring.py:123-138 | Where the condition fails, a choice of whole turns is given whose removal leaves a survivor that no longer starts its turn. |
| `Window.SelectMessagesByTokens` | app/context/window.py:149-168 | The backward scan selects exactly the greedy suffix of the specification. |
| `Window.OverflowMessages` | app/context/window.py:206-220 | The overflow is exactly the prefix the window leaves out. |
| `Window.WindowLaw` | app/context/window.py:158-168 | Selected and overflow concatenate to the input; the floor is met whenever enough messages exist; the budget is exceeded only if the selection without its oldest message is below the floor or empty; the next older message would not have fitted. |
| `Window.WindowInNumbers` | app/context/window.py:158-168 | A cut of the history is the window exactly if it has these properties, in tokens of the texts plus four a message: the floor is met or everything kept, one message more would not have fitted, and the budget is exceeded at the floor only. |
| `Window.CostIsTextsAndFours` | app/context/window.py:111-113 | A list of messages costs the tokens of its texts and four for each message. |
| `Window.GreedyLaw` | app/context/window.py:161-166 | The same law for arbitrary costs and sizes, shared by messages and turns. |
| `Window.GreedyIsUnique` | app/context/window.py:161-166 | With no negative cost or size only one suffix satisfies the four parts of the greedy law, so the law determines the selection. |
| `BudgetTrim.SplitKeptByBudget` | app/context/summary/compress.py:48-84 | One pass keeps the system messages and the greedy suffix of turns, in input order, and returns the older turns as overflow. |
| `BudgetTrim.PassLaw` | app/context/summary/compress.py:57-84 | The kept turns hold at least min(max(1, recent), bodies) non-system messages when there are any; their cost exceeds the remaining budget only if the suffix without its oldest turn is empty or below the floor; the next older turn would not fit. |
| `BudgetLaws.OnlyCutAllowed` | app/context/summary/compress.py:57-84 | A pass makes the one cut between turns with these properties, stated in tokens of everything kept plus the summary's tokens: at least one turn and min(max(1, recent), bodies) non-system messages stay; with the next older turn the budget would be exceeded; it is exceeded as it is only if one turn fewer would leave none or too few. No other cut has them. |
| `BudgetLaws.PassInNumbers` | app/context/summary/compress.py:48-84 | The kept list is what that cut leaves, system messages included, and the overflow is the turns before it, in order. |
| `BudgetTrim.RecentSurvive` | app/context/summary/compress.py:62-75 | The newest `always_keep_recent` messages survive a pass whatever the costs and the budget. |
| `BudgetTrim.KeptFromIsWhole` | app/context/summary/compress.py:80-83 | A pass never keeps a part of a turn, and keeps every system message. |
| `BudgetTrim.DroppedTurns` | app/context/summary/compress.py:82-83 | What is not kept is exactly the overflow, turn by turn, in order. |
| `BudgetTrim.PickByTurns` | app/context/summary/compress.py:80-83 | Collecting messages position by position and turn by turn gives the same list when no turn is split. |
| `Grading.CompactTurn` | app/context/summary/compress.py:136-143 | Yields the compacted messages of the turn and records exactly those that changed. |
| `Grading.GradeTurn` | app/context/summary/compress.py:145-163 | One round of the grading loop: a recent turn is kept, else the best score of the turn decides discard, summarise or keep. |
| `Grading.GradeTurns` | app/context/summary/compress.py:125-163 | After all turns, the three lists are the messages whose turn has that grade, in input order. |
| `Grading.Rebuild` | app/context/summary/compress.py:165-170 | The kept list and the list of rewritten kept messages read off the two tables. |
| `Grading.GradesAreWhole` | app/context/summary/compress.py:145-163 | Grading never splits a turn and always keeps system messages. |
| `Grading.TurnHasGrade` | app/context/summary/compress.py:145-163 | Every message of a turn gets the grade of that turn. |
| `Grading.GradeFromScores` | app/context/summary/compress.py:125-163 | From the scores of a turn's messages alone: a turn that reaches into the newest positions stays; of the others one is discarded if no message reaches the lower bar, summarised if one does but none reaches the upper bar, and kept otherwise. |
| `Grading.RecentGradedKeep` | app/context/summary/compress.py:125-152 | The newest `always_keep_recent` messages are never graded away. |
| `Compression.ApplyRagCompact` | app/context/summary/rag_compact.py:58-68 | Every message is compacted in place, keeping id and role, and the changed ones with an id are listed. |
| `Compression.TrimKeepsTurnsWhole` | app/context/summary/compress.py:179-184 | A pass over an already thinned list splits no turn of the original history. |
| `Compression.PlanCompression` | app/context/summary/compress.py:120-195 | When something has to go, planning returns the state after grading and the first pass: kept, summarised and discarded messages, what the summary must absorb, and the rewritten messages that are left. |
| `Compression.FinalizeCompression` | app/context/summary/compress.py:198-239 | The second pass with the grown summary turns the plan into the outcome. |
| `Compression.RunCompression` | app/context/summary/compress.py:242-297 | A whole run returns the outcome of the specification: five buckets by position, the summary text and the rewritten messages. |
| `CompressionLaws.NothingLostNothingTwice` | app/context/summary/compress.py:87-239 | Kept, summarised and discarded together hold each input message exactly once, up to compaction of the text. |
| `CompressionLaws.KeptInInputOrder` | app/context/summary/compress.py:165-239 | The kept messages stand in input order, compacted. |
| `CompressionLaws.TurnsNeverSplit` | app/context/summary/compress.py:87-239 | No turn of the input is split between buckets and every system message is kept, although both passes partition thinned lists anew; for every kind of message. |
| `CompressionLaws.TurnHasOneBucket` | app/context/summary/compress.py:87-239 | Any two messages of one listed turn end in the same bucket. |
| `CompressionLaws.RecentMessagesSurvive` | app/context/summary/compress.py:125-224 | The newest `always_keep_recent` messages survive grading and both passes, whatever scores, budget and summary growth. |
| `CompressionLaws.LastSurvivesIffGradedKeep` | app/context/summary/compress.py:125-224 | The last message survives the run if and only if nothing had to go or grading keeps its turn. |
| `CompressionLaws.FitsInNumbers` | app/context/summary/compress.py:107-118 | Nothing has to go exactly when texts, four tokens a message and the summary are within the budget and the number of messages within its bound; then everything stays, compacted, and so does the summary. |
| `CompressionLaws.BothPassesMeetTheBudget` | app/context/summary/compress.py:179-223 | Otherwise the history left is what grading keeps, cut by the only cut the budget allows with the old summary to be paid for, and then cut again with the grown one. |
| `CompressionLaws.SummaryHearsWhatLeaves` | app/context/summary/compress.py:145-237 | Everything that leaves the history is told to the summary once, in input order: before the second pass the discarded messages in their own words, the summarised ones and the first overflow compacted, after it the second overflow compacted; a step with nothing to tell is skipped. |
| `TurnUpdate.RemovedIffNotKept` | app/context/turn.py:47-49 | A stored id is removed if and only if its message is not kept: removed and kept ids partition the stored ids. |
| `TurnUpdate.RemovedAreStored` | app/context/turn.py:47-48 | Every removed id is a stored one; the new answer is never removed. |
| `TurnUpdate.UpdatedNamesReplaced` | app/context/summary/compress.py:166-187 | Dropping overflow ids from the rewritten list leaves exactly the rewritten messages that are finally kept. |
| `TurnUpdate.PatchNamesUsableIds` | app/context/turn.py:41-55 | A patch removes a message if and only if it was discarded or summarised and has a non-empty id, replaces only rewritten messages with one, and ends with the kept new AI message or one built from the stored answer. |
| `TurnUpdate.PatchGivesPlanned` | app/context/turn.py:41-55 | Applying the patch to a stored history with distinct ids gives the kept messages in order and the answer last under its new id. |
| `TurnUpdate.PatchReproducesKeptIff` | app/context/turn.py:41-104 | The patched history is the kept list if and only if nothing had to go or grading keeps the answer's turn; a positive `always_keep_recent` suffices. |
| `TurnUpdate.DiscardedAnswerIsAppended` | app/context/turn.py:50-55 | A failing input with a floor of zero: an answer that grading discards is appended all the same. |
| `TurnUpdate.FinalizeRespondTurn` | app/context/turn.py:78-104 | With a positive `always_keep_recent` the emitted patch reproduces the kept list and the answer is its last message. |
| `FactLists.PrependUnique` | app/context/summary/facts.py:84-92 | The loop yields the newest facts up to the cap after deduplicating by last occurrence. |
| `FactLists.ApplyExclusiveSequence` | app/context/summary/facts.py:102-113 | The loop keeps, of every label group, the last label written, with a cap or without one. |
| `FactLists.MergeAssociative` | app/context/summary/facts.py:84-113 | The capped, deduplicating, slot-exclusive update is associative on lists with pairwise different slots. |
| `FactLists.CapLeft` | app/context/summary/facts.py:84-92 | Capping the left operand first loses nothing: what was cut could not have come back. |
| `FactLists.CapRight` | app/context/summary/facts.py:84-92 | Capping the right operand first loses nothing. |
| `SessionSummary.MergeSummaries` | app/context/summary/facts.py:126-135 | Merging two summaries is the field-wise update of the specification. |
| `SummaryLaws.MergeInWords` | app/context/summary/facts.py:126-135 | For all summaries, sound or not: orders, courses and pending items are the last three, three and four of the old ones no new one repeats and the new ones no later one repeats; labels are the last six no later label repeats or excludes; a new intent wins. |
| `SummaryLaws.WrittenInWords` | app/context/summary/facts.py:84-113 | Writing facts one after the other, for all lists: what is left is the old facts that no new one replaces, then the new ones that no later one replaces. |
| `SummaryLaws.RivalsInWords` | app/context/summary/facts.py:48-51 | Which labels exclude each other: the two about beginners and the two about refunds, and no others. |
| `SessionSummary.MergeIsAssociative` | app/context/summary/facts.py:126-135 | Merging is associative on well-formed summaries despite caps, deduplication and exclusive groups. |
| `SessionSummary.NothingIsIdentity` | app/context/summary/facts.py:126-135 | The empty summary is an identity on well-formed summaries within the caps. |
| `SessionSummary.BatchByBatchIsAtOnce` | app/context/summary/facts.py:280-284 | Bare merging, without settling in between: folding batch by batch equals folding all batches at once. |
| `SettledFolding.SettlingBetweenBatchesIff` | app/context/summary/facts.py:360-381 | With the settling that the source does after every batch: for sound summaries, settling between two batches changes nothing if and only if no settled item takes a place under the cap of four that a surviving older item needs. |
| `SettledFolding.EarlySettlingIff` | app/context/summary/facts.py:84-92 | The same for any two lists, any cap and any items taken out early. |
| `SettledFolding.RoomForAll` | app/context/summary/facts.py:360-381 | In particular nothing changes when all pending items fit under the cap. |
| `SettledFolding.SettlingMakesRoom` | app/context/summary/facts.py:137-155 | A failing input: four pending items, one of them settled by the first batch, and a second batch with a new item; at once, the oldest item is lost. |
| `SessionSummary.LaterLabelWins` | app/context/summary/facts.py:95-113 | Exactly which labels a merge keeps: of the newer labels and the older ones that no newer label equals or excludes, the last six in that order. |
| `SessionSummary.ResolveSettles` | app/context/summary/facts.py:137-155 | Settling removes only the pending items that known orders or courses answer, changes nothing else, and is idempotent. |
| `SummaryLaws.ResolveInWords` | app/context/summary/facts.py:137-155 | For all summaries: an item is no longer pending exactly if it asks for an order number or a course that is known by then; labels are deduplicated again and nothing else changes. |
| `SummaryText.Render` | app/context/summary/facts.py:173-210 | The shrinking loop terminates and prints what the specification prints. |
| `SummaryText.RenderIsBounded` | app/context/summary/facts.py:195-210 | A bounded print never exceeds max(80, bound). |
| `SummaryText.ShrinkKeepsNewest` | app/context/summary/facts.py:198-209 | Shrinking cuts every list to a suffix that keeps its newest fact, and cuts nothing when everything fits. |
| `SummaryText.RawTailIff` | app/context/summary/facts.py:207-208 | The raw tail is cut if and only if even the newest fact of each list does not fit. |
| `SummaryLaws.LinesInWords` | app/context/summary/facts.py:180-193 | The lines: one per section that has something, in this order, under these names, facts joined by full-width semicolons. |
| `SummaryLaws.FactsAreGivenUpInOrder` | app/context/summary/facts.py:198-206 | Pending items lose one only when at most one label is left, orders only when in addition at most one pending item is left, courses only when in addition at most one order is left. |
| `SummaryLaws.NoFactIsGivenUpInVain` | app/context/summary/facts.py:197-209 | With the fact given up last put back, the lines would not have fitted. |
| `SummaryLaws.TailOfNewestIsPrinted` | app/context/summary/facts.py:195-208 | Where even the newest facts do not fit, the print is the last max(80, bound) characters of their lines. |
| `SummaryLaws.ShrunkLinesArePrinted` | app/context/summary/facts.py:195-209 | Where they fit, the shrunk summary's lines are printed whole, within max(80, bound). |
| `SummaryLaws.NothingToGiveUp` | app/context/summary/facts.py:193-196 | A summary that fits is printed as it is, and so is every summary without a bound. |
| `SummaryText.Parse` | app/context/summary/facts.py:213-244 | The reading loop computes the specification of reading, leftovers included. |
| `SummaryLaws.SectionLineIff` | app/context/summary/facts.py:21 | A line belongs to a section exactly if it starts with the section's name and a full-width or ASCII colon. |
| `SummaryLaws.SectionLineValue` | app/context/summary/facts.py:230 | What such a line says is the stripped text behind the colon. |
| `SummaryLaws.FactsAroundSemicolon` | app/context/summary/facts.py:80-81 | Facts are cut at full-width and at ASCII semicolons alike. |
| `SummaryLaws.LooseLinesAreConfirmed` | app/context/summary/facts.py:224-243 | Where a line without a section goes: with no section in the text all such lines are the confirmed facts; beside sections they follow the facts that were read, without repeats, and the last six stay; the other lists are what their sections say. |
| `SummaryLaws.LastSectionLineCounts` | app/context/summary/facts.py:229-239 | Of several lines of one section the last one counts. |
| `SummaryLaws.AbsentSectionIsEmpty` | app/context/summary/facts.py:220-239 | A section that no line belongs to stays empty. |
| `SummaryText.RoundTripIffClean` | app/context/summary/facts.py:173-244 | Printing and reading gives the summary back if and only if its facts are stripped single lines without semicolons. |
| `SummaryText.BoundedRoundTrip` | app/context/summary/facts.py:173-244 | Bounded: a clean summary comes back with each list cut to a suffix with its newest fact, and whole when nothing had to be cut. |
| `SummaryText.OrderWithTwoConstraintsIsSplit` | app/context/summary/facts.py:302-306 | The order fact built with two constraints holds a separator and does not survive the round trip. |
| `ChatSlots.MemoryChatSlotStore.Purge` | app/chat_slots.py:105-110 | The in-place purge drops every stale token everywhere. |
| `ChatSlots.MemoryChatSlotStore.Acquire` | app/chat_slots.py:112-133 | Purge, global cap, tenant cap, then both tables get the lease: the whole new state and the answer. |
| `ChatSlots.MemoryChatSlotStore.Release` | app/chat_slots.py:135-140 | The token leaves the global table and the named tenant's table. |
| `ChatSlots.MemoryChatSlotStore.CountInFlight` | app/chat_slots.py:142-146 | Purge, then count the global table. |
| `ChatSlots.RedisChatSlotStore.Acquire` | app/chat_slots.py:20-37 | The atomic acquire script on the two sorted sets it touches. |
| `ChatSlots.RedisChatSlotStore.Release` | app/chat_slots.py:39-43 | The atomic release script. |
| `ChatSlots.RedisChatSlotStore.CountInFlight` | app/chat_slots.py:45-49 | The atomic count script. |
| `ChatSlots.GlobalIsDisjointUnion` | app/chat_slots.py:105-140 | In every admissible run the global table is the disjoint union of the tenant tables with equal expiries. |
| `ChatSlots.GrantsRespectLimits` | app/chat_slots.py:112-133 | A grant leaves at most the global and the tenant limit of live leases, the new one among them. |
| `ChatSlots.NothingOutlivesItsExpiry` | app/chat_slots.py:105-146 | After any operation that reads the clock, only leases that expire later are left, in every table. |
| `ChatSlots.LeaseLastsUntilExpiry` | app/chat_slots.py:105-146 | From its grant on, over any run in which its token is not released and no clock reading reaches its expiry, a lease stays, with that expiry. |
| `ChatSlots.StoresAgree` | app/chat_slots.py:20-202 | Over every admissible run the store that purges two keys at a time answers exactly as the one that purges everything: grants, busy reasons, counts. |
| `ChatSlotLaws.AnswersFollowHistory` | app/chat_slots.py:20-202 | Every answer of either store, in every admissible run, follows from the operations and answers before it: with as many granted, unreleased leases younger than max(1, lifetime) as the global limit the answer is cluster-busy, else with as many of the tenant as its limit tenant-busy, else a grant; counting counts them. |
| `ChatSlotLaws.LeaseLastsItsLifetime` | app/chat_slots.py:20-146 | A granted lease that is not released is there when the clock is read, in both stores, exactly while the readings stay below the time of the grant plus max(1, lifetime). |
| `ChatSlots.ForeignReleaseDiverges` | app/chat_slots.py:135-140 | A three-operation run that shows a release under another tenant making the two stores answer differently. |
| `ChatSlots.ReleaseKeepsTablesIff` | app/chat_slots.py:135-140 | For every consistent state: a release keeps the tables consistent if and only if its token is not live or the tenant named is the one that acquired it. |
| `ChatSlots.StoresAgreeAfterReleaseIff` | app/chat_slots.py:135-195 | After any admissible run, releasing a live token leaves the two stores answering alike, whatever is acquired next, if and only if the tenant named is the one that acquired it. |
| `ChatSlots.ForeignReleaseIsFoundOut` | app/chat_slots.py:112-195 | Otherwise an admissible acquire is built on which the stores answer differently. |
| `ChatSlots.LeakedTokenStays` | app/chat_slots.py:105-146 | A token left in a tenant's table but gone from the global one survives every purge and every operation but its owner's release. |
| `ChatSlots.KeysDiffer` | app/chat_slots.py:83-84 | Tenant keys differ from the global key and from each other. |
| `ToolPool.PoolCapacity` | app/executors.py:71-77 | The number of permits is workers times queue factor, each counted as one if it is less. |
| `ToolPool.PermitsAreConserved` | app/executors.py:95-193 | In every interleaving: available permits + submitters holding one + admitted futures not done = capacity. |
| `ToolPool.StepConservesPermits` | app/executors.py:95-193 | Every single step of every call keeps that equation and each call's own books. |
| `ToolPool.QuietPoolIsFull` | app/executors.py:152-193 | When no call is inside and no future runs, every permit is back and each was released exactly as often as acquired. |
| `ToolPool.WorkersNeverWait` | app/executors.py:117-118 | Calls made on a pool worker run in place: no worker that runs a future ever waits for a permit. |
| `ToolPool.ExhaustedPoolCanMove` | app/executors.py:117-183 | With all permits taken some step that needs none is always possible. |
| `ToolPool.ExhaustedPoolRecovers` | app/executors.py:117-183 | From there finitely many steps that take no permit and admit no call bring a permit back: the pool cannot deadlock on itself. |
| `ToolPool.EveryRunRecovers` | app/executors.py:95-193 | The same after any run whatever of a pool with at least one worker and one permit. |
| `ToolPool.EveryScheduleRecovers` | app/executors.py:95-193 | Whatever schedule follows without admitting calls or taking permits: it has at most as many steps as there is work left, and when no such step is left a permit is free. |
| `ToolPool.GaugeCountsOwing` | app/executors.py:41-48 | The occupancy gauge is the number of calls that owe a permit. |
| `ToolPool.OrderPool.Submit` | app/executors.py:117-193 | A bookkeeping helper: the permit arithmetic of one uninterrupted call, written in the order of the source, matches the step machine for each way such a call can end. The result over interleavings is PermitsAreConserved. |
| `Circuit.Breaker.Guard` | app/llm_gateway/circuit.py:61-81 | The guard's state change and answer. |
| `Circuit.Breaker.RecordSuccess` | app/llm_gateway/circuit.py:84-88 | A success resets everything. |
| `Circuit.Breaker.RecordFailure` | app/llm_gateway/circuit.py:91-107 | A failure clears the probe flag, counts, and opens at the threshold. |
| `Circuit.Breaker.Call` | app/llm_gateway/gateway.py:455-473 | A refused call changes nothing; an admitted one that fails raises the streak by one, a success clears it, and the other ways out leave it and only keep the probe they took. |
| `Circuit.CallOnTheFields` | app/llm_gateway/gateway.py:455-473 | A call that was let through: a failure raises the streak by one and opens the breaker at the threshold, a success clears everything, every other way out leaves streak and time of opening. |
| `Circuit.FieldsTellTheRun` | app/llm_gateway/circuit.py:61-107 | In every run with a positive threshold: failures is the number of failures since the last success, open means the threshold is reached and holds the time of the latest failure, the probe flag means a guard was let through since the latest record. |
| `Circuit.GuardAdmitsIff` | app/llm_gateway/circuit.py:61-81 | A guard is let through if and only if the streak is below the threshold, or the cooldown since the latest failure is over and no guard was let through since the latest record. |
| `Circuit.OneProbeBetweenRecords` | app/llm_gateway/circuit.py:61-81 | While open, at most one call is let through between two records, never before the cooldown is over. |
| `Circuit.AbandonedProbeBlocks` | app/llm_gateway/gateway.py:455-473 | A probe that leaves without recording blocks every later guard until someone records. |
| `Circuit.DisabledNeverRefuses` | app/llm_gateway/circuit.py:64-66 | A threshold of zero or less never counts and never refuses. |
| `SessionLock.RedisSessionLock.TryAcquire` | app/session_cache.py:413-416 | Set-if-absent with expiry: the new keys and whether it succeeded. |
| `SessionLock.RedisSessionLock.Release` | app/session_cache.py:33-39 | Compare-and-delete: deletes only the caller's own live entry. |
| `SessionLock.GrantedIffAllLeasesOver` | app/session_cache.py:409-425 | An acquire succeeds if and only if every earlier successful acquire of that lock has expired or was released in between: validity intervals are pairwise disjoint and no free lock is refused. |
| `SessionLock.GrantedIffLifetimesOver` | app/session_cache.py:409-425 | The same with the numbers of the commands: a lease is over when its time of acquire plus its lifetime has passed, or its token has released the lock since. |
| `SessionLock.TtlInMillis` | app/session_cache.py:401 | The lifetime in milliseconds is cut off to a whole number and never less than a second. |
| `SessionLock.LateReleaseIsHarmless` | app/session_cache.py:421-425 | A release by an expired holder never removes its successor's entry. |
| `SessionLock.RunningLeaseIsSeen` | app/session_cache.py:409-425 | A lease that has neither expired nor been released is what the server shows. |
| `SessionLock.SeenIsRunningLease` | app/session_cache.py:409-425 | Whatever the server shows is such a lease. |
| `SessionLock.LockKeysDiffer` | app/session_cache.py:404-407 | Different threads have different lock keys. |
| `Quota.MemoryGatewayStore.AddUsage` | app/llm_gateway/stores.py:87-102 | The tenant's row of the day grows by prompt and completion tokens, by the reported total or their sum where none is reported, and by one request; nothing else changes. |
| `Quota.MemoryGatewayStore.GetQuota` | app/llm_gateway/stores.py:76-85 | Reading returns the row and opens a blank one if there is none. |
| `Quota.MemoryGatewayStore.AddCacheHit` | app/llm_gateway/stores.py:104-107 | A cache hit is counted and nothing else. |
| `Quota.MemoryGatewayStore.AssertQuota` | app/llm_gateway/gateway.py:548-561 | The check passes if and only if it is switched off, unlimited, or the day's total is below the limit. |
| `Quota.BooksBalance` | app/llm_gateway/stores.py:87-107 | Over every interleaving a row holds the sums of what was committed for that tenant that day: of each call the reported total, or prompt plus completion where there is none; prompt and completion tokens, calls and cache hits likewise. |
| `Quota.OvershootIsBounded` | app/llm_gateway/gateway.py:548-574 | With at most C checked calls in flight and at most U tokens each, a day's total never exceeds limit - 1 + C*U plus what unchecked calls committed. |
| `Quota.OvershootIsReached` | app/llm_gateway/gateway.py:548-574 | The bound cannot be lowered: for every positive limit, every number C of calls in flight and every size U of a call there is a run of checked calls that records exactly limit - 1 + C*U. |
| `Ingest.LiveSourceHashes` | app/rag/vectorstore.py:1022-1028 | For every named source with live chunks, the hash of the last one; no others. |
| `Ingest.Index.SoftDeleteStale` | app/rag/vectorstore.py:1031-1047 | Marks exactly the live chunks of the given sources that do not carry a non-empty hash to keep. |
| `Ingest.PlanTenant` | app/rag/vectorstore.py:1075-1096 | Decides what to add and which sources to retire by comparing hashes. |
| `Ingest.Index.IngestTenant` | app/rag/vectorstore.py:1083-1109 | One tenant's store after the ingest; other tenants untouched. |
| `Ingest.Index.Ingest` | app/rag/vectorstore.py:1050-1126 | All tenants, the full rebuild when asked for or when there is no index, and the error on an empty load, which changes nothing. |
| `Ingest.GroupDocuments` | app/rag/vectorstore.py:149-153 | Chunks grouped by tenant in order. |
| `Ingest.LiveIngested` | app/rag/vectorstore.py:1074-1109 | The live chunks of a source after an ingest, in all cases. |
| `Ingest.ChangedSourceIsReplaced` | app/rag/vectorstore.py:1074-1109 | Told by the hash of the last live chunk on either side: equal and not empty, nothing changes; otherwise only chunks with the loaded hash stay, old and new, and none when it is empty. |
| `Ingest.GoneIsRetiredNewIsAdded` | app/rag/vectorstore.py:1090-1100 | A source gone from the load has no live chunk left; one new to the store is added whole. |
| `Ingest.AgreesWithRebuildIff` | app/rag/vectorstore.py:1074-1145 | For every store and every load, source by source: an incremental ingest leaves what a rebuild would if and only if a skipped source already holds the loaded chunks, and a source that was live and changed is either gone or loaded with one non-empty hash that none of its old chunks carries. |
| `Ingest.FaithfulAgreesIff` | app/rag/vectorstore.py:1074-1145 | Corollary for a store that holds one version of the source: the two agree if and only if the source was not live before or all its loaded chunks carry one non-empty hash. |
| `Ingest.TwoFilesOfOneNameLoseOne` | app/rag/vectorstore.py:93-99 | A failing input: two same-named files of one tenant are both live after a first ingest; when the second changes, the next ingest retires the first as well. |
| `Ingest.EveryIngestEqualsRebuild` | app/rag/vectorstore.py:1074-1145 | After any number of ingests of one-version files, the live chunks of every source are those of the last load. |
| `Ingest.NewVersionIsLiveThroughoutIff` | app/rag/vectorstore.py:1104-1109 | For every store and load: from the moment chunks are added, at every point of the sweep, the whole loaded version of a source is live, if and only if it was not live before, or its loaded chunks carry one non-empty hash, or it was skipped and already ends with that version. |
| `Ingest.NeverWithoutLiveVersionIff` | app/rag/vectorstore.py:1104-1109 | For every store and load: a source live before and still wanted has a live chunk at every point of the sweep, if and only if the hash the load knows it by is not empty. |
| `RagContext.ParentLookup` | app/rag/vectorstore.py:538-546 | The last parent chunk for every parent id. |
| `RagContext.ExpandHitDocumentsScored` | app/rag/vectorstore.py:559-627 | The loops over hits, sections and neighbours compute the specified expansion. |
| `RagContext.CandidateIff` | app/rag/vectorstore.py:591-625 | What is offered: for some hit its own context, a chunk of its section, or a neighbour within the window; nothing else. |
| `ContextLaws.ContextInFields` | app/rag/vectorstore.py:538-556 | What stands for a chunk: for a child whose non-empty parent id some parent chunk of the corpus carries, the last such parent chunk; for every other chunk itself. |
| `ContextLaws.CandidateInFields` | app/rag/vectorstore.py:591-625 | What is offered, in chunk fields alone: what stands for the hit; for every other retrieval chunk of the same file and non-blank section; and for the last retrieval chunk at each number of the same file that is 1 to window away; with tier and distance as numbers. |
| `ContextLaws.ExpandedIsOffered` | app/rag/vectorstore.py:583-627 | An item of the expansion is offered by some hit, and nothing offered for the same file and text is better by rank, then tier, then distance. |
| `ContextLaws.OfferedIsCovered` | app/rag/vectorstore.py:583-627 | For everything offered the expansion holds its file and text exactly once, at least as good. |
| `ContextLaws.ExpandedInOrder` | app/rag/vectorstore.py:591-627 | The expansion is ordered by rank, then tier, then distance, and starts with what stands for the best hit. |
| `RagContext.SelectionIsGroupByMinimum` | app/rag/vectorstore.py:583-588 | One item per document key, in order of first occurrence, each the best of its key. |
| `RagContext.BestOfIsFirstMinimum` | app/rag/vectorstore.py:531-535 | The best item has the least (rank, tier, distance) of its key and is the first such. |
| `RagContext.ExpandedIsBestPerDocument` | app/rag/vectorstore.py:583-627 | An item is in the expansion if and only if it is the best candidate for its document; the expansion is in priority order. |
| `RagContext.BestContextIsFirst` | app/rag/vectorstore.py:591-627 | The best hit's context is always there, first, at (0, 0, 0). |
| `RagContext.TrimRagContextByBudget` | app/rag/vectorstore.py:630-683 | The trim keeps, counts and reports what the specification says; the branch that re-inserts a dropped best hit is never taken. |
| `RagContext.TrimmedContext` | app/rag/vectorstore.py:643-683 | After the trim the best context is kept; the total is within a positive budget or one chunk remains; no dropped chunk could be added; without a budget nothing is dropped. |
| `ContextLaws.TrimInTokens` | app/rag/vectorstore.py:653-660 | Item by item in order of priority: the first stays, every further one exactly if with it the prompt, each text under the name of its file, is within the budget; a budget of zero or less cuts nothing. |
| `ContextLaws.PromptOrder` | app/rag/vectorstore.py:686-693 | The documents come by file name in code-point order, then by chunk number, with one billion for a missing number. |
| `ContextLaws.PromptHoldsAll` | app/rag/vectorstore.py:686-693 | The ordering loses and doubles no document. |
| `StableSort.SortIsStable` | app/rag/vectorstore.py:627 | Sorting is an ascending permutation that keeps the order of equal keys. |
| `StableSort.StableOrderIsUnique` | app/rag/vectorstore.py:627 | There is only one such order, so this fixes the result of sorting. |
| `CheckpointCodec.Encode` | app/session_cache.py:64-102 | Whatever order the dictionaries are walked in, the encoded envelope decodes to the payload. |
| `CheckpointCodec.DecodeCheckpointBlob` | app/session_cache.py:105-160 | Decoding fills the dictionaries or gives nothing at all on a malformed envelope. |
| `CheckpointCodec.MissingPartsAreEmpty` | app/session_cache.py:127-157 | An envelope whose parts are missing or empty decodes to an empty payload. |
| `CheckpointCodec.Utf8Bytes` | app/session_cache.py:105-160 | A text where bytes are expected is read as one to four eight-bit numbers a character, one for an ASCII character. |
| `Checkpoints.LatestIsUnique` | app/session_cache.py:724 | The largest checkpoint id is well defined. |
| `Checkpoints.PruneKeepsExactlyTheNewest` | app/session_cache.py:713-752 | Of a thread a prune keeps exactly the newest checkpoint of each namespace, the writes pending on it and the blobs its channel versions name, all unchanged. |
| `Checkpoints.PruneInWords` | app/session_cache.py:713-752 | The same from the entries: of each namespace the checkpoint that no other follows in code-point order stays, a pending write stays if its checkpoint does, and a blob stays if the checkpoint left there gives its channel this version. |
| `Checkpoints.PruneIsIdempotent` | app/session_cache.py:713-752 | Pruning twice is pruning once. |
| `Checkpoints.OthersUntouched` | app/session_cache.py:654-752 | Evicting, loading and pruning leave other threads' entries as they were. |
| `Checkpoints.LoadAfterPersist` | app/session_cache.py:661-769 | Loading what was persisted, into any stale workspace, gives the pruned part of the thread and changes no other thread. |
| `Checkpoints.DeletedOnlyWithoutCheckpoint` | app/session_cache.py:754-759 | The cache entry is deleted if and only if the thread has no checkpoint left. |
| `Checkpoints.PutSurvivesIffNewest` | app/session_cache.py:835-848 | A put is what a later load finds if and only if no stored id of its namespace is larger, and then with all its channel values, new or carried over; the first put of a thread always is. |
| `Checkpoints.OlderPutIsDropped` | app/session_cache.py:724-727 | A failing input: a put whose id is smaller than the stored one is gone at once. |
| `Checkpoints.CacheHoldsNewestPut` | app/session_cache.py:835-848 | After any sequence of puts on a thread by any savers, each namespace ever put to holds exactly the checkpoint with the largest id ever put there, and no other namespace holds anything. |
| `Checkpoints.NewestPutKeepsItsBlobs` | app/session_cache.py:713-752 | Through all later puts the newest checkpoint keeps every blob it had when it was put; only a put that adds the very same channel version changes its value. |
| `Checkpoints.CachedInMemorySaver.EvictThread` | app/session_cache.py:654-659 | The thread's entries leave all three dictionaries. |
| `Checkpoints.CachedInMemorySaver.Load` | app/session_cache.py:661-680 | The thread's part is replaced by the cached one; an entry that does not decode is deleted. |
| `Checkpoints.CachedInMemorySaver.PruneThread` | app/session_cache.py:713-752 | The in-place prune computes the specified workspace. |
| `Checkpoints.CachedInMemorySaver.Persist` | app/session_cache.py:754-769 | Prune, then write the thread's part to the cache or delete its entry. |
| `Checkpoints.CachedInMemorySaver.PutCheckpoint` | app/session_cache.py:835-848 | Load, add, persist, evict under the lock: the cached payload afterwards; other threads untouched in the cache and, when the thread's cache entry holds only its own entries, in the workspace; nothing of the thread left in memory. |
| `Checkpoints.CachedInMemorySaver.DeleteThread` | app/session_cache.py:883-886 | The thread leaves workspace and cache. |
| `Metrics.Registry.Inc` | app/observability/metrics/store.py:38-44 | A counter grows by the amount. |
| `Metrics.Registry.Observe` | app/observability/metrics/store.py:50-70 | Count, sum and every bucket whose bound the value reaches grow. |
| `Metrics.StoreTellsTheLog` | app/observability/metrics/store.py:38-70 | A process's counters and histograms are the sums and cumulative counts of everything it was told, under the bounds of the first observation. |
| `Metrics.BucketsCountObservations` | app/observability/metrics/store.py:65-69 | Each bucket is the number of observations at or below its bound, all of them for an infinite one; count and sum are those of all observations. |
| `Metrics.BucketsAreCumulative` | app/observability/metrics/store.py:65-69 | No bucket exceeds the count, the bucket of an infinite bound equals it, and larger bounds have larger buckets. |
| `Metrics.JsonRoundTripIff` | app/observability/metrics/multiproc.py:194-218 | The file form reads back as the series, unless it has no bounds: then as nothing. |
| `Metrics.Registry.TakeSnapshot` | app/observability/metrics/multiproc.py:221-238 | A snapshot lists every series once and carries the occupancy read at that moment. |
| `Metrics.Registry.AddHistogram` | app/observability/metrics/multiproc.py:290-311 | Buckets, count and sum are added between equal bounds; other bounds are dropped. |
| `Metrics.Registry.MergeSnapshots` | app/observability/metrics/multiproc.py:314-351 | Merging folds all readable files, row by row, and sums the gauges. |
| `Metrics.CountersAddUp` | app/observability/metrics/multiproc.py:279-336 | Merged counters are what one process would have counted. |
| `Metrics.MergedHist` | app/observability/metrics/multiproc.py:290-346 | What merging yields for a series, in all cases. |
| `Metrics.MergedEqualsOneProcessIff` | app/observability/metrics/multiproc.py:290-346 | A merged series is what one process observing everything would have, if and only if the workers that observed it agree on non-empty bounds. |
| `Metrics.DifferentBoundsLose` | app/observability/metrics/multiproc.py:306-307 | A failing input: two workers with different bounds, whatever files they write. |
| `Metrics.GaugesAddUp` | app/observability/metrics/multiproc.py:184-188 | Merged gauges are the sums over all files, for the order and course pools only. |
| `Metrics.FileOrderKeepsCounters` | app/observability/metrics/multiproc.py:314-336 | Reading the files in another order gives the same counters. |
| `Metrics.FileOrderDoesNotMatterIff` | app/observability/metrics/multiproc.py:314-346 | A merged series is the same for every order of the files if and only if all non-empty bounds that workers offer for it agree. |

## Left out

- Turns, Grading and BudgetTrim: a list position stands for the identity of a message object, so a history that holds one object twice is not modelled.
- score_message, count_tokens, the model-written summary and compact_rag_history are arbitrary functions; nothing proved depends on their values.
- compress_by_importance (app/context/summary/compress.py:300-327) only supplies arguments; prompt_summary_tokens is an arbitrary function of the summary.
- After the second pass the summary is folded once more and nothing is trimmed again (app/context/summary/compress.py:219-232), so only the bound of each pass is stated, not that kept list and final summary fit together.
- Message metadata besides id, kind and text is not modelled.
- The graph's message reducer and its removal messages belong to a library; its merge-by-id contract is written out in TurnUpdate, including the failure on an unknown id.
- SummaryText.Parse: a carriage return followed by a line feed counts as two line breaks; the empty line between them is skipped, so the result is the same.
- Fact extraction by regular expressions, the intent inferred from them and the length clip of non-structured summaries are left out: they are literal word lists.
- novel_against and has_content (app/context/summary/facts.py:157-171) are left out as single expressions.
- SessionSummary.BatchByBatchIsAtOnce: is about merging alone; the source also settles after every batch, for which SettledFolding has the exact condition, infers an intent per batch, which is left out with fact extraction, and passes each batch through the printed text, which keeps values only as far as the round-trip results of SummaryText say.
- Chat slots: tokens are fresh, clocks do not go back and every release names the acquiring tenant.
- ToolPool: a future runs its callbacks once, when it is done; the queue order of the executor, pool shutdown and metric flushes are left out.
- ToolPool.OrderPool.Submit: one call without interruption; interleavings are covered by the step machine of the same module.
- Circuit: the read-only snapshot for diagnosis is left out; settings are fixed during a run, the not yet created state is the default one, and the retry loop inside a call is part of its outcome.
- SessionLock: the retry loop of acquire is a series of set-if-absent attempts with one token; the in-process locks and the async twins are left out.
- Quota: the Redis store and the response cache are left out; days are numbers, and the amount a call uses is known when it commits.
- Ingest: embeddings, files on disk, generations and locks across processes are left out; the catalog stamp of course names is not part of a chunk, and unchanged files are not stamped again by an incremental ingest.
- Ingest.Index.Ingest: stores are values keyed by tenant, so sharing one store object between the old and the new dictionary is not captured.
- RagContext: hybrid search, fusion, reranking and scores are left out; metadata values are strings or numbers, and a missing source is the empty string.
- CheckpointCodec.DecodeCheckpointBlob: counts as malformed the odd shapes that Python happens to unpack or coerce (a two-letter string as a pair, a number as bytes, a kind that is not a text).
- CheckpointCodec: packing to bytes is loss-free and the older pickle form is a black box.
- Checkpoints: the async methods take no lock (app/session_cache.py:850-881) and are left out; time to live and touching are left out, so a cached entry may also be missing at any load.
- Checkpoints.CachedInMemorySaver.PutCheckpoint: what the library saver adds (one checkpoint, its blobs) is a parameter; put_writes follows the same load, add, persist, evict pattern and is left out.
- Metrics: sums and bounds are exact reals, rounding and not-a-number are left out; reading the occupancy of a process, dead-process files and flush intervals are left out; nested dictionaries by metric and labels are one dictionary.
- HTTP, the command line, prompts, tracing, databases, access rules, masking and routing are left out: they are plumbing or foreign code.
