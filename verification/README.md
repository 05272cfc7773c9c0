# Bounded requests and reversible memory

A Dafny model of the parts of `protoprompt` that promise something over whole requests, whole runs or whole
interleavings, with proofs of those promises. `dafny verify dfyconfig.toml` checks all of it.

**The bounded-request planner** (`protoprompt/injector_budgeted.py`, `protoprompt/context_plan.py`). `ResponseItems`
has the items and their classifiers. `RunGraph` says, clause by clause and without an algorithm, when a contiguous run
of replay items is a valid graph; `RunValidator` is the multi-pass check over tables and is proved to accept exactly
those runs, with `AnonymousSearch` for the searches that carry no id. `RunMeaning` says what an accepted run means in
the fields of its items, and `SmallRuns` which short runs are accepted. `RunConcatenation` and `RunLists` say exactly
when valid runs put together stay valid. `HistoryParts` and `HistoryGroups` cut a history into atomic groups,
`GroupMeaning` says in fields what they keep; `HistoryRegrouping` says exactly when grouping what the budget kept
would drop something; `HistorySelection` is the newest-first choice; `TailDependency` the history a final input
depends on. `ContextText` joins and cuts texts; `ContextAllocator`, `ContextFilling` and `ContextBuilder` fill the
system context under a budget, with truncation by bisection, and `ContextMeaning` says what a context reads like;
`RequestPlanner` puts a request together under the hard ceiling and says what a plan reads like, and `PlannedRequests`
draws the consequences for tool calls. A token counter is any function to the naturals; what needs a *conforming* one
(additive over messages, a system message costs its text and a fixed overhead, more text never costs less; a text may
cost nothing) says so.

**Working memory** (`protoprompt/agent/`). `MemoryItems` has the items, `ReferenceIndex` and `Manifest` the two
indexes as objects, `MemoryState` and `MemoryRecall` what each operation makes of the state, `WorkingMemory` the
object whose methods do it in place. `MemoryMeaning` says what adding and evicting do, field by field.
`MemoryEviction` reads eviction as sort and cut, `MemorySweep` says what enforcing the budget leaves of every part of
the state, `RecallBatch` when a recalled batch stays. `MemoryNoLoss`, `RecallNoLoss`, `MemoryCoherence` and
`MemoryNames` say what each operation keeps, `MemoryRuns` that over any run nothing is lost that can be named,
`MemoryFaults` when an operation breaks off, `MemoryLosses` what each condition of these theorems shuts out,
`MemorySnapshots` is export and import, `MemoryAssembly` the packing of a context. The scorer, the embeddings, the
similarity and the extraction of names are arbitrary functions; a search of the store is an arbitrary list of its
documents. The state carries two fields the program has not: the text last given to each lineage, and whether the
operation under way broke off because it could not name an item (an `IndexError` in the program).

**Smaller cores.** `EmbeddingCache` and `CachedClient` (`protoprompt/cache.py`): least-recently-used inclusion across
capacities, and a caching client that answers as the client behind it. `RedisProfiles`
(`protoprompt/integrations/redis.py`): optimistic locking as a state machine over the commands of any number of
callers. `SessionWrite` (`protoprompt/pipeline.py`): four store writes with a crash after any of them.

Where code and documentation disagree the model follows the code:

- `_assistant_tool_call_ids` says that a request with malformed tool calls is dropped. It is kept when no tool result
  follows it (`HistoryRegrouping.MalformedRequest`).
- A plan never exceeds its ceiling for any counter. The context prompt alone, for any counter, is empty or counts at most
  its budget; a counter that charges for the empty text is not looked at when nothing was assembled.
- `RegexTokenCounter` counts a text of white space as nothing. A system prompt or profile like that gets past the first
  guards where the framing of the context no longer fits; a later guard refuses the request (`RequestPlanner.PlanRequest`).
- `add` is documented to record an item and rebalance. A blank text without a summary is inserted and then an `IndexError`
  is raised; when the item is evicted later another one is raised and the item is lost (`MemoryLosses.UnnamedIsLost`).
- An embedding cache that is passed in empty is not used: it is falsy, and the client makes its own.
- `InMemStore.add` adds to a document, `SqliteStore.add` replaces it. The crash-tolerant write keeps the last block set in
  both; with the first, older blocks may stand before it in the copy.
- Recall's look-up of a new item fails when pinned items leave no room for it. Nothing is lost even then.

## Model

| member | source | states |
|---|---|---|
| `RunValidator.ResponseRunIsValid` | protoprompt/injector_budgeted.py:405-664 | A run of replay items is accepted exactly if its graph is valid in the declarative sense of RunGraph: call pairs unique, every output closes an earlier call of its kind with an agreeing owner, streams are in-progress events and at most one terminal one, anonymous searches matched, reasoning followed by model output, owned items after their program root, nothing owned (by itself or through its call) after a completed program result, every call answered or legitimately pending. |
| `RunValidator.GraphIsValid` | protoprompt/injector_budgeted.py:405-664 | The same over the views of the items: the passes accept together if and only if all clauses hold. |
| `RunValidator.ReasoningIsFollowed` | protoprompt/injector_budgeted.py:426-438 | Skipping over further reasoning finds that reasoning is followed by something the model emitted; when it does not, the run is not well shaped. |
| `RunValidator.Tabulate` | protoprompt/injector_budgeted.py:415-476 | The first pass succeeds exactly if items are well shaped, call pairs are unique and no plain output repeats; its tables then hold exactly the calls, the plain outputs and, in order, the streamed and the program outputs. |
| `RunValidator.CheckOutputs` | protoprompt/injector_budgeted.py:478-493 | Accepts exactly if every plain output closes an earlier call of its kind with an agreeing owner, and then the owner of every such call is recorded for its output. |
| `RunValidator.CheckStream` | protoprompt/injector_budgeted.py:495-508 | One stream is accepted exactly if its events are in order and each comes after the call and agrees with its owner. |
| `RunValidator.CheckStreams` | protoprompt/injector_budgeted.py:495-508 | The same for all streams; inferred ownership is complete for them. |
| `RunValidator.CheckLoneSearch` | protoprompt/injector_budgeted.py:524-544 | A lone anonymous search is accepted exactly if all outputs come after it, form a valid stream and agree with its owner. |
| `RunValidator.CheckAnonymous` | protoprompt/injector_budgeted.py:510-570 | Anonymous searches are accepted exactly if they are valid and their owners agree; ownership along every anonymous edge is then recorded, and the programs reported are those with a matched search. |
| `RunValidator.ProgramRoots` | protoprompt/injector_budgeted.py:572-579 | The table of roots holds each program call under its id, and no other. |
| `RunValidator.CheckProgramResult` | protoprompt/injector_budgeted.py:581-595 | Results of one program are accepted exactly if each comes after the root, all but the last are incomplete and the last is incomplete or completed; the completed one is returned. |
| `RunValidator.CheckProgramResults` | protoprompt/injector_budgeted.py:581-595 | The same for all programs; the table of completed results is exact. |
| `RunValidator.CheckOwned` | protoprompt/injector_budgeted.py:597-607 | Accepts exactly if each owned item comes after the root of its program. |
| `RunValidator.CheckClosed` | protoprompt/injector_budgeted.py:609-627 | Accepts exactly if nothing belongs to the program, by its own caller or through its call, after the completed result. |
| `RunValidator.ProgramIsLive` | protoprompt/injector_budgeted.py:628-647 | A program is live exactly if it has a result, an active child, an answered owned call or a matched anonymous search. |
| `RunValidator.CheckPrograms` | protoprompt/injector_budgeted.py:609-647 | All programs pass exactly if the run is closed after completed results and every program is live. |
| `RunValidator.CheckAnswered` | protoprompt/injector_budgeted.py:649-664 | Accepts exactly if every call but a program is answered or is an owned call that may stay pending. |
| `RunMeaning.CallHasOutput` | protoprompt/injector_budgeted.py:649-664 | In the fields of the items: in an accepted run a call of any kind but a program, going by an id, has a later output of that kind that repeats the id in the field of the kind, or a program made it and it is a request for approval or a shell call whose status is absent or in progress. |
| `RunMeaning.OutputHasItsCall` | protoprompt/injector_budgeted.py:478-570 | Every output of an accepted run has an earlier call of its kind by its id (the local shell's id or call id, the approval request id, the call id of all others), a bare search output an earlier bare search, a program result its program. |
| `RunMeaning.OutputNamesItsCaller` | protoprompt/injector_budgeted.py:488-493 | An output that names a program answers a call that names the same one. |
| `RunMeaning.CallsAreUnique` | protoprompt/injector_budgeted.py:447-452 | No two calls of one kind go by the same id. |
| `RunMeaning.OwnedInside` | protoprompt/injector_budgeted.py:597-627 | What names a program stands after its call and before its completed result, and is no program itself. |
| `RunMeaning.ProgramIsKept` | protoprompt/injector_budgeted.py:628-647 | Behind every program stands a result of it, something that names it and keeps it resumable, in the fields of its type, or the output of a call it made. |
| `RunMeaning.ItemsOfRun` | protoprompt/injector_budgeted.py:419-446 | Each item of an accepted run is reasoning, a call, an output or self-contained, and reasoning stands before more reasoning, a call or a self-contained item. |
| `SmallRuns.LoneRun` | protoprompt/injector_budgeted.py:275-317 | One item is a run exactly if it is self-contained, in the fields of its type, and names no program. |
| `SmallRuns.CallThenItem` | protoprompt/injector_budgeted.py:205-263 | A call and one more item are a run exactly if that is the output of its kind by its id, with a known status where outputs are streamed. |
| `SmallRuns.ProgramThenItem` | protoprompt/injector_budgeted.py:341-350 | A program and one more item are a run exactly if that is a result of it, incomplete or completed, or an item that names it and keeps it alive without an output of its own. |
| `SmallRuns.SearchThenItem` | protoprompt/injector_budgeted.py:361-402 | A bare search and one more item are a run exactly if that is a bare search output with a known status. |
| `SmallRuns.ReasoningThenItem` | protoprompt/injector_budgeted.py:426-438 | Reasoning and one more item are a run exactly if that is self-contained. |
| `SmallRuns.OwnedCallAndOutput` | protoprompt/injector_budgeted.py:478-508 | The output of a call that a program made may leave the program out or name the same one, and no other. |
| `SmallRuns.TwoOutputs` | protoprompt/injector_budgeted.py:385-402 | Only shell and search calls may have two outputs, and then exactly if the first is in progress and the second in progress, completed or incomplete. |
| `SmallRuns.TwoResults` | protoprompt/injector_budgeted.py:581-595 | A program may have two results exactly if the first is incomplete and the second incomplete or completed. |
| `SmallRuns.ReasoningBeforeCall` | protoprompt/injector_budgeted.py:426-438 | Reasoning may stand before a call and not before its output. |
| `AnonymousSearch.MatchFromTheRight` | protoprompt/injector_budgeted.py:545-570 | The right-to-left stack scan succeeds exactly if calls and outputs are balanced and owners agree along the pairing; ownership is inferred along every edge of it and along no other. |
| `AnonymousSearch.MatchIsOneToOne` | protoprompt/injector_budgeted.py:551-561 | The pairing pairs each call with one output and each output with one call. |
| `AnonymousSearch.MatchesDoNotCross` | protoprompt/injector_budgeted.py:551-561 | Pairs nest or follow each other. |
| `AnonymousSearch.BalancedMatchesCalls` | protoprompt/injector_budgeted.py:551-561 | In a balanced run every anonymous call has a later output paired with it. |
| `AnonymousSearch.BalancedMatchesOutputs` | protoprompt/injector_budgeted.py:551-561 | In a balanced run every anonymous output has an earlier call paired with it. |
| `AnonymousSearch.StackDecidesBalance` | protoprompt/injector_budgeted.py:549-570 | At the end of the scan, equal totals and an empty stack mean a balanced run, and nothing else does. |
| `AnonymousSearch.StreamIsValid` | protoprompt/injector_budgeted.py:385-402 | Events are accepted exactly if none has an unknown status and of any two the earlier is in progress and the later in progress or terminal; a lone event may have no status. |
| `RunConcatenation.ConcatIsValid` | protoprompt/injector_budgeted.py:405-664 | Two valid runs put together are a valid run if and only if they share no call pair and, where both hold anonymous searches, neither streams several outputs into one. |
| `RunLists.FlattenIsValid` | protoprompt/injector_budgeted.py:405-664 | Any list of valid runs put together is valid if and only if every two of them are compatible. |
| `HistoryGroups.GroupHistory` | protoprompt/injector_budgeted.py:788-841 | The loop returns exactly the parts of the history, each with its positions, and of each part all its items if it is complete and none otherwise. |
| `HistoryGroups.ResponseRunGroup` | protoprompt/injector_budgeted.py:667-678 | The group of a maximal run of replay items holds the run if it is valid and nothing otherwise. |
| `HistoryGroups.CollectReplies` | protoprompt/injector_budgeted.py:814-832 | All tool results directly after a request are taken; they match exactly if they are as many as the declared ids, all have an id, and the ids are the same set. |
| `HistoryGroups.GroupsPartitionHistory` | protoprompt/injector_budgeted.py:796-841 | The positions of the groups partition the history in order, and each group holds its whole stretch or nothing. |
| `HistoryParts.CutCovers` | protoprompt/injector_budgeted.py:796-841 | The parts joined again are the history; none is empty. |
| `HistoryParts.OneReplyPerId` | protoprompt/injector_budgeted.py:826-830 | Replies that match answer each declared id exactly once (comparing sizes and sets is enough). |
| `HistoryGroups.NoOrphans` | protoprompt/injector_budgeted.py:791-794 | Whatever complete parts are joined, every output has an earlier call it closes (by its pair, or an anonymous search for an anonymous output) and every tool result its request, if no item is a chat tool result and a replay item at once. |
| `GroupMeaning.MatchMeans` | protoprompt/injector_budgeted.py:826-830 | Tool results match declared ids exactly if they are as many and each id is answered, whatever their order. |
| `GroupMeaning.LoneItemIsKept` | protoprompt/injector_budgeted.py:796-841 | Of a history of one item, that item is kept exactly if it is a self-contained replay item without a program, or a chat message that is no tool result and asks for no tools in proper form. |
| `GroupMeaning.ExchangeIsKept` | protoprompt/injector_budgeted.py:681-701 | A chat message with tool results behind it is kept exactly if it is an assistant's, declares at least one id, all different and not empty, and the results answer each of them. |
| `GroupMeaning.RepeatedIdIsAmiss` | protoprompt/injector_budgeted.py:699-701 | A request that declares one id twice makes no exchange with one result for it. |
| `GroupMeaning.ClosesMeans` | protoprompt/injector_budgeted.py:226-263 | An output closes a call exactly if it repeats the id the call of its kind goes by, each in the field of that kind, or both are bare searches. |
| `GroupMeaning.OutputsHaveCalls` | protoprompt/injector_budgeted.py:791-794 | So in complete parts joined every output has before it the call of its kind whose id it repeats, or a bare search. |
| `GroupMeaning.ResultsHaveRequests` | protoprompt/injector_budgeted.py:791-794 | And every chat tool result has before it a message that asks for tools in proper form and declares its id. |
| `HistoryRegrouping.RegroupingDropsNothing` | protoprompt/injector_budgeted.py:788-841 | Grouping joined complete parts again drops nothing if and only if runs that came to stand next to each other, with only runs between, are pairwise compatible and no run that begins with a chat tool result came to stand behind an exchange. |
| `HistoryRegrouping.SelectionIsStable` | protoprompt/injector_budgeted.py:788-841 | The same for any choice among the complete groups of a history; without items that are chat tool results and replay items at once the second condition always holds and there is no orphan in the choice. |
| `HistoryRegrouping.MalformedRequest` | protoprompt/injector_budgeted.py:826-832 | Wherever in a history a request with malformed ids stands, it begins a part of its own, and it is kept exactly if no tool result follows it. |
| `HistoryRegrouping.ReplyBehindExchange` | protoprompt/injector_budgeted.py:814-832 | A complete exchange followed by one more tool result is complete no longer. |
| `HistoryRegrouping.CutBefore` | protoprompt/injector_budgeted.py:796-841 | A part ends before every item that is neither a replay item nor a chat tool result: what stands before it and what stands from it on are grouped independently. |
| `HistoryRegrouping.AmbiguousItemBreaksRegrouping` | protoprompt/injector_budgeted.py:799-834 | The second condition of regrouping is needed: two complete parts without neighbouring runs whose joint history loses the first. |
| `HistorySelection.SelectHistory` | protoprompt/injector_budgeted.py:1566-1615 | The newest-first pass keeps, in original order, the best feasible choice of complete groups (lexicographically greatest, newest first), spends what the kept groups cost, records every group once and reports the positions of those not kept. |
| `HistorySelection.BestIsUnique` | protoprompt/injector_budgeted.py:1566-1615 | There is only one best choice. |
| `HistorySelection.DecisionOfGroup` | protoprompt/injector_budgeted.py:1573-1611 | The record of a group stands at its place counted from the newest and names its positions: incomplete, and never counted, if the group is empty; included at its cost if it is kept; else over budget, charged nothing, with its cost as a candidate. |
| `HistorySelection.DroppedPositions` | protoprompt/injector_budgeted.py:1579-1594 | A position is reported as dropped exactly if a group that was not kept covers it. |
| `HistorySelection.SpentIsCounted` | protoprompt/injector_budgeted.py:1569-1614 | For a counter that adds up, what was spent is the counted cost of the kept items as one list. |
| `TailDependency.TailHistoryDependency` | protoprompt/injector_budgeted.py:745-785 | A final input that begins with tool results is let through exactly if they answer the last request of the history one to one; one that begins with replay outputs exactly if they complete the trailing run; the dependency is then the end of the history, from the returned start on. |
| `TailDependency.TailResponseDependency` | protoprompt/injector_budgeted.py:704-742 | Leading outputs are let through exactly if the trailing run of the history and they are one valid run. |
| `TailDependency.ChatToolResultsMatch` | protoprompt/injector_budgeted.py:760-779 | Collecting distinct ids and comparing them as sets accepts exactly the results that answer each declared id once. |
| `GroupMeaning.ToolTailMeans` | protoprompt/injector_budgeted.py:745-779 | Tool results in front of the final input are let through exactly if the last message of the history asks for tools in proper form and they answer each of its ids. |
| `TailDependency.NoRunBeginsWithOutput` | protoprompt/injector_budgeted.py:731-732 | Outputs alone are never a valid run, so refusing them without looking is right. |
| `TailDependency.ChatDependencyIsOneGroup` | protoprompt/injector_budgeted.py:745-779 | Tool results that are let through form one complete group with the request before them, and grouping cuts right after them. |
| `TailDependency.ResponseDependencyIsOneGroup` | protoprompt/injector_budgeted.py:704-742 | Outputs that are let through form one complete run with the run before them; grouping cuts nothing between them, and the first part is that run with whatever replay items follow the outputs. |
| `ContextAllocator.TruncateToFit` | protoprompt/injector_budgeted.py:1321-1333 | The word count found by bisection was tried and fits, or is 0; if shorter never fits worse it is the largest that fits. |
| `ContextAllocator.LongestFitFits` | protoprompt/injector_budgeted.py:1321-1333 | The same for the search on any interval. |
| `ContextText.OneCut` | protoprompt/injector_budgeted.py:1321-1333 | A cut of m words reads: the first m words with one blank between neighbours, then an ellipsis, so that without the ellipsis it is the beginning of all the words; there is no other such text. |
| `ContextText.PrefixSpelling` | protoprompt/injector_budgeted.py:1321-1333 | The first pieces joined are the beginning of all the pieces joined. |
| `ContextText.AssembledReads` | protoprompt/injector_budgeted.py:1299-1319 | The prompt reads, a blank line between sections: system prompt, profile, retrieved blocks between rules, and the session blocks under their header, each if it is there and in this order. |
| `ContextText.OnePrompt` | protoprompt/injector_budgeted.py:1299-1319 | No other text reads like that. |
| `ContextAllocator.FillLayerLoop` | protoprompt/injector_budgeted.py:1207-1229 | The loop over the candidates of a layer does what the specification of a layer says. |
| `ContextAllocator.FillLayersLoop` | protoprompt/injector_budgeted.py:1203-1231 | The loop over the layers does what the specification of the filling says. |
| `ContextAllocator.FillLayersWithinBudget` | protoprompt/injector_budgeted.py:1203-1231 | For any counter the counted prompt never exceeds the budget, and the running total is its count. |
| `ContextAllocator.FillTakesPrefixes` | protoprompt/injector_budgeted.py:1203-1231 | Of each layer blocks are taken whole in retrieval order exactly as long as they fit beside what is taken; of the first that does not fit the first m words are taken, joined by single blanks and followed by an ellipsis, a text that was tried and fits; m is what the search over such texts finds, the most that fit where fewer never fit worse. If there are any, filling ends there, and otherwise it goes on with the next layer, so at most one block is cut. |
| `ContextAllocator.FillRecordsAll` | protoprompt/injector_budgeted.py:1135-1231 | Every candidate of the layers filled is recorded exactly once, in order. |
| `ContextAllocator.FillTold` | protoprompt/injector_budgeted.py:1135-1231 | The record of each candidate counts its text and says whether it was taken whole or cut; the rest of a layer is over budget, or the budget is exhausted if a block of it or of the layer before was cut. |
| `ContextAllocator.FillDropsOnce` | protoprompt/injector_budgeted.py:1192-1196 | Whatever layers are named, and however often, no block is recorded as dropped twice. |
| `ContextAllocator.MarginalCostsAddUp` | protoprompt/injector_budgeted.py:1171-1190 | Recorded marginal costs add up to what the blocks added to the count of the prompt. |
| `ContextAllocator.FillIsValid` | protoprompt/context_plan.py:41-53 | Where more text never counts less, no record has a negative cost. |
| `ContextBuilder.PromptWithinBudget` | protoprompt/injector_budgeted.py:997-1062 | For any counter the assembled prompt, system prompt and profile included, is empty or counts at most the budget, and its count is the running total. |
| `ContextBuilder.PromptWithoutRoom` | protoprompt/injector_budgeted.py:997-1062 | With a budget of 0 nothing is retrieved, and the prompt is not empty exactly if the text it would open with, system prompt or else profile, is there and counts as nothing. |
| `ContextBuilder.FillingCharges` | protoprompt/injector_budgeted.py:997-1231 | The records of system prompt, profile and blocks charge, together, the running total. |
| `ContextBuilder.RecordPolicyExcluded` | protoprompt/injector_budgeted.py:1233-1244 | Candidates of a layer the priorities leave out are recorded unless they are already. |
| `ContextBuilder.RecordRest` | protoprompt/injector_budgeted.py:1233-1251 | The records stand in this order: system prompt, profile, without room each layer asked for, every candidate of the layers filled and then of those left out exactly once, each layer not asked for; the last ones say policy excluded and not requested. |
| `ContextBuilder.Build` | protoprompt/injector_budgeted.py:949-1297 | Fails exactly if the system prompt alone is over budget or a record is refused. Otherwise the prompt reads as system prompt, then the profile asked for if it fits whole, then the first retrieved blocks and the first session blocks, of layers named and asked for and only with room left, all whole but at most one, which is cut to its first words; it is within the budget; every candidate has one record, each record says what happened and why, and together they charge what the prompt counts. |
| `ContextBuilder.BuiltIsRead` | protoprompt/injector_budgeted.py:949-1251 | What was built reads like that: texts, order of sections, which blocks and how far, and verdict, reason and cost of each record, without the functions that fill it. |
| `ContextBuilder.ContextTakesPrefixes` | protoprompt/injector_budgeted.py:1064-1231 | The same as of filling for the blocks of a whole context; the layers filled are those the priorities name, in the order they name them. |
| `ContextBuilder.RecordsAreValid` | protoprompt/context_plan.py:41-53 | Where adding a block or a profile never lowers the count, no record is refused. |
| `RequestPlanner.PlanRequest` | protoprompt/injector_budgeted.py:1366-1652 | For any counter a plan fits the ceiling and its receipt adds up to it. Its messages read: the context prompt, if there is one, as the first with role system; the host's guard (system) and data (user) directly behind; the best choice of history, then its last messages that the input depends on; the final messages as given, or the user message, if not empty, last with role user. Receipt and records count those very messages. Bad arguments, a missing dependency and the reserve are reported exactly; each overflow names its guard's section, what was needed and the limit, and the host lane is blamed only if the rest would fit. For a conforming counter: when it fails and at which guard is exact, and the records charge what the receipt says. |
| `RequestPlanner.PlanReads` | protoprompt/injector_budgeted.py:1366-1652 | Every plan reads like that, in roles, texts and numbers, without the functions that lay it out. |
| `RequestPlanner.PlanLaidOut` | protoprompt/injector_budgeted.py:1435-1652 | The same from the required input on: with a conforming counter it fails exactly for the system prompt or for an opening text that counts as nothing, and which guard reports it is exact. |
| `RequestPlanner.ContextLeavesRoom` | protoprompt/injector_budgeted.py:1435-1530 | For a conforming counter the context built leaves a negative remainder exactly if the framing does not fit and the context opens with a text that counts as nothing. |
| `RequestPlanner.PlanCharges` | protoprompt/injector_budgeted.py:1500-1652 | For a conforming counter the records of context, lane, reserve, final input, dependency, framing and history charge exactly what the receipt says is used. |
| `RequestPlanner.FinishPlan` | protoprompt/injector_budgeted.py:1500-1652 | From the context on: history is the best choice in what is left, records and receipt are exact; the framing guard is reached exactly if nothing is left, and each of the two late guards says what was needed; where the counter adds up and the context left room, planning succeeds and reconciles. |
| `RequestPlanner.LayOut` | protoprompt/injector_budgeted.py:1405-1416 | A request is laid out exactly if the dependency of its final input is there. |
| `RequestPlanner.ContextFits` | protoprompt/injector_budgeted.py:1435-1449 | For a conforming counter a context within its budget leaves a negative remainder exactly if there is a prompt and no room for its framing. |
| `RequestPlanner.SystemFitsExactly` | protoprompt/injector_budgeted.py:997-999 | For a conforming counter the context fails exactly if the system prompt with its framing does not fit beside the rest, except for one that counts as nothing, which a later guard notices. |
| `RequestPlanner.BlankProfileOpens` | protoprompt/injector_budgeted.py:1435-1530 | A conforming counter, a reserve that is all of the ceiling and a blank profile: the caller insists on no more than the ceiling, and the context opens all the same. |
| `PlannedRequests.KeptHistoryIsStable` | protoprompt/injector_budgeted.py:1566-1615 | The history a plan keeps is a choice of complete parts: regrouping it drops nothing exactly if neighbouring runs are compatible and no exchange swallows the run behind it, and without ambiguous items it has no orphan. |
| `PlannedRequests.PlannedHistoryIsStable` | protoprompt/injector_budgeted.py:1522-1620 | Grouping kept history, dependency and leading answers of a plan together drops nothing exactly if neighbouring runs are compatible, no exchange swallows the run behind it, and a request the final input answers is no input-only item. |
| `PlannedRequests.PlannedRequestHasNoOrphan` | protoprompt/injector_budgeted.py:1522-1620 | In every planned request, up to the outputs the final input begins with, each output, anonymous ones included, comes after a call it closes and each tool result after its request. |
| `PlannedRequests.TokenBudgetedContextBuilder.PlanMessages` | protoprompt/injector_budgeted.py:1335-1365 | What holds of planning, with its refusals and with what its messages, receipt and records read like, holds of the builder; it keeps the receipt of its last plan, and a refused request leaves it as it was. |
| `ReferenceIndex.Index.OnAdd` | protoprompt/agent/references.py:98-120 | Every earlier item counts one reference for each mentioned name the index lists it under; the new item's definitions are registered; the touched items are returned with exactly the names found. |
| `ReferenceIndex.Index.RegisterDefs` | protoprompt/agent/references.py:122-125 | The item becomes an owner of each name, nothing else changes. |
| `ReferenceIndex.Index.Forget` | protoprompt/agent/references.py:127-130 | The item is no owner of any name any more, nothing else changes. |
| `ReferenceIndex.BumpIsNaiveScan` | protoprompt/agent/references.py:105-117 | With an exact index each earlier item counts as many references as a scan of all items would: the mentioned names it defines. |
| `ReferenceIndex.ExactForgotten` | protoprompt/agent/references.py:127-130 | Taking an item out of the hot set and the index keeps the index exact. |
| `ReferenceIndex.ExactRegistered` | protoprompt/agent/references.py:118-125 | Registering a new item keeps the index exact. |
| `Manifest.ManifestList.Restore` | protoprompt/agent/manifest.py:51-56 | The first entry of the item is removed and returned; without one nothing changes. |
| `Manifest.ManifestList.FindBySymbols` | protoprompt/agent/manifest.py:66-79 | Returns exactly the entries with a wanted symbol; who shares more of them comes first, and of those who share as many who was evicted earlier. |
| `Manifest.BySymbolsIsRanked` | protoprompt/agent/manifest.py:66-79 | Exactly the entries with a wanted symbol are found; for any two the earlier shares more wanted symbols, or as many and was evicted no later; those that agree in both stay as recorded. |
| `Manifest.ManifestList.Search` | protoprompt/agent/manifest.py:58-64 | The loop finds the entries that mention the needle. |
| `Manifest.SearchedAre` | protoprompt/agent/manifest.py:58-64 | Each place in the list whose entry mentions the needle is found once, in order, and no other. |
| `StableSort.SortedIsStable` | protoprompt/agent/manifest.py:78-79 | The sort is ordered, keeps the elements, and keeps ties as they stood. |
| `MemoryState.Weakest` | protoprompt/agent/working.py:691-703 | The victim is the first unpinned item with the lowest score; there is none only if all are pinned. |
| `MemoryState.OldestPinned` | protoprompt/agent/working.py:289-293 | A pinned item with the lowest step; there is none only if none is pinned. |
| `MemoryState.OldestIsLeast` | protoprompt/agent/working.py:289-293 | Where ids are ordered as strings are, no pinned item comes before it by step and id. |
| `MemoryState.Duplicate` | protoprompt/agent/working.py:265-281 | A duplicate is a live note with a vector whose similarity reaches the threshold; no note is more similar, and those before it are less; there is none only if no note reaches the threshold. |
| `MemoryState.Merged` | protoprompt/agent/working.py:246-262 | Merging keeps the longer of two texts, the older one on a tie, under the same id and lineage, and changes no other item. |
| `MemoryMeaning.InsertedReads` | protoprompt/agent/working.py:180-217 | A new item stands last, with a new id, the names its text mentions and defines and its embedding; it owns exactly the names it defines, and each earlier item counts one reference for each name that is mentioned and that it defines. |
| `MemoryMeaning.EvictedReads` | protoprompt/agent/working.py:709-765 | An evicted item is gone with every name it owned, the others are as they were; if it can be named, an entry under its lineage with the names it defines is last in the manifest and its document in the store; if not, the operation breaks off with neither. |
| `MemoryMeaning.EvictedIsFound` | protoprompt/agent/working.py:749-756 | By names an evicted item is found exactly if it defines one of them; mentioning a name is not enough. |
| `MemoryEviction.ShrinkIsSortAndCut` | protoprompt/agent/working.py:687-707 | Evicting the weakest unpinned item again and again evicts a prefix of the unpinned items sorted by score, ties by insertion. |
| `MemoryEviction.CutIsShortest` | protoprompt/agent/working.py:687-707 | That prefix is the shortest that brings usage within the limit, all of them if none does, or as many as the guard allows. |
| `MemorySweep.ShrinkSweeps` | protoprompt/agent/working.py:687-775 | Enforcing a limit, as one step: the hot set is the old one without those who go, in order; the index has forgotten them; the manifest has one entry more for each that could be named, in the order they went, and the store its document; each that went is counted; it breaks off exactly if one of them cannot be named. |
| `MemorySweep.DoomedIsShortest` | protoprompt/agent/working.py:687-707 | Who is to go is distinct, hot and unpinned, and is the shortest prefix of the order by score without which usage is within the limit, all of the order, or as many as the guard allows. |
| `MemorySweep.PinnedAreSpared` | protoprompt/agent/working.py:687-707 | No pinned item goes. |
| `MemorySweep.GoneAndListed` | protoprompt/agent/working.py:709-775 | If all who are to go can be named they all leave and are written down; otherwise they leave up to the first that cannot be named, which alone is not written down. |
| `MemorySweep.ForgottenEach` | protoprompt/agent/references.py:127-130 | After the sweep each name is owned by those who owned it and did not go. |
| `MemorySweep.StoredEach` | protoprompt/agent/working.py:720-747 | With a store each document is under the lineage of its item, and no other document has changed. |
| `MemorySweep.UsedOfSpared` | protoprompt/agent/working.py:159-160 | What is spared weighs what all did, less those who went. |
| `MemorySweep.SweptState` | protoprompt/agent/working.py:709-775 | Evicting a list of hot items one after the other has, on every part of the state, the effect of the one step. |
| `MemoryEviction.CapUnpinsOldest` | protoprompt/agent/working.py:283-300 | The pin cap unpins the shortest run of oldest pinned items that brings the rest within it. |
| `RecallBatch.ShrinkBound` | protoprompt/agent/working.py:687-707 | Shrinking meets the limit or leaves pinned items only, unless it breaks off; it keeps every pinned item and evicts nobody exactly if it does nothing. |
| `MemoryRecall.SelectedIsChosen` | protoprompt/agent/working.py:377-431 | No chosen candidate has the lineage of a hot item or of another candidate. |
| `MemoryRecall.SymbolsExplained` | protoprompt/agent/working.py:388-431 | The symbol channel leaves no ranked entry behind unless enough was found, its document exceeds the budget, or its lineage is there already. |
| `MemoryRecall.SymbolsFromEntries` | protoprompt/agent/working.py:397-431 | What it adds comes from an entry: its document if that can be read and fits, its summary if nothing can be read. |
| `MemoryRecall.HitsExplained` | protoprompt/agent/working.py:443-496 | The semantic channel keeps what the symbols found, adds only hits out of quarantine, not empty and within the budget, and leaves none of those behind unless enough was found or the lineage is there already. |
| `MemoryRecall.SelectionExplained` | protoprompt/agent/working.py:363-499 | Both together: no more than asked for, and no matching entry and no hit is left behind without such a reason. |
| `MemoryRecall.SelectedInOrder` | protoprompt/agent/working.py:388-431 | The symbols' picks come first, each from a listed entry with a symbol of the query; none stands before one whose entry shares more, or as many and was evicted earlier; the others come from hits. |
| `MemoryRecall.TrimmedIsLongest` | protoprompt/agent/working.py:501-513 | The batch is the longest prefix of the choice within the budget, or its first candidate alone. |
| `MemoryRecall.RecallUndoesEviction` | protoprompt/agent/working.py:544-574 | What an eviction wrote can be read back from its entry, and an item that takes over from it has its text, lineage and references, and one recall more. |
| `MemoryRecall.MakingRoomIsShrinking` | protoprompt/agent/working.py:515-542 | The filter on staged lineages excludes no live item, so making room is enforcing a budget smaller by the batch. |
| `RecallBatch.BatchStays` | protoprompt/agent/working.py:515-574 | With at most 10000 unpinned items and once room is made, committing evicts nobody exactly if pinned tokens and batch fit the budget; then every chosen item is live on return, the budget holds and every pinned item is still there. |
| `RecallBatch.RecallRestoresBatch` | protoprompt/agent/working.py:363-574 | The same for whatever a recall selects and trims; if making room breaks off, so does the recall. |
| `RecallBatch.RecalledInOrder` | protoprompt/agent/working.py:388-574 | Then the ids returned first are those of what the symbols picked, in that order, each live with the text and lineage of its entry's document or with its summary. |
| `RecallBatch.CommitAll` | protoprompt/agent/working.py:544-574 | A batch is committed without eviction exactly if it fits as a whole. |
| `MemoryNoLoss.EvictKeeps` | protoprompt/agent/working.py:709-775 | Eviction into a store keeps everything exactly if the item can be named, and otherwise loses its lineage; what was lost before stays lost, and what is held stays held in one place with its latest text. |
| `MemoryNoLoss.AddKeeps` | protoprompt/agent/working.py:180-236 | Adding loses something exactly if it breaks off and not for want of a name for the new text; what it loses could not be named. |
| `MemoryNoLoss.NoteKeeps` | protoprompt/agent/working.py:238-281 | So does noting; merging loses nothing. |
| `MemoryNoLoss.ForgetKeeps` | protoprompt/agent/working.py:325-327 | Forgetting loses something exactly if it breaks off. |
| `MemoryNoLoss.ShrinkKeeps` | protoprompt/agent/working.py:687-707 | Enforcing a limit loses something exactly if it breaks off. |
| `MemoryNoLoss.RoomKeeps` | protoprompt/agent/working.py:515-542 | Making room for a batch likewise. |
| `RecallNoLoss.CommitAllKeeps` | protoprompt/agent/working.py:544-574 | Committing a batch likewise; failing with a KeyError loses nothing. |
| `RecallNoLoss.RecallKeeps` | protoprompt/agent/working.py:363-574 | Recall loses something exactly if it breaks off for want of a name; failing with a KeyError loses nothing. |
| `MemoryRuns.RunKeeps` | protoprompt/agent/working.py:180-661 | Over every run of an equipped memory, broken off or not: each lineage that is hot or listed is so in one place only, with its latest text in the item or in the document its entry leads to; what is lost could not be named; and something is lost exactly if some operation breaks off other than for want of a name for its own text. |
| `MemoryRuns.RunLosesNothing` | protoprompt/agent/working.py:180-661 | Where nothing was lost before, nothing is lost over a run exactly if no operation of it breaks off other than for want of a name for its own text. |
| `MemoryRuns.StepKeeps` | protoprompt/agent/working.py:180-661 | The same for one operation, whatever it is. |
| `MemoryRuns.RunCoherent` | protoprompt/agent/working.py:180-661 | After any sequence of operations, broken off or not, ids are distinct, the index is exact and steps increase. |
| `MemoryRuns.RunNamed` | protoprompt/agent/working.py:180-661 | Where every text written has a name, no operation of any run breaks off and every hot item can be named. |
| `MemoryRuns.RunFromEmpty` | protoprompt/agent/working.py:68-109 | From an empty memory on, over every run: ids, index and steps are coherent, and with a store and a model every lineage whose latest text is not blank is in the hot set or in the store, not both, with that text. |
| `MemoryRuns.NamedRunFromEmpty` | protoprompt/agent/working.py:180-661 | Where every text written has a name, nothing breaks off and nothing at all is lost. |
| `MemoryFaults.ShrinkBreaksOff` | protoprompt/agent/working.py:687-775 | Enforcing a limit breaks off exactly if somebody who is to go cannot be named. |
| `MemoryFaults.AddBreaksOff` | protoprompt/agent/working.py:180-236 | Adding breaks off exactly if the new item cannot be named, or somebody who is to go for it cannot. |
| `MemoryFaults.ForgetBreaksOff` | protoprompt/agent/working.py:325-327 | Forgetting breaks off exactly if the item is there and cannot be named. |
| `MemoryFaults.RoomBreaksOff` | protoprompt/agent/working.py:515-542 | Making room for a batch breaks off exactly if somebody who is to go for it cannot be named. |
| `MemoryFaults.CommitBreaksOff` | protoprompt/agent/working.py:544-574 | Committing a pick breaks off exactly if somebody who is to go for it cannot be named. |
| `MemoryFaults.RecallBreaksOff` | protoprompt/agent/working.py:363-574 | A recall whose batch fits beside the pinned items breaks off exactly if somebody who is to make room for it cannot be named. |
| `MemorySnapshots.SnapshotRoundTrip` | protoprompt/agent/working.py:577-661 | Read back, items and goal are the same exactly if no vector was empty; manifest, counters and index lookups are the same in any case. |
| `MemoryLosses.EvictionNeedsStore` | protoprompt/agent/working.py:723-747 | An eviction keeps everything exactly if there is a store and the item can be named. |
| `MemoryLosses.UnnamedIsLost` | protoprompt/agent/working.py:716-730 | Evicting an item without summary and with a blank text breaks off, and its lineage is neither hot nor listed any more. |
| `MemoryLosses.NamelessItem` | protoprompt/agent/working.py:180-236 | Adding an empty text to an empty memory breaks off and loses nothing; forgetting that item breaks off and loses it. |
| `MemoryLosses.BlankDuplicateUnnames` | protoprompt/agent/working.py:246-262 | Merging a longer blank duplicate takes the name of a note away without breaking off. |
| `MemoryLosses.StaleCounterClashes` | protoprompt/agent/working.py:169-178 | A restarted counter that repeats the id of a listed lineage gives a new item that lineage. |
| `MemoryLosses.RecallNeedsText` | protoprompt/agent/working.py:402-414 | Where the store cannot be read by id, recall by symbol loses the text unless the summary was all of it. |
| `MemoryLosses.OfflineRecallLoses` | protoprompt/agent/working.py:433-441 | Without a model, a recalled summary is a new note and the lineage of its entry is gone, unless the recall broke off before. |
| `MemoryLosses.MergeIgnoresBudget` | protoprompt/agent/working.py:246-262 | A longer duplicate changes usage by the difference and evicts nobody. |
| `MemoryAssembly.PackingIsGreedy` | protoprompt/agent/working.py:343-359 | An item is left out of the assembled context exactly if it does not fit beside the better ones taken, and the total fits a budget that is not negative. |
| `MemoryAssembly.Pack` | protoprompt/agent/working.py:343-361 | The loop takes and skips as the greedy specification says. |
| `MemoryAssembly.HottestFirst` | protoprompt/agent/working.py:335-341 | The sort puts no item before one with a higher score and keeps items with equal scores as they stood. |
| `MemoryAssembly.PackedDescends` | protoprompt/agent/working.py:335-359 | The blocks packed descend in score. |
| `WorkingMemory.Memory.EvictItem` | protoprompt/agent/working.py:709-775 | The whole new state of an eviction, whether the item was there, and the IndexError where it cannot be named. |
| `WorkingMemory.Memory.EnforceBudget` | protoprompt/agent/working.py:687-707 | The loop leaves the state of shrinking to the budget and breaks off exactly if that does. |
| `WorkingMemory.Memory.EnforcePinCap` | protoprompt/agent/working.py:283-300 | The loop leaves the items of the capped specification. |
| `WorkingMemory.Memory.NextItemId` | protoprompt/agent/working.py:169-178 | The id drawn is the first from the counter on that no hot item carries; the loop ends. |
| `WorkingMemory.Memory.Add` | protoprompt/agent/working.py:180-236 | The whole new state of adding, and the id returned or the IndexError raised, for any text. |
| `WorkingMemory.Memory.FindDuplicateNote` | protoprompt/agent/working.py:265-281 | The first most similar live note, if it reaches the threshold. |
| `WorkingMemory.Memory.Note` | protoprompt/agent/working.py:238-263 | The whole new state of noting, and the id returned or the IndexError raised, for any text. |
| `WorkingMemory.Memory.Forget` | protoprompt/agent/working.py:325-327 | The state of a manual eviction, whether the item was there, and the IndexError where it cannot be named. |
| `WorkingMemory.Memory.Assemble` | protoprompt/agent/working.py:331-361 | Missing vectors are filled, the items are sorted stably and packed, and the blocks descend in score. |
| `WorkingMemory.Memory.PickBySymbols` | protoprompt/agent/working.py:388-431 | The symbol channel selects what the specification selects: from entries with a symbol of the query, who shares more first. |
| `WorkingMemory.Memory.PickByMeaning` | protoprompt/agent/working.py:443-496 | The semantic channel selects what the specification selects. |
| `WorkingMemory.Memory.TrimBatch` | protoprompt/agent/working.py:501-513 | The last candidates are given up until the batch fits the budget or one is left. |
| `WorkingMemory.Memory.MakeRoom` | protoprompt/agent/working.py:515-542 | The loop leaves the state of making room and breaks off exactly if that does. |
| `WorkingMemory.Memory.CommitBatch` | protoprompt/agent/working.py:544-574 | The whole new state of the commit, and the ids restored or which error broke it off. |
| `WorkingMemory.Memory.RecallOffline` | protoprompt/agent/working.py:433-441 | Without a model or a store and without symbols: the whole new state, and the ids of the notes or the error that broke it off. |
| `WorkingMemory.Memory.Recall` | protoprompt/agent/working.py:363-574 | The whole new state of recall, and the ids restored or which error broke it off; what was selected is in the order of `MemoryRecall.SelectedInOrder`. |
| `WorkingMemory.Memory.ImportState` | protoprompt/agent/working.py:621-661 | The state read back, with a new index and a new manifest. |
| `EmbeddingCache.InMemoryEmbeddingCache.Get` | protoprompt/cache.py:49-53 | A hit is moved to the end and its value returned; a miss changes nothing. |
| `EmbeddingCache.InMemoryEmbeddingCache.Put` | protoprompt/cache.py:55-59 | The key is moved or appended to the end with the new value, and the oldest slots go until the capacity holds. |
| `EmbeddingCache.LargerCacheIncludes` | protoprompt/cache.py:42-59 | For any trace and capacities c <= d: what is held at c is held at d with the same value and in the same order of recency, neither exceeds its capacity, and hits do not decrease. |
| `EmbeddingCache.HitsAreCounted` | protoprompt/cache.py:49-53 | Hits are counted once for each get that finds its key held. |
| `EmbeddingCache.HeldIsLastPut` | protoprompt/cache.py:49-59 | What is held under a key is what was put there last, whatever was evicted in between. |
| `EmbeddingCache.GetIncluded` | protoprompt/cache.py:49-53 | A get keeps the inclusion of a smaller cache in a larger one. |
| `EmbeddingCache.PutIncluded` | protoprompt/cache.py:55-59 | A put with its evictions keeps the inclusion. |
| `CachedClient.CachedLLMClient.Embed` | protoprompt/cache.py:124-158 | For a deterministic client behind and a cache that agrees with it: the same vectors in the same order as asked directly; in any case it is asked at most once, for exactly the positions missed. |
| `CachedClient.CachedLLMClient.LookUp` | protoprompt/cache.py:127-134 | Hits are the cached vectors, misses exactly the positions whose text was not cached; nothing is added or changed. |
| `CachedClient.CachedLLMClient.StoreAll` | protoprompt/cache.py:140-144 | What was fetched goes to the positions missed and into the cache, which goes on agreeing. |
| `CachedClient.CachedLLMClient.constructor` | protoprompt/cache.py:78-91 | An absent cache and one that is still empty are replaced by a fresh one of capacity 2048. |
| `RedisProfiles.StepKeeps` | protoprompt/integrations/redis.py:229-262 | Every command of every caller and every foreign put, delete, renewal and expiry keeps the invariant of optimistic locking. |
| `RedisProfiles.StepReads` | protoprompt/integrations/redis.py:215-262 | The key is written by puts, deletes, expiries and transactions that go through, touched by these and by reads that renew it, and by nothing else; a call keeps what it wants to put and what it expects. |
| `RedisProfiles.WhatIsNext` | protoprompt/integrations/redis.py:237-260 | A caller watches, reads, and then puts exactly if the version is the expected one, or the key is absent and none is expected, and else gives up the watch. |
| `RedisProfiles.ExecTakesEffect` | protoprompt/integrations/redis.py:250-258 | A transaction goes through exactly if the key was not touched since the watch; then the stored value has the version the caller expected, or there is none and none was expected, and it is replaced by the caller's. Otherwise nothing is stored and the call starts again, unless that was its last attempt. |
| `RedisProfiles.AnyInterleaving` | protoprompt/integrations/redis.py:229-260 | After any interleaving, what a success wrote came directly after the value its caller had read, no two had read the same one, and that value had exactly the version expected, or was absent where none was expected. False was answered only if at some moment of the call the stored version was another one, or a value was there unexpectedly, or none was. Giving up took exactly as many attempts as allowed and a touch of the key for each. |
| `SessionWrite.CompressAndStore` | protoprompt/pipeline.py:77-124 | The documents after a call that dies after any number of its four writes; a short or empty session writes nothing; a call that finishes leaves its blocks under the chat's own id, no copy, and every other document as it was. |
| `SessionWrite.DocStore.Add` | protoprompt/store/sqlite.py:64-89 | A replacing store holds the new blocks alone; an appending one adds them. |
| `SessionWrite.WritesSurvive` | protoprompt/pipeline.py:121-124 | From the first write on the blocks of the call are whole in the document or its copy after a crash at any point. |
| `SessionWrite.FinishedIsClean` | protoprompt/pipeline.py:121-124 | A call that finishes leaves its own blocks under the main id, no copy, and other documents as they were. |
| `SessionWrite.LatestSurvives` | protoprompt/pipeline.py:26-30 | Over any run of calls cut off anywhere the block set written last for a chat survives, if no chat is called like another's copy. |
| `SessionWrite.NameClashLoses` | protoprompt/pipeline.py:107-124 | A finished call for one chat removes another chat's document exactly if that chat is called like the first one's copy. |
| `SessionWrite.CopyAccumulates` | protoprompt/store/memory.py:9-28 | In a store that appends, interrupted calls pile up in the copy. |

## Left out

- Reports and observation: `BudgetReport`, hooks, events, traces and loggers; of the builder's state only the last receipt.
- Plan rendering and freezing: `ContextPlan` as a JSON snapshot, opaque source references, scores, `explain()`.
- The host data lane beyond its two rendered messages; its own validation and byte accounting.
- Retrieval, ranking, embeddings, scoring and text extraction: inputs or arbitrary functions. Splitting a text into
  words and rendering a profile are parameters too.
- Values that make the program raise before any of the modelled decisions: types or statuses that cannot be hashed,
  counters that return something else than a natural number.
- Block ids are values of a datatype, not strings.
- A record with a negative cost is refused when the filling ends, not when it is made; nothing is visible in between.
- Each candidate is recorded once only if a layer stands at most once among the priorities (`Distinct`); repeated layers
  would offer their candidates twice.
- PlannedRequests.PlannedRequestHasNoOrphan: assumes that no item is a replay item and at once a chat tool message; an exchange may else hold an output whose call is nowhere.
- HistoryGroups.NoOrphans: assumes that no item is a replay item and at once a chat tool result, for the same reason.
- MemoryRuns.RunNamed: takes it that a text that starts with the marker of the cold store is not blank, which the marker makes true.
- WorkingMemory.Memory.PickByMeaning: the hits are documents of the store in any order and number; asynchronous stores and metadata of foreign documents are not modelled.
- Memory items are values in a list that the memory object replaces, not objects shared with callers: a caller that keeps
  an item and changes it later is outside the model.
- The namespace and scope of cold documents: one memory, one namespace, so a document stands under its lineage.
- Failures of the embedding client or the store in the middle of an operation.
- Setting a pin, touching an item, setting the goal and exporting a snapshot are modelled but say no more than their bodies; they have no row.
- Scores are real numbers; the rounding of the score shown with an assembled block is not modelled.
- JSON encoding of a snapshot; sets read back as sets.
- EmbeddingCache.LargerCacheIncludes: digests are taken to be injective, so a key is the model and the text.
- Asynchronous and Redis-backed embedding caches, `chat` and `chat_stream`.
- RedisProfiles.AnyInterleaving: one key; a caller whose connection is lost is one that takes no further step.
- The store calls of the session write are atomic each; what a backend does inside one call is not modelled. Two calls
  for the same chat that run at the same time are not modelled either.
- Provider clients, sessions, the profile engine, the memory ledger, search and vector stores, integrations and benchmarks.
