# Verified models of the orchestrator's core

Dafny models of six parts of the orchestrator, each with its methods proved against specification
functions and its promises proved about those functions.

**The display log** (`DisplayLog`, `DisplayState`, `DisplayIndex`, `DisplayRuns`, `DisplayFaults`,
`DisplayNumbering`, `DisplayFields`, `DisplayRebuild`, `DisplayOrder`, `DisplayTyping`,
`DisplayInterleaving`, `DisplayRace`, `DisplayWriter`). An agent's chat is a file of lines read as
"the last line about an id wins". Pending entries are mirrored by an index in memory; delivered
messages are numbered, and the numbers are committed to a table after the lines are written.
`DisplayState` gives each operation as a function on file, table and index, with every way its writes
can end; `DisplayWriter` is the class with the mutable fields. `DisplayRuns` gives for each step, crashes included, the exact
condition under which index, file and table stay in agreement; `DisplayFaults` gives what every step
keeps where they are not. The theorems range over all sequential runs, with nothing asked of how a
step ends (`IndexIsReplay`, `NumbersAreCrashSafe`, `CreatedFirstIsSentFirst`, `TypedOnceExactly`),
over all interleavings of half operations (`QuiescentIndexIsReplay`), and over all interleavings of
a rebuild with creates (`RebuildLosesExactly`). `DisplayFields` says of each operation, field by
field, what a reader finds afterwards.

**The session parser** (`Transcript`, `SessionParser`, `ParserMachine`, `ParserSteps`,
`ParserAnswers`, `ParserSpeech`, `ParserTheorems`, `ParserReading`, `ParserBlocks`), with the
matching of answers (`PositionalMatching`, `InteractiveItems`, `DerivedAnswers`) and the merge of
answers (`MergeMeta`). `ParserSteps` says what one step may do to turns and cards as a relation that composes; `ParserAnswers` follows
each card through the calls and results of the document; `ParserSpeech` defines where the document
is cut into runs of text. `ParserTheorems` draws from them that re-reading a longer file does not
disturb what was settled, that cards are conserved, and that everything said comes out in document
order. `ParserReading` and `ParserBlocks` say what each kind of entry and block is read as, in its
own words.

**Forking** (`SessionFork`). A transcript is cut, trimmed, renamed and closed with a marker; the
main theorems say what the parser makes of the result, and when every call in it has its result.

**Prompts** (`TaskPrompts`, `PromptText`, `PromptUnwrap`, `PromptRoundTrip`, `AgentPreamble`,
`AgentLegacy`, `ContentMatcher`, `MatchOrder`). The printer and the three unwrappers, with the exact
conditions under which the user's text comes back, and the order in which candidates are tried.

**Session ownership** (`SessionOwnership`, `SessionRows`). The fixed-point loop with its memo, and
the table it is stored in.

**Cache, permissions, worktree names** (`SessionCache`, `Permissions`, `WorktreeName`).

`Collections`, `Strings` and `TextSearch` hold what the models share. `dafny verify dfyconfig.toml`
checks everything.

Where a promise does not hold of the code, the model keeps the code's behaviour, and a lemma gives
the exact condition: an empty id at creation (`CreateSyncedExactly`); a create, update or tombstone
whose line is lost (`CreateExactly`, `UpdateExactly`, `TombstoneExactly`); a file that cannot be
read (`OpenExactly`, `UnreadRebuildDropsPending`, `UnreadEntryIsOvertaken`); an incomplete rebuild
(`RebuildSyncedExactly`), or one that meets a create (`RebuildLosesExactly`) or a message that came
back (`RebuildHidesReturned`); a promotion cut short after its commit (`PromoteExactly`,
`PromoteCarriesExactly`), which can stop the queue for good (`LostPromotionBlocksQueue`); a text
typed before a refused commit or a lost tombstone (`TypedOnceExactly`, `PromotedComesBackExactly`);
lines that overtake each other (`LastToLandDecides`, `OvertakingUpdatesDisagree`); an answer to a
card partly answered before (`AlignedLabelsMatchExactly`, `PartlyAnsweredCardMisreads`); a question
that quotes a label or ends in an equals sign (`LabelComesBackExactly`); repeated ids in a merge
(`MergeAgainExactly`); an empty title (`UntitledIsNotUnwrapped`); a retry without feedback
(`UnfocusedRetryIsLost`); calls side by side at a cut (`CutIsAnsweredExactly`,
`SideBySideCallsStayOpen`, `TextInRunStaysOpen`); one session id in several files (`MemoIsTheLink`,
`AgentsShareOnlyThroughSeeds`); a request id drawn again (`StepLosesExactly`,
`RepeatedIdLosesWaiter`); a source that shrinks (`EventKeepsPrefixExactly`, `RegrownSourceExactly`).

Code and documentation disagree in four places; the models follow the code. The comment on
`_row_needs_update` promises a comparison of four token totals, the code compares six. The docstring
of `_fail_all_pre_sent` speaks of going straight to the tombstone, the code cancels first. The
docstring of `repair_session_jsonl` promises to remove a trailing tool call without a result, the
code looks only at whether a line parses. The docstring of `trim_dangling_tail` promises a resumable
transcript, the code looks only at the last block of the last entry.

## Model

| member | source | states |
|---|---|---|
| `DisplayWriter.ReadLines` | orchestrator/display_writer.py:430-455 | reading a display file keeps, per id, the last line about it, in order of first appearance |
| `DisplayWriter.ReadFromDisplay` | orchestrator/mcp_server.py:314-360 | the chat-history reader: how many entries there are and which of them a limit keeps; a limit of zero keeps all |
| `DisplayWriter.DiscardedDraftStillCounts` | orchestrator/mcp_server.py:314-360 | that reader counts a discarded draft as a message: the tombstone stays in its dictionary |
| `DisplayWriter.DisplayWriter.ScanFileIntoIndex` | orchestrator/display_writer.py:430-474 | the scan returns the live pre-sent entries of the replayed file, in the order of the file; none if the file cannot be read |
| `DisplayWriter.DisplayWriter.EnsureIndexLoaded` | orchestrator/display_writer.py:477-488 | a cold index is loaded from the file and marked ready, empty if the file cannot be read; a warm one is left alone |
| `DisplayWriter.DisplayWriter.PreSentCreate` | orchestrator/display_writer.py:516-557 | validation errors change nothing; otherwise one line is added and then one index entry, and an error of the write keeps the entry out of the index whatever reached the file |
| `DisplayWriter.DisplayWriter.PreSentUpdate` | orchestrator/display_writer.py:560-605 | a missing id is a KeyError; otherwise the merged entry is in the index and then written with a replace mark, and an error of the write leaves the index changed |
| `DisplayWriter.DisplayWriter.PreSentCancel` | orchestrator/display_writer.py:608-633 | only queued and scheduled entries can be cancelled; other ids, other statuses and a failed write are told apart by their error |
| `DisplayWriter.DisplayWriter.PreSentTombstone` | orchestrator/display_writer.py:636-665 | only cancelled entries can be removed; the entry leaves the index before its tombstone is written, also when that write fails |
| `DisplayWriter.DisplayWriter.PreSentList` | orchestrator/display_writer.py:668-679 | the entries in insertion order |
| `DisplayWriter.DisplayWriter.PreSentPromoteToSent` | orchestrator/display_writer.py:825-872 | a sent line with the wrong id or with queue marks is refused; otherwise the entry leaves the index, and tombstone and sent line follow each other in one write, of which any part may be missing |
| `DisplayWriter.DisplayWriter.FailAllPreSent` | orchestrator/agent_dispatcher.py:2932-2973 | every listed entry is cancelled, unless it is already, and tombstoned; refusals and failed writes are skipped |
| `DisplayWriter.DisplayWriter.NextDispatchSeq` | orchestrator/agent_dispatcher.py:1681-1704 | one more than every dispatch number in the table and every number reserved in the index |
| `DisplayWriter.DisplayWriter.PromotePreSentToSent` | orchestrator/agent_dispatcher.py:2846-2925 | row with the next display and dispatch number committed first, then the two lines, as far as their write gets; a refused commit writes nothing |
| `DisplayWriter.DisplayWriter.DispatchPendingMessage` | orchestrator/agent_dispatcher.py:2766-2844 | the text of the earliest queued, unscheduled entry is typed and the entry promoted, or nothing happens; what is typed is returned |
| `DisplayWriter.DisplayWriter.FlushAgent` | orchestrator/display_writer.py:245-338 | the eligible rows, sorted and numbered from the maximum on, are written and then committed; a failed write leaves whole lines only, a failed commit no numbers |
| `DisplayWriter.DisplayWriter.UpdateLastMessage` | orchestrator/display_writer.py:341-381 | an unnumbered message is flushed, a numbered one is written again under its number with a replace mark |
| `DisplayWriter.DisplayWriter.WriteRetryMarker` | orchestrator/display_writer.py:696-792 | the marker goes in front of the file unless it is there already or there is nothing to show |
| `DisplayWriter.DisplayWriter.RebuildAgent` | orchestrator/display_writer.py:875-936 | numbers reset, file truncated, flush, preserved entries written back, index replaced, with the read before it and each of its steps able to fail |
| `DisplayWriter.DisplayWriter.DeleteAgent` | orchestrator/display_writer.py:939-953 | file and index of the agent are gone |
| `DisplayLog.SeenAppend` | orchestrator/display_writer.py:437-455 | replaying a file is compositional: later lines override earlier ones id by id |
| `DisplayLog.ScanPrepend` | orchestrator/display_writer.py:696-792 | a line prepended to the file never changes which entries are pending |
| `DisplayIndex.QueueHead` | orchestrator/agent_dispatcher.py:2786-2793 | the head of the queue is a pending entry with status queued and no schedule; of these none was created earlier, and an entry without a creation time comes before every dated one |
| `DisplayIndex.QueueIsByCreation` | orchestrator/agent_dispatcher.py:2786-2793 | the whole queue in the entries' own fields: of two queued, unscheduled entries the one created earlier stands first, one without a creation time before every dated one, and equals as the index lists them |
| `DisplayIndex.RebuildScan` | orchestrator/display_writer.py:875-936 | which pre-sent entries the file holds after a rebuild, for every way its steps can end |
| `DisplayRuns.CreateExactly` | orchestrator/display_writer.py:516-557 | creating keeps index and file in agreement exactly when the id is new and not empty and the write goes through, or no line was written, or the line says what the index already holds |
| `DisplayRuns.UpdateExactly` | orchestrator/display_writer.py:560-605 | an update whose line is lost keeps them in agreement exactly when the patched entry equals the old one up to the replace mark |
| `DisplayRuns.TombstoneExactly` | orchestrator/display_writer.py:636-665 | a tombstone that is lost never does |
| `DisplayRuns.FailAllExactly` | orchestrator/agent_dispatcher.py:2932-2973 | a shutdown does exactly when no entry it gives up loses its tombstone, whatever becomes of the cancel lines |
| `DisplayRuns.PromoteExactly` | orchestrator/agent_dispatcher.py:2846-2919 | a promotion keeps index, file and table in agreement exactly when its row is refused or at least its tombstone is written |
| `DisplayRuns.RowsApartExactly` | orchestrator/agent_dispatcher.py:2846-2919 | for each operation and each way it ends, also by a crash, exactly when row ids and pre-sent ids stay apart |
| `DisplayRuns.StepKeepsInvExactly` | orchestrator/display_writer.py:477-953 | for each operation with each way its writes, commits and the process can end, exactly when index and file stay in agreement and pending ids apart from row ids |
| `DisplayRuns.OpenExactly` | orchestrator/display_writer.py:443-488 | loading a cold index keeps index and file in agreement exactly when the file can be read or nothing was pending |
| `DisplayRuns.IndexIsReplay` | orchestrator/display_writer.py:430-474 | over every sequential run, failed reads and writes and crashes included: in all states the loaded index equals the replay of the file, up to replace marks, and no pending id is a row id, exactly when every step meets that condition |
| `DisplayIndex.RebuildSyncedExactly` | orchestrator/display_writer.py:875-936 | a rebuild leaves index and file in agreement exactly when every preserved entry was written back or the old file was not truncated; if it could not be read, when it was truncated or held none |
| `DisplayIndex.UnreadRebuildDropsPending` | orchestrator/display_writer.py:443-447 | a rebuild that cannot read the old file drops every pending entry, from the index and with the truncation from the file |
| `DisplayRuns.CreateSyncedExactly` | orchestrator/display_writer.py:491-557 | a create that goes through keeps index and file in agreement exactly when its id is not empty |
| `DisplayRuns.LostPromotionComesBack` | orchestrator/agent_dispatcher.py:2897-2919 | after a commit none of whose lines was written, the next process finds the message waiting although it has its row |
| `DisplayRuns.HeadWithRowBlocks` | orchestrator/agent_dispatcher.py:2786-2834 | when the head of the queue is a row, every dispatch leaves everything as it was, whatever the commit and the write do |
| `DisplayRuns.LostPromotionBlocksQueue` | orchestrator/agent_dispatcher.py:2786-2919 | so a lost promotion of the entry created first stops the queue from the next start on |
| `DisplayInterleaving.TurnKeepsInv` | orchestrator/display_writer.py:516-872 | every half operation, index change or file write, keeps the account of what is in flight |
| `DisplayInterleaving.QuiescentIndexIsReplay` | orchestrator/display_writer.py:516-872 | under every interleaving of half operations, also on one id, in which the newest change of an id is not written before an older one nor lost, and a create has its id to itself, index and replay agree at every id not in flight, so everywhere once nothing is |
| `DisplayInterleaving.LastToLandDecides` | orchestrator/display_writer.py:560-605 | whatever happened before: when the last append in flight at an id lands, index and file agree there exactly if its lines say what the index says |
| `DisplayInterleaving.OvertakingUpdatesDisagree` | orchestrator/display_writer.py:560-605 | without that order: for every entry and any two texts a schedule of two updates ends with nothing in flight and index and file apart |
| `DisplayRace.RebuildLosesExactly` | orchestrator/display_writer.py:538-936 | under every interleaving of one rebuild with any number of creates and flushes: an entry is missing from the file afterwards exactly when its line fell between scan and truncation, and from the index exactly when its line came after the scan and its index entry not after the replacement; so index and file agree on it exactly when neither or both of these hold |
| `DisplayRace.OldEntriesSurvive` | orchestrator/display_writer.py:892-936 | entries pending before the rebuild come through it, whatever is created meanwhile |
| `DisplayFaults.StepBase` | orchestrator/display_writer.py:477-953 | every step, landed or not, leaves live entries under their own ids in the index and takes no row from the table |
| `DisplayNumbering.NumbersAreCrashSafe` | orchestrator/display_writer.py:245-381 | in every state of every run, nothing asked of how reads, writes, commits and the process end: committed display numbers are exactly 1..n, and the file shows every numbered message under its number except exactly the missed ones. Missed become a message whose promotion loses its sent line, a numbered message about whose id a pre-sent line is written, by a rebuild too, and all when the file is removed; a line written anew or a rebuild mends |
| `DisplayNumbering.WholeExactly` | orchestrator/display_writer.py:245-953 | where rows and pre-sent ids are apart a step makes nobody miss a message exactly when it loses no sent line of a committed promotion and removes no file that shows a number |
| `DisplayNumbering.WholePromotionsTearNothing` | orchestrator/agent_dispatcher.py:2907-2919 | so in a run of such steps that land nobody ever misses one |
| `DisplayNumbering.RebuildHidesReturned` | orchestrator/display_writer.py:875-936 | a message with a row whose entry the file still shows: a rebuild that succeeds numbers it, then writes the entry back behind its line, and no reader finds it |
| `DisplayNumbering.FlushCompletes` | orchestrator/display_writer.py:260-338 | a flush that succeeds leaves unnumbered exactly the undelivered messages of the user, numbers the others from n + 1 on, and changes nothing else in the table |
| `DisplayNumbering.FlushNumbersInOrder` | orchestrator/display_writer.py:260-304 | the numbers of a flush in the rows' own fields: by delivery, or where there is none by creation, a row with neither time as if of the year 9999 and so last, and rows of equal time in the order of the query |
| `DisplayNumbering.PromoteCarriesExactly` | orchestrator/agent_dispatcher.py:2907-2919 | a promotion commits before it writes: no further message is missed exactly when both of its lines were written |
| `DisplayNumbering.StepKeepsNumbers` | orchestrator/display_writer.py:245-953 | each operation, however it ends, keeps the numbers dense and changes the missed messages in exactly the stated way |
| `DisplayRebuild.RebuildNumbersInOrder` | orchestrator/display_writer.py:260-304 | a completed rebuild numbers exactly the messages other than undelivered user messages, as 1..n, in the same order: by delivery or else by creation, rows with neither last, equals as the query lists them |
| `DisplayRebuild.RebuildKeepsPreSent` | orchestrator/display_writer.py:875-936 | exactly the surviving pre-sent entries come through a completed rebuild, in file and index |
| `DisplayRebuild.RebuildIsIdempotent` | orchestrator/display_writer.py:875-936 | a second completed rebuild in the same query order changes neither file nor table nor index |
| `DisplayRebuild.RebuildDropsRetryMarker` | orchestrator/display_writer.py:696-792 | the retry card has no row and is not pre-sent, so a rebuild removes it |
| `DisplayOrder.DispatchEffect` | orchestrator/agent_dispatcher.py:2786-2834 | a dispatch changes nothing but the loading of the index, or promotes a queued, unscheduled entry than which none is created earlier and which has no row, under numbers larger than all in the table |
| `DisplayOrder.CreatedFirstIsSentFirst` | orchestrator/agent_dispatcher.py:2786-2919 | over every run, whatever fails and wherever the process dies: of two entries that wait together, queued and unscheduled, and are left to the dispatcher, the one with the smaller creation time, or with none, is sent first, with the smaller dispatch number and, without a rebuild, the smaller display number |
| `DisplayOrder.UnreadEntryIsOvertaken` | orchestrator/display_writer.py:443-488 | with the file unreadable at the first touch an entry created afterwards is sent while one on file still waits |
| `DisplayTyping.SentOnceForAll` | orchestrator/agent_dispatcher.py:2870-2919 | over every run: a message that waits neither in the file nor in the index stays out of both, keeps its row, and is never typed again |
| `DisplayTyping.TypedLeavesExactly` | orchestrator/agent_dispatcher.py:2814-2919 | after its text was typed a message is gone from file and index exactly when its row is committed and its tombstone written; or, where the file did not show it waiting, when the promotion or a crash takes it from the index |
| `DisplayTyping.ReturnsExactly` | orchestrator/agent_dispatcher.py:2786-2844 | from any state some run types a message exactly when it waits in the file or in the index |
| `DisplayTyping.TypedOnceExactly` | orchestrator/agent_dispatcher.py:2814-2919 | over every run: after a text was typed some continuation types it again exactly when that step did not make the message leave |
| `DisplayTyping.PromotedComesBackExactly` | orchestrator/agent_dispatcher.py:2897-2919 | over every run: a message whose promotion is committed has its row, and comes back in some continuation exactly when its tombstone is lost |
| `DisplayTyping.RefusedIsTypedAgain` | orchestrator/agent_dispatcher.py:2820-2834 | a dispatch whose commit is refused, also because the row is there already, only loads the index, so the next one types the same text again |
| `DisplayOrder.ShutdownEmptiesQueue` | orchestrator/agent_dispatcher.py:2932-2973 | which entries are left in the file after a shutdown: exactly those of an unknown status, those not reached, and those whose tombstone is lost |
| `DisplayFields.EntryIsScanned` | orchestrator/display_writer.py:443-474 | a line is pending exactly when it is not deleted and marked pre-sent, by the mark of today or the legacy one, and comes back with all its fields |
| `DisplayFields.DraftIsTakenExactly` | orchestrator/display_writer.py:491-535 | which drafts are accepted, field by field; a refused one changes nothing |
| `DisplayFields.CreatedIsReadBack` | orchestrator/display_writer.py:516-557 | a created entry is found in file and index with every field of the draft, its schedule and metadata included, and no other entry changes |
| `DisplayFields.UpdatedIsReadBack` | orchestrator/display_writer.py:560-605 | an updated entry has the fields of the patch and for the rest those it had; the line in the file carries a replace mark, the entry in the index does not |
| `DisplayFields.CancelledIsReadBack` | orchestrator/display_writer.py:608-633 | cancelling sets the status of a queued or scheduled entry to cancelled and changes nothing else, and does nothing to others |
| `DisplayFields.DiscardedIsReadBack` | orchestrator/display_writer.py:636-665 | a discarded draft has left the index, and readers find it deleted |
| `DisplayFields.PromotedIsReadBack` | orchestrator/agent_dispatcher.py:2846-2919 | the row of a promotion has the entry's text, source, metadata and creation time, is sent and not delivered; the file shows it so under its number |
| `DisplayFields.DispatchNumberIsNext` | orchestrator/agent_dispatcher.py:1681-1704 | the dispatch number of a promotion is the least one above those of all rows and all that entries reserve |
| `DisplayFields.FlushedIsReadBack` | orchestrator/display_writer.py:260-338 | after a flush that succeeds a reader finds each newly numbered message with all its fields, without a schedule, under the number in its row |
| `DisplayFields.FailedFlushIs` | orchestrator/display_writer.py:300-338 | a flush that fails commits nothing; the file has a part of the lines of the flush that succeeds, all of them if it was the commit that failed |
| `DisplayFields.RewrittenIsReadBack` | orchestrator/display_writer.py:341-381 | an update of a numbered message is read back as the row now is, with a replace mark |
| `DisplayFields.UnnumberedIsFlushed` | orchestrator/display_writer.py:341-381 | an update of an unnumbered message numbers it and all others that wait for a number, and it is read back |
| `DisplayFields.MarkerIsReadBack` | orchestrator/display_writer.py:696-792 | the retry card is the first line, with the fields the code gives it, under exactly the three guards |
| `DisplayInterleaving.CreateInTwo` | orchestrator/display_writer.py:538-557 | a create is its two halves: without a step between them they give what the operation gives |
| `DisplayInterleaving.UpdateInTwo` | orchestrator/display_writer.py:578-605 | so is an update |
| `DisplayInterleaving.CancelInThree` | orchestrator/display_writer.py:608-633 | and a cancel its check and the halves of its update |
| `DisplayInterleaving.TombstoneInTwo` | orchestrator/display_writer.py:646-665 | and a tombstone |
| `DisplayInterleaving.PromoteInTwo` | orchestrator/display_writer.py:846-872 | and a promotion's two lines |
| `DisplayInterleaving.BeginsExactly` | orchestrator/display_writer.py:516-872 | a thread can begin exactly where the operation would do something |
| `DisplayRace.StepsAreRebuild` | orchestrator/display_writer.py:892-936 | the steps of a rebuild and its flush, with nothing between them, give what the operation gives |
| `DisplayRace.StepsAreCreate` | orchestrator/display_writer.py:538-557 | so do the steps of a create |
| `PositionalMatching.MatchAnswers` | orchestrator/jsonl_parser.py:127-157 | the nested loops compute the positional matching |
| `PositionalMatching.MatchingIsSound` | orchestrator/jsonl_parser.py:138-154 | no quoted label is consumed twice, no preset selection changes, and every new selection is in range and is its label |
| `PositionalMatching.OpenOnlyWithoutLabel` | orchestrator/jsonl_parser.py:138-154 | a question stays open only when every quoted label it offers has been consumed |
| `PositionalMatching.AlignedLabelsMatchExactly` | orchestrator/jsonl_parser.py:138-154 | when the i-th label is an option of question i for every i, every open question consumes its own label exactly when none of them offers the label of an earlier preset question |
| `PositionalMatching.AlignedLabelsMatch` | orchestrator/jsonl_parser.py:138-154 | and then it gets the option its own label names, even when labels repeat |
| `PositionalMatching.SpilledLabelIsTaken` | orchestrator/jsonl_parser.py:138-154 | otherwise the first open question that offers such a label gets the option of the earliest one |
| `InteractiveItems.AnswerTextRoundTrip` | orchestrator/jsonl_parser.py:127-134 | for questions not ending in an equals sign, the labels quoted in an answer written in the web form come back in order exactly when reading the quoted questions themselves yields none; quotation marks in questions are harmless |
| `InteractiveItems.DeriveRecoversChoice` | orchestrator/jsonl_parser.py:112-157 | choose one option per question, write the answer, derive the selection: the chosen options come back, the first also as the single index, if no open question offers the label of an earlier one selected before, and for distinct labels only then |
| `InteractiveItems.PartlyAnsweredCardMisreads` | orchestrator/jsonl_parser.py:112-157 | a card answered first for one question and then for both: the second question comes out with the first one's label |
| `InteractiveItems.LabelComesBackExactly` | orchestrator/jsonl_parser.py:127-134 | when a single label comes back: exactly if the quoted question yields none itself and, should it end in an equals sign, the label is one |
| `InteractiveItems.DeriveOnlyFills` | orchestrator/jsonl_parser.py:112-203 | deriving changes no answer, no earlier selection and nothing else of the card |
| `InteractiveItems.DerivedSelectionsAreQuoted` | orchestrator/jsonl_parser.py:138-154 | every new selection is in range and its label is quoted in the answer |
| `InteractiveItems.LabelsAreQuoted` | orchestrator/jsonl_parser.py:132-134 | what is read as a label is one: not empty, without a quote, and standing in the answer between an equals sign with a quote and a quote |
| `InteractiveItems.QuotedIsRead` | orchestrator/jsonl_parser.py:132-134 | an answer that holds such a label anywhere yields some label |
| `DerivedAnswers.PlanAnswerSelects` | orchestrator/jsonl_parser.py:175-203 | the answer to a plan, in any case: naming bypass without manual it selects the first option, naming manual the second, naming neither and feedback or "type here" the third; a refusal and anything else select nothing, and a selection already there stays |
| `DerivedAnswers.PlanLabelSelects` | orchestrator/jsonl_parser.py:183-193 | each of the three labels, in any case and with blanks around, selects its own option |
| `DerivedAnswers.PermissionAnswerSelects` | orchestrator/jsonl_parser.py:158-174 | the answer to a permission prompt selects the first option whose label it is, in any case; or else by its beginning, yes with always the second, yes the first, no the third |
| `DerivedAnswers.PermissionLabelSelects` | orchestrator/jsonl_parser.py:158-167 | an option's own label, in any case, selects it where the labels differ |
| `DerivedAnswers.DismissedSelectsNothing` | orchestrator/jsonl_parser.py:119-125 | a card without an answer, or dismissed, stays as it is |
| `MergeMeta.MergeInteractiveMeta` | orchestrator/jsonl_parser.py:206-267 | the dictionary and the loop over the copy compute the merge |
| `MergeMeta.MergeIsTheParse` | orchestrator/jsonl_parser.py:206-240 | the merged column is the new parse, other keys included, with nothing but approvals, answers and selections taken from the stored one; it is the stored column where there is no parse |
| `MergeMeta.MergeIsIdempotent` | orchestrator/jsonl_parser.py:206-267 | merging the same parse again changes nothing, for distinct tool-use ids |
| `MergeMeta.MergeAgainExactly` | orchestrator/jsonl_parser.py:232-265 | for any ids: merging a stored parse again changes nothing exactly when no card lacks what the last card of its id holds |
| `MergeMeta.LatestAnswerStands` | orchestrator/jsonl_parser.py:206-267 | over any alternation of web answers and re-parses holding the card, its stored answer is the last one the user or the transcript brought; an answered card stays answered |
| `MergeMeta.SelectionSurvivesReparses` | orchestrator/jsonl_parser.py:243-265 | the selections stored with an answer, the single one and those per question, stay through any number of re-parses |
| `ParserMachine.Parser.FlushText` | orchestrator/jsonl_parser.py:446-459 | the open texts become one text turn, if anything of them is left, and nothing stays open |
| `ParserMachine.Parser.FlushAll` | orchestrator/jsonl_parser.py:461-470 | and the waiting cards become one card turn |
| `ParserMachine.Parser.FeedBlocks` | orchestrator/jsonl_parser.py:636-680 | the block loop over an assistant entry |
| `ParserMachine.Parser.RemovePending` | orchestrator/jsonl_parser.py:527-530 | the first waiting card equal by value is removed |
| `ParserMachine.Parser.FeedResult` | orchestrator/jsonl_parser.py:493-549 | a result answers the card in the table, or, for a validation error, turns a waiting card into a rejected tool turn |
| `ParserMachine.Parser.Feed` | orchestrator/jsonl_parser.py:472-694 | one line of the file |
| `ParserMachine.Deduplicate` | orchestrator/jsonl_parser.py:699-712 | later user turns with an id already seen are dropped |
| `ParserMachine.ParseLines` | orchestrator/jsonl_parser.py:417-716 | the whole parse: all lines, the final flush, the removal of repeated user turns |
| `ParserTheorems.SettledTurnsAreStable` | orchestrator/jsonl_parser.py:446-716 | for all files a and b: what reading a settled is a prefix of the turns of a + b, and each card of a is changed by exactly the results of b that reach it |
| `ParserTheorems.OnlyTheTailIsOpen` | orchestrator/jsonl_parser.py:696-697 | what reading a has not settled is at most one text turn and one card turn |
| `ParserTheorems.CardsAreConserved` | orchestrator/jsonl_parser.py:636-697 | the cards are the interactive calls of the document in order; card turns show them in order, none twice; the ones not shown are exactly the rejected ones |
| `ParserTheorems.EachCallOnce` | orchestrator/jsonl_parser.py:493-551 | with distinct ids every interactive call ends in exactly one card or exactly one rejected turn |
| `ParserAnswers.CardIsItsResults` | orchestrator/jsonl_parser.py:493-549 | for every document: a card is its call with the results that reach it applied in order, up to a refusal or the next call of its id; its answer is that of the last of them |
| `ParserAnswers.CardAfterMore` | orchestrator/jsonl_parser.py:493-549 | appending to the file applies exactly the further results that reach a card, so a card none reaches stays as it is |
| `ParserSpeech.TurnsShowRuns` | orchestrator/jsonl_parser.py:446-694 | the turns show, run after run, the document cut at calls, cards, answered results, refused waiting cards and what user and system said |
| `ParserSpeech.RunsAreTheDocument` | orchestrator/jsonl_parser.py:472-694 | those runs and single items are the document without its cards, nothing missing, nothing twice, in order |
| `ParserTheorems.SpeechIsConserved` | orchestrator/jsonl_parser.py:472-716 | both together for the whole parse: the text, tool, user and system turns are exactly the runs and items of the document, only user entries repeating an earlier id left out |
| `ParserTheorems.UnmarkedRunIsWhole` | orchestrator/jsonl_parser.py:446-459 | a run without the old exit markers is shown whole, its texts stripped, a blank line between |
| `ParserTheorems.UnmarkedSpeechIsWhole` | orchestrator/jsonl_parser.py:446-459 | without the old exit markers no run vanishes: one text turn per run, in full, and one turn per other item, in document order, before repeated user turns are left out |
| `ParserReading.OrdinaryTextIsRead` | orchestrator/jsonl_parser.py:571-612 | a text that is not blank, begins with none of the six tags, is no bracketed interrupt and no summary: exactly one turn of the user's, with the text stripped and unwrapped, not a command, with the entry's id and time |
| `ParserReading.InterruptIsRead` | orchestrator/jsonl_parser.py:594-600 | a bracketed text with the word interrupt in any case: one system turn with what the brackets hold |
| `ParserReading.SummaryIsRead` | orchestrator/jsonl_parser.py:601-609 | the summary of a compacted session: one system turn with the whole text, its id taken from the text |
| `ParserReading.InjectedIsNotRead` | orchestrator/jsonl_parser.py:474-593 | blank texts, texts with one of the four injected tags and hidden entries: nothing at all |
| `ParserReading.CommandIsRead` | orchestrator/jsonl_parser.py:77-92 | the echo of a command with both tags: the command and its arguments, if there are any, as one turn of the user's marked as a command |
| `ParserReading.BrokenCommandIsNotRead` | orchestrator/jsonl_parser.py:77-92 | without one of the two tags it is dropped |
| `ParserReading.UserTextsByBlock` | orchestrator/jsonl_parser.py:552-560 | of a list of blocks exactly the texts are read |
| `ParserReading.NoteIsRead` | orchestrator/jsonl_parser.py:681-694 | a system note: its text or else its kind, marked if it is a stop hook's, with the entry's id or one taken from the text |
| `ParserReading.SilentNote` | orchestrator/jsonl_parser.py:681-694 | a note of a duration changes nothing; one with neither text nor kind only closes what was open |
| `ParserReading.RateLimitIsRead` | orchestrator/jsonl_parser.py:624-635 | a rate limit shows the texts of its blocks that are not blank, or a standing phrase |
| `ParserReading.AgentTextsByBlock` | orchestrator/jsonl_parser.py:624-635 | of its blocks exactly the texts count, each stripped, blank ones left out |
| `ParserReading.AsideIsNotRead` | orchestrator/jsonl_parser.py:614-623 | what subagents and the synthetic model say is not read |
| `ParserReading.ReadIsShown` | orchestrator/jsonl_parser.py:472-716 | for every file and every place in it: the turn a line is read as is among the turns of the parse, unless it is the user's and a turn with its id is there |
| `ParserBlocks.TextIsRead` | orchestrator/jsonl_parser.py:636-645 | an agent's text joins the open run, under the first id and time of the run, unless it is blank or the note about an image |
| `ParserBlocks.NoteIsMetadata` | orchestrator/jsonl_parser.py:42-45 | what counts as such a note: the two sizes in digits between the fixed words |
| `ParserBlocks.InteractiveCallIsRead` | orchestrator/jsonl_parser.py:646-668 | a question or a plan closes the text before it and becomes a new unanswered card with what the call asks, waiting and found under its id |
| `ParserBlocks.CallIsRead` | orchestrator/jsonl_parser.py:669-680 | any other call closes the text and is a turn, but for the one tool that is not shown |
| `ParserBlocks.ResultIsAnswer` | orchestrator/jsonl_parser.py:493-549 | a result for a card in the table is its answer, from which its selection is derived; everything waiting is shown, and no other card changes |
| `ParserBlocks.ResultIsRefusal` | orchestrator/jsonl_parser.py:522-546 | an error that names a failed validation takes the card out of the table and changes no card |
| `ParserBlocks.TextBesideResult` | orchestrator/jsonl_parser.py:484-552 | what stands beside a result is not read as said by the user |
| `ParserBlocks.SuccessIsNotShown` | orchestrator/jsonl_parser.py:446-459 | a success marker at the end of a text is not shown |
| `ParserBlocks.FailureIsNotShown` | orchestrator/jsonl_parser.py:446-459 | nor is a last line that begins with the failure marker |
| `SessionFork.FindUuidIndex` | orchestrator/session_fork.py:45-51 | the first entry with the target id, or -1 when there is none |
| `SessionFork.TrimDanglingTail` | orchestrator/session_fork.py:70-87 | the longest prefix that ends in a conversational entry without a trailing tool call |
| `SessionFork.ResumableIs` | orchestrator/session_fork.py:54-87 | what can be resumed from: any entry of the user or the system, and one of the assistant's unless its last block is a call |
| `SessionFork.CutIsAnsweredExactly` | orchestrator/session_fork.py:54-87 | where results follow the run of their calls directly, a kept prefix holds a result for each of its calls exactly when it does not end inside a run that has made a call and the conversational entry after it holds no result for one of its calls |
| `SessionFork.TrimmedIsAnsweredExactly` | orchestrator/session_fork.py:70-87 | for the prefix that trimming chooses, where runs end in their calls, exactly when the conversational entry after the cut holds no result for a kept call |
| `SessionFork.TextInRunStaysOpen` | orchestrator/session_fork.py:54-87 | a run that has a text between two calls: the cut after the text is kept as resumable, the entry after it holds no result, and the first call stays open |
| `SessionFork.SingleCallsStayAnswered` | orchestrator/session_fork.py:70-87 | where each calling entry ends in its call and the next entry holds its results, trimming always leaves every call answered |
| `SessionFork.ForkIsAnsweredExactly` | orchestrator/session_fork.py:154-179 | so for the fork as it is written, whichever target is given |
| `SessionFork.SideBySideCallsStayOpen` | orchestrator/session_fork.py:54-87 | two calls side by side with one result are kept as resumable, one call without its result |
| `SessionFork.RewriteSessionId` | orchestrator/session_fork.py:90-113 | line by line: each spelling of the session id is the new id exactly where the line had that spelling, and no other field, no body and no unparsed line changes |
| `SessionFork.MakeInterruptLine` | orchestrator/session_fork.py:116-151 | the marker follows the last entry with an id and inherits the last occurrence of each field, although the backward loop stops early |
| `SessionFork.ForkSessionLines` | orchestrator/session_fork.py:154-179 | the longest resumable prefix up to the target, as many lines as it has, each in the new session and otherwise unchanged, and the marker; none exactly when the target is absent or no such prefix exists |
| `SessionFork.ForkCommutesWithParsing` | orchestrator/session_fork.py:154-179 | parsing a fork gives the turns and cards of the kept lines, and then exactly one interrupt turn |
| `SessionFork.ForkSharesHistory` | orchestrator/session_fork.py:154-179 | what was settled at the cut is history of both the original and the fork |
| `SessionFork.ForkBelongsToNewSession` | orchestrator/session_fork.py:90-151 | for every prefix: each spelling of the session id that a line had is the new id and no other appears; the marker has the new id, follows the last entry with an id, and each of its fields is that of the last entry that carries it, absent if none does |
| `TaskPrompts.BuildTaskPrompt` | orchestrator/agent_dispatcher.py:3064-3137 | the prompt of a first attempt or a retry, section by section |
| `PromptText.FirstPromptReads` | orchestrator/agent_dispatcher.py:3080-3137 | the text of a first attempt, line by line: title, description if there is one, and the closing sections |
| `PromptText.RetryPromptReads` | orchestrator/agent_dispatcher.py:3080-3137 | the text of a retry, line by line: what to attend to, what was tried, unless the summary is still being written, and the original task, each only if there is one, then the advice for this attempt |
| `PromptText.InsightIsIndented` | orchestrator/agent_dispatcher.py:3599-3642 | the project wrapper sets each insight on an indented line of its own after the heading |
| `PromptUnwrap.FirstAttemptUnwraps` | orchestrator/content_matcher.py:136-150 | unless focus heading in the window and original-task heading occur together, unwrapping returns the description exactly when it contains no section heading |
| `PromptUnwrap.RunningOn` | orchestrator/content_matcher.py:28-33 | one of the two section headings counts exactly when no letter, digit or underscore follows it |
| `PromptRoundTrip.FirstAttemptRoundTrip` | orchestrator/agent_dispatcher.py:3064-3137 | first attempts, in terms of what the user typed: where one of those two headings does not occur the description comes back exactly when it contains no section heading |
| `PromptRoundTrip.UntitledIsNotUnwrapped` | orchestrator/content_matcher.py:27-33 | a prompt without a title is returned unchanged |
| `PromptRoundTrip.RetryRoundTrip` | orchestrator/content_matcher.py:136-143 | retries: the description comes back exactly when the prompt is recognised as a retry, unless it begins like the feedback's or summary's section standing first |
| `PromptRoundTrip.HeadingDescriptionComesBack` | orchestrator/content_matcher.py:136-150 | that exception is real: such a description comes back from a retry that is not recognised |
| `PromptRoundTrip.UnfocusedIsNotRecognised` | orchestrator/agent_dispatcher.py:3080-3113 | a retry without feedback is not recognised when title, summary and description lack the focus heading |
| `PromptRoundTrip.UnfocusedRetryIsLost` | orchestrator/agent_dispatcher.py:3080-3113 | and then its description does not come back, with the same exception |
| `PromptRoundTrip.FocusInWindow` | orchestrator/content_matcher.py:136-143 | the focus heading lies within the first 500 characters for every title of up to 477 |
| `PromptRoundTrip.RetryWithFeedbackUnwraps` | orchestrator/agent_dispatcher.py:3080-3113 | a retry with feedback and a title within the limit is recognised, so the description comes back exactly when it contains no instructions heading |
| `AgentPreamble.WrapperRoundTrip` | orchestrator/agent_dispatcher.py:3599-3642 | wrapping and unwrapping return a trimmed message exactly when it does not contain the insights heading, with or without insights |
| `AgentLegacy.UnwrappedIsKept` | orchestrator/jsonl_parser.py:326-334 | a text without opening line, marker and closing line is returned as it is, blanks included |
| `AgentLegacy.ClosingIsCut` | orchestrator/jsonl_parser.py:56-69 | the closing line is cut at the end of the text or before one last newline |
| `AgentLegacy.MarkerIsSkipped` | orchestrator/jsonl_parser.py:46-55 | the marker comment on the first line, of either name, is skipped |
| `AgentLegacy.InsightsAreSkipped` | orchestrator/jsonl_parser.py:46-55 | the insights block of older wrappers is skipped: its heading, its bullets and one blank line |
| `AgentLegacy.HistoryIsSkipped` | orchestrator/jsonl_parser.py:46-55 | so is the history block, up to its first blank line |
| `AgentLegacy.LegacyPromptIsStripped` | orchestrator/jsonl_parser.py:46-55 | a wrapper with memory line, insights and history: all of it goes, and the message stays |
| `ContentMatcher.UnwrappedTextWins` | orchestrator/content_matcher.py:79-89 | when no candidate is the whole text, the earliest candidate equal to the unwrapped text is matched |
| `MatchOrder.MatchIsBest` | orchestrator/content_matcher.py:62-115 | a text is matched by the first of the five comparisons that any candidate passes, and with the oldest candidate that passes it; by none exactly when no candidate passes any |
| `MatchOrder.SpacingDoesNotMatter` | orchestrator/content_matcher.py:153-167 | two texts that differ in the blanks and tabs between two words are equal once normalised |
| `MatchOrder.TrailingBlanksDoNotMatter` | orchestrator/content_matcher.py:153-167 | so are two that differ in those at the end of a line |
| `MatchOrder.NewlinesAreTwo` | orchestrator/content_matcher.py:153-167 | three or more newlines become two |
| `ContentMatcher.TaskPromptUnwraps` | orchestrator/content_matcher.py:122-150 | which tasks, plain or retried, get their description back |
| `ContentMatcher.DispatchedTaskIsMatched` | orchestrator/content_matcher.py:62-115 | a dispatched prompt, echoed by the transcript and unwrapped, is matched to the earliest candidate with its description |
| `SessionOwnership.LinkSubToParent` | orchestrator/cc_session_discovery.py:300-355 | the first other session file with an entry of the wanted id |
| `SessionOwnership.LinkIs` | orchestrator/cc_session_discovery.py:300-355 | a session is linked to the first file of another session, one with an id, that holds the entry it points back to |
| `SessionOwnership.NoLinkIs` | orchestrator/cc_session_discovery.py:300-355 | and to nothing exactly when there is no such file |
| `SessionOwnership.ResolveParent` | orchestrator/cc_session_reconcile.py:217-223 | the memo agrees with the first linkable file of each session, and records every lookup |
| `SessionOwnership.OwnedSessions` | orchestrator/cc_session_reconcile.py:191-259 | the loop ends; its result is the least set holding the agent's top-level and path-linked sessions and closed under parent links; each member has a finite chain of recorded links from an owned top-level session |
| `SessionOwnership.MemoIsTheLink` | orchestrator/cc_session_reconcile.py:215-223 | the memo is every file's own link exactly when files of one session agree on it |
| `SessionOwnership.SecondParentIsMissed` | orchestrator/cc_session_reconcile.py:215-223 | otherwise a second file's link is missed: a concrete case |
| `SessionOwnership.OwnedIsHanging` | orchestrator/cc_session_reconcile.py:191-259 | the owned sessions are exactly those that hang on a directly owned one by a chain of parent links |
| `SessionOwnership.AgentsShareOnlyThroughSeeds` | orchestrator/cc_session_reconcile.py:191-259 | two agents over the same files share a session exactly when a session one of them owns directly hangs on one of the other's |
| `SessionOwnership.NoSessionIsClaimedTwice` | orchestrator/cc_session_reconcile.py:196-208 | with one file per session id no session is claimed by two agents |
| `SessionOwnership.SameIdInTwoPlacesIsClaimedTwice` | orchestrator/cc_session_reconcile.py:196-208 | a session id found in two directories with different sidecars is claimed by both |
| `SessionRows.SessionTable.Reconcile` | orchestrator/cc_session_reconcile.py:145-321 | what one sweep stores and counts; it commits exactly when the commit works and no session without a row is both top-level and path-linked |
| `SessionRows.Store` | orchestrator/cc_session_reconcile.py:280-305 | the write loop: insert, update in place, skip |
| `SessionRows.RowsAfter` | orchestrator/cc_session_reconcile.py:74-142 | sessions off the list keep their row, new ones are inserted as last written, existing ones are refreshed |
| `SessionRows.InsertedRow` | orchestrator/cc_session_reconcile.py:108-142 | the row of a new session, field by field: agent, parent, whether it is a sub-session, where it branched off, start, end and usage of its last file |
| `SessionRows.RefreshedRow` | orchestrator/cc_session_reconcile.py:74-105 | a row that was there keeps all but its usage, which is the file's, and its end, which is the later of the two |
| `SessionRows.TwiceExactly` | orchestrator/cc_session_reconcile.py:280-305 | a row is inserted twice exactly when a session without a row is on the list twice |
| `SessionRows.SecondSweepIsNoop` | orchestrator/cc_session_reconcile.py:74-105 | writing the same sessions again, in any order, inserts and updates nothing and skips every one |
| `SessionRows.SecondReconcileIsNoop` | orchestrator/cc_session_reconcile.py:145-321 | a second sweep of the same agent over unchanged files inserts and updates nothing and skips every owned session |
| `SessionRows.RowsOnlyGrow` | orchestrator/cc_session_reconcile.py:74-105 | over any number of sweeps, committed or rolled back, rows stay, keep owner, parent and start, and their end never decreases |
| `SessionCache.CachedSession.CacheSession` | orchestrator/session_cache.py:232-318 | the size check, the atomic first copy and the appending copy, each able to fail after any number of bytes |
| `SessionCache.CachedSession.RestoreSession` | orchestrator/session_cache.py:394-415 | the copy goes back over the source; a failure leaves a part of it |
| `SessionCache.EventKeepsPrefixExactly` | orchestrator/session_cache.py:232-497 | one event keeps the copy a prefix exactly when it leaves the source no shorter than the copy |
| `SessionCache.CopyStaysPrefix` | orchestrator/session_cache.py:252-296 | whatever grows, fails, is lost, restored or cut back, in any order, also when the source grows between size check and read: the copy is a prefix in every state exactly when no restore stops early and no repair cuts cached bytes |
| `SessionCache.NextSuccessCatchesUp` | orchestrator/session_cache.py:252-296 | after any run one call that goes through makes the copy equal to the bytes read |
| `SessionCache.RestoreGivesPrefix` | orchestrator/session_cache.py:394-415 | after any run restoring gives a prefix of what was lost |
| `SessionCache.RestoreAfterSuccessIsComplete` | orchestrator/session_cache.py:394-415 | losing the source right after a successful call loses nothing |
| `SessionCache.CopyOnlyGrows` | orchestrator/session_cache.py:252-296 | no event takes bytes away from the copy |
| `SessionCache.RepairLines` | orchestrator/session_cache.py:461-476 | the longest prefix ending in a valid line, reported as a repair exactly when something was cut |
| `SessionCache.RegrownSourceExactly` | orchestrator/session_cache.py:252-296 | after a source was cut and grew past the copy the next call makes the copy a prefix exactly if what had been cached grew back |
| `SessionCache.CutAndRegrown` | orchestrator/session_cache.py:436-497 | a repair inside the cached bytes and regrowth: the copy is a prefix again exactly if the source grew back the bytes that were cut |
| `Permissions.PermissionManager.AddAlwaysAllow` | orchestrator/permissions.py:49-52 | the tool joins the agent's rules |
| `Permissions.PermissionManager.CheckAlwaysAllow` | orchestrator/permissions.py:54-59 | whether the tool is among the agent's rules |
| `Permissions.AllowedUntilStopped` | orchestrator/permissions.py:49-72 | in every interleaving a tool is allowed without asking exactly when it was allowed for the agent and the agent has not been stopped since |
| `Permissions.PermissionManager.CreateRequest` | orchestrator/permissions.py:77-97 | a new pending request under the drawn id |
| `Permissions.PermissionManager.StartWaiting` | orchestrator/permissions.py:99-103 | the waiter sleeps on the request found under the id, or returns at once |
| `Permissions.PermissionManager.FinishWaiting` | orchestrator/permissions.py:99-107 | a woken waiter removes its id and returns what its request holds |
| `Permissions.PermissionManager.RespondTo` | orchestrator/permissions.py:109-122 | a pending request gets the decision and its event; an unknown id changes nothing |
| `Permissions.PermissionManager.StopAgent` | orchestrator/permissions.py:61-72 | the agent's pending requests are denied, released and dropped, its rules removed |
| `Permissions.ClearTouchesOnlyTheAgent` | orchestrator/permissions.py:61-72 | nothing of the agent's stays pending or allowed, and no other agent's request or rule changes |
| `Permissions.StepLosesExactly` | orchestrator/permissions.py:77-122 | from a state in which no sleeper is lost a step loses none exactly when nobody sleeps without an answer under the id it draws, or under the id it takes out of the table |
| `Permissions.NoLostWakeup` | orchestrator/permissions.py:77-122 | in every interleaving of create, wait, wake, give up, respond, allow and clear, every request holds what was last written to it, and no sleeping waiter is ever lost exactly when every step meets that condition |
| `Permissions.NewIdsAreGuarded` | orchestrator/permissions.py:82-97 | where ids never repeat every step does |
| `Permissions.AnsweringReleases` | orchestrator/permissions.py:109-122 | answering a sleeper's id always makes it wake |
| `Permissions.StoppingReleases` | orchestrator/permissions.py:61-72 | so does stopping its agent |
| `Permissions.WakeReturnsLastWritten` | orchestrator/permissions.py:99-107 | a woken waiter returns the last thing written to the very request it found |
| `Permissions.RepeatedIdLosesWaiter` | orchestrator/permissions.py:82-107 | a run that does not: an id is drawn again while an answered waiter still sleeps, and the next waiter is lost |
| `Permissions.LostStaysLost` | orchestrator/permissions.py:77-122 | a lost waiter is lost for good: no later step releases it |
| `WorktreeName.SanitizeWorktreeName` | orchestrator/route_helpers.py:304-324 | the stages, with the token loop |
| `WorktreeName.SanitizedIsGood` | orchestrator/route_helpers.py:304-324 | for every text the name is non-empty, at most 64 long, of letters, digits and single inner hyphens, without adjacent equal words |
| `WorktreeName.SanitizeIsIdempotent` | orchestrator/route_helpers.py:304-324 | sanitizing a sanitized name changes nothing |
| `WorktreeName.CapKeepsWholeWords` | orchestrator/route_helpers.py:320-323 | a name that is too long keeps the longest run of leading words that leaves room for the hyphen behind it |
| `WorktreeName.ShortTextKeepsItsWords` | orchestrator/route_helpers.py:312-319 | a text whose words fit is named by exactly those words, in order |
| `WorktreeName.WordIsItsName` | orchestrator/route_helpers.py:304-324 | a word of at most 64 lower-case letters and digits is its own name |
| `WorktreeName.NothingIsTask` | orchestrator/route_helpers.py:304-324 | a text without letters and digits is called task |

## Left out

- Times and dates: ranks on a line instead of ISO texts; parsing them is not modelled.
- Message, agent and session ids of the log and the table: natural numbers, with 0 for the empty string. The parser and the fork keep them as strings.
- JSON text: a line is either a parsed entry or unparsed. A line that is valid JSON but not an object makes the parser fail and is not modelled.
- Objects shared between turns, table and waiting list (cards) and between table and waiters (permission requests): they are numbered, and the holders hold numbers; the store of objects is a field.
- The database: a map with a commit that works or fails. Columns no operation reads are dropped.
- Torn lines in the display file: a failed write leaves whole lines; that half a line would also swallow the line appended after it is not modelled.
- DisplayRuns.StepKeepsInvExactly: takes from its callers that a promoted entry was listed as pending and that a row inserted by another component is new to table and file.
- DisplayFaults.StepBase: and the results over runs built on it take created ids to be non-empty; what an empty one does is in CreateSyncedExactly.
- DisplayFields.PromotedIsReadBack: an entry without a creation time keeps none, because there is no clock; the code stamps its row with the current time.
- DisplayTyping.TypedOnceExactly: a text counts as typed when the send succeeds; keys that a failed send left in the pane do not count.
- ParserTheorems.SpeechIsConserved: does not say where among the other turns a group of cards stands.
- The display transforms of message text, tool summaries, tool-turn texts and turn ids derived from tool-use ids: formatting.
- Lower case and word characters: ASCII only in the parser and the prompts. The worktree name takes its text already in lower case, so it holds for every lower-casing.
- WebSocket and push messages, tmux, the language model, threads other than those of the interleaving models: outside. A tmux send is a Boolean.
- DisplayInterleaving.QuiescentIndexIsReplay: covers create, update, cancel, tombstone, promote and loading; delete and the process's death run alone, in the sequential model.
- DisplayRace.RebuildLosesExactly: the rebuild meets creates and flushes, and its own steps succeed; patches, tombstones and promotions of pending entries during a rebuild are not modelled.
- SessionCache.CachedSession.CacheSession: the copy of the subagent directory is not modelled.
- SessionRows.SessionTable.Reconcile: agent and project look-ups and the worktree and project columns are not modelled; a row inserted twice stands for the integrity error at commit.
- SessionOwnership.OwnedSessions: discovery of the files is its input, with each file's entry ids and owner already read.
- Permissions.PermissionManager.CreateRequest: the random id is a parameter.
- Schema migrations, the sync engine, hooks, routers, delivery acknowledgements, the other readers of the log, telemetry, backups and credentials: they would only add easy members or plumbing.
