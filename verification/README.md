# Verified model of the agent's transcript machine

This project models the part of PVYai's `internal/agent` that keeps a long agent run's message
history replayable, bounded and accounted for, and five state machines around it, and proves what
they keep. Run `dafny verify dfyconfig.toml` to check everything.

The system under study, in its own terms:

- **A run** sends a history to a model, appends the answer, executes the tool calls the answer
  advertises, appends one result per call, and goes on until an answer without calls, an abort, a
  guard, an error or the turn limit ends it. A provider that replays a history strictly wants every
  advertised call answered at once and in order.
- **Compaction** replaces the oldest middle of a history by one summary message. The active plan,
  the recently edited files, loaded tools and skills and project instructions travel inside the
  summary as one line of JSON under a label, and are merged with what the next compaction elides.
- **Pruning** empties old, large tool results before any summary is paid for.
- **Guards** count repeated failures, empty turns and stale plans.
- **Read-ahead** runs consecutive read-only calls of one turn side by side.
- **Background diagnostics** check edited files on a worker of their own.
- **The JSON-RPC peer and the session log** carry the same agent for editors.
- **The background task manager and the cron claim** guard processes and schedules against races.

The provider, the tools, the summarizer, the clock, the language server, the file system and every
text test (context limit, image rejection, self-report) are parameters that answer anything. Where
two goroutines meet, every lock region is one atomic method, and a method that takes any schedule of
those steps shows what holds over all interleavings. Text is bytes: one `char` per byte.

## How the modules fit together

`Transcript` says what a replayable history is, twice: block by block and position by position.
`LastSeen` is the theory of last-touched lists with a cap. `Preserve` computes what one elided chunk
carries as the code does, by call id; `OnePass` says what it should carry, by position, and when
the two agree; `Merge` carries it from chunk to chunk, and `Meaning` says position by position what
the carried state tells of the messages. `Json` and `PreservedFrame` put it into the
summary and find it again. `Compaction`, `Prune`, `Tokens` and `Budget` are the operations on a
history, `Thinning` is what pruning costs the carried state, `LongRun` is any number of these
operations. `RunEnv` is what surrounds a run, `RunLog` what it records of itself, `ToolBatch` and
`ModelCall` the two halves of a turn. `Course` says from which answer of the model, which results of the
tools and which words of the loop each recorded step comes, and what ended the run; `AgentRun` is the
loop, proved to keep to such a course; `Conversation` is what follows for every run that does. `Guard`, `ReadAhead` and `Reconnect`
are the parts of the loop with results of their own. `Order` and `Utf8`
hold string order and byte-exact truncation. `Diagnostics`, `JsonRpc`, `SessionHistory`,
`Background`, `Schedule`, `ClockChange`, `Cron`, `ToolPartition` and `Guidelines` stand beside the
loop.

## What the proofs found in the code

- Results are matched to edits and loads by call id. The Gemini provider numbers its calls afresh in
  every stream (`internal/providers/gemini/provider.go:301-310`), so ids repeat within one compaction
  and the note of the earlier edit is lost (`OnePass.RepeatedIdLosesNote`). `OnePass.EditsExactness`
  and `OnePass.SkillsExactness` say for which calls the match by id loses nothing.
- A carried text that spells the preserved-state label makes the whole state unreadable, and text
  that is not UTF-8 comes back changed (`PreservedFrame.FrameRoundTrip`). A prose summary that ends
  in an old block brings that state back although nothing is to be carried; a label without such a
  block behind it does no harm (`PreservedFrame.NothingComesBackIff`).
- Pruning runs before compaction and knows nothing of what compaction preserves: an emptied edit
  result leaves its placeholder as the note, an emptied skill body replaces a good one that was
  carried, and an emptied tool_search result loads nothing (`Thinning.OldAnswerIsLostIff`,
  `Thinning.WrittenNoteIsLost`). `Thinning.PruneKeepsStateIff` says which prunings cost nothing, and
  `LongRun.CarriedIsAppendedIff` the same for whole runs.
- An exit reported while a kill is failing leaves no trace (`Background.ExitDuringFailingKillIsLost`).
- Setting a task back to running between two kills of it lets the first, failing one put it back to
  running after the second has terminated its process (`Background.RevivalEndsRunning`). That is the
  only way a terminated task runs again (`Background.StaysDownIff`), and the program never takes it:
  its own calls set the status to error and nothing else
  (`internal/specialist/exec.go:440`, `:447`, `:481`, `:498`). Those can take a task out of killed,
  never back to running (`Background.StaysKilledIff`).
- The schedule search adds an hour to the start of the hour it leaves. Where clocks are put forward
  into the middle of an hour, that start may belong to the time before the change, and the jump then
  passes minutes for good: on Lord Howe Island `15 3 * * *` does not run on the day clocks go forward
  by half an hour (`ClockChange.LordHoweMisses`). Clocks put back over the start of an hour or over a
  midnight are passed by in the same way. `ClockChange.SafeIff` says exactly which changes are met
  without a miss; a change by an hour on the hour always is.
- When two runs of one cron job overlap, the slower one hands the newer claim's instant out again
  (`Cron.OverlapReopensSlotIff`); a write-back out of turn and a clock that is behind are the only
  ways that happens (`Cron.StepOpensIff`, `Cron.SlotsNeverRepeat`).
- A response frame of a foreign JSON-RPC version is answered with an error, although section 5 of the
  JSON-RPC 2.0 Specification answers requests only, and the branch for a frame with an id and nothing
  else is never reached (`JsonRpc.ResponsesAnsweredIffForeign`, `JsonRpc.EmptyFrameDropped`).
- The comment on `maybeCompact` says that it keeps the original history when the summarizer fails;
  the code returns the pruned one, and so does `Budget.CompactionState.MaybeCompact`.
- A failed append is ignored when a session turn is persisted; `SessionHistory.HistoryComesBackIffKept`
  says which failures the loaded history survives.

## Model

| member | source | states |
|---|---|---|
| Transcript.WellFormedIffPaired | internal/agent/loop.go:2867-2879 | reading a history block by block and looking at each position on its own accept the same histories: every call answered at once, in order, and no tool message anywhere else |
| Transcript.SplitWellFormed | internal/agent/compaction.go:239-257 | a cut in front of any message that is not a tool result separates no call from its answer |
| Transcript.SameShapeWellFormed | internal/agent/prune.go:12-17 | rewriting bodies, with roles, calls and ids kept, keeps a history replayable |
| Transcript.ResultsAnswerCalls | internal/agent/loop.go:573-577 | in a replayable history the k-th tool message answers the k-th advertised call |
| LastSeen.LastTouchConcat | internal/agent/compaction_preserve.go:502-536 | a last-touched list of A then B is what B leaves of A, ahead of the list of B |
| LastSeen.CapCommutesWithOverlay | internal/agent/compaction_preserve.go:508-543 | capping the older list before the merge never loses an entry the cap keeps after it |
| LastSeen.CappedOverlayIsOnePass | internal/agent/compaction_preserve.go:508-543 | capping at every step and merging gives the cap of one pass over everything |
| LastSeen.OverlayIsOnePass | internal/agent/compaction_preserve.go:657-683 | overlaying digests (first place, newest body) is the digest of the concatenation |
| LastSeen.SameDigestIff | internal/agent/compaction_preserve.go:233-311 | two logs of loads have one digest exactly if their names are first seen in the same order and their newest bodies agree |
| Utf8.CutRuneBoundary | internal/cli/exec_writer.go:428-441 | never longer than the limit, a prefix, the longest one that ends on a character boundary, valid UTF-8 stays valid |
| Utf8.TruncateGuidelineContent | internal/agent/system_prompt.go:390-420 | never longer than a non-negative limit, and valid UTF-8 (sections 3 and 4 of RFC 3629) stays valid, marker included |
| Utf8.RuneBackDropsAtMostThree | internal/agent/system_prompt.go:403-410 | on valid text the walk back to a character start gives up at most three bytes |
| Utf8.CapBodyKeepsCharacters | internal/agent/compaction_preserve.go:412-429 | a capped skill body is a prefix that splits no character, and the note |
| Utf8.CapBodyCuts | internal/agent/compaction_preserve.go:412-429 | a body over 2048 bytes is cut in front of the last character that starts within the room the note leaves, and the note follows |
| Preserve.ExtractLatestPlan | internal/agent/compaction_preserve.go:60-73 | the backward loops find what the newest update_plan call with a readable plan says; `Meaning.LatestPlanIs` says which call that is |
| Preserve.LatestPlanConcat | internal/agent/compaction_preserve.go:470-475 | the plan of A then B is that of B, or of A when B has none |
| Preserve.LastSeenOrder | internal/agent/compaction_preserve.go:172-187 | each path once, at its last place |
| Preserve.CollectRecentEdits | internal/agent/compaction_preserve.go:128-170 | the map-building loops compute: last 20 paths in last-touched order, each with the note of the last result filed under an id that maps to it |
| Preserve.CollectLoads | internal/agent/compaction_preserve.go:233-311 | skills and tool schemas in first-seen order with their newest body, matched to the loading call by id |
| Preserve.CollectInstructions | internal/agent/compaction_preserve.go:343-365 | the loop reads the instruction blocks of user messages, in first-seen order with their newest body; `Meaning.OnePassMeans` says which |
| OnePass.EditsByIdAreOnePass | internal/agent/compaction_preserve.go:128-170 | if the ids keep the notes, the match by id is the match by position |
| OnePass.EditsExactness | internal/agent/compaction_preserve.go:128-170 | it is for all answers exactly if every kept path's last filed result is that of its last edit |
| OnePass.DistinctIdsKeepNotes | internal/agent/compaction_preserve.go:135-160 | present, unrepeated ids are enough |
| OnePass.RepeatedIdLosesNote | internal/agent/compaction_preserve.go:152-159 | two edits under one id: the first path's note is lost whatever its tool answered |
| OnePass.SkillsExactness | internal/agent/compaction_preserve.go:233-274 | the skills carried when matched by id are those carried when matched by position, for all answers, exactly if every call is filed under its own key |
| OnePass.DistinctIdsKeepKeys | internal/agent/compaction_preserve.go:233-311 | present, unrepeated ids are enough for skills and tool schemas |
| Merge.MergeRecentEdits | internal/agent/compaction_preserve.go:508-536 | untouched older entries in order, then the fresh ones at their first place with their last body |
| Merge.MergeSkillEntries | internal/agent/compaction_preserve.go:660-683 | older order with fresh bodies, unknown names appended |
| Merge.MergeSkillsIsOverlay | internal/agent/compaction_preserve.go:660-683 | on a digest without repeated names the merge is entry-by-entry upserting |
| Merge.CarryState | internal/agent/compaction_preserve.go:467-495 | the loops of appendPreservedState compute the state carried behind one more chunk |
| Merge.CarryOnIsOnePass | internal/agent/compaction_preserve.go:467-495 | state of A merged with chunk B is one pass over A then B: plan, edits, tools, skills, instructions |
| Merge.CarriedStateIsOnePass | internal/agent/compaction_preserve.go:461-500 | after any number of compactions the carried state is one pass over everything elided |
| Meaning.LatestPlanIs | internal/agent/compaction_preserve.go:60-73 | the plan is that of the call at the greatest message and call position that is an update_plan with a readable plan, and none exactly if there is no such call |
| Meaning.FirstPlaceDigests | internal/agent/compaction_preserve.go:233-311 | a digest holds a name exactly if something of that name was met, once, with the body met last, in the order of the first meetings |
| Meaning.LastTouchRecents | internal/agent/compaction_preserve.go:128-187 | of the paths touched the last 20 are held, each once, with the note of its last touch, in the order of the last touches |
| Meaning.EditNoteMeans | internal/agent/compaction_preserve.go:212-228 | a note is the first line that is not blank, trimmed, and shortened with a mark if too long; none exactly for a blank text |
| Meaning.OnePassMeans | internal/agent/compaction_preserve.go:461-500 | one pass tells of the messages: the latest readable plan; the last edits, tools, skills with what the answer to each call said; and of every name an instruction block of a user message was given for, exactly the last such block, in the order of the first ones |
| Meaning.CarriedMeans | internal/agent/compaction_preserve.go:461-500 | so does the state carried behind any number of compactions, of everything elided |
| Json.DocumentBack | internal/agent/compaction_preserve.go:432-459 | the JSON written for a state is read back, with the escapes of section 7 of RFC 8259 and those for U+2028 and U+2029, and with each byte that is not UTF-8 replaced by U+FFFD |
| Json.DocumentBackIff | internal/agent/compaction_preserve.go:432-459 | it is read back unchanged exactly if every text in it is valid UTF-8 |
| Json.DocumentShape | internal/agent/compaction_preserve.go:596-599 | the encoding is one line that starts and ends with a brace |
| PreservedFrame.DecodeEncodeIff | internal/agent/compaction_preserve.go:558-610 | a state whose entries have names survives encoding exactly if its texts are UTF-8 |
| PreservedFrame.DecodeReads | internal/agent/compaction_preserve.go:591-610 | reading back what is written is all the lemmas below ask of a JSON reader, and there is one |
| PreservedFrame.StateComesBack | internal/agent/compaction_preserve.go:586-610 | with any JSON reader: if the encoding does not contain the label, the state comes back from behind any prose, old labels in it included |
| PreservedFrame.FrameRoundTrip | internal/agent/compaction_preserve.go:558-610 | with any JSON reader the block round-trips if and only if the texts are UTF-8 and the encoding does not contain the label |
| PreservedFrame.NothingComesBackIff | internal/agent/compaction_preserve.go:496-498 | with nothing to carry nothing comes back, exactly if the line behind the last label in the prose does not read as a state |
| PreservedFrame.NothingComesBackToDecodeIff | internal/agent/compaction_preserve.go:591-610 | that is, if that line is not the encoding of any state worth carrying; a label alone is harmless |
| PreservedFrame.QuotedBlockIsTakenForState | internal/agent/compaction_preserve.go:591-595 | prose quoting an old block is parsed as state when nothing is appended |
| Tokens.EstimateTokens | internal/agent/compaction.go:94-123 | the loops compute the sum of the costs of the messages |
| Tokens.EstimateUpdate | internal/agent/compaction.go:110-123 | rewriting one message moves the estimate by the difference of the costs |
| Tokens.NonSpaceCounts | internal/agent/compaction.go:94-105 | the bytes that are no white space are counted, wherever they stand |
| Tokens.EstimateOfText | internal/agent/compaction.go:110-123 | a message costs a quarter of those bytes, 1000 for every image, and 4 |
| Tokens.EstimateOfCall | internal/agent/compaction.go:113-117 | every call adds the cost of its name and its arguments, and 4 |
| Prune.PruneStaleToolOutput | internal/agent/prune.go:46-102 | the backward scan and the rewriting loop; estimate afterwards plus the reclaimed count is the estimate before |
| Prune.ToolNameForResult | internal/agent/prune.go:104-119 | the name of the nearest earlier call with the id, or none |
| Prune.PruneTouchesOnlyOldToolBodies | internal/agent/prune.go:46-102 | a changed message is a tool message in front of the protected suffix with 40000 newer tokens behind it; only its body changed, to a placeholder, and it was none |
| Prune.PruneKeepsWellFormed | internal/agent/prune.go:12-17 | a replayable history stays replayable |
| Prune.PruneIsIdempotent | internal/agent/prune.go:46-102 | a second pass changes nothing and reclaims 0 |
| Prune.StaleIff | internal/agent/prune.go:46-102 | stale is exactly a tool message in front of the protected suffix with 40000 tokens of tool output behind it, 200 of its own, and no placeholder for a body |
| Prune.RecentReaches | internal/agent/prune.go:65-79 | the count that protects newer output is the sum of it until it has reached 40000 |
| Prune.ReclaimableIsStale | internal/agent/prune.go:83-102 | a pass rewrites exactly if the stale bodies come to 20000 tokens |
| Prune.NameIsNearest | internal/agent/prune.go:104-119 | the name in a placeholder is that of the first call with the id in the nearest earlier message that has one |
| Prune.DecimalReads | internal/agent/prune.go:31-36 | the count in a placeholder reads back as the tokens of the body |
| Thinning.PruneThins | internal/agent/prune.go:46-102 | a pass replaces stale bodies and nothing else, and with plain tool names every replacement shows its mark in note and body |
| Thinning.EditsStandIff | internal/agent/compaction_preserve.go:128-170 | other answers to the same calls leave the carried edits as they are exactly if the kept paths' last edits have the same notes |
| Thinning.SkillsStandIff | internal/agent/compaction_preserve.go:233-274 | thinned answers leave the carried skills as they are exactly if every skill's last load gives the same body |
| Thinning.SchemasStandIff | internal/agent/compaction_preserve.go:279-341 | they leave the carried schemas as they are exactly if the loads that were not emptied name them in the same order with the same newest text |
| Thinning.OnePassStandsIff | internal/agent/compaction_preserve.go:461-500 | one pass over a thinned history is one pass over the history itself exactly if these three stand; plan and instructions always do |
| Thinning.PruneKeepsStateIff | internal/agent/prune.go:18-28 | with plain tool names, pruning costs the carried state nothing exactly if no stale result is the last edit of a kept path or the last load of a skill, and the schemas stand without the stale ones |
| Thinning.OldAnswerIsLostIff | internal/agent/prune.go:46-102 | one old, large answer with enough output behind it is lost to the state exactly if an edit, a skill or a tool_search that loaded something got it |
| Thinning.WrittenNoteIsLost | internal/agent/compaction_preserve.go:212-228 | a concrete such history: the note of a written file gives way to a pruning placeholder |
| Compaction.CompactMessages | internal/agent/compaction.go:182-237 | fails exactly without a summarizer or when it fails on a non-empty middle; otherwise system prefix, one summary, suffix no shorter than requested, and removed plus preserved is the input length |
| Compaction.SafeSuffixBoundary | internal/agent/compaction.go:246-257 | the nearest boundary at or before the given one that is an assistant message, or the end of the system prefix |
| Compaction.LatestSummaryContent | internal/agent/compaction_preserve.go:647-655 | the newest user message that starts with the summary label |
| Compaction.CutSplitsNoBlock | internal/agent/compaction.go:191-206 | the cut leaves three replayable parts |
| Compaction.CompactionKeepsWellFormed | internal/agent/compaction.go:182-257 | compaction keeps every replayable history replayable, whatever the summary says |
| Compaction.BoundaryIsNearest | internal/agent/compaction.go:191-257 | the suffix has the messages asked for, 6 by default, and only as many more as it takes to open with an assistant message; or nothing is cut |
| Basics.TrimMeans | internal/agent/compaction.go:218 | trimming takes the white space from both ends of a text and nothing else |
| Compaction.SummaryTellsProse | internal/agent/compaction.go:218-228 | the summary message is the label, what the summarizer said, and behind that the state block, if there is anything to carry, and nothing else |
| Budget.SummarizeWithFallback | internal/agent/compaction.go:505-573 | at most 3n - 2 provider calls for n messages; an answer is trimmed and a blank one counts as an error; an error that surfaces is one the provider gave, a context-limit error only for a slice that cannot be split |
| Budget.SummaryTellsEverything | internal/agent/compaction.go:505-545 | a summary that comes back is what a tree of calls says: its leaves are slices that were each answered and together are the messages in order, and every text put to a reducing call, or returned because it did not fit, holds what both halves say, whole, the earlier first |
| Budget.UnreducedTellsAll | internal/agent/compaction.go:529-539 | where no reducing call was answered, all the answers stand whole in the summary, in order |
| Budget.CallBoundIsTight | internal/agent/compaction.go:505-545 | a model that takes one message at a time and never the joined text costs exactly 3n - 2 calls, and the summary holds what it says of every message, in order |
| Budget.CalibrationConverges | internal/agent/compaction.go:341-356 | fed one sample again and again, the ratio closes in on it by the factor 0.7 |
| Budget.CompactionState.Calibrate | internal/agent/compaction.go:341-356 | a sample is clamped to 0.5..2.0 and blended in with weight 0.3; the ratio stays unset or within that band |
| Budget.ThresholdIsSevenTenths | internal/agent/compaction.go:147-152 | compaction sets in above seven tenths of the window, rounded down |
| Budget.ClampIsNearest | internal/agent/compaction.go:341-356 | a sample out of 0.5..2.0 counts as the nearest number in that band |
| Budget.CalibratedIsScaled | internal/agent/compaction.go:360-365 | a calibrated count is the raw one times the ratio, rounded down |
| Budget.CompactionState.MaybeCompact | internal/agent/compaction.go:380-434 | nothing happens unless compaction is due; then, if pruning alone gets under the threshold, the pruned history is kept; otherwise it is summarized, and the summary is taken exactly if it makes the history smaller; the low-water mark is the size of what is kept, and stays where it was exactly if the summarizer failed; replayable stays replayable; unless it failed a second call does nothing |
| Budget.CompactionState.Recover | internal/agent/compaction.go:436-486 | retries exactly on the first context-limit error whose compaction fails or makes the history smaller, and then never again; the history sent again is the compacted one; a useless attempt spends nothing |
| Budget.CalibratedMonotone | internal/agent/compaction.go:360-365 | a larger raw estimate never calibrates to less |
| LongRun.NewSummaryReads | internal/agent/compaction_preserve.go:467-500 | the state is read back from a new summary exactly if it is UTF-8 and does not spell the label, or, when there is none, the prose does not end in a readable block |
| LongRun.SummarizeCarries | internal/agent/compaction.go:206-237 | one compaction of a history that already holds a summary: the new summary reads back as one pass over everything elided, and nothing else moved |
| LongRun.HistoryIsAccountedFor | internal/agent/compaction_preserve.go:461-500 | over any run of appends, prunings and compactions: replayable, one live summary that carries one pass over everything elided as it stood then, and with the elided put back it is, message by message, what was appended, but for old tool bodies that gave way to a placeholder |
| LongRun.CarriedIsAppendedIff | internal/agent/compaction_preserve.go:461-500 | over any such run the carried state is one pass over what was appended, exactly if what that state keeps reads the same in the elided messages; with plain tool names, exactly if no emptied result is the last edit of a kept path or the last load of a skill, and the schemas stand without the emptied ones |
| LongRun.DistinctIdsSuffice | internal/agent/compaction_preserve.go:128-311 | where every call appended has an id of its own, no compaction of the run needs a condition on ids |
| LongRun.RunIsAccountedFor | internal/agent/compaction_preserve.go:461-500 | the history that admissible steps make of a start is accounted for by these steps: both statements above, of it |
| Guard.GuardState.ObserveToolResult | internal/agent/guardrails.go:396-422 | the count is the tool's trailing run of failures with one signature; the hint comes exactly at 2, the stop exactly from 6 on |
| Guard.StreakIsLongest | internal/agent/guardrails.go:396-422 | that count is the length of the longest such run |
| Guard.StopsExactlyOnSix | internal/agent/guardrails.go:396-422 | however tools interleave, the guard stops if and only if one tool failed six times in a row, in its own history, with one error |
| Guard.GuardState.ObserveTurn | internal/agent/guardrails.go:429-467 | every counter is what the history of turns says; stop from three empty turns in a row on |
| Guard.TrailingIsLongest | internal/agent/guardrails.go:429-467 | the empty, tool-only and plan-free counts are the longest trailing runs |
| Guard.SincePlanIsLongest | internal/agent/guardrails.go:429-467 | the count behind the ten-call reminder is the longest trailing run of calls without update_plan |
| Guard.GuardState.PlanReminder | internal/agent/guardrails.go:504-531 | stale: ten calls or eight turns with open items behind the last plan, told once until the plan is updated; missing: once per run |
| Guard.GuardState.ProgressReminder | internal/agent/guardrails.go:496-502 | once per stretch of six tool-only turns |
| Reconnect.StreamWithReconnect | internal/agent/reconnect.go:76-97 | at most five connects, the last answer is returned, every earlier one was a transient failure of a live run, and it gives up only after the fifth or on a failure not to be retried |
| Reconnect.StreamedOnce | internal/agent/reconnect.go:76-97 | these conditions leave one connect to come back with |
| Reconnect.StreamingIsStreamed | internal/agent/reconnect.go:76-97 | they are met exactly by retrying until a connect is not to be retried or four retries are spent |
| Reconnect.BackoffFor | internal/agent/reconnect.go:144-158 | min(base * 2^(n-1), 8 s) in 64 bits without overflow, for every attempt number |
| Reconnect.JitteredBackoff | internal/agent/reconnect.go:160-167 | never shorter than that, at most half as long again |
| ReadAhead.ExecuteParallelReadBatch | internal/agent/parallel_tools.go:54-97 | in any order of steps the semaphore allows: each call once, at most eight at a time, each result as on its own, the world untouched |
| ReadAhead.RunBatch | internal/agent/loop.go:531-571 | read-ahead gives the results, the world and the stopping point of running the calls one by one; no call twice; none begins before every earlier non-read call has ended |
| ToolBatch.HistorySafeToolCalls | internal/agent/loop.go:778-803 | only arguments are repaired, all of them; ids and names stay |
| ToolBatch.AppendAbortedToolResults | internal/agent/loop.go:2867-2879 | completes an open turn: every call that never ran is answered by the notice, in order |
| ToolBatch.RunToolBatch | internal/agent/loop.go:512-633 | the block is the answer with all its calls and, in order, what the tools said down to the stopping call and the notice behind it; it stops exactly at the first abort, dead run, spec review or sixth equal failure, and tells which; the failure guard has seen every result |
| ToolBatch.BatchOfTells | internal/agent/loop.go:514-633 | what a batch leaves behind it: the hint of the first tool to fail alike a second time, the first model asked for, and whether any call changed files |
| ToolBatch.ReadAheadIsTheBatch | internal/agent/loop.go:531-571 | a batch with read-ahead is this batch: the same results, and the same call behind which it stops |
| ToolBatch.Judge | internal/agent/loop.go:579-619 | exactly when a result ends the batch and with what answer: an abort or a dead run first, then a spec review, then the failure guard |
| ModelCall.AskModel | internal/agent/loop.go:224-372 | the call of a turn, step by step: the connect, reactive recovery, the stall retry, recovery of its stream; what the history, the answer, the connects and the compactor come to is the function the lemmas below are about |
| ModelCall.RetryStalled | internal/agent/loop.go:335-358 | retried exactly if the stream stalled, no prose had reached the user, no text was collected and the wait was sat out; otherwise the answer stands, or the run was interrupted |
| ModelCall.CalledIsSourced | internal/agent/loop.go:224-372 | an answer has no error and is that of the last connect; an error is that of the last connect or its stream, of a summarizer, or an interruption; at most ten connects, five more once per run |
| ModelCall.CalledHistory | internal/agent/compaction.go:436-486 | a call changes the history only by the one recovery of the run, which makes it smaller, and never without a context window |
| ModelCall.CalledSends | internal/agent/loop.go:186-206 | the first request of a call is the history as compaction left it, behind all requests before |
| ModelCall.FirstAnswerIsTaken | internal/agent/loop.go:224-372 | a first answer without error is taken as it is |
| ModelCall.RejectionEndsTheCall | internal/agent/loop.go:208-326 | an image rejection ends the call without recovery or retry, and a run found dead behind a good answer is interrupted |
| ModelCall.RecoveryIsNotMissed | internal/agent/loop.go:208-305 | a first error that can be recovered from spends the recovery: the summarizer's error ends the call, or the compacted history is sent and what comes of it counts |
| ModelCall.StallIsNotMissed | internal/agent/loop.go:335-358 | a stall nobody saw anything of, and no recovery meets, is retried behind the wait, and a good answer to that is taken |
| AgentRun.AnswerWithoutCalls | internal/agent/loop.go:397-503 | what the loop says behind an answer without calls, whether it ends the run and with what answer, and what the loop goes by from then on, are exactly those of `Course` |
| AgentRun.AfterBatch | internal/agent/loop.go:635-712 | behind the last tool result stand feedback, a failed model switch and a dropped call, in this order, then one hint, or else the one reminder that is due, and nothing else |
| AgentRun.OpenTurnBy | internal/agent/loop.go:164-386 | a turn opens with late diagnostics, proactive compaction, the call and its sample, and behind the diagnostics appends nothing |
| AgentRun.TakeBatch | internal/agent/loop.go:386-712 | an answer with calls gets its block, and then what is said behind it, or the end of the run the last result brings |
| AgentRun.FinalAnswerAfterMaxTurns | internal/agent/loop.go:744-776 | the closing prompt is asked through one reconnecting call; prompt and answer are kept together exactly if it came back without error, alive and with visible text, and dropped together otherwise |
| AgentRun.Run | internal/agent/loop.go:112-742 | for every provider, tool and clock: every history returned is replayable and starts with the system prompt; a record comes with it of the blocks appended, the prunings and the compactions, each with what the run's summarizer made of the very messages elided, which make the returned history and, up to the moment of sending, every request; the record is turn by turn that of the answers the provider gave, none left out, each the answer of the connect named, with its calls, their results and the words of the loop behind it, and ends as the last answer, the last result, the failed call or the turn limit demands, and no earlier; the histories sent are recorded one by one; at most maxTurns turns and 10 * maxTurns + 10 connects; nothing is rewritten when compaction is off |
| Course.EndTells | internal/agent/loop.go:397-503 | the final answer of a run that was answered, or gave up, is the text of its last answer, which ends the history; only the completion gate gives up |
| Course.OpenedIsSourced | internal/agent/loop.go:164-386 | whatever a turn opens with, its answer is that of the last connect, without error |
| Conversation.CourseAppends | internal/agent/loop.go:112-742 | a run that goes on has appended just this: for every turn the late diagnostics, the answer with all its calls, what the tool said to every one of them, and the words of the loop |
| Conversation.CourseIsMachine | internal/agent/loop.go:112-742 | the record of a run stands where a machine does that takes one turn after the other, and that machine went on in every one of them |
| Conversation.RunIsOne | internal/agent/loop.go:112-742 | two records of runs with one provider, one set of tools and one clock come to one result: the histories sent, the messages returned, the final answer, the turns taken and the reason to stop |
| Conversation.PlainRunKeepsAll | internal/agent/loop.go:112-742 | without a context window the history of a run that goes on is the start and all that was said |
| Conversation.PlainRunReturnsAll | internal/agent/loop.go:112-742 | and the history it returns, on every way out, is the start and all that was appended, unchanged |
| Conversation.AnsweredIff | internal/agent/loop.go:397-503 | a text answers the run exactly if no call of it was dropped, it shows, the edits brought no error, and under the completion gate: it neither gives up nor ends in mid-step, the plan is done or three turns were nudged before, and the acceptance nudge was given in an earlier turn |
| Conversation.IncompleteIff | internal/agent/loop.go:435-478 | the run gives up exactly if such a text says so, or ends in mid-step with three turns nudged before |
| Conversation.NudgedIff | internal/agent/loop.go:445-490 | exactly when a turn is nudged to go on, for its text or for its plan, and when the acceptance nudge is given |
| Conversation.SilenceIff | internal/agent/loop.go:411-418 | the run is stopped for silence exactly if three turns in a row had no text, no calls and no reasoning |
| Conversation.NudgesAreCounted | internal/agent/loop.go:151-154 | at most three turns of a run are nudged to go on |
| Conversation.AcceptanceAskedOnce | internal/agent/loop.go:155-157 | the acceptance nudge is given at most once in a run |
| Conversation.GoesOnWithoutSix | internal/agent/guardrails.go:396-422 | as long as a run goes on no tool has failed six times in a row with one error, over all its turns |
| Conversation.GuardStopsAtTheSixth | internal/agent/loop.go:598-619 | a run stopped by the failure guard is stopped at the first sixth such failure there is |
| Conversation.WhatIsSaid | internal/agent/loop.go:635-712 | exactly which texts stand behind a batch: feedback if any call changed files, a failed switch to the first model asked for, a dropped call, the hint of the first tool to fail alike twice, and a reminder only if there is no hint |
| AgentRun.RunHistoryCarries | internal/agent/loop.go:112-742 | a recorded history is accounted for by its own record: if those steps are admissible, its summary carries one pass over exactly what they elided, it is what they appended but for emptied tool bodies, and the exact condition holds under which the carried state is one pass over what was appended |
| AgentRun.DistinctCallsCarry | internal/agent/loop.go:112-742 | so it is if every call of the run has an id of its own, no appended message poses as a summary and every new summary can be read back |
| Order.AscendingIsUnique | internal/agent/async_diagnostics.go:169 | there is one ascending list of given members |
| Diagnostics.AsyncDiagnostics.Announce | internal/agent/async_diagnostics.go:80-101 | a changed file is queued once and its old result dropped; a worker runs whenever something is queued |
| Diagnostics.AsyncDiagnostics.WorkerStep | internal/agent/async_diagnostics.go:103-129 | each lock region and each check keeps every announced path accounted for, and brings the worker one step closer to quiet |
| Diagnostics.AsyncDiagnostics.DrainWithin | internal/agent/async_diagnostics.go:144-178 | quiet exactly if the wait outlasts the worker; then it tells what checking now would tell, otherwise nothing and nothing is lost |
| Diagnostics.AsyncDiagnostics.QuietIsCheckNow | internal/agent/async_diagnostics.go:150-178 | with the worker gone, the stored results are the non-empty checks of the final contents of all announced files |
| Diagnostics.Interleave | internal/agent/async_diagnostics.go:80-178 | in every interleaving each quiet drain delivers what a synchronous check of everything announced since the last one would deliver, sorted by path; none stale, lost or repeated |
| Diagnostics.TellsOneText | internal/agent/async_diagnostics.go:165-177 | that delivery is one definite text |
| Diagnostics.ReportTells | internal/agent/async_diagnostics.go:165-177 | in the delivered text every non-empty block stands whole at a position of its own, the nudge ahead, ascending with the paths, one newline apart, and there is nothing else in it |
| Diagnostics.LaidIsUnique | internal/agent/async_diagnostics.go:165-177 | these positions leave one text |
| JsonRpc.Conn.Send | internal/acp/jsonrpc.go:271-277 | the non-blocking send always finds the channel empty: one message per channel, none dropped |
| JsonRpc.Conn.NobodyBlocked | internal/acp/jsonrpc.go:281-293 | once the read loop has closed the connection, a call that still waits has its message |
| JsonRpc.Conn.OwnMessageOnly | internal/acp/jsonrpc.go:209-248 | a call comes back with a response to its own id that arrived, or with the close |
| JsonRpc.Conn.Do | internal/acp/jsonrpc.go:209-293 | every step keeps this, and none registers once closed |
| JsonRpc.Interleave | internal/acp/jsonrpc.go:139-146 | over every interleaving of calls, cancellations, late and duplicate replies and the end of the stream: no channel is sent to twice, a call returns with a reply to its own id, or the close, that came before it returned, none is left blocked once the connection closed, and none registers behind that |
| JsonRpc.RequestsAnsweredOnce | internal/acp/jsonrpc.go:151-207 | a request is answered once with its id, by a result or an error; a notification never (sections 4.1 and 5 of JSON-RPC 2.0) |
| JsonRpc.ResponsesAnsweredIffForeign | internal/acp/jsonrpc.go:157-165 | a response frame is answered exactly if its version is foreign |
| JsonRpc.EmptyFrameDropped | internal/acp/jsonrpc.go:180-185 | a frame without method and id is dropped in silence |
| JsonRpc.FramesGo | internal/acp/jsonrpc.go:151-186 | where every frame goes: unreadable ones are answered -32700, foreign ones with an id -32600; responses go to the call of their id, requests and notifications to the handler of their method (section 5.1 of the JSON-RPC 2.0 Specification) |
| JsonRpc.RequestsComeTo | internal/acp/jsonrpc.go:188-207 | a request without handler is answered -32601, a handler's error with its code or -32603, a result that cannot be encoded -32603, any other with the result |
| SessionHistory.LoadHistory | internal/acp/agent.go:405-447 | the loop reads turns off the log, an unanswered question as a turn without answer |
| SessionHistory.HistoryRoundTrip | internal/acp/agent.go:389-447 | with every append kept and any other events in between, the history comes back exactly |
| SessionHistory.HistoryComesBackIffKept | internal/acp/agent.go:389-403 | with failing appends it comes back exactly if every answer and every question was kept, an empty question behind an answered turn excepted |
| SessionHistory.UnserialisedTurnsMix | internal/acp/agent.go:181-185 | without the turn lock two turns are read back as three, with the answers misplaced |
| SessionHistory.Session.PersistTurn | internal/acp/agent.go:389-403 | whichever appends fail and whatever others log in between, memory takes the turn and the log holds just the appends that were kept |
| SessionHistory.Session.Reload | internal/acp/agent.go:405-447 | reading a live session's log gives the history in memory exactly if its turns were faithfully kept |
| Background.ExitDuringFailingKillIsLost | internal/background/manager.go:282-292 | an exit reported between mark and rollback leaves the task running |
| Background.StepKeeps | internal/background/manager.go:124-382 | every lock region keeps memory and disk in agreement, completion times exactly where due, signals behind marks, and terminated tasks down |
| Background.ExitIsRecorded | internal/background/manager.go:226-251 | an exit is recorded with its code and the time, once, and only of a running task |
| Background.StatusIsRecorded | internal/background/manager.go:200-224 | a status from outside is recorded with its code, and the time is that of the first leaving of running |
| Background.KillIsRecorded | internal/background/manager.go:336-382 | a kill records the task killed with code -1, and takes that back when its signal fails |
| Background.OthersStand | internal/background/manager.go:124-382 | a step changes no other task, and one whose write fails changes none |
| Background.RevivingStepsIff | internal/background/manager.go:200-224 | exactly which steps put a terminated task back to running: setting it running from outside, or the rollback of a kill whose mark another kill has renewed |
| Background.UnkillingStepsIff | internal/background/manager.go:200-224 | exactly which steps take a terminated task out of killed: any other status from outside, or that rollback |
| Background.NoRollbackIsLeft | internal/background/manager.go:336-382 | as long as a terminated task was never set running no kill still owns its mark, so none is left to roll it back |
| Background.RevivalEndsRunning | internal/background/manager.go:260-382 | a concrete run of the manager: two kills with the task set running in between, the second terminates, the first fails and restores running |
| Background.StaysDownIff | internal/background/manager.go:200-382 | with status updates drawn from a given set, a terminated task stays out of running on all runs exactly if running is not in the set |
| Background.StaysKilledIff | internal/background/manager.go:200-382 | and it stays killed on all runs exactly if nothing but killed is in the set |
| Background.LoadAgreesIff | internal/background/manager.go:412-424 | memory and disk agree on a loaded task unless it needed a repair that could not be written |
| Background.LoadStampedIff | internal/background/manager.go:428-473 | no loaded task runs, and it has a completion time exactly if the file gave one or said it was running |
| Background.Manager.DoMarkExited | internal/background/manager.go:226-251 | a task that is not running is left alone, a killed one in particular |
| Background.Manager.SetMark | internal/background/manager.go:336-359 | a kill goes on to signal only if it itself moved the task from running with that pid to killed |
| Background.Interleave | internal/background/manager.go:124-382 | over all interleavings: memory and disk agree, a completion time is there exactly when not running, every signal follows the mark of the same kill, a terminated task that was never set running does not run, and one whose status was never set stays killed |
| Schedule.Next | internal/cron/schedule.go:165-219 | the search loop with its jumps and its forward-progress guard, on the clock of any zone |
| Schedule.NextIsLater | internal/cron/schedule.go:165-219 | its answer is strictly later, on the minute, and matches, the repeated wall-clock minute set aside; in every zone |
| Schedule.NextIsFirst | internal/cron/schedule.go:165-219 | on a tight clock a match in front of the answer is one the clock goes through again, at the answer or behind it |
| Schedule.NoneForNineYears | internal/cron/schedule.go:165-219 | it gives up only more than nine calendar years on, on a tight clock with nothing missed in front of that |
| ClockChange.GentleIsTight | internal/cron/schedule.go:178-217 | a clock whose changes lie days apart and are safe is tight |
| ClockChange.HourOnTheHourIsSafe | internal/cron/schedule.go:182-187 | changes by one hour and on the hour are safe in every zone |
| ClockChange.HourPasses | internal/cron/schedule.go:182-187 | over a safe change the jump to the next hour passes nothing but the hour it leaves |
| ClockChange.MidnightPasses | internal/cron/schedule.go:178-181 | over a safe change a jump to a midnight passes nothing behind it but what comes again |
| ClockChange.SafeIff | internal/cron/schedule.go:165-219 | a change of the clock is safe exactly if no schedule, searched from any instant, misses a minute over it; safe is a test of the instant and the two offsets |
| ClockChange.LordHoweMisses | internal/cron/schedule.go:182-187 | a clock put forward by half an hour: `15 3 * * *` passes 03:15 of the day of the change, which exists, matches and never comes again |
| Cron.Store.ClaimFire | internal/cli/cron_run.go:244-278 | won exactly if the job is there, readable, active and due and the write goes through |
| Cron.ClaimShutsOut | internal/cli/cron_run.go:236-278 | after a claim at f only instants from the new slot on can claim, which is later than f; an unadvanceable job is claimed once, then refused |
| Cron.Store.Persist | internal/cli/cron_run.go:181-219 | the copy is written back advanced, and paused if the job was found paused |
| Cron.PauseSurvivesIff | internal/cli/cron_run.go:206-219 | a pause that landed during the run survives exactly if the read succeeded or the copy pauses anyway |
| Cron.OverlapReopensSlotIff | internal/cli/cron_run.go:193-219 | a run of two schedulers that overlap: the second claim's instant can be claimed again unless that claim paused the job |
| Cron.StepOpensIff | internal/cli/cron_run.go:105-278 | exactly which step lets a claimed instant be claimed again: the write-back of a run that another claim has overtaken, or a resume or reschedule by a clock that is behind |
| Cron.Compete | internal/cli/cron_run.go:105-278 | schedulers, write-backs, pauses, resumes, reschedulings and removals step by step in any order, on stale copies and with failing reads and writes, come to the specified claims and job |
| Cron.SlotsNeverRepeat | internal/cli/cron_run.go:236-278 | over any such run no claimed instant can ever be claimed again exactly if none of these steps occurs, and then every claim takes a slot later than all earlier claims were made |
| Cron.InTurnNeverRepeats | internal/cli/cron_run.go:132-134 | where write-backs come in turn and clocks do not go back that always holds |
| ToolPartition.PartitionToolsCached | internal/agent/loop.go:2574-2706 | the loops and the cache compute the layout: eager block, tool_search, loaded tail; or everything but tool_search when deferral is off |
| ToolPartition.PartitionIsUnique | internal/agent/loop.go:2566-2579 | the answer depends on the set of tools alone |
| ToolPartition.RegistryOrderIsMoot | internal/agent/loop.go:2566-2579 | however the registry map is walked and whatever an earlier turn left in the cache, the answer is the same |
| ToolPartition.LoadingOnlyAppends | internal/agent/loop.go:2619-2635 | loading more tools leaves the eager block and the place of tool_search as they are |
| ToolPartition.NothingLostNothingTwice | internal/agent/loop.go:2636-2690 | every visible tool is exposed or hidden, never both, and tool_search is exposed |
| ToolPartition.LoaderTells | internal/agent/loop.go:2669-2684 | tool_search is advertised with its own name and parameters, and with the list of the hidden tools for a description as long as there are any |
| Guidelines.ProjectGuidelines | internal/agent/system_prompt.go:312-347 | the loop spends the byte budget from general to specific |
| Guidelines.BudgetsHold | internal/agent/system_prompt.go:333-345 | at most 8 KiB per file and 32 KiB in all |
| Guidelines.NothingCutIff | internal/agent/system_prompt.go:333-345 | nothing is cut or left out exactly if every file and all together fit |
| Guidelines.ContentsOfFile | internal/agent/system_prompt.go:323-333 | a file that can be read and is not blank gives its trimmed text, any other nothing |
| Guidelines.SpentOrDone | internal/agent/system_prompt.go:319-322 | files are left out only when the budget is spent |

## Left out

- Preserve.CollectRecentEdits: white space is trimmed as ASCII; `strings.TrimSpace` also trims Unicode spaces.
- PreservedFrame.DecodeReads: the concrete reader accepts what the writer writes and nothing else; `encoding/json` also accepts white space and other key orders, and the frame lemmas hold for every reader that reads back what was written.
- Thinning.PruneKeepsStateIff: tool names are printable ASCII here; for all others `Thinning.OnePassStandsIff` compares notes and bodies themselves.
- Prune.PruneStaleToolOutput: token counts are unbounded integers.
- Budget.CompactionState.Calibrate: `float64` is a real number, so rounding is not modelled.
- AgentRun.Run: the flags `Incomplete` and `FinishReason` of a result are not modelled, the ending tells why a run stopped; a model switch is a provider that may answer anything from then on; image bytes are a count and thinking blocks are not part of a message. Read-ahead is `ToolBatch.ReadAheadIsTheBatch`.
- ReadAhead.RunBatch: a call answers by the world and its arguments only, so a cancelled context is not an answer of its own; permission prompts are not modelled.
- Diagnostics.Interleave: the context is not cancelled, and files change through announced edits; a path edited behind its announcement is excepted.
- JsonRpc.Interleave: that a waiting call is scheduled again is not modelled, only that its message is there.
- SessionHistory.HistoryRoundTrip: contents are strings the event log stores as they are; JSON replaces invalid UTF-8.
- Background.Interleave: other processes writing the metadata directory are not modelled; output files, identifiers and listing order are not either.
- Schedule.NextIsFirst: offsets of zones are whole minutes and less than a day; `time.Date` belongs to the Go standard library and is modelled after its rule for looking offsets up.
- ClockChange.SafeIff: changes by more than twelve hours are left out; `ClockChange.GentleIsTight` admits them up to a day.
- Cron.Compete: the outcome of a run and its record are not modelled, and the expression of a job is never edited, which the commands do not do either.
- ToolPartition.PartitionToolsCached: visibility, advertisement and deferral of a tool are given; the text tool_search shows is a function of the set of hidden tools.
- Executing tools: sandbox, permissions, hooks, redaction and registry are one oracle that answers anything with the id of its call.
- Provider streaming, HTTP, process spawning, files, language servers and git are oracles.
- The transcript rendering for the summarizer, the context-limit and image-rejection word lists, the self-report and continuation-cue phrases: uninterpreted tests on text.
- CLI parsing, the terminal interface, authentication, plugins, and the scoring of agent evaluations.
