# ClawManager: models and proofs

A Dafny 4 project about the parts of ClawManager's backend that keep protocol state or transform structured data.
`dafny verify dfyconfig.toml` checks all of it.

| file | what it models |
|---|---|
| Text, Wire | trimming, joining and case as the Go `strings` package does them; JSON values, tool calls, content blocks, stream events and chunks |
| SqlSplitter, SqlParts | the scanner that cuts migration files into SQL statements; migration files as scripts of code, quoted text, comments and statement ends |
| SseFraming, SseStandard, AnthropicStream | reading server-sent events line by line, against the standard's parser, and turning each Anthropic event into OpenAI chunks |
| StreamInvariant, StreamBatch | what a stream has said so far; the stream against the batch translation of the same response |
| ChatConversion, Dialogue | OpenAI chat history to Anthropic messages, and back; dialogues as people write them, and what the conversion says of them |
| TeamLedger, LedgerRuns, LedgerRows | root tasks, workflow phases, events and the transactional outbox, runs over them, and what their rows go through in a run |
| WorkItems | merging work-item reports into rows |
| GenerationFence, RuntimePool, PodRuns, GatewayReports | writes fenced by a generation; pods, slots, bindings and instance rows; which pods take slots; gateway reports |
| ToolCallAudit, TraceAggregation | reassembly of tool calls from fragments; invocations aggregated per trace |
| CommandQueue, CommandRuns, CommandRecords | the agent command queue, runs over it, and what its calls put on record |
| Transcript | the chat transcript recorded from growing message lists |

## How the model is built

Code that changes things in place is a class or a method with the source's branches in the source's order. Each such
method is proved equal to a specification function of the old state, and the theorems are lemmas about those functions
over all inputs, all runs and all interleavings. What a status, a mark or a key decides is stated in its own literals,
apart from the predicates that method and specification share.

- A database table is a map (or a list by id) with the unique keys the schema declares; a SQL statement or a transaction
  is one step. `RowsAffected` counts matched rows. Where a failing statement matters, a `Fault` argument says which one
  fails, and the theorems hold for every choice.
- A service call on the command queue or the transcript reads and then writes whole rows; each call is one step.
- Times are integers, zero being the unset time. `now`, generated numbers and the outcome of writes to the client are
  arguments.
- JSON text is abstract: decoding and encoding are functions that theorems constrain by decode(encode(v)) = v where they
  need it, and, on the wire, by an encoding being one trimmed, nonblank line. Text is a sequence of characters.
- The start event of a content block shows any text and any input, on an ordinary stream none yet; the deltas bring the
  real ones.

Several properties one might expect are false of the code. Each has its exact condition as an if-and-only-if lemma, or
an input that breaks it:

- Streaming and batch agree on tool calls exactly when every call has an id and its pieces are the encoded input, and on
  text exactly when the white-space-only text between any two text blocks that say something is one newline, and there is
  none elsewhere (`StreamBatch.StreamAgreesWithBatch`): batch drops blank texts and joins the others by newlines, the
  stream does neither. So with no such text at most one block may speak (`StreamBatch.SpacedWithoutBlanks`), and a tool
  called without arguments has none on the stream but an encoded object in the batch (`StreamBatch.WithoutPieces`).
  A stream that carries neither text nor a tool names no role; the batch always does.
- A stream event that fails does not end the loop: the `break` at service.go:1032 leaves the `switch` only, so later
  events are still delivered (`StreamInvariant.ErrorDoesNotEnd`).
- Section 9.2.6 of the WHATWG HTML Living Standard strips one leading space from a field value, takes a bare field name
  for an empty value, and discards an event that is open at the end. The code trims all white space, ignores bare names,
  and delivers the open event. `SseStandard.PlainExactly` says for which lines the two agree, `SseStandard.FramesAreEvents`
  for which bodies, and `SseFraming.ReceivedIntact` when a message arrives as sent.
- A tool call whose id has white space around it cannot be answered: the conversion trims the id of the answer, but
  passes the id of the call on as it is (`Dialogue.AnswerFindsCall`).
- Splitting a split statement again need not give it back (`SqlSplitter.ResplitDiffers`); `SqlSplitter.SplitFixed` says
  exactly when it does.
- Accepting the same root completion again succeeds for a completion without an id that leaves the row open and its
  version alone (`LedgerRuns.RepeatedAcceptance`). `AcceptRootCompletion` can return true together with an error after a
  rollback, so the theorems speak of "true without error"; `LedgerRuns.AcceptedWithError` says exactly when, and that it
  is harmless.
- A refused work-item report still moves the row's timestamp, so a stale report can reopen a finished item when
  timestamps go back (`WorkItems.StaleReportCanReopen`, `WorkItems.StandsByItsTime`). A report delivered again after later
  ones disturbs the row unless the row reflects it (`WorkItems.LateRedelivery`).
- Draining a pod by deleting a binding and then releasing a slot unconditionally is not safe against a second worker
  doing the same, in whatever order; `RuntimePool.RacingDrains` says exactly when the accounts survive. Deleting and
  releasing in one transaction is safe (`RuntimePool.DeleteTwice`). Deleting an instance that is still bound would leak
  its slot, for the foreign key removes the binding and nothing gives the slot back (`RuntimePool.StepConserves`);
  lite_backend.go:230-239 cleans up the binding first.
- A command whose desired-state write fails stays in the queue under its key, and creating it again does not repair the
  desired state (`CommandRuns.RetryDoesNotRepair`); it follows the commands exactly while no write is dropped
  (`CommandRuns.StepFollows`).
- A finish report tried again after part of the skills were removed overwrites them with its own time only if that time
  is not the earlier one (`CommandRuns.FinishAgain`).
- A poll dispatches its command for good. If the reply is lost on the way, or the stored JSON was altered outside the
  service and does not decode, no later poll hands the command out (`CommandRuns.PollIsFinal`).
- A trace's row can show one user's id with another user's name (`TraceAggregation.NameOfAnother`); it shows its own
  user's exactly when that user has a name, or nobody from the first invocation with a user on has one
  (`TraceAggregation.NameIsUsers`).
- Recording a message list twice duplicates its tail when the list and the transcript had diverged
  (`Transcript.RepeatAddsNothing`).

## Model

| member | source | states |
|---|---|---|
| SqlSplitter.SplitSQLStatements | backend/internal/db/migrations.go:109-229 | the five-flag scanner loop yields exactly the statements of a recursive, mode-by-mode tokenizer |
| SqlSplitter.ScanTokens | backend/internal/db/migrations.go:109-201 | from any scanner state, scanning on equals finishing the open token and tokenizing the rest |
| SqlSplitter.TokensSource | backend/internal/db/migrations.go:109-201 | the tokens of a text, put back together, are the text |
| SqlSplitter.SplitConservesText | backend/internal/db/migrations.go:109-229 | the untrimmed pieces concatenate to the input without its comments and top-level semicolons, in order |
| SqlSplitter.SplitStatements | backend/internal/db/migrations.go:109-229 | every statement is nonempty and trimmed, and an independent quote automaton finds no semicolon outside quotes in it |
| SqlSplitter.SplitFixed | backend/internal/db/migrations.go:109-229 | a text splits to itself alone if and only if it is nonempty, trimmed and has neither comments nor separators |
| SqlSplitter.ResplitDiffers | backend/internal/db/migrations.go:122-146 | a statement the splitter returns that it does not return when given it again |
| SqlSplitter.SplitScript | backend/internal/db/migrations.go:109-229 | clean statements joined by semicolon and newline split back into the same list |
| SqlParts.SplitReadsScript | backend/internal/db/migrations.go:109-229 | every script, whose code, quoted text, comments and statement ends are written out character by character, splits into the statements read off its parts: comments go, quoted text stays whole, `;` outside both ends a statement |
| SqlParts.EveryTextIsScript | backend/internal/db/migrations.go:122-201 | every text is such a script, closed or ending inside a quote or comment, so the former says what any input splits into |
| SqlParts.CommentsVanish | backend/internal/db/migrations.go:131-199 | taking a comment out of a script leaves its statements as they are; and the text is still that script if and only if no two marks of a comment meet where it stood |
| SqlParts.MarksMeet | backend/internal/db/migrations.go:185-199 | where marks meet the statements can change |
| SseFraming.PrintedFrames | backend/internal/aigateway/service.go:999-1053 | any printed list of event/data messages is framed one for one, in order, each field trimmed |
| SseFraming.ReceivedIntact | backend/internal/aigateway/service.go:1036-1049 | a message arrives unchanged if and only if its type and every payload line are trimmed |
| SseStandard.PlainExactly | backend/internal/aigateway/service.go:1026-1042 | the loop takes a line as the standard parser does, in every state, if and only if the line is plain: a colon after `event` or `data`, and a value trimmed but for one leading space |
| SseStandard.FramesAreEvents | backend/internal/aigateway/service.go:999-1053 | on a body of plain lines ending in LF or CR LF, without a byte order mark, the loop's frames are the standard's events if and only if the last event is closed |
| AnthropicStream.AnthropicStream.Emit | backend/internal/aigateway/service.go:1324-1334 | a chunk is attempted, and its failure reported, whatever the client does |
| AnthropicStream.AnthropicStream.ConditionalAssistantRole | backend/internal/aigateway/service.go:1344-1350 | the role is given out the first time only |
| AnthropicStream.AnthropicStream.ProcessStart | backend/internal/aigateway/service.go:1159-1225 | start events set identity, role, text and tool state as the reaction function says, and attempt its chunk |
| AnthropicStream.AnthropicStream.ProcessDelta | backend/internal/aigateway/service.go:1226-1287 | delta events append text or tool arguments and attempt exactly that fragment |
| AnthropicStream.AnthropicStream.ProcessClosing | backend/internal/aigateway/service.go:1288-1312 | a closing delta takes over the output tokens and attempts a chunk with the normalized stop reason, if there is one |
| AnthropicStream.AnthropicStream.ProcessEvent | backend/internal/aigateway/service.go:1146-1322 | one event moves state, attempted chunks, end flag and error flag by one delivery; unreadable payloads are skipped, a stop ends the stream and an error event fails |
| AnthropicStream.AnthropicStream.FlushEvent | backend/internal/aigateway/service.go:1004-1020 | the pending lines are delivered as one frame, if there are any, and cleared |
| AnthropicStream.AnthropicStream.ReadBody | backend/internal/aigateway/service.go:1022-1053 | reading line by line delivers the frames of the body in order until the stream ends, going on after a failed event |
| AnthropicStream.AnthropicStream.StreamBody | backend/internal/aigateway/service.go:999-1097 | after the body the final chunk with the token counts is attempted, unless reading failed |
| AnthropicStream.DoneStays | backend/internal/aigateway/service.go:1022-1053 | frames after the end of the stream are not delivered |
| StreamInvariant.DeliverPlays | backend/internal/aigateway/service.go:1146-1322 | delivering frames is playing their decoded events, unreadable ones skipped, and with all writes accepted the stream fails exactly if an error event with a message came |
| StreamInvariant.ErrorDoesNotEnd | backend/internal/aigateway/service.go:1026-1034 | an error event fails the stream, and the text after it is still sent |
| StreamInvariant.TextAndRole | backend/internal/aigateway/service.go:1146-1322 | after any events the content sent concatenates to the assistant text, and the role was sent once if the flag is set and never otherwise |
| StreamInvariant.ToolArguments | backend/internal/aigateway/service.go:1146-1322 | after any events, for every index, the announced id and name and the fragments sent since are the stored tool call |
| StreamInvariant.FragmentsAnnounced | backend/internal/aigateway/service.go:1166-1287 | every chunk with tool calls has exactly one, with index and function, which announces the call or carries the id it was last announced under, earlier |
| StreamBatch.ConvertAnthropicBlocksToOpenAIMessage | backend/internal/aigateway/service.go:1813-1847 | text parts are joined by newlines or the content is absent; each tool block becomes a call with its encoded input |
| StreamBatch.RunDenoised | backend/internal/aigateway/service.go:1146-1322 | pings, block ends, other block and delta types, empty text deltas and empty errors anywhere in a stream change neither the state nor what the client assembles |
| StreamBatch.StreamAssembles | backend/internal/aigateway/service.go:1146-1322 | whatever its start events show, the chunks of any well-formed response assemble, at an OpenAI client, to its text, calls, finish reason and counts |
| StreamBatch.TextAgreement | backend/internal/aigateway/service.go:1813-1847 | streamed and batch text agree if and only if blank texts stand between speaking ones as single newlines, and nowhere else |
| StreamBatch.SpacedWithoutBlanks | backend/internal/aigateway/service.go:1813-1847 | without white-space-only texts that is: at most one text block says anything |
| StreamBatch.StreamAgreesWithBatch | backend/internal/aigateway/service.go:1761-1847 | streaming agrees with batch: always in finish reason and counts, and in calls, in text and in role each under its exact condition |
| StreamBatch.FinishReasons | backend/internal/aigateway/service.go:1849-1860 | streamed or in one piece, a response ends with "stop" exactly for end_turn and stop_sequence, "length" for max_tokens, "tool_calls" for tool_use, and no reason otherwise, white space aside; the total is the sum of both token counts |
| StreamBatch.OrdinaryResponse | backend/internal/aigateway/service.go:1146-1322 | a text and a tool call announced empty and brought by deltas: the two replies are equal, with the whole text and the whole input |
| StreamBatch.WithoutPieces | backend/internal/aigateway/service.go:1822-1836 | a tool call whose input comes in no piece makes the tool calls differ |
| StreamBatch.WireToReply | backend/internal/aigateway/service.go:942-1097 | a response printed as server-sent events, with event lines or with the kinds in the payloads alone, framed, decoded and streamed reaches the client complete |
| Wire.DigitsWrite | backend/internal/aigateway/service.go:1192-1200 | the numbers in default call ids are decimal, without leading zeros |
| Text.SpacesAreTrimmed | backend/internal/handlers/runtime_agent_handler.go:317-318 | trimming takes away exactly the characters with Unicode's White_Space property |
| Text.LettersAreLowered | backend/internal/handlers/runtime_agent_handler.go:317-318 | lowering maps each capital letter to its small one and changes nothing else |
| ChatConversion.ConvertChatMessages | backend/internal/aigateway/service.go:1517-1552 | converted messages are nonempty with adjacent roles different, and say the history block for block and role for role |
| ChatConversion.AppendMessage | backend/internal/aigateway/service.go:1521-1534 | blocks join the last message of their role or start a new one; nothing is lost, nothing empty is added |
| ChatConversion.ConvertAssistantMessage | backend/internal/aigateway/service.go:1566-1580 | an assistant message becomes its text blocks followed by one tool block per call |
| Dialogue.DialogueIsSaid | backend/internal/aigateway/service.go:1517-1632 | every dialogue of system, user, assistant and tool lines, with text, structured parts and tool calls and any spelling of the roles, is converted to what it says, written out block by block, and its system lines make up the prompt |
| Dialogue.AnswerFindsCall | backend/internal/aigateway/service.go:1566-1598 | a tool's answer names its call if and only if the id it was given, trimmed, is the call's id; with the very id of the call, if and only if that id has no white space around it |
| ChatConversion.GroupingUnique | backend/internal/aigateway/service.go:1517-1552 | only one grouping has those properties, so the converted history is determined by them |
| ChatConversion.AssistantReturns | backend/internal/aigateway/service.go:1566-1580 | an assistant message survives conversion and back if and only if its calls and content are canonical |
| ChatConversion.ArgumentsReturn | backend/internal/aigateway/service.go:1746-1759 | argument text survives parsing and encoding if and only if it is the canonical encoding |
| LedgerRuns.AcceptanceCommits | backend/internal/repository/team_repository.go:413-491 | true without error happens exactly under the guard and with no failing statement, and commits row, phases, event and message |
| LedgerRuns.AcceptedWithError | backend/internal/repository/team_repository.go:447-490 | true with an error is returned if and only if guard and completion id let the call pass and a later statement or the commit fails; nothing stays, and the call can be tried again |
| LedgerRuns.RepeatedAcceptance | backend/internal/repository/team_repository.go:418-445 | exactly when the same acceptance can succeed twice |
| LedgerRuns.AcceptedOnce | backend/internal/repository/team_repository.go:413-491 | after a winner with a completion id, every later call for that row returns false and changes nothing, in every interleaving |
| LedgerRuns.AtMostOneWinner | backend/internal/repository/team_repository.go:413-491 | of the calls of a run with a completion id for one row at most one wins, and then every other one, earlier or later, changes nothing |
| LedgerRuns.CompletionWinsOnce | backend/internal/repository/team_repository.go:413-491 | in every run a completion id wins at most once in a team, whichever rows the calls name |
| LedgerRuns.OutboxConserved | backend/internal/repository/team_repository.go:316-353 | in every run outbox messages are unique and are exactly those that successful acceptances, confirmations and sends committed |
| LedgerRuns.AttemptsCountFailures | backend/internal/repository/team_repository.go:537-560 | a stored message is never lost or altered, and its attempts grow by one per reported failure |
| LedgerRuns.RoundDelivers | backend/internal/repository/team_repository.go:493-547 | one list-and-deliver round takes `limit` due messages off the outbox, or all there are |
| LedgerRuns.RoundsDrain | backend/internal/repository/team_repository.go:493-547 | r rounds of size k leave max(0, n - r k) of n due messages |
| LedgerRows.PhasesStay | backend/internal/repository/team_repository.go:355-458 | in every run the phases of a root task change only by calls about that root task |
| LedgerRows.WinnerClosesPlan | backend/internal/repository/team_repository.go:453-458 | a winning acceptance completes, at its time, exactly the phases of its root task and plan version, or of every version if it names none, that are not cancelled or superseded |
| LedgerRows.PlanStaysClosed | backend/internal/repository/team_repository.go:413-491 | after a completion has won, no phase of its plan is open again until a phase of that root task is written |
| LedgerRows.PhasesKept | backend/internal/repository/team_repository.go:355-403 | over every run a phase keeps its id and creation time, and never loses its place in the plan or its completion time |
| LedgerRows.PhaseWritten | backend/internal/repository/team_repository.go:355-403 | a phase without a root task or a name is refused; otherwise it is stored under its plan version, or version one |
| LedgerRows.WinnerTakesOpenRow | backend/internal/repository/team_repository.go:419-445 | an acceptance wins only on a row at the version read, without a completion, and not succeeded, failed or stale; it takes over the proposal but for team and details |
| LedgerRows.AcceptanceDecides | backend/internal/repository/team_repository.go:413-451 | without a failing statement an acceptance wins if and only if its row is open at the version read and no other root task of the team has accepted its completion id |
| LedgerRows.FinishedStays | backend/internal/repository/team_repository.go:423-451 | in every run a root task that has succeeded, failed or gone stale stays as it is and no acceptance of it wins, until its row is overwritten |
| LedgerRows.EventsStayUnique | backend/internal/repository/team_repository.go:291-314 | in every run no two events of a team share a stream id, an event id or a completion id |
| LedgerRows.EventRecorded | backend/internal/repository/team_repository.go:291-314 | an event is refused if and only if it shares such an id with a stored one; else it stands under its own sequence number or its row id |
| LedgerRows.SequenceFaultMatters | backend/internal/repository/team_repository.go:291-314 | a failing sequence update fails an acceptance if and only if its event is new and brings no number of its own |
| LedgerRows.ConfirmationIsWhole | backend/internal/repository/team_repository.go:316-353 | a confirmation writes item, event and message, or nothing; it leaves root tasks and phases alone |
| LedgerRows.ItemsStayInPlace | backend/internal/repository/team_repository.go:316-353 | in every run a confirmed item writes the row of its team, root task and work id, and no other |
| LedgerRows.MessagesConserved | backend/internal/repository/team_repository.go:316-353 | in every run a message is in the outbox, by team, destination and message id, if and only if a call that brought it went through, and is there once |
| LedgerRows.MessageStored | backend/internal/repository/team_repository.go:507-535 | a new message is stored as pending and available at once, unless it says otherwise |
| LedgerRows.ListedInOrder | backend/internal/repository/team_repository.go:493-505 | a listing holds pending messages that are available, by availability and id, and leaves one out only if it is full of earlier ones |
| TeamLedger.TeamRepository.AcceptRootCompletion | backend/internal/repository/team_repository.go:413-491 | state, flag and error are those of the atomic acceptance, whichever statement fails |
| TeamLedger.TeamRepository.ConfirmWorkItemResult | backend/internal/repository/team_repository.go:316-353 | work item, event and message are written together or not at all; repeated events and messages are no error |
| TeamLedger.TeamRepository.InsertEvent | backend/internal/repository/team_repository.go:291-314 | a repeated stream, event or completion id is refused; a new row gets its id as sequence number unless it brings one |
| TeamLedger.TeamRepository.InsertMessage | backend/internal/repository/team_repository.go:507-535 | defaults are filled in and a known message is left alone |
| TeamLedger.TeamRepository.RecordEvent | backend/internal/repository/team_repository.go:291-314 | on its own a repeated event is an error, and a failed sequence update leaves the row |
| TeamLedger.TeamRepository.CreateEventOutbox | backend/internal/repository/team_repository.go:507-535 | on its own a known message is no error |
| TeamLedger.TeamRepository.OverwriteTask | backend/internal/repository/team_repository.go:215-223 | the whole row is replaced, unless its completion id is taken in the team |
| TeamLedger.TeamRepository.MarkEventOutboxDelivered | backend/internal/repository/team_repository.go:537-547 | the row is delivered at the given time and its error cleared |
| TeamLedger.TeamRepository.MarkEventOutboxFailed | backend/internal/repository/team_repository.go:549-560 | the row is pending again, one attempt more, with the cause |
| TeamLedger.TeamRepository.UpsertWorkflowPhase | backend/internal/repository/team_repository.go:355-403 | a phase is inserted once per root, phase and plan version, later merged with its sticky fields |
| TeamLedger.TeamRepository.ListPendingEventOutbox | backend/internal/repository/team_repository.go:493-505 | the list is the first due messages by availability and id, as many as the limit or as there are |
| WorkItems.WorkItemTable.UpsertWorkItem | backend/internal/repository/team_repository.go:619-700 | one row per team, root and work id: inserted, or merged field by field |
| WorkItems.WorkItemTable.InvalidateWorkItemReview | backend/internal/repository/team_repository.go:702-717 | only a reviewed, validated row of that id loses its validation |
| WorkItems.ReplayIsSafe | backend/internal/repository/team_repository.go:619-700 | a dated report delivered twice is as good as once, over every field and branch; an undated one if and only if the clock stood still |
| WorkItems.RedeliveryIsSafe | backend/internal/repository/team_repository.go:619-717 | in a whole run any dated operations may be redelivered in place any number of times, each by its own clock |
| WorkItems.LateRedelivery | backend/internal/repository/team_repository.go:630-690 | a dated report that comes again after others leaves the row alone if and only if the row, at the same time, already says all it says |
| WorkItems.LeavesTerminal | backend/internal/repository/team_repository.go:632-643 | an item that has succeeded, failed or gone stale is taken up again if and only if an unfinished report has a higher revision or a later date |
| WorkItems.WorkTakesStatus | backend/internal/repository/team_repository.go:632-643 | an item in any other status takes the reported status at once |
| WorkItems.RowIsRecent | backend/internal/repository/team_repository.go:683-685 | in a run with dates that never go back the row is as recent as every report |
| WorkItems.TerminalGuard | backend/internal/repository/team_repository.go:630-690 | in such a run only a higher revision or a strictly later report reopens, and result, artifacts, finish and validation are its own |
| WorkItems.IdentityKept | backend/internal/repository/team_repository.go:630-662 | id, creation time and assignment fields once set survive every run |
| WorkItems.WithdrawalHolds | backend/internal/repository/team_repository.go:702-717 | a validation is withdrawn from exactly the items that need a review, and does not come back in any run until a report validates |
| WorkItems.StandsByItsTime | backend/internal/repository/team_repository.go:635-643 | a finished row stands against stale reports if and only if they are not later than its own timestamp |
| WorkItems.RefusedReportMovesTime | backend/internal/repository/team_repository.go:683-687 | a refused report still sets the timestamp, never forward |
| WorkItems.StaleReportCanReopen | backend/internal/repository/team_repository.go:635-685 | with dates going back, a report older than the finish can reopen an item |
| GenerationFence.LastWriteAtTopWins | backend/internal/repository/instance_runtime_binding_repository.go:103-153 | after any writes a row has the highest generation and what the last write at it said |
| GenerationFence.RefusedWrites | backend/internal/repository/instance_runtime_binding_repository.go:119-127 | a write is refused exactly when it is behind the highest generation so far, and then changes nothing |
| GenerationFence.ConvergesIffAgree | backend/internal/repository/instance_runtime_binding_repository.go:103-153 | every reordering of the writes ends alike if and only if those at the highest generation agree |
| RuntimePool.RuntimeStore.CreateInstance | backend/internal/repository/instance_repository.go:50-60 | an instance row is added under the next id, and nothing else changes |
| RuntimePool.RuntimeStore.RemoveInstance | backend/internal/repository/instance_repository.go:333-340 | the instance row goes, and its binding with it by the foreign key; no slot is given back |
| RuntimePool.RuntimeStore.TryClaimSlot | backend/internal/repository/runtime_pod_repository.go:146-160 | a slot is taken exactly on a ready, undrained pod with room |
| RuntimePool.RuntimeStore.FreeSlot | backend/internal/repository/runtime_pod_repository.go:162-172 | one slot is given back, never below zero |
| RuntimePool.RuntimeStore.DeleteByInstanceIDAndReleaseSlot | backend/internal/repository/instance_runtime_binding_repository.go:185-213 | a slot is released exactly when a binding of that instance on that pod was deleted |
| RuntimePool.RuntimeStore.UpsertFromAgent | backend/internal/repository/runtime_pod_repository.go:45-83 | a known pod keeps state, used slots and draining; an unknown one is inserted |
| RuntimePool.RuntimeStore.Mark | backend/internal/repository/runtime_pod_repository.go:174-184 | state and draining of the pod are set, nothing else |
| RuntimePool.RuntimeStore.UpdateHeartbeat | backend/internal/repository/runtime_pod_repository.go:186-196 | state, slots, capacity and draining are overwritten |
| RuntimePool.RuntimeStore.MarkUnseenUnhealthy | backend/internal/repository/runtime_pod_repository.go:198-208 | every unseen pod becomes unhealthy, and no other pod changes |
| RuntimePool.RuntimeStore.UpdateRunning | backend/internal/repository/instance_runtime_binding_repository.go:103-128 | a running report is written unless it is stale, the row is gone, or its port is taken |
| RuntimePool.RuntimeStore.UpdateState | backend/internal/repository/instance_runtime_binding_repository.go:130-153 | a state report is written unless it is stale or the row is gone |
| RuntimePool.RuntimeStore.UpdateRuntimeState | backend/internal/repository/instance_repository.go:256-298 | an instance row is written unless the write is stale or the row is gone |
| RuntimePool.StepConserves | backend/internal/repository/runtime_pod_repository.go:146-196 | a step keeps used slots equal to bindings plus claims if and only if it follows the slot discipline: callers bind and release by their own claims, heartbeats and registrations report the slots in use, and an instance is deleted only once unbound |
| RuntimePool.StepWithinCapacity | backend/internal/repository/runtime_pod_repository.go:45-196 | such a step keeps every pod within capacity if and only if registrations and heartbeats leave room |
| RuntimePool.SlotsConserved | backend/internal/repository/runtime_pod_repository.go:146-172 | from every state whose accounts are in order, every disciplined interleaving leads to used slots = bindings + claims, between zero and capacity |
| RuntimePool.SlotsConservedFromNothing | backend/internal/repository/runtime_pod_repository.go:146-172 | so do all disciplined interleavings that start with no rows at all |
| RuntimePool.BindingRunBinds | backend/internal/repository/instance_runtime_binding_repository.go:35-49 | a disciplined run from no rows reaches a binding: register, create the instance, claim, bind |
| RuntimePool.FloorNotTaken | backend/internal/repository/runtime_pod_repository.go:162-172 | releases of held claims and deletes of bindings never meet the floor at zero |
| RuntimePool.DeleteTwice | backend/internal/repository/instance_runtime_binding_repository.go:185-213 | a repeated delete-and-release changes nothing |
| RuntimePool.RacingDrains | backend/internal/services/runtime_scheduler.go:193-214 | two workers draining one instance, their four steps in any order, keep the accounts if and only if its slot was the only one in use on the pod, or the worker that unbinds second held a claim of its own, which it loses |
| RuntimePool.DrainingGainsNothing | backend/internal/repository/runtime_pod_repository.go:45-208 | a pod whose state is not ready, or that is draining, gains no slot in any interleaving until its state is marked or a heartbeat comes |
| PodRuns.ClaimsFill | backend/internal/repository/runtime_pod_repository.go:146-160 | n claims on a ready, undrained pod take n slots, or as many as there is room for, and change nothing else of the pods |
| PodRuns.MarkDecides | backend/internal/repository/runtime_pod_repository.go:174-184 | after a mark a claim is granted if and only if the mark said ready and not draining, and there is room |
| PodRuns.HeartbeatOutlivesSweep | backend/internal/repository/runtime_pod_repository.go:186-208 | after a heartbeat and a sweep a claim is granted if and only if the heartbeat said ready and not draining with room, and is not older than the cutoff |
| PodRuns.ClosedGainsNothing | backend/internal/repository/runtime_pod_repository.go:146-208 | a pod closed by a mark, a heartbeat, or a sweep that has not seen it since its cutoff gains no slot in any interleaving until a mark or heartbeat |
| PodRuns.SeenPodStays | backend/internal/repository/runtime_pod_repository.go:198-208 | a sweep leaves pods seen since its cutoff alone |
| PodRuns.KeysStayUnique | backend/internal/db/migrations/023_add_runtime_pool_v2.sql:64-88 | in every run no port of a pod is held by two bindings, and no two pods have one namespace and name |
| PodRuns.PortsDecide | backend/internal/repository/instance_runtime_binding_repository.go:35-128 | a binding is taken if and only if both ends are there, the instance is unbound and the port free; a running report clashes if and only if it is not behind and its port is held by another |
| PodRuns.RegistersOnce | backend/internal/repository/runtime_pod_repository.go:45-83 | a registration leaves exactly one pod under its namespace and name, with what it reports; a known one keeps state, slots and draining, and no other pod changes |
| RuntimePool.BindingIsFenced | backend/internal/repository/instance_runtime_binding_repository.go:103-153 | reports on one instance, ports being free, are fenced writes to its row and touch no other |
| RuntimePool.InstanceIsFenced | backend/internal/repository/instance_repository.go:256-279 | the same for instance rows |
| RuntimePool.ReportsConverge | backend/internal/repository/instance_runtime_binding_repository.go:103-153 | two orders of reports with distinct generations end in the same generation, state and message |
| RuntimePool.InstanceReportsConverge | backend/internal/repository/instance_repository.go:256-279 | two orders of instance writes with distinct generations leave the same tables |
| GatewayReports.RuntimeAgentHandler.ReportGateways | backend/internal/handlers/runtime_agent_handler.go:262-307 | the loop applies the reports one by one and stops at the first error |
| GatewayReports.RuntimeAgentHandler.SyncInstanceRuntimeState | backend/internal/handlers/runtime_agent_handler.go:309-338 | the instance is written with the status and message a gateway state stands for; a refused write is an error |
| GatewayReports.ItemApplies | backend/internal/handlers/runtime_agent_handler.go:275-306 | an item is skipped exactly when pod or generation do not match, else both rows stand at its generation, running together |
| GatewayReports.ItemWrites | backend/internal/handlers/runtime_agent_handler.go:284-338 | an item that goes through writes, column by column, a running binding with its gateway or the reported state, and the instance running, in error, stopped or creating with the message that belongs to it |
| GatewayReports.ItemGoesThrough | backend/internal/handlers/runtime_agent_handler.go:275-306 | an item goes through if and only if it is skipped, or its port is free and its instance is there and not ahead |
| GatewayReports.ReportsAgree | backend/internal/handlers/runtime_agent_handler.go:275-338 | a report, also one that stops at a failing item, leaves every instance on which an item matched and went through in agreement with its binding, and parts no other |
| ToolCallAudit.AuditMessage.MergeAuditToolCalls | backend/internal/services/ai_observability_service.go:1563-1596 | the in-place merge is the merge of the fragments in order, and a negative index appends |
| ToolCallAudit.MergedIsDescribed | backend/internal/services/ai_observability_service.go:1563-1596 | the list reaches to the highest index; each entry has its fragments' arguments, first name and last id |
| ToolCallAudit.InterleavingIrrelevant | backend/internal/services/ai_observability_service.go:1563-1596 | deliveries that agree index by index merge to the same calls |
| ToolCallAudit.SwapNeighbours | backend/internal/services/ai_observability_service.go:1563-1596 | swapping neighbouring fragments of different indexes changes nothing |
| ToolCallAudit.UnindexedOpenCalls | backend/internal/services/ai_observability_service.go:1563-1596 | fragments without an index, or with a negative one, each open a call of their own after all the others |
| TraceAggregation.AggregateInvocationsByTrace | backend/internal/services/ai_observability_service.go:1097-1213 | one row per distinct nonblank trace, each the fold of its invocations, newest first |
| TraceAggregation.TraceHolds | backend/internal/services/ai_observability_service.go:1097-1116 | a trace holds exactly the invocations that name it, white space aside, each as often as it came |
| TraceAggregation.RowSummarizes | backend/internal/services/ai_observability_service.go:1117-1206 | each row has its trace's totals, earliest creation, latest completion, and status failed over blocked over pending over completed |
| TraceAggregation.RowIsLabelled | backend/internal/services/ai_observability_service.go:1117-1168 | session, user, instance, error and requested model are the trace's first, actual model and provider its last; request id and user name as the code's own order picks them |
| TraceAggregation.NameIsUsers | backend/internal/services/ai_observability_service.go:1117-1156 | a row's user is that of the trace's first invocation with a user, and the row shows that user's name if and only if the user has one, or nobody from that invocation on has one |
| TraceAggregation.NameIsShown | backend/internal/services/ai_observability_service.go:1117-1156 | a user who has a name is shown under it |
| TraceAggregation.NameOfAnother | backend/internal/services/ai_observability_service.go:1147-1153 | two invocations, the first by a user without a name, make a row with the first user's id and the second user's name |
| TraceAggregation.SummaryUnique | backend/internal/services/ai_observability_service.go:1117-1206 | those properties leave one summary, whatever the order of the invocations |
| TraceAggregation.InputOrderIrrelevant | backend/internal/services/ai_observability_service.go:1097-1213 | rows of one trace from two permutations of the input have the same summary |
| TraceAggregation.TotalsConserved | backend/internal/services/ai_observability_service.go:1170-1179 | sums over the traces are sums over the invocations that name one |
| TraceAggregation.RowsConserve | backend/internal/services/ai_observability_service.go:1097-1213 | rows have distinct traces and together hold every token and millisecond of the named invocations |
| CommandQueue.InstanceCommandService.Create | backend/internal/services/instance_command_service.go:116-164 | unsupported types are refused, a known key answers with its command, else one pending command is stored and the desired state updated |
| CommandQueue.InstanceCommandService.ApplyDesiredStateSideEffects | backend/internal/services/instance_command_service.go:404-447 | power and revision change as the command asks, the runtime row following; a missing desired row is no error |
| CommandQueue.InstanceCommandService.GetNextForAgent | backend/internal/services/instance_command_service.go:166-198 | the next pending command of the instance is stamped and handed out, or answered with an error if its stored JSON was altered and does not decode |
| CommandQueue.InstanceCommandService.MarkStarted | backend/internal/services/instance_command_service.go:200-224 | a command of the instance starts, unless it is running or finished |
| CommandQueue.InstanceCommandService.MarkFinished | backend/internal/services/instance_command_service.go:226-273 | a command of the instance finishes once, for the session's agent and with a known outcome, after the skill it uninstalled is marked removed |
| CommandQueue.InstanceCommandService.MarkUninstalledSkillRemoved | backend/internal/services/instance_command_service.go:294-334 | the skills a stored payload names by id and by key are marked removed, in order, up to the access that fails |
| CommandQueue.InstanceCommandService.MarkInstanceSkillRemoved | backend/internal/repository/skill_repository.go:293-311 | a row of the instance is marked removed unless it is gone or has moved on since |
| CommandQueue.NextPending | backend/internal/repository/instance_command_repository.go:76-85 | the first waiting command of the instance by issue time and id, or none if none waits |
| CommandQueue.FindKey | backend/internal/repository/instance_command_repository.go:65-74 | a command of the instance under the key, or none if there is none |
| CommandRuns.CommandsOnlyAdvance | backend/internal/services/instance_command_service.go:116-273 | over every run no command is lost, no status falls, no stamp is rewritten, and finished commands never change |
| CommandRuns.CommandsAreSound | backend/internal/services/instance_command_service.go:116-273 | over every run each command has a supported type, a key, a deadline, JSON that decodes, and exactly the stamps its status calls for |
| CommandRuns.OneCommandPerKey | backend/internal/services/instance_command_service.go:126-132 | over every run an instance has at most one command per key |
| CommandRuns.CreateAgain | backend/internal/services/instance_command_service.go:121-132 | creating under a known key answers with that command, however far it has come, or with an error if its stored JSON was altered, and changes nothing |
| CommandRuns.HandedAtMostOnce | backend/internal/services/instance_command_service.go:166-198 | over every run no command is dispatched twice |
| CommandRuns.NeverHanded | backend/internal/services/instance_command_service.go:166-198 | over every run a command that has left the waiting state is dispatched by no later poll |
| CommandRuns.PollIsFinal | backend/internal/services/instance_command_service.go:166-198 | a poll hands the next command out if and only if its stored JSON decodes, and either way, its reply lost or not, no later poll dispatches it |
| CommandRuns.HandedInOrder | backend/internal/repository/instance_command_repository.go:76-85 | while the clock does not run behind the table, commands are dispatched in order of issue and id |
| CommandRuns.PollingDrains | backend/internal/services/instance_command_service.go:166-198 | n polls dispatch n waiting commands, or all there are |
| CommandRuns.StepFollows | backend/internal/services/instance_command_service.go:404-447 | a call keeps every desired power and revision at what the newest power and revision commands ask if and only if it drops no write |
| CommandRuns.DesiredFollowsCommands | backend/internal/services/instance_command_service.go:154-162 | over every run that drops no write each desired state is that of the newest start, stop, restart and revision commands |
| CommandRuns.TruncateCuts | backend/internal/services/instance_command_service.go:425-430 | a float revision is cut to the integer next to it towards zero |
| CommandRuns.RetryDoesNotRepair | backend/internal/services/instance_command_service.go:126-160 | after a dropped write, creating again under the key succeeds without changing anything |
| CommandRuns.FinishAgain | backend/internal/services/instance_command_service.go:226-273 | trying a finish report again after any failure ends as the second try alone would, if and only if the first changed nothing, both put the finish at the same time, or the first failed and the second puts it later |
| CommandRecords.CreateStores | backend/internal/services/instance_command_service.go:116-164 | a request of an unknown type is refused; one under a key not in use is stored pending with its payload, key, deadline and time, and the runtime row follows the desired revision |
| CommandRecords.PollStamps | backend/internal/services/instance_command_service.go:166-198 | a poll stamps a waiting command of its instance with agent and time and touches no other |
| CommandRecords.StartStamps | backend/internal/services/instance_command_service.go:200-224 | a start puts a command of its instance to work at the time given or now, unless it works or is finished |
| CommandRecords.FinishRecords | backend/internal/services/instance_command_service.go:226-273 | a report by the command's own agent finishes it as succeeded or failed, as it says, with its time, result and message; any other status is refused |
| CommandRecords.EndsWereReported | backend/internal/services/instance_command_service.go:226-273 | in every run a command has succeeded, or failed, only if its own agent reported so, or it had before the run |
| CommandRecords.UninstallRemoves | backend/internal/services/instance_command_service.go:294-334 | a succeeded uninstall marks exactly the named skills of its instance removed that have not moved on; no other report touches a skill |
| CommandRecords.InstancesApart | backend/internal/services/instance_command_service.go:116-273 | in every run calls about other instances leave an instance's commands, desired state, runtime row and skills alone |
| Transcript.ChatMessageService.RecordMessages | backend/internal/services/chat_message_service.go:33-81 | exactly the normalized messages after the common prefix are appended, up to the insert that fails |
| Transcript.CountCommonMessagePrefix | backend/internal/services/chat_message_service.go:91-105 | the loop finds the longest prefix on which both lists are equivalent |
| Transcript.TranscriptsStayNumbered | backend/internal/services/chat_message_service.go:56-79 | over every run records are only appended, and each trace is numbered 1 to n |
| Transcript.AgreesIffExtends | backend/internal/services/chat_message_service.go:33-81 | after a recording the transcript equals the list if and only if the list extends what the transcript said |
| Transcript.RepeatAddsNothing | backend/internal/services/chat_message_service.go:56-79 | recording again adds nothing if and only if one of list and transcript extended the other |
| Transcript.TranscriptFollowsChat | backend/internal/services/chat_message_service.go:33-105 | for growing lists the transcript is the last list after every success, and a beginning of it after a failure |
| Transcript.NormalizeParts | backend/internal/services/chat_message_service.go:41-54 | a list is normalized message by message: those without role or content are dropped, the others trimmed |
| Transcript.ChatIsRecorded | backend/internal/services/chat_message_service.go:33-81 | a tidy list recorded first for a trace is its transcript, numbered from one, under the trimmed ids and the labels of the call; without trace or session nothing is recorded |

## Left out

- Reassembly of audited stream text and the parsing of audited payloads: the merge trims both sides, so exact text
  reassembly does not hold.
- Descriptive columns no modelled statement touches, `updated_at` columns that nothing reads, and pod metrics.
- Database details: gaps in auto-increment ids after a rollback, timestamps cut to seconds, case-insensitive comparison
  in unique keys, and foreign-key cascades other than that from an instance to its binding.
- `ListSchedulable`: a plain query.
- Case mapping outside ASCII (`strings.ToLower`, `strings.EqualFold`) and ill-formed UTF-8.
- The `object` and `created` fields of chunks, and recording of provider success and failure around a stream.
- Conversion of tool definitions, tool choice and stop sequences in a request.
- The decoded form of a command's payload and result in replies, audit events, and a command service without skill tables.
- Two service calls on the command queue or the transcript that overlap: each call is one step here.
- Float values of `revision_id` and `skill_id` outside the integer range.
- Workers, schedulers, leader election, HTTP, authentication, proxying, Kubernetes and Redis: callers are the steps of a
  run.
