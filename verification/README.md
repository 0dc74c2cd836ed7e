# A model of the durable message queues and the human-handoff protocol

The service answers customers in LiveChat.  Webhooks become rows of `inbound_events`; a gateway turns each event into
conversation state, outbound messages and external commands in one transaction; workers lease commands, call Telegram,
LiveChat or a backend, and insert results, which a second transaction applies.  Every queue is a MySQL table whose rows
are leased with `locked_by` and `lease_expires_at`; workers may crash, stall past their lease, and report late.  When a
human takes a conversation over, the automation is meant to fall silent; it does until the idle timer closes the
conversation, which is the one writer that can undo a takeover.

This project models the tables, the statements and the workers' protocols, and proves what holds over whole runs: each
SQL transaction or autocommit statement is one atomic step, time may pass and workers may die between any two steps.
Where a promise needs more than that, the runs it holds in are named and characterised.  Beside
that stand the algorithms that decide what is said: the search for rows in untyped JSON, the turnover lookup, FAQ
ranking and retrieval, the router-decision validator, and the matching of follow-ups to open cases.

Repositories are classes whose methods are the statements; each method is proved equal to a function on the table and,
independently of that function, against the columns that the statement reads and writes: which rows it takes, in which
order, and what every column of every row is afterwards.  Runs are finite scripts of steps over a `World` value, and the
lemmas named `StepLeaves` say the same of each step.

| module | what it models |
|---|---|
| `Base`, `Selection`, `Sorting`, `Text`, `Json` | leases, runs, `ORDER BY ... LIMIT`, sorting, `strip`, JSON merge patch (section 2 of RFC 7396) |
| `Keeping`, `KeyedInserts` | filtered lists, and what inserts under a unique key leave of a table |
| `InboundQueue`, `InboundRuns`, `InboundProgress` | the per-chat head-of-line lease: order, exclusivity, progress |
| `OutboundQueue`, `OutboundRepository`, `OutboundRuns` | group leases per conversation, retry backoff kept in the lease |
| `CommandTable` | external commands: creation-order leases, counted retries |
| `FollowupTable`, `FollowupProtocol` | the at-most-once Telegram follow-up |
| `HandoffTransfer` | the acknowledged, staged LiveChat transfer |
| `Conversations`, `IdleTimer` | the writes of `conversation_states`: upsert, guarded updates, agent replies, the idle timer |
| `Gateway`, `Outcomes`, `Redelivery`, `GatewayRuns`, `Takeover` | the two transactions, every column they write, redelivery, and what a human's takeover ends, and until when |
| `JsonSearch`, `Turnover` | the turnover lookup from untyped JSON to the customer's verdict |
| `FaqRanking`, `FaqRetrieval` | scoring, sorting, truncation and filtering of FAQ documents |
| `RouterGuard` | the validator of router decisions |
| `FollowupMatching` | which open case a message is about |
| `DedupKeys` | keys of outbound messages and FAQ plans |

## Where the code does not promise what one might expect

Each of these is a lemma, with the exact condition under which the code does keep the promise.

- `mark_closed` of the idle timer does not look at the status that it overwrites.  A timer that fetched its candidate
  before an agent answered turns HUMAN_ACTIVE into CLOSED, and the automation answers again (`TakeoverUndone`).  It is
  the only step that leaves a handed status (`HandoffLeftIff`), so a conversation is handed throughout a run exactly
  when the timer never closes it (`AlwaysHandedIff`); the results about takeovers are stated over those runs.
- An event or a result that found the conversation handed over and is delivered again after such a close inserts its
  rows after all (`CloseLetsEventIn`, `CloseLetsResultIn`).  A delivery adds nothing exactly for a handed conversation
  or when all its keys are stored (`DeliveryAddsNothingIff`, `ResultAddsNothingIff`), and a rerun, whatever happened in
  between, exactly if its first delivery was not suspended or one of these holds (`EventRerunIff`, `ResultRerunIff`).
- A worker that calls `release_lease` after its lease ran out lets two workers hold one inbound event
  (`StaleReleaseSharesAnEvent`, `ReleaseSafeIff`).  The order of a chat's events survives even that (`ChatFifo`).
  A late `extend_lease` of an inbound event is harmless, because it checks `locked_by`.
- For outbound messages a late extension or a late retryable failure breaks the exclusivity of the conversation
  (`ExtendSafeIff`, `RetrySafeIff`), and a disciplined run leads to a world in which either does
  (`StaleExtensionReachable`, `StaleReportsBreak`).
- `mark_processing_failed` increments `retry_count` before its `CASE` reads it, since MySQL assigns left to right; a
  command is FAILED after max(1, max_retries - 1) recorded failures (`FailureExhaustsBudgetIff`).
- Neither `mark_followup_sending` nor `cancel_followup` looks at the status of its row, so a worker that was overtaken
  after it reserved a follow-up sends a second message (`OverlapSendsTwice`).  Each of the two keeps every row down to
  one sender and one message exactly when nothing has arrived for its row and no worker is sending it (`MarkSafeIff`,
  `CancelSafeIff`), and a run is safe throughout exactly when every such statement met that (`RunSafeIff`).  A mark
  beside another sender makes two messages possible (`BothSendersDeliver`, `LateRetrySendsTwice`), except where that
  sender's message was lost together with its answer: then there are two senders and one message.  Either
  check would be enough: the row's own status (`AtMostOnceWithRowCheck`), or a lease that is still held
  (`AtMostOnceWhileHeld`).
- `result_emitted` can go back from true to false when one of two overlapping workers does not emit results
  (`EmittedKeptIff`, `EmittedFlagCanBeLost`).  The three transfer flags cannot.
- The status guard of `update_workflow_state` lets HUMAN_ACTIVE go back to HANDOFF_REQUESTED (`GuardIsNotAbsorbing`),
  and to no other status (`GuardKeepsHumanIff`); the check at the start of each transaction keeps both transactions
  from that write (`HandoffLeftIff`).
- A result that is delivered twice changes nothing the second time, except where its summary message has no unique key,
  or where the first run left the thread looking fresh: then the second run moves the slots of the chat's previous
  thread into it (`ResultTwiceIff`, `ResurrectionHappens`).
- A message whose three key columns are all NULL is stored again on every delivery (`EventTwiceIff`).
- A chat id that contains a colon can share its conversation with another chat's thread (`ColonsCollide`): a chat does
  so exactly when it splits at a colon into a chat and a trimmed, non-empty thread (`SharesIdIff`).
- Truncating before filtering never changes which document answers, but it can lose the answer (`RetrievalIff`): any
  scoring document is lost behind as many others of another intent as the search is cut to (`AnswerLost`).
- The follow-up matcher and the worker name different kinds for a case whose completion is already disputed
  (`KindsAgreeIff`, `DisputeSentAsOther`); a confirmation is cancelled by the worker on waiting or completed cases
  (`WorkerCancelsIff`, `ConfirmationCancelled`).

## Model

| member | source | states |
|---|---|---|
| InboundQueue.InboundEventRepository.Insert | src/app/db/repositories.py:36-69 | the INSERT statement: a known dedup key leaves the table as it is, a new one appends exactly one row |
| InboundQueue.InboundEventRepository.LeaseUnprocessed | src/app/db/repositories.py:103-154 | grants, oldest first and up to `limit`, the lowest waiting id of each chat if nobody has leased it, and stamps exactly those rows |
| InboundQueue.InboundEventRepository.ExtendLease | src/app/db/repositories.py:208-219 | moves the expiry only for the recorded owner of an unprocessed event, whether or not the lease is still live |
| InboundQueue.InboundEventRepository.ReleaseLease | src/app/db/repositories.py:198-206 | clears the lock of the row, whoever holds it |
| InboundQueue.InboundEventRepository.RecoverExpiredLeases | src/app/db/repositories.py:221-233 | clears expired locks of waiting rows and nothing else |
| InboundQueue.LeaseDetermined | src/app/db/repositories.py:103-139 | there is only one such grant |
| InboundQueue.OneOfferPerChat | src/app/db/repositories.py:103-127 | every chat with a waiting event has exactly one event to offer, its lowest waiting id; a row without a chat id is a chat of its own unless another chat id spells its stand-in |
| InboundQueue.LeaseServesEveryChat | src/app/db/repositories.py:103-139 | a limit of at least the table's length serves the oldest event of every chat whose oldest event is free |
| InboundQueue.OtherChatsIrrelevant | src/app/db/repositories.py:103-127 | rows of other chats never decide whether an event is offered |
| InboundQueue.InboundEventRepository.MarkProcessed | src/app/db/repositories.py:185-196 | completes the row and clears its lock, whoever holds it |
| InboundQueue.LeasedChatsDistinct | src/app/db/repositories.py:103-139 | one lease grants at most one event per chat |
| InboundQueue.RecoveryKeepsOffers | src/app/db/repositories.py:221-233 | recovery never changes what the next lease may grant |
| InboundRuns.ChatFifo | src/app/db/repositories.py:103-139 | in every run, stale workers included: no event that was ever leased has an earlier waiting event of its chat, at most one event of a chat is locked, and events of a chat are completed in id order |
| InboundRuns.StepLeaves | src/app/db/repositories.py:36-233 | every statement of a run, column by column |
| InboundRuns.ChatExclusive | src/app/db/repositories.py:103-139 | if releases are reported on live leases, two live beliefs about a chat are one worker's belief about one event |
| InboundRuns.ReleaseSafeIff | src/app/db/repositories.py:198-206 | a release keeps exclusivity exactly when no other worker's lease on the event is live |
| InboundRuns.StaleReleaseSharesAnEvent | src/app/workers/gateway_consumer.py:245-260 | a release after expiry lets a third worker share an event that another one holds |
| InboundRuns.StaleReleaseReachable | src/app/workers/gateway_consumer.py:245-260 | four disciplined steps lead to such a world |
| InboundProgress.LeaseServesFirstHeads | src/app/db/repositories.py:104-154 | past all expiries a lease returns exactly the first chats' lowest waiting ids, the globally oldest waiting event first |
| InboundProgress.RoundServesHeads | src/app/db/repositories.py:104-154 | a wait, lease and process round completes exactly the granted heads, at least one while any event waits |
| InboundProgress.RoundShrinksBacklog | src/app/db/repositories.py:185-233 | the number of waiting events is a termination measure |
| InboundProgress.RoundsDrainBacklog | src/app/db/repositories.py:103-233 | from any world, as many rounds as there are waiting events empty the queue |
| OutboundQueue.GroupIsGroup | src/app/db/repositories.py:857-952 | a group is the first rows of its conversation that are due and free, at most the given number |
| OutboundQueue.GroupSendsBlocks | src/app/db/repositories.py:903-952 | in columns: smaller block indexes first, rows without one as if they had the largest, equal ones by id, and every row left out of a full group after all rows in it |
| OutboundQueue.LeadsIff | src/app/db/repositories.py:857-900 | a conversation may send exactly if its oldest unsent row is due and none of its rows is leased or backing off |
| OutboundRepository.OutboundMessageRepository.InsertIdempotent | src/app/db/repositories.py:750-783 | a known dedup key leaves the table as it is; a new one appends one row |
| OutboundRepository.OutboundMessageRepository.LeasePendingGroups | src/app/db/repositories.py:857-952 | grants one group, in block order, to each of the oldest conversations that may send, up to `limit`, and stamps exactly the granted rows |
| OutboundRepository.OutboundMessageRepository.LeaseConversations | src/app/db/repositories.py:905-952 | the loop of the lease transaction, conversation after conversation |
| OutboundRepository.LeasedGroupsSpec | src/app/db/repositories.py:857-952 | leasing conversation after conversation gives the groups that the table had before the first of them |
| OutboundRepository.OutboundMessageRepository.MarkSent | src/app/db/repositories.py:976-989 | closes the row as SENT and clears its lock |
| OutboundRepository.OutboundMessageRepository.MarkFailed | src/app/db/repositories.py:991-1031 | a retryable failure counts, writes the given status and locks the row for its backoff; any other writes the status and clears the lock |
| OutboundRepository.OutboundMessageRepository.ExtendLease | src/app/db/repositories.py:1043-1054 | moves the expiry only for the recorded owner of an open row |
| OutboundRepository.OutboundMessageRepository.ReleaseLease | src/app/db/repositories.py:1033-1041 | clears the lock of the row |
| OutboundRepository.OutboundMessageRepository.RecoverExpiredLeases | src/app/db/repositories.py:1056-1067 | clears expired locks of open rows; no live lock changes |
| OutboundRepository.BackoffBounds | src/app/db/repositories.py:998-1013 | the delay lies between min(base, max) and max |
| OutboundRepository.BackoffMonotone | src/app/db/repositories.py:998-1013 | delays never shrink as the retry count grows |
| OutboundRepository.BackoffDoubles | src/app/db/repositories.py:998-1013 | the first three failures wait 2, 4 and 8 times the base delay, later ones as long as the third, none longer than the maximum |
| OutboundRuns.GrantedRows | src/app/db/repositories.py:857-952 | no row is granted while any row of its conversation is leased or backing off |
| OutboundRuns.StepLeaves | src/app/db/repositories.py:750-1067 | every statement of a run, column by column |
| OutboundRuns.ConversationsExclusive | src/app/db/repositories.py:857-1067 | if extensions and retryable failures are reported on live leases, the live-locked rows of a conversation belong to one worker, in every run |
| OutboundRuns.HeldUntilExpiry | src/app/db/repositories.py:857-1067 | while one row of a conversation is leased or backing off, no lease of any run grants a row of it, not even to the same worker |
| OutboundRuns.ExtendSafeIff | src/app/db/repositories.py:1043-1054 | a late extension keeps exclusivity exactly while no other worker has the conversation |
| OutboundRuns.RetrySafeIff | src/app/db/repositories.py:991-1031 | the same for a late retryable failure |
| OutboundRuns.StaleExtensionReachable | src/app/db/repositories.py:1043-1054 | a disciplined run after which a late extension would break exclusivity |
| OutboundRuns.StaleReportsBreak | src/app/db/repositories.py:991-1054 | in that world neither the late extension nor a late retryable failure keeps exclusivity |
| CommandTable.LeaseIsBatch | src/app/db/repositories.py:1190-1232 | a lease takes the oldest leasable commands by creation time, each once, up to the limit |
| CommandTable.LeaseTakesOldest | src/app/db/repositories.py:1190-1232 | in columns: smaller created_at first, equal ones by id, only open commands without a running lease, and every command left out of a full batch after all commands in it |
| CommandTable.ExternalCommandRepository.InsertIdempotent | src/app/db/repositories.py:1095-1136 | a known dedup key leaves the table as it is; a new one appends one row |
| CommandTable.ExternalCommandRepository.LeasePending | src/app/db/repositories.py:1190-1232 | grants the batch and stamps those rows only |
| CommandTable.ExternalCommandRepository.LeasePendingById | src/app/db/repositories.py:1344-1382 | grants one command exactly if it is open and free |
| CommandTable.ExternalCommandRepository.MarkStatus | src/app/db/repositories.py:1281-1295 | writes the status and clears the lock whatever the row says; a closed row is never leased |
| CommandTable.ExternalCommandRepository.MarkProcessingFailed | src/app/db/repositories.py:1308-1323 | counts the failure first and compares the incremented count plus one, then RETRYABLE or FAILED |
| CommandTable.ExternalCommandRepository.MergePayloadJson | src/app/db/repositories.py:1297-1306 | merges the patch into the payload and touches no status and no lock |
| CommandTable.ExternalCommandRepository.ReleaseLease | src/app/db/repositories.py:1234-1242 | clears the lock, so an open row can be leased at once |
| CommandTable.ExternalCommandRepository.RecoverExpiredLeases | src/app/db/repositories.py:1384-1395 | recovery never changes what can be leased |
| CommandTable.RetriesCounted | src/app/db/repositories.py:1308-1331 | over any run the retry column counts the recorded failures, and an open row has some left |
| CommandTable.RetriesBounded | src/app/db/repositories.py:1308-1331 | after max(1, max_retries - 1) recorded failures a command is never leased again |
| CommandTable.FailureExhaustsBudgetIff | src/app/workers/external_command_worker.py:1229-1256 | exactly the failure that exhausts the budget writes FAILED |
| CommandTable.StepLeaves | src/app/db/repositories.py:1095-1395 | every statement of a run, column by column |
| FollowupTable.TopIsCount | src/app/db/telegram_repositories.py:379-387 | the highest number of a case is one more than the number of its rows |
| FollowupTable.TelegramCaseRepository.ReserveFollowup | src/app/db/telegram_repositories.py:195-239 | returns the thread's row if there is one, else appends one with the next number; an empty thread, an unknown case, or a new row for a command that already has one is an error and changes nothing |
| FollowupTable.TelegramCaseRepository.MarkFollowupSending | src/app/db/telegram_repositories.py:241-269 | marks the row and moves its case's two route columns to those of the row, both or neither; no other case changes |
| FollowupTable.TelegramCaseRepository.RecordFollowupSent | src/app/db/telegram_repositories.py:271-323 | marks the row sent with its message id and lists the reply and its attachments as messages of the case, each once, or changes nothing if row or case is missing |
| FollowupTable.MessagesNoted | src/app/db/telegram_repositories.py:303-318 | the reply and its attachments are stored in their order, each with its columns, unless the chat already has its message id |
| FollowupTable.TelegramCaseRepository.SettleFollowup | src/app/db/telegram_repositories.py:325-348 | retryable, uncertain and cancelled change the status of one row and no number |
| FollowupProtocol.MarkSafeIff | src/app/db/telegram_repositories.py:241-269 | marking a row keeps every row down to one sender and one message exactly when nothing arrived for it and nobody is sending it |
| FollowupProtocol.CancelSafeIff | src/app/db/telegram_repositories.py:325-348 | the same for cancelling it, which makes the row eligible again |
| FollowupProtocol.RunSafeIff | src/app/workers/external_command_worker.py:488-576 | a run is safe after every step exactly when each row was harmless when it was marked or cancelled |
| FollowupProtocol.AtMostOnce | src/app/workers/external_command_worker.py:488-576 | in every run with crashes, 429 answers, lost answers and repeated leases whose marks and cancellations meet that condition, at most one message per case and thread arrives, and a row marked sent has its message |
| FollowupProtocol.AtMostOnceWithRowCheck | src/app/workers/external_command_worker.py:488-576 | the same, if a row is marked or cancelled only while its status says that it was not tried |
| FollowupProtocol.AtMostOnceWhileHeld | src/app/workers/external_command_worker.py:488-576 | the same, if no later attempt was granted the command by then |
| FollowupProtocol.FinalLeftIff | src/app/db/telegram_repositories.py:241-269 | a row that was tried and that nobody is sending opens again exactly when a stale worker marks or cancels it |
| FollowupProtocol.FinalRowsNeverResent | src/app/workers/external_command_worker.py:488-576 | over runs with the status check, a row left in `sending`, sent or uncertain never changes and nothing more is delivered for it |
| FollowupProtocol.FollowupNumbering | src/app/db/telegram_repositories.py:195-239 | over any interleaving a case's threads get the numbers 2, 3, 4, ... in the order of their reservations, one row each and one per command, and numbers never change |
| FollowupProtocol.StepLeaves | src/app/workers/external_command_worker.py:488-576 | every step of the worker, column by column: what it chooses, marks, counts as delivered, settles and leaves of the command |
| FollowupProtocol.StaleSenderSendsAgain | src/app/db/telegram_repositories.py:241-269 | `mark_followup_sending` looks at nothing but the id, so a stale sender delivers once more |
| FollowupProtocol.BothSendersDeliver | src/app/db/telegram_repositories.py:241-269 | from any world in which one worker marks a row that another is sending, two more messages arrive |
| FollowupProtocol.LateRetrySendsTwice | src/app/workers/external_command_worker.py:488-576 | a row is marked and delivered while another worker has a 429 to record: its record reopens the row and the next ordinary retry delivers again |
| FollowupProtocol.OverlapSendsTwice | src/app/workers/external_command_worker.py:488-576 | a run from one fresh command in which two messages arrive |
| Json.PatchField | src/app/db/repositories.py:1297-1306 | a patch of one field merges into that field and leaves all others alone |
| Json.MergeIdempotent | src/app/db/repositories.py:1297-1306 | merging the same patch twice is merging it once |
| Json.MergePatchMerges | src/app/db/repositories.py:1297-1306 | null removes a member, objects merge, any other value replaces, and members that are not named stay |
| HandoffTransfer.MergedStage | src/app/workers/external_command_worker.py:1224-1226 | merging a dict of flags adds it to the recorded stage and leaves the rest of the payload alone |
| HandoffTransfer.TransferAfterAck | src/app/workers/external_command_worker.py:369-407 | a transfer is called only after the acknowledgement was SENT, unless for a direct notice, and only after the intention was recorded |
| HandoffTransfer.StagesMonotone | src/app/workers/external_command_worker.py:394-440 | the three transfer flags never go back, whatever stale workers merge |
| HandoffTransfer.StagesTruthful | src/app/workers/external_command_worker.py:394-440 | every recorded stage happened |
| HandoffTransfer.SuccessEndsTransfers | src/app/workers/external_command_worker.py:383-392 | no attempt granted after success was recorded ever calls transfer |
| HandoffTransfer.EmittedKeptIff | src/app/workers/external_command_worker.py:432-440 | the emitted flag is lost exactly when a worker that emits no results finishes the same command |
| HandoffTransfer.EmittedFlagCanBeLost | src/app/workers/external_command_worker.py:432-440 | a run in which that happens |
| HandoffTransfer.StepLeaves | src/app/workers/external_command_worker.py:369-440 | every step of the worker, column by column: what the acknowledgement decides, which flag is merged, what ends the command how |
| Conversations.Previous | src/app/db/repositories.py:450-458 | the chat's other conversation updated last, ties to the younger row; none exactly if there is none |
| Conversations.ViewShown | src/app/db/repositories.py:496-515 | in columns: a new thread goes on with the unfinished work of the chat's last other conversation, noted in its slots; any other is shown as it is |
| Conversations.ViewKeepsHandoff | src/app/db/repositories.py:496-515 | inheriting never makes a conversation look handed over, or hides that it is |
| Conversations.ConversationRepository.GetOrCreate | src/app/db/repositories.py:435-494 | creates or rebinds the row, and returns the in-memory view without writing what it inherits |
| Conversations.ConversationRepository.UpdateWorkflowState | src/app/db/repositories.py:517-555 | writes every column of the graph state or refuses and changes nothing; a handed conversation stays handed |
| Conversations.ConversationRepository.RecordHandoffFailure | src/app/db/repositories.py:561-596 | records the failure exactly if the row exists and no human has it; rows of humans never change |
| Conversations.ConversationRepository.MarkHumanActive | src/app/db/repositories.py:599-639 | creates the row or keeps its known thread, then makes the conversation HUMAN_ACTIVE, keeps its slots and adds the detection to its handoff state |
| Conversations.GuardIsNotAbsorbing | src/app/db/repositories.py:517-531 | a row that the guard alone lets go back from HUMAN_ACTIVE to HANDOFF_REQUESTED |
| Conversations.GuardKeepsHumanIff | src/app/db/repositories.py:517-531 | an update of a HUMAN_ACTIVE row keeps it so exactly unless the written status is HANDOFF_REQUESTED |
| IdleTimer.LiveChatIdleTimerRepository.UpdateSlotMemory | src/app/workers/livechat_idle_timer.py:200-208 | replaces the slots of one conversation and changes no status |
| IdleTimer.LiveChatIdleTimerRepository.MarkClosed | src/app/workers/livechat_idle_timer.py:210-219 | closes the conversation whatever its status is, a human's included, and touches no other row |
| IdleTimer.LiveChatIdleTimerRepository.RequestAiFailureHandoff | src/app/workers/livechat_idle_timer.py:221-300 | requests a handoff exactly for a row that is still automated, with at most one command per key; else nothing changes |
| Gateway.GatewayTransactions.ProcessEventTransactionally | src/app/db/repositories.py:2768-2874 | the transaction's loops and branches compute the specified new tables, of which `EventOutcome` says every column |
| Gateway.GatewayTransactions.ProcessResultTransactionally | src/app/db/repositories.py:2492-2585 | the same for a result, slot merge and deletion included, with `ResultOutcome` |
| Outcomes.EventOutcome | src/app/db/repositories.py:2768-2874 | old rows stay; messages, outbound rows and commands are appended in request order with every column but the conversation as requested, one per free unique key; the own conversation, the named case and the event row change as stated, and nothing else |
| Outcomes.ResultOutcome | src/app/db/repositories.py:2492-2585 | the same for a result, with the slots laid over those that the transaction reads |
| KeyedInserts.AddedDetermined | src/app/db/repositories.py:750-783 | what such inserts leave of a table is determined |
| Redelivery.MessagesReplayIff | src/app/db/repositories.py:1691-1723 | replaying messages changes nothing exactly when each has a unique key |
| Redelivery.EventShape | src/app/db/repositories.py:2793-2842 | the transaction suspends exactly for handed conversations; the later refusal never happens |
| Redelivery.EventEffects | src/app/db/repositories.py:2811-2867 | an automated event leaves its keyed messages, its outbound rows and commands and a processed event behind |
| Redelivery.EventState | src/app/db/repositories.py:2811-2842 | and the graph's state, column by column, in its conversation |
| Redelivery.EventTwiceIff | src/app/db/repositories.py:2768-2874 | a second delivery of an event leaves every table as it is exactly when each replayed message has a key |
| Redelivery.MergedTwice | src/app/db/repositories.py:2519-2532 | merging slots and deleting keys twice is doing it once |
| Redelivery.MergedSlotsAre | src/app/db/repositories.py:2519-2532 | overlaid slots win over the conversation's, and deleted keys are gone |
| Redelivery.ResultEffects | src/app/db/repositories.py:2533-2575 | a result for an automated conversation leaves its keyed summary, its rows and a PROCESSED result behind |
| Redelivery.ResultState | src/app/db/repositories.py:2519-2545 | and the merged state, column by column, in its conversation |
| Redelivery.ResultTwiceIff | src/app/db/repositories.py:2492-2585 | a second delivery of a result leaves every table as it is exactly when a human has the conversation, or the summary has a key and no other thread's slots are taken over |
| Redelivery.ResurrectionHappens | src/app/db/repositories.py:496-515 | an input for which a second delivery does take them over |
| GatewayRuns.HandoffLeftIff | src/app/workers/livechat_idle_timer.py:210-219 | of all steps (both transactions, the upserts before them, agent replies, failure records, the handoff worker, the idle timer) exactly the timer's close of that conversation leaves a handed status, and exactly it leaves HUMAN_ACTIVE |
| GatewayRuns.AlwaysHandedIff | src/app/workers/livechat_idle_timer.py:210-219 | a handed conversation is handed throughout a run exactly when the idle timer never closes it |
| GatewayRuns.TakeoverUndone | src/app/workers/livechat_idle_timer.py:551-589 | a legal run from an empty database in which an agent takes a conversation over and the timer, which had fetched it before, closes it |
| GatewayRuns.HandoffAbsorbing | src/app/db/repositories.py:517-596 | over every run in which the idle timer does not close the conversation, HUMAN_ACTIVE is never left and the handoff states are closed |
| GatewayRuns.EventAfterTakeover | src/app/db/repositories.py:2793-2815 | after any further run without such a close, an event of a handed conversation is marked processed, its message recorded, and no outbound message, command, result or case is written |
| GatewayRuns.ResultAfterTakeover | src/app/db/repositories.py:2509-2518 | after any such run a late result is marked PROCESSED and has no other effect on messages, queues and cases |
| GatewayRuns.NoRowsAfterTakeover | src/app/db/repositories.py:2509-2555 | over any run rows are never lost or re-keyed; without such a close no outbound message or command is inserted for a handed conversation again |
| GatewayRuns.EventRerunHarmless | src/app/db/repositories.py:2768-2874 | a rerun after any other steps adds or changes no outbound message and no command, and repeats no keyed message, unless the first run was suspended and the conversation is automated by now |
| GatewayRuns.ResultRerunHarmless | src/app/db/repositories.py:2492-2585 | the same for a result |
| GatewayRuns.DeliveryAddsNothingIff | src/app/db/repositories.py:2793-2867 | a delivery leaves outbound messages and commands alone exactly for a handed conversation or when all their keys are stored |
| GatewayRuns.ResultAddsNothingIff | src/app/db/repositories.py:2509-2575 | the same for a delivery of a result |
| GatewayRuns.EventRerunIff | src/app/db/repositories.py:2768-2874 | after any other steps a rerun adds nothing exactly unless its first delivery was suspended, the conversation is automated by now, and some key is missing |
| GatewayRuns.ResultRerunIff | src/app/db/repositories.py:2492-2585 | the same for a result |
| GatewayRuns.CloseLetsEventIn | src/app/workers/livechat_idle_timer.py:210-219 | event, close, event: the first delivery adds nothing and the second stores every outbound message and command |
| GatewayRuns.CloseLetsResultIn | src/app/workers/livechat_idle_timer.py:210-219 | result, close, result: the same |
| GatewayRuns.EventRewrites | src/app/db/repositories.py:2768-2874 | what any delivery of an event writes besides: the processed mark, its own conversation, and for an automated one its case's status; no other conversation and no result |
| GatewayRuns.ResultRewrites | src/app/db/repositories.py:2492-2585 | the same for a result, which it marks PROCESSED |
| GatewayRuns.CandidateIff | src/app/workers/livechat_idle_timer.py:46-107 | the idle timer fetches exactly the automated conversations in which the assistant spoke last and, if they wait, nothing is left to be worked on |
| GatewayRuns.StepLeaves | src/app/db/repositories.py:599-2874 | every step of a run, in every column of every table |
| Takeover.BlockLiftedIff | src/app/workers/livechat_idle_timer.py:210-219 | a conversation that is blocked for the workers' check stays blocked by every step except the idle timer's close |
| Takeover.QuiescenceAfterTakeover | src/app/workers/external_command_worker.py:222-237 | from the takeover until the idle timer closes the conversation, only attempts that had already passed their check call out |
| Takeover.ReopenedRowSkippedAgain | src/app/workers/external_command_worker.py:716-726 | a failure mark reopens a skipped row, and its next grant skips it again without a call |
| Takeover.StepLeaves | src/app/workers/external_command_worker.py:222-237 | every step of a worker beside the gateway, column by column |
| JsonSearch.ExtractRows | src/app/backends/tac_client.py:363-402 | the dict rows, in their order, of the first known place that is a list, else of the first qualifying list in breadth-first order, else none; terminates on cyclic graphs |
| JsonSearch.DictRowsAre | src/app/backends/tac_client.py:389-390 | the rows of a list are exactly its dicts, each place once and in order |
| JsonSearch.LeadsIff | src/app/backends/tac_client.py:630-636 | the keys are followed one after the other through dicts, and lead to None elsewhere |
| JsonSearch.PlacesAre | src/app/backends/tac_client.py:366-387 | the known places and their order |
| JsonSearch.SearchRows | src/app/backends/tac_client.py:391-402 | returns nothing exactly when no list reachable through dict values contains a dict |
| JsonSearch.EarlierVisited | src/app/backends/tac_client.py:391-402 | every path that comes before the head of the queue leads to a visited object, seen set and sharing included |
| JsonSearch.FirstHitUnique | src/app/backends/tac_client.py:391-402 | the first qualifying list in breadth-first order is unique |
| Turnover.QueryTurnover | src/app/backends/tac_client.py:234-288 | the first window with an unfinished requirement, else the earliest with the most records, each with the windows up to it; every amount is the rounded sum of one column over exactly the unfinished rows; a failing call before that fails the lookup |
| Turnover.OneRowOwes | src/app/backends/tac_client.py:534-541 | one unfinished row owes what remains of it to the nearest cent, a finished one nothing |
| Turnover.AddsUpOver | src/app/backends/tac_client.py:536-541 | unrounded totals add up over concatenated rows |
| Turnover.OthersOweNothing | src/app/backends/tac_client.py:536-541 | a finished row, whatever its amounts, never changes what is owed |
| Turnover.OwesUnique | src/app/backends/tac_client.py:536-541 | what rows owe is one amount of cents |
| Turnover.VerdictIff | src/app/services/backend_query_service.py:60-69 | MET exactly when no window has an unfinished requirement, otherwise what the first such window owes, UNKNOWN never |
| Turnover.ReplyMeans | src/app/services/backend_query_service.py:60-69 | the reply to any summary |
| Turnover.RoundMoneySign | src/app/backends/tac_client.py:621-622 | an amount rounds to a positive one from half a cent on, and rounding is odd |
| FaqRanking.Rank | src/app/services/rag.py:228-310 | the loops with their breaks add up the points of the document |
| FaqRanking.ScoreIsPoints | src/app/services/rag.py:228-310 | 4, 3, 3 and 1 points per distinct word found in title, keywords, aliases and content; 8, 7, 7 and 5 for the question in the title, as keyword, as alias and around or inside another alias; 1 for the language of a document that scores |
| FaqRanking.TokensAre | src/app/services/rag.py:451-458 | the tokens are exactly the non-empty words and the query itself |
| FaqRanking.ScorePositiveIff | src/app/services/rag.py:228-310 | a score is positive exactly when a token occurs in a field or a non-empty alias occurs in the query |
| FaqRetrieval.Search | src/app/db/repositories.py:1955-1968 | the best scoring documents up to the limit: higher scores first, then smaller priorities, then smaller ids |
| FaqRetrieval.RankedDetermined | src/app/db/repositories.py:1955-1968 | there is only one such list |
| FaqRetrieval.Retrieve | src/app/services/rag.py:108-165 | answers with a document of the intent than which no scoring document of the intent has a higher score, or an equal one and a smaller priority, or both equal and a smaller id; finds nothing or too low a score otherwise |
| FaqRetrieval.RetrievalIff | src/app/services/rag.py:108-165 | an answered document is the best of its intent among all; documents are found exactly when fewer than `limit` scoring documents precede that best one |
| FaqRetrieval.AnswerLost | src/app/services/rag.py:108-165 | for every limit and every scoring document, as many alike of another intent in front of it hide the best answer |
| FaqRetrieval.BestUnique | src/app/services/rag.py:224-225 | the best document is unique |
| RouterGuard.ValidateIsProjection | src/app/llm/guardrails.py:290-323 | an accepted decision is accepted unchanged when validated again with the same payload |
| RouterGuard.ValidateIff | src/app/llm/guardrails.py:290-451 | exactly the acceptable answers are accepted, each as one decision: aliases, fallback intents, relations, clamping, trimming, backend and workflow contracts field by field |
| RouterGuard.WorkflowDroppedOnlyIf | src/app/llm/guardrails.py:300-306 | accepted decisions let go of an active workflow only for a human or to resolve that same workflow |
| RouterGuard.ActiveWorkflowRoutes | src/app/llm/guardrails.py:364-451 | with an active workflow, a FAQ answer keeps it and a workflow route is only ever taken for it |
| FollowupMatching.FindTransaction | src/app/services/telegram_case_followup.py:227-235 | the loops over columns and slots find a transaction value exactly if the text names one |
| FollowupMatching.ResolveFollowup | src/app/services/telegram_case_followup.py:48-89 | the loop and its early returns compute the specified resolution |
| FollowupMatching.OrderIndependent | src/app/services/telegram_case_followup.py:48-89 | permuting the candidates never changes the resolution |
| FollowupMatching.MatchIff | src/app/services/telegram_case_followup.py:70-89 | a case is matched exactly as the sole named, else the sole of the inherited card, else the sole eligible candidate |
| FollowupMatching.MatchInColumns | src/app/services/telegram_case_followup.py:48-89 | the same with legacy statuses, eligibility, named values, cards and kinds read from the columns |
| FollowupMatching.NoCaseIff | src/app/services/telegram_case_followup.py:53-68 | no case is found exactly when the text asks nothing or no candidate is eligible |
| FollowupMatching.WorkerCancelsIff | src/app/workers/external_command_worker.py:612-620 | the worker cancels a match exactly for a confirmation on a waiting or completed case |
| FollowupMatching.KindsAgreeIff | src/app/services/telegram_case_followup.py:219-224 | matcher and worker agree on the kind exactly unless the completion is already disputed |
| FollowupMatching.DisputeSentAsOther | src/app/services/telegram_case_followup.py:219-224 | every complaint about a sole disputed case is matched as a pending follow-up and sent as a dispute |
| FollowupMatching.ConfirmationCancelled | src/app/workers/external_command_worker.py:612-620 | every confirmation for a sole waiting or completed case is matched and then cancelled |
| DedupKeys.KeysInjective | src/app/services/faq_outbound_plan.py:155-167 | within a tenant and conversation a key determines event, block, kind and identity, or event and action |
| DedupKeys.KeySpells | src/app/services/faq_outbound_plan.py:155-167 | a key is its parts with colons between them, in their order |
| DedupKeys.PlacesInjective | src/app/services/conversations.py:1-6 | across conversations too, when tenants, chats and threads contain no colon |
| DedupKeys.ColonsCollide | src/app/services/conversations.py:1-6 | every chat whose id has a colon before a trimmed, non-empty rest has the conversation id of that thread of the chat before the colon |
| DedupKeys.SharesIdIff | src/app/services/conversations.py:1-6 | a chat without a thread shares its conversation with a thread of a chat exactly when its id splits at a colon that way |
| DedupKeys.PlanToRows | src/app/services/faq_outbound_plan.py:65-97 | one pending row per block, with its index, kind, identity and spelled key, and pairwise different keys |
| DedupKeys.BlocksDiffer | src/app/services/faq_outbound_plan.py:25-41 | blocks of different events or positions have different keys |
| DedupKeys.BlockIsNoAction | src/app/db/repositories.py:2650-2657 | no block has the key that an action gets by default |
| DedupKeys.PlanStoredOnce | src/app/services/faq_outbound_plan.py:65-97 | a plan of n blocks stores n rows the first time and none on redelivery |

## Left out

- HTTP, Telegram, LiveChat and LLM clients, routes, admin tools, the database bootstrap, logging and graph wiring: I/O and plumbing.  Their answers are inputs of the steps.
- The gateway's non-transactional branch and the non-leasing fetch methods: they bypass the row lock and the leases that the run properties rest on.
- MySQL internals: gap locks, SKIP LOCKED, snapshot reads and collations; a transaction is one step, text comparison is exact, and inbound ids increase in commit order.
- Python's `upper()` on stored statuses: every writer stores upper-case statuses.
- The statements of `external_command_results`: the same as those of the command table, which the model reuses.
- Worker procedures appear as program counters of attempts and not as methods, because other workers' steps come between their statements; a batch of leased commands is a run of single leases.
- Ties of `created_at` in the command lease are taken in id order, which MySQL leaves open.
- Stored timestamps other than leases, `created_at` and the `updated_at` of conversations; `last_error` texts and lease start times.
- FollowupProtocol.AtMostOnce: states the promise over runs with a condition, because it fails without one; that a 429 means not delivered is built into the answers.
- GatewayRuns.HandoffAbsorbing: says nothing about runs in which the idle timer closes the conversation; what happens there is `HandoffLeftIff` and `TakeoverUndone`.
- The idle timer's clock, backoff, texts and re-checks of customer activity: a fetched candidate may be written at any later time, which includes every delay the re-checks allow, and a run may write a candidate that a re-check would have spared.
- `mark_pending_by_inbound_event_skipped` of the smoke runs, and the command table's `mark_retryable`, which the worker calls only on a repository without counted failures.
- The rendering of a follow-up, the choice between sending and cancelling it by case status, and attachment messages: both choices are allowed at any time.
- A follow-up command whose case id is not a JSON number is handled as an error before the reservation.
- HandoffTransfer.TransferAfterAck: which outbound row acknowledges a command is given per command; that row may change in any way between steps.
- The worker without a conversation repository, which checks nothing before it calls.
- The regex and keyword classifiers (complaint, confirmation, unfinished status, business-object conflict, backend facts): opaque facts about a text.
- SHA-256 of texts and payloads: a parameter, or a key that is already given; the keys of external commands are not taken apart.
- Money is real and rounded to cents; binary floating point, NaN confidences and the dates of query windows are not modelled.
- Scalars in the search queue of `extract_rows` have no effect and are not queued; every reference of the object graph is to an object of the graph.
- Matched fields, matched terms and reasons of a ranking, answer blocks, fallback texts and the backend-fact guard of retrieval; texts are given trimmed and in lower case, and the splitting into words is a parameter.
- RouterGuard.ValidateIsProjection: texts are words with a spelling (exact, padded, styled) in place of character strings, which is all that the normalisation sees.
- `validate_sop_slot_extraction_output`, `enforce_rewrite_risk_flags` and the SOP dialogue planner: one-pass filters with shallow properties.
- White space in `strip` is blank, tab, carriage return and newline.
