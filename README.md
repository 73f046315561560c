# Assistant core, modelled in Dafny

The system is a personal assistant. It talks to its user over Discord and
answers through an OpenAI chat model that may call tools. The tools manage
reminders, self-prompts (notes the assistant schedules for itself) and a
vector memory. A background worker fires the reminders and self-prompts when
they fall due.

This project models the sequential logic of that system:

- **AssistantLlm** (`openai_client.dfy`): the turn of the tool-using client.
  - It predicts second-layer tool groups from keywords and merges tool lists without duplicate names.
  - The turn runs at most ten rounds of tool calls and gives up after three provider failures in all.
- **Chat** (`chat.dfy`): the conversation history. It is a bounded queue that evicts from the front until the user messages are within the limit, and an empty history can be seeded with fallback texts.
- **Tutor** (`tutor_client.dfy`): the language-tutor client. It makes one completion per message and uses no tools.
- **Tools** and **ToolText** (`tool_service.dfy`, `tool_text.dfy`): the tool service.
  - A registry maps names to schema types, and a dispatch sends each deserialised call to its handler.
  - Every failure is funnelled into a text result plus a notice to the user.
  - The user-facing and model-facing texts are built here too.
- **Memory** (`memory.dfy`): the embedding store. It adds, removes and updates memories, finds a memory by the item it describes, and answers nearest-neighbour queries.
- **Schedule**, **Reminders** and **SelfPrompts** (`schedule.dfy`, `reminder_service.dfy`, `self_prompt_service.dfy`): the schedule table and the two services that create, update and remove its entries.
  - Each entry keeps exactly one linked memory, and no memory points at a missing entry (`Schedule.Synced`).
- **Scheduling** (`scheduling_worker.dfy`): the sweep.
  - It fires the due entries in table order, marks the memory of every entry that fired as stale, then moves recurring entries on by one step and switches one-off entries off.
- **Messaging** (`messaging.dfy`): the channel a message is sent to, and the history it is remembered in.
- **Discord** (`discord_worker.dfy`): the handler of a new Discord message.
  - It ignores bots, gathers the fallback history and quotes the replied-to message.
  - It asks the assistant and answers with a reply cut to Discord's limit.
- **StringUtils** and **SchemaUtils** (`string_utils.dfy`): `Truncate` and `GetToolName`.
- Supporting modules: **Calendar** (the .NET `DateTime` arithmetic the recurrence steps use), **Text**, **Entities** and **Wrappers**.

### How the model represents the system

- **Opaque parts are oracles.**
  - The chat model is a `Completer`: a function of the attempt number, the history and the tools offered.
  - The tool dispatcher seen by the client is a `Runner`: a function of the call number and the call. It gives the call's response and the texts the call hands to this client's `AddAssistantMessageToHistory` while it runs. A `MessageUser` call kept in the context does this through `DiscordMessagingService`, and in a Discord turn that reaches the client running the turn. These texts enter the history before the call's tool message.
  - Embeddings are `embed`.
  - JSON deserialisation is `deserialise`.
  - The weather and shopping-list services are `remote`.
  - The local-to-UTC conversion is `toUtc`.
  - Whether a message reaches the channel is `delivers`.
  - The outcome of a self-prompt is `reply`.
  - The current time is `now`.
- **Stateful code is classes.** The database tables, the history queue, the channel and the services are classes whose methods update their fields. Each method is proved against a specification function of the old state.
- **Pure code is functions.** The string builders and the calendar arithmetic are functions with lemmas about them.

## Model

| member | source | states |
|---|---|---|
| Chat.KeepWithin | Llm/OpenAiLlmClient.cs:292-299 | What the dequeue loop leaves has at most `limit` user messages and is no longer than its input. |
| Chat.KeepWithinSuffix | Llm/OpenAiLlmClient.cs:294-298 | Eviction only drops the oldest messages: what is kept is a suffix of the queue. |
| Chat.KeepWithinLongest | Llm/OpenAiLlmClient.cs:294-298 | The kept suffix is the longest one within the limit: every longer suffix has too many user messages, whatever the roles of the dropped ones. |
| Chat.NonUserAppendKeepsAll | Llm/OpenAiLlmClient.cs:294-298 | Adding a non-user message to a history within the limit evicts nothing. |
| Chat.Seeded | Llm/OpenAiLlmClient.cs:43-47 | A non-empty history, or a missing fallback, leaves the history as it is. An empty history takes the fallback texts as user messages, last text first, with no eviction. |
| Chat.ChatHistory.Add | Llm/OpenAiLlmClient.cs:292-299 | `AddToHistory` enqueues, then evicts from the front. The new history is `KeepWithin` of the old one plus the message, so it holds at most `limit` user messages. |
| Chat.ChatHistory.Seed | Llm/OpenAiLlmClient.cs:43-47 | The history becomes `Seeded` of the old history and the fallback. |
| AssistantLlm.FindWord | Llm/OpenAiLlmClient.cs:13-16 | The scan finds the word exactly when it occurs as a whole word, case-insensitively, at or after the start. Word characters and case folding are those of ASCII and Latin-1. |
| AssistantLlm.MatchesAny | Llm/OpenAiLlmClient.cs:13-16 | A regex of alternatives matches exactly when one of its words occurs as a whole word. |
| AssistantLlm.Select | Llm/OpenAiLlmClient.cs:233-271 | The selected groups are exactly those whose keywords the text mentions, in their original order. |
| AssistantLlm.PredictGroups | Llm/OpenAiLlmClient.cs:233-271 | A group is predicted exactly when its keyword regex matches, and groups come in the fixed order of the checks. |
| AssistantLlm.Merged | Llm/OpenAiLlmClient.cs:79-83 | Merging keeps the existing tools as a prefix and adds only tools from the extra list. Every extra tool's name ends up present, and distinct names stay distinct. |
| AssistantLlm.MergeTools | Llm/OpenAiLlmClient.cs:79-83 | The loop computes `Merged`. |
| AssistantLlm.MergedAppend | Llm/OpenAiLlmClient.cs:214-224 | Merging one list of tools and then another is merging their concatenation. |
| AssistantLlm.OfferedTools | Llm/OpenAiLlmClient.cs:74-83 | The first request offers the first-layer tools as they are, plus the name of every tool of every predicted group, and nothing else. |
| AssistantLlm.Opening | Llm/OpenAiLlmClient.cs:85-92 | After the groups note and the message are added, the history is within the limit. The message is its last element unless it is a user message and the limit is zero. |
| AssistantLlm.LastSurvives | Llm/OpenAiLlmClient.cs:292-299 | A message just added survives eviction unless it is a user message and the limit is zero. |
| AssistantLlm.CombinedEmptyIffNoContent | Llm/OpenAiLlmClient.cs:202-205 | The combined reply text is empty exactly when the completion has no content parts. |
| AssistantLlm.HandleCalls | Llm/OpenAiLlmClient.cs:274-290 | Every call gets exactly one response, in order. The history stays within the limit. |
| AssistantLlm.HandleCallsSnoc | Llm/OpenAiLlmClient.cs:277-286 | Each call works on the history the earlier calls left. First the texts it remembers go in as user messages, then its response as a tool message, each through `AddToHistory`. |
| AssistantLlm.RememberedBeforeResult | Llm/OpenAiLlmClient.cs:282-285 | With a non-zero limit, a call that remembered a text leaves its tool message last in the history, right after the last text it remembered. |
| AssistantLlm.TurnStep | Llm/OpenAiLlmClient.cs:94-228 | A round either ends the turn, or continues with one more error and the same round, or with the same errors and the next round. The counters stay within ten rounds and three errors. |
| AssistantLlm.TurnStepFacts | Llm/OpenAiLlmClient.cs:179-224 | The turn ends exactly when the completion stops asking for tools or the tenth round is reached. It then reports every call collected. A provider failure adds a "System error" message and counts an error without advancing the round. A round of calls adds exactly one response per call. |
| AssistantLlm.RunTurnUnfold | Llm/OpenAiLlmClient.cs:97-228 | The loop's result is the step's result when the step ends the turn, and otherwise the result of the loop from the next state. |
| AssistantLlm.TurnHistoryBounded | Llm/OpenAiLlmClient.cs:292-299 | Every turn leaves the history within the limit. |
| AssistantLlm.TurnCallsBounded | Llm/OpenAiLlmClient.cs:200-226 | The count returned is never smaller than the responses already collected. When no completion asks for more than `most` calls, a turn runs at most ten rounds' worth of them. |
| AssistantLlm.TurnGivesUpAfterThreeErrors | Llm/OpenAiLlmClient.cs:179-230 | The error counter is never reset. Against a provider that always fails, the turn gives up with "*No response received*" after three failures in all, and the last message is a "System error" one. |
| AssistantLlm.SelfPromptText | Llm/OpenAiLlmClient.cs:52-65 | The self-prompt is sent as the fixed preamble followed by the quoted notes. |
| AssistantLlm.OpenAiLlmClient.SendAsync | Llm/OpenAiLlmClient.cs:41-50 | The reply and the new history are those of the turn on the seeded history with the message as a user message. |
| AssistantLlm.OpenAiLlmClient.SendSelfPromptAsync | Llm/OpenAiLlmClient.cs:52-65 | The reply and the new history are those of the turn on the wrapped prompt as a system message, with no seeding. |
| AssistantLlm.OpenAiLlmClient.AddAssistantMessageToHistory | Llm/OpenAiLlmClient.cs:67-70 | The text goes through `AddToHistory` as a user message. |
| AssistantLlm.OpenAiLlmClient.HandleToolCalls | Llm/OpenAiLlmClient.cs:274-290 | The loop computes `HandleCalls` and leaves its history behind, including the texts the calls remembered while they ran. |
| AssistantLlm.OpenAiLlmClient.RememberAll | Messaging/DiscordMessagingService.cs:24-28 | The texts a running call sends with `includeInLlmContext` are added in order, each through `AddAssistantMessageToHistory`, as `Remember` gives. |
| AssistantLlm.OpenAiLlmClient.OfferResponseTools | Llm/OpenAiLlmClient.cs:214-224 | The tools returned by tool responses are merged into the offered set by name. |
| AssistantLlm.OpenAiLlmClient.Open | Llm/OpenAiLlmClient.cs:74-92 | Opening the turn leaves the history `Opening` describes and offers `OfferedTools`. |
| AssistantLlm.OpenAiLlmClient.RunRound | Llm/OpenAiLlmClient.cs:212-226 | A round of tool calls leaves the history `HandleCalls` gives, merges the tools of the responses into the offer, collects the responses and advances `i`. |
| AssistantLlm.OpenAiLlmClient.Pass | Llm/OpenAiLlmClient.cs:97-227 | One pass of the loop body does what `TurnStep` says. |
| AssistantLlm.OpenAiLlmClient.Send | Llm/OpenAiLlmClient.cs:72-231 | The private `SendAsync` loop returns the `RunTurn` result of the opening state, with the texts the tool calls remembered in its history. |
| Tutor.TutorTurn | Llm/LanguageTutorLlmClient.cs:43-82 | The count returned is always zero and the history stays within the limit. On success the last message is the model's one reply. On a provider failure it is the "System error" message that is also returned, with no retry. |
| Tutor.LanguageTutorLlmClient.SendAsync | Llm/LanguageTutorLlmClient.cs:22-31 | An empty history is seeded with the fallback, reversed, before the single completion. |
| Tutor.LanguageTutorLlmClient.SendSelfPromptAsync | Llm/LanguageTutorLlmClient.cs:33-36 | The prompt is sent verbatim as a system message. |
| Tutor.LanguageTutorLlmClient.AddAssistantMessageToHistory | Llm/LanguageTutorLlmClient.cs:38-41 | The text goes through `AddToHistory` as a user message. |
| Tutor.LanguageTutorLlmClient.Send | Llm/LanguageTutorLlmClient.cs:43-91 | The private `SendAsync` leaves the reply and the history `TutorTurn` gives. |
| Tools.FindTool | Llm/ToolService.cs:41-49 | A schema type found for a name has that tool name. When none is found, no listed type has it. |
| Tools.Lookup | Llm/ToolService.cs:41-54 | The registry resolves a name exactly to a schema type whose `GetToolName` is that name. |
| Tools.NewReminder | Llm/ToolService.cs:123-133 | The new entry is an active reminder created now, due at the trigger's UTC instant, with the call's message and the user. Its priority is the given one or Normal. Both recurrence columns are set exactly when a recurrence is given. |
| Tools.SameKind | Llm/ToolService.cs:176-222 | The neighbours listed for a new memory are at most three non-stale memories of the same context. |
| Tools.Searched | Llm/ToolService.cs:224-246 | A search returns at most three memories from the store, none of them stale unless stale ones were asked for. |
| Tools.DocumentedTypes | Llm/ToolService.cs:363-384 | Documentation exists for every group except Reminders: one tool for Weather, two for ShoppingList, two for HomeAutomation, all of them registered. |
| Tools.MemoryIndex | Services/EmbeddingService.cs:155-156 | A memory id is missing exactly when no memory has it. |
| Tools.ToolService.Notify | Llm/ToolService.cs:116-119 | A user notice is the response fenced as code and sent without entering the history. |
| Tools.ToolService.CreateReminder | Llm/ToolService.cs:121-145 | The reminder is stored under the next id. Exactly one memory is added: an AssistantAction memory linked to that id, holding the reminder's text and its embedding. No other memory changes. The user is told the scheduling string, and the model gets "Created reminder with ID n.". |
| Tools.ToolService.RemoveReminder | Llm/ToolService.cs:147-160 | A missing id fails with the not-found message and changes nothing. Otherwise exactly the row with that id and the memories linked to it go, and every other row and memory is kept. The user is told the removed schedule in UTC. |
| Tools.ToolService.UpdateReminder | Llm/ToolService.cs:162-174 | A missing id fails and changes nothing. Otherwise that row is replaced in place by its patch and the other rows are kept. Only the linked memory changes: its text is rebuilt from the new or kept message and the call's recurrence. The user is told the new schedule. |
| Tools.ToolService.AddVectorMemory | Llm/ToolService.cs:176-222 | A new unlinked memory with the computed vector is stored under the next id. The reply lists the three nearest memories of the same kind, and the user is told what was stored. |
| Tools.ToolService.SearchVectorMemory | Llm/ToolService.cs:224-246 | No result gives "No entry was found." with no notice. Otherwise the model gets the listing for the model and the user the listing for the user. |
| Tools.ToolService.RemoveVectorMemory | Llm/ToolService.cs:248-254 | A missing id fails and changes nothing. Otherwise exactly that memory goes, and the user sees its content cut to 100 characters. |
| Tools.ToolService.UpdateVectorMemory | Llm/ToolService.cs:256-262 | A missing id fails and changes nothing. Otherwise only that memory's content and vector change. |
| Tools.ToolService.ScheduleSelfPrompt | Llm/ToolService.cs:342-354 | The self-prompt is stored under the next id. Exactly one memory is added: an AssistantAction memory linked to that id, holding the self-prompt's text and its embedding. The user is told the schedule. |
| Tools.ToolService.SecondLayerDocumentation | Llm/ToolService.cs:363-384 | An unmatched group fails. Otherwise the response has empty text and the group's tools. |
| Tools.ToolService.External | Llm/ToolService.cs:386-423 | Weather and shopping-list calls return the service's text or fail with its message. The light and entity calls answer with fixed texts. Each success sends its notice. |
| Tools.ToolService.Settle | Llm/ToolService.cs:107-113 | A failure becomes "Call failed: 'msg'." for the model plus one notice to the user. A success passes through without a notice. |
| Tools.ToolService.Dispatch | Llm/ToolService.cs:73-105 | Every arm either succeeds or fails with the message `Failure` predicts. Read-only arms change no table. Only MessageUser reaches the history. |
| Tools.ToolService.Execute | Llm/ToolService.cs:69-114 | A predicted failure yields "Call failed" with one notice and no change to the tables. The other contract clauses carry over from the dispatch. |
| Tools.ToolService.ExecuteByName | Llm/ToolService.cs:51-67 | An unknown name yields "Tool not found: 'name'." and a failed deserialisation yields "Failed to deserialise tool call", both without touching any state. A parsed call is executed. |
| ToolText.BuildSchedulingString | Llm/ToolService.cs:264-295 | The text starts "Trigger at: " exactly when there is no recurrence and "Initial trigger at: " otherwise. It carries " UTC" exactly when asked. It names the interval and unit when recurring, and ends with the message part, which is "*unchanged*" for no message. |
| ToolText.ItemLine | Llm/ToolService.cs:297-317 | The item line is empty exactly when the memory has no related table. |
| ToolText.ModelBlock | Llm/ToolService.cs:297-317 | A memory's block for the model is its header and truncated content, its item line, then the rule. The header gives the UTC time in round-trip form, ending in "Z". |
| ToolText.UserItemLine | Llm/ToolService.cs:319-340 | The user's item line is empty exactly when the memory has no related table. |
| ToolText.UserBlock | Llm/ToolService.cs:319-340 | A memory's block for the user is its header, its item line, then the quoted content. |
| ToolText.Pieces | Llm/ToolService.cs:297-317 | The i-th block is built with a limit of 750 characters for the first entry and 250 for each later one. |
| ToolText.ListingStartsWithFirst | Llm/ToolService.cs:297-317 | A listing opens with the first entry cut to 750 characters. |
| ToolText.ListingSnoc | Llm/ToolService.cs:297-317 | Every entry after the first is cut to 250 characters. |
| ToolText.BuildListing | Llm/ToolService.cs:297-317 | The loop concatenates the blocks in order. |
| ToolText.BuildEmbeddingListString | Llm/ToolService.cs:297-317 | The listing for the model is the concatenation of the model blocks, with the time in each header ending in "Z". |
| ToolText.BuildEmbeddingListStringForUser | Llm/ToolService.cs:319-340 | The listing for the user is the concatenation of the user blocks. |
| Memory.EmbeddingService.constructor | Services/EmbeddingService.cs:9-19 | The store starts empty with identity 1. |
| Memory.EmbeddingService.Add | Services/EmbeddingService.cs:21-44 | The entry takes the next id and the given vector, or the computed one when none is given. A second memory linked to the same (table, id) pair is refused by the unique index and changes nothing. |
| Memory.EmbeddingService.Remove | Services/EmbeddingService.cs:127-139 | A missing id fails with "An embedding with ID n was not found." Otherwise exactly the entry with that id is removed and returned. |
| Memory.EmbeddingService.RemoveEntry | Services/EmbeddingService.cs:141-148 | The entry with that id is removed. An entry that is not stored makes the save fail. |
| Memory.EmbeddingService.Update | Services/EmbeddingService.cs:150-163 | A missing id fails. Otherwise only that entry's content and vector change. |
| Memory.EmbeddingService.UpdateEntry | Services/EmbeddingService.cs:165-172 | The stored entry is replaced. A missing entry, or a link already taken by another memory, fails and changes nothing. |
| Memory.FindByRelatedItem | Services/EmbeddingService.cs:114-125 | The result is a stored memory linked to that table and id. None is returned exactly when no memory is. |
| Memory.FindByRelatedItemUnique | Services/EmbeddingService.cs:114-125 | With unique links, the memory found is the one linked memory. |
| Memory.Filter | Services/EmbeddingService.cs:85-106 | The filtered rows are exactly the stored rows that pass every filter of the query. |
| Memory.SortByDistance | Services/EmbeddingService.cs:108-109 | The ordering is a permutation sorted by distance to the query vector. |
| Memory.GetNearest | Services/EmbeddingService.cs:72-112 | At most `limit` results, each stored and passing every filter. |
| Memory.NearestRanked | Services/EmbeddingService.cs:108-111 | The results are the `limit` nearest of the filtered rows, in non-decreasing distance. No filtered row left out is nearer than one returned. |
| Memory.NearestExcludesStale | Services/EmbeddingService.cs:85-100 | Without `includeStale` no result is stale, and no result lacks a vector. |
| Memory.NearestEmpty | Services/EmbeddingService.cs:85-111 | When no row passes the filters, the result is empty. |
| Memory.RemovedMembers | Services/EmbeddingService.cs:127-139 | Removing a row by position removes exactly the memory with its id. |
| Schedule.FindRow | Services/ReminderService.cs:44-45 | A row found has the id asked for. None is returned exactly when no row has it. |
| Schedule.ScheduleTable.Add | Services/ReminderService.cs:23-24 | The row is stored under the next identity value, which no row had. |
| Schedule.ScheduleTable.Remove | Services/ReminderService.cs:46 | Exactly the row with that id is removed. |
| Schedule.ScheduleTable.Put | Services/ReminderService.cs:81 | The row with that id is replaced in place, and the ids are unchanged. |
| Schedule.ScheduleTable.SaveRows | Workers/SchedulingWorker.cs:113-114 | Edited rows with the same ids replace the table. |
| Schedule.ScheduledText | Services/ReminderService.cs:99-114 | The memory text opens with the noun, "scheduled for", the "initial trigger at" form when recurring, and the sortable time. When recurring, "and then every", the interval and the unit come next, right before the prompt. It ends with the quoted prompt, plus a full stop exactly when there is no recurrence. |
| Schedule.Patch | Services/ReminderService.cs:67-79 | The trigger is always replaced. Content, priority and the recurrence pair change only when given. Every other field is kept. |
| Schedule.PatchPairedIdempotent | Services/ReminderService.cs:69-79 | A patch keeps the recurrence columns paired, and applying it twice is applying it once. |
| Schedule.RewriteLinked | Services/ReminderService.cs:84-94 | Rewriting the linked memory keeps the stores in sync and changes only that memory. |
| Schedule.UnlinkSchedule | Services/ReminderService.cs:49-51 | After an entry is gone, its linked memory goes too, and nothing else does. |
| Schedule.FreshIdUnlinked | Services/ReminderService.cs:26-32 | A new id has no memory linked to it yet, so linking its memory cannot clash. |
| Reminders.BuildEmbeddingContent | Services/ReminderService.cs:99-114 | The text is "Reminder scheduled for t with prompt: 'm'." without recurrence. With recurrence it is the "initial trigger at t and then every n unit" form. |
| Reminders.ReminderService.Add | Services/ReminderService.cs:17-36 | The entry is stored under the new id with exactly one AssistantAction memory linked to it, and the id is returned. |
| Reminders.ReminderService.Remove | Services/ReminderService.cs:38-56 | A missing id fails with "Reminder with ID n was not found." and changes nothing. Otherwise the entry and its linked memory go, and the entry is returned. |
| Reminders.ReminderService.Update | Services/ReminderService.cs:58-97 | A missing id fails. Otherwise the row is patched and its memory text rebuilt from the call's recurrence argument. |
| SelfPrompts.BuildEmbeddingContent | Services/SelfPromptService.cs:109-124 | The text is "Self-prompt scheduled for t with prompt: 'p'." without recurrence, and the "initial trigger" form with it. |
| SelfPrompts.NewSelfPrompt | Services/SelfPromptService.cs:22-31 | The entry is an active SelfPrompt due at the converted time, with the prompt and user. The recurrence is copied into both columns or neither. |
| SelfPrompts.SelfPromptService.Schedule | Services/SelfPromptService.cs:16-50 | The entry is stored under the new id with one linked AssistantAction memory, and the id is returned. |
| SelfPrompts.SelfPromptService.Remove | Services/SelfPromptService.cs:52-70 | A missing id fails with "Entry not found: n". Otherwise the entry goes, whatever its kind, and then its linked memory. |
| SelfPrompts.SelfPromptService.Update | Services/SelfPromptService.cs:72-107 | Any entry with that id is patched. The prompt changes only when given, and interval and unit change together. The memory text is rebuilt from the prompt or the stored content. |
| Scheduling.Wrap32 | Workers/SchedulingWorker.cs:125 | The product is the two's-complement value of its low 32 bits. |
| Scheduling.RecurrenceStep | Workers/SchedulingWorker.cs:117-129 | The step starts from the old trigger. Daily adds n days, Weekly 7n days, Monthly n calendar months and Yearly n years, keeping the time of day. A missing interval or an out-of-range result raises. |
| Scheduling.RecurrenceMovesForward | Workers/SchedulingWorker.cs:124-125 | A positive daily or weekly step moves the trigger strictly later. |
| Scheduling.WeeklyIntervalWraps | Workers/SchedulingWorker.cs:125 | The weekly step as written wraps for a large interval. |
| Scheduling.Advance | Workers/SchedulingWorker.cs:101-111 | A one-off entry is switched off with its trigger kept. A recurring entry stays active with its trigger moved by the corrected step `ResolveRecurrence`, and a step out of range raises. Nothing else changes. |
| Scheduling.DueIndices | Workers/SchedulingWorker.cs:75-80 | The entries selected are exactly the active ones due at or before now, in table order. |
| Scheduling.SummaryPiece | Workers/SchedulingWorker.cs:174-182 | A tool output is left out exactly when it reports a message sent to the user. |
| Scheduling.SummaryBlank | Workers/SchedulingWorker.cs:173-186 | The summary is blank, and so not sent, exactly when every tool output reports a message sent to the user. |
| Scheduling.StaleMarked | Workers/SchedulingWorker.cs:142-147 | Only the memory linked to the fired entry is marked stale. |
| Scheduling.FiredExactly | Workers/SchedulingWorker.cs:89-100 | The entries that fired are exactly the due ones whose task completed, in order. |
| Scheduling.SelfPromptsAlwaysFire | Workers/SchedulingWorker.cs:157-193 | A due self-prompt always counts as fired, because its handler swallows every exception. |
| Scheduling.FailedStaysDue | Workers/SchedulingWorker.cs:89-114 | An entry whose task failed is not advanced and is due again at any later sweep. |
| Scheduling.FiredEntryAdvanced | Workers/SchedulingWorker.cs:101-111 | A fired one-off entry ends inactive with its trigger unchanged. A fired recurring entry stays active, one step on from its old trigger. |
| Scheduling.Swept | Workers/SchedulingWorker.cs:98-113 | Only fired rows change, each advanced, and the ids are kept. |
| Scheduling.SchedulingWorker.ExecuteSelfPrompt | Workers/SchedulingWorker.cs:157-193 | No tool calls send the failure notice outside the history. Otherwise the summary is sent and remembered, unless blank. A raising model sends nothing. |
| Scheduling.SchedulingWorker.ExecuteScheduleEntry | Workers/SchedulingWorker.cs:131-155 | A reminder sends its content through the two-argument overload into the history. The linked memory goes stale exactly when the task completes. |
| Scheduling.SchedulingWorker.Fire | Workers/SchedulingWorker.cs:83-100 | Firing the due entries in order leaves exactly the fired set, their stale memories, and the messages sent. |
| Scheduling.SchedulingWorker.Reconcile | Workers/SchedulingWorker.cs:98-114 | The fired rows are advanced and saved. A step that raises leaves the table as it was. |
| Scheduling.SchedulingWorker.ExecuteScheduledEntries | Workers/SchedulingWorker.cs:73-115 | The sweep selects the due entries and fires them, marking the memory of the fired ones stale. It saves the advanced rows, unless a step raised. |
| Messaging.Outgoing | Messaging/DiscordMessagingService.cs:16-17 | A ping puts "<@user> " in front of the message. A normal message is sent as it is. |
| Messaging.Messenger.SendMessage | Messaging/DiscordMessagingService.cs:14-29 | The text is sent to the channel and, when asked, added to the running client's history as a user message. |
| Messaging.Messenger.Send | Messaging/DiscordMessagingService.cs:9-12 | The two-argument overload sends at normal priority with no user. |
| StringUtils.Truncate | Utils/StringUtils.cs:5-11 | A short input is returned unchanged. A long one becomes its first `maxLength` characters plus the suffix, exactly `maxLength` plus the suffix's length long. The result always begins with the input's first characters. |
| StringUtils.TruncateIdempotent | Utils/StringUtils.cs:7-10 | With an empty suffix, truncating twice is truncating once. |
| SchemaUtils.GetToolName | Llm/Schema/SchemaUtils.cs:31-38 | A name ending in "Schema" loses that suffix, and any other name is kept. The result is never longer. |
| SchemaUtils.GetToolNameDropsSix | Llm/Schema/SchemaUtils.cs:35-36 | Exactly six characters go, and "Schema" maps to the empty name. |
| SchemaUtils.GetToolNameRoundTrip | Llm/Schema/SchemaUtils.cs:35-36 | Appending "Schema" to a tool name and stripping it again gives the name back. |
| Discord.Quote | Workers/DiscordWorker.cs:109 | Every line break in the quoted text is followed by "> ". |
| Discord.UnquoteQuote | Workers/DiscordWorker.cs:108-109 | Quoting loses nothing: the referenced text is recovered exactly. |
| Discord.QuotedUser | Workers/DiscordWorker.cs:105 | The label is "Assistant" exactly when the referenced author is a bot. |
| Discord.QuoteHead | Workers/DiscordWorker.cs:105-108 | The quote opens "Quote from Assistant:" exactly for a bot's message. |
| Discord.ReplyContentFramed | Workers/DiscordWorker.cs:102-114 | The content opens with the label line and ends with a blank line and the new message. In between is the referenced text, quoted line by line and recoverable. |
| Discord.MessagesBefore | Workers/DiscordWorker.cs:83 | At most four messages, a prefix of those before the anchor, and all of them when there are fewer. |
| Discord.FallbackHistory | Workers/DiscordWorker.cs:80-92 | The contents of the messages before the anchor, followed for a reply by the referenced content. |
| Discord.Prompt | Workers/DiscordWorker.cs:88-93 | A plain message is sent as it is. A reply ends with its own content after the quote. |
| Discord.ReplyText | Workers/DiscordWorker.cs:96-99 | The trimmed reply plus a line break. Over 1900 characters it is cut to 1900 plus a suffix giving its full length. |
| Discord.ReplyFits | Workers/DiscordWorker.cs:99 | The reply posted never exceeds 2000 characters. |
| Discord.DiscordWorker.HandleMessageCreated | Workers/DiscordWorker.cs:75-100 | A bot's message changes nothing. Otherwise the assistant's turn on the seeded history and the prompt decides the history, and its answer is posted as a reply. |
| Discord.DiscordWorker.Answer | Workers/DiscordWorker.cs:95-99 | The answer posted is `ReplyText` of the turn's reply. |
| Discord.DiscordWorker.Ask | Workers/DiscordWorker.cs:80-95 | The assistant is asked with the fallback history and the prompt, and leaves the history the turn gives, including what its `MessageUser` calls remembered. |

## Left out

- Concurrency and scheduling: the timer, the `Task.WhenAll` fan-out and the DI scopes of the worker are left out.
  - A sweep is a sequential loop over the due entries, in table order.
  - The timer re-enters every 20 seconds with no single-flight guard. The model has no notion of overlapping sweeps.
- External services are oracles or left out:
  - the chat model, the embedding client, the weather, Planera and Home Assistant services;
  - Discord transport, client start and stop (`StartAsync`/`StopAsync`), and logging.
- JSON and reflection:
  - JSON deserialisation of a tool call is an oracle.
  - Malformed tool arguments are not modelled. `JsonDocument.Parse` at Llm/OpenAiLlmClient.cs:282 sits outside any `try`, so in the source they throw out of `SendAsync`. The turn then returns no reply, nothing is posted, and the history keeps the assistant message and the tool messages added so far. The `Runner` oracle always returns a response, so the model has no such abort.
  - The registry is the fixed list of schema types that reflection finds.
- Floating point: L2 distance is modelled by the squared Euclidean distance over integer vectors. It orders results the same way.
- Time:
  - The server's time zone is treated as UTC.
  - `TimeService.ToUtc` is an abstract `toUtc`, and a `DateTimeOffset` is its clock time plus an offset.
  - `DateTime.Now` in the tutor prompt and the date line of each request are not modelled.
- Line breaks: `Environment.NewLine` is "\n".
- White space: `char.IsWhiteSpace` and `Trim` cover the ASCII and Latin-1 white-space characters only.
- Self-prompts in the sweep: the tool calls of a self-prompt are not replayed. Their whole outcome is the `reply` oracle, and a messaging failure is the `delivers` oracle.
- Fallback texts and `AddAssistantMessageToHistory(string)` enter the history as user messages, through the implicit string conversion of the OpenAI library. Remembered assistant messages therefore count against the limit.
- The source does not agree with itself in a few places:
  - `Database/ScheduleDefinitionEntry.cs` lacks the `Priority` and `UserIdentifier` columns. The code that writes them, and the MessagePriority migration, have them, so the model has them.
  - The dispatch names `ScheduledSelfPromptSchema` where the schema class is `ScheduleSelfPromptSchema`. The model dispatches the latter.
  - `GetSchemasInToolGroup` does not appear in ToolService.cs. The groups' tools are the `toolsOf` parameter of the client.
  - The `ILlmClient` methods take a `userIdentifier` that the clients ignore, so the model drops it.
  - `MessageUserAsync` reads `call.Priority`, but `MessageUserSchema` (Llm/Schema/MessagingSchema.cs:7-11) has only `Message`. The model gives the call a `sendPriority` field.
  - `CreateReminderAsync` and `UpdateReminderAsync` pass the call's `DateTimeOffset` where `ReminderService.AddAsync` and `UpdateAsync` take a local `DateTime`. The model passes the offset's clock time (`.clock`).
  - `SecondLayerToolGroup` (Llm/Schema/SecondLayerDocumentationSchema.cs:6-9) declares only `Weather`. The documentation switch also has ShoppingList and HomeAutomation arms. The model's call takes the client's `ToolGroup` instead, so `DocumentedTypes` covers those two arms and has no documentation for Reminders, which the switch does not list.
  - `ControlSmartLightAsync` reads `Brightness` and `Temperature`, but the schema's fields are `BrightnessPointChange` and `ColdnessChangePointChange`. The model's call carries the two optional numbers and prints them under the names the notice uses.
- AssistantLlm.TurnCallsBounded: the bound is stated for a model that never asks for more than `most` calls per round. The source puts no limit on the calls in a round.
- Discord.ReplyFits: assumes the .NET bound on string length (below 2^31 characters). Without it the length suffix could be longer.
- Discord.DiscordWorker.HandleMessageCreated: requires a running client. The source dereferences it with `!`, and a missing client raises.
- AssistantLlm.FindWord: word characters (`\w`, and so `\b`) are the ASCII letters and digits, the underscore and the Latin-1 letters (with ª, µ and º). Case folding covers ASCII and Latin-1 capitals only. .NET's `\w` also takes every other Unicode letter, mark and connector, and `\b` the zero-width joiners. `RegexOptions.IgnoreCase` also folds signs such as the Kelvin sign U+212A. On text that puts such characters next to a keyword, the model's match can differ from the source's.
- AssistantLlm.PredictGroups: inherits the Latin-1 word characters and case folding of `FindWord`.
- AssistantLlm.MatchesAny: inherits the Latin-1 word characters and case folding of `FindWord`.
- AssistantLlm.Select: inherits the Latin-1 word characters and case folding of `FindWord`.
- ToolText.ModelBlock: times are whole seconds, so the seven fraction digits of the round-trip form are always zero. The source prints the sub-second digits of `DateTime.UtcNow`.
- ToolText.BuildEmbeddingListString: inherits the whole-second times of `ModelBlock`.
- Scheduling.Advance: moves a weekly entry by the corrected step `ResolveRecurrence`, seven days for each unit of the interval, not by the wrapping `interval * 7` the source computes (see Findings). For a weekly interval above 306783378 the corrected step is out of range, so the model reports a raise. The source advances the entry by the wrapped number of days whenever that lands in range.
- Scheduling.FiredEntryAdvanced: states the step through the corrected `Advance`. It differs from the source only on the wrapping weekly intervals of the Findings row.
- Scheduling.Swept: advances rows by the corrected `Advance`. On the wrapping weekly intervals the table differs from what the source saves.
- Scheduling.SchedulingWorker.Reconcile: uses the corrected step. On the wrapping weekly intervals it reports a raise and keeps the old table, where the source saves the wrapped step.
- Scheduling.SchedulingWorker.ExecuteScheduledEntries: uses the corrected step, so on the wrapping weekly intervals it skips the save that the source makes.
- StringUtils.Truncate: counts length in Unicode scalar values (`|s|`). .NET's `Length` and `Substring` count UTF-16 code units, so outside the Basic Multilingual Plane (emoji, for instance) each character is two units. The source cuts earlier there, and an odd cut can split a surrogate pair. The 750, 250, 500 and 100 character cuts of the tool texts inherit this.
- Discord.ReplyText: the 1900 cut and the length in the suffix are counted in scalar values, not UTF-16 units. A reply of 1000 emoji is 2001 units in .NET and is cut there, while the model counts 1001 and posts it whole.
- Discord.ReplyFits: the 2000 bound is in scalar values, not the UTF-16 units that Discord's limit and .NET count.
- StringUtils.Truncate: requires `maxLength >= 0`. A negative bound makes the range slice raise, so it is a precondition of every caller.
- Discord.MessagesBefore: the order of the fetched messages is the order the Discord API delivers them.

## Findings

| source | as written | input that shows it | evidently intended | confidence | as-written member | corrected member |
|---|---|---|---|---|---|---|
| Workers/SchedulingWorker.cs:125 | The weekly step computes `interval * 7` in unchecked 32-bit arithmetic, which wraps for intervals above 306783378. | A weekly entry with interval 613566757 due 2025-01-01 moves to 2025-01-04, three days later, instead of raising for a result out of range. | Seven days per week of the interval, with an out-of-range result raising. | not executed | Scheduling.WeeklyIntervalWraps | Scheduling.RecurrenceStep |
