/** `ToolService`: the registry from tool names to schema types, the dispatch
    of a deserialised call to its handler, and the funnelling of every failure
    into a text result for the model. */
module Tools {
  import opened Text
  import opened Calendar
  import opened Wrappers
  import opened Entities
  import opened Memory
  import opened Schedule
  import opened Chat
  import opened StringUtils
  import opened SchemaUtils
  import opened Messaging
  import opened ToolText
  import AssistantLlm
  import Reminders
  import SelfPrompts

  // ---- The registry ----

  /** The classes implementing `IToolSchema`. */
  datatype SchemaType =
    | CreateReminderSchema | RemoveReminderSchema | UpdateReminderSchema
    | AddUserVectorMemorySchema | AddAssistantVectorMemorySchema | SearchVectorMemorySchema
    | RemoveVectorMemorySchema | UpdateVectorMemorySchema
    | ScheduleSelfPromptSchema | UpdateSelfPromptSchema | DeleteSelfPromptSchema
    | MessageUserSchema | SecondLayerDocumentationSchema | GetWeatherSchema
    | AddToShoppingListSchema | RetrieveShoppingListSchema
    | ListSmartHomeEntityIdsSchema | ControlSmartLightSchema | ResetLightSchema

  function TypeName(t: SchemaType): String {
    match t
    case CreateReminderSchema => "CreateReminderSchema"
    case RemoveReminderSchema => "RemoveReminderSchema"
    case UpdateReminderSchema => "UpdateReminderSchema"
    case AddUserVectorMemorySchema => "AddUserVectorMemorySchema"
    case AddAssistantVectorMemorySchema => "AddAssistantVectorMemorySchema"
    case SearchVectorMemorySchema => "SearchVectorMemorySchema"
    case RemoveVectorMemorySchema => "RemoveVectorMemorySchema"
    case UpdateVectorMemorySchema => "UpdateVectorMemorySchema"
    case ScheduleSelfPromptSchema => "ScheduleSelfPromptSchema"
    case UpdateSelfPromptSchema => "UpdateSelfPromptSchema"
    case DeleteSelfPromptSchema => "DeleteSelfPromptSchema"
    case MessageUserSchema => "MessageUserSchema"
    case SecondLayerDocumentationSchema => "SecondLayerDocumentationSchema"
    case GetWeatherSchema => "GetWeatherSchema"
    case AddToShoppingListSchema => "AddToShoppingListSchema"
    case RetrieveShoppingListSchema => "RetrieveShoppingListSchema"
    case ListSmartHomeEntityIdsSchema => "ListSmartHomeEntityIdsSchema"
    case ControlSmartLightSchema => "ControlSmartLightSchema"
    case ResetLightSchema => "ResetLightSchema"
  }

  /** The key of a schema type in `_toolNameToSchema`. */
  function ToolName(t: SchemaType): String {
    GetToolName(TypeName(t))
  }

  /** The types the static constructor finds by reflection. */
  const SchemaTypes: seq<SchemaType> := [
    CreateReminderSchema, RemoveReminderSchema, UpdateReminderSchema,
    AddUserVectorMemorySchema, AddAssistantVectorMemorySchema, SearchVectorMemorySchema,
    RemoveVectorMemorySchema, UpdateVectorMemorySchema,
    ScheduleSelfPromptSchema, UpdateSelfPromptSchema, DeleteSelfPromptSchema,
    MessageUserSchema, SecondLayerDocumentationSchema, GetWeatherSchema,
    AddToShoppingListSchema, RetrieveShoppingListSchema,
    ListSmartHomeEntityIdsSchema, ControlSmartLightSchema, ResetLightSchema]

  lemma AllTypesListed(t: SchemaType)
    ensures t in SchemaTypes
  {
  }

  function FindTool(name: String, types: seq<SchemaType>): (r: Option<SchemaType>)
    ensures r.Some? ==> r.value in types && ToolName(r.value) == name
    ensures r.None? ==> forall t :: t in types ==> ToolName(t) != name
  {
    if |types| == 0 then None
    else if ToolName(types[0]) == name then Some(types[0])
    else FindTool(name, types[1..])
  }

  /** `_toolNameToSchema.TryGetValue`: the schema type whose tool name is
      `name`, if any type has it. */
  function Lookup(name: String): (r: Option<SchemaType>)
    ensures r.Some? ==> ToolName(r.value) == name
    ensures r.None? ==> forall t :: ToolName(t) != name
  {
    var r := FindTool(name, SchemaTypes);
    assert r.None? ==> forall t :: ToolName(t) != name by {
      forall t | r.None? ensures ToolName(t) != name {
        AllTypesListed(t);
      }
    }
    r
  }

  // ---- Deserialised calls ----

  /** A deserialised tool call: one alternative per schema type, with the
      fields the handlers read. Where two schemas give the same property
      different types, the nullable one is renamed. */
  datatype ToolArgs =
    | CreateReminderCall(triggerDateTime: DateTimeOffset, message: String, priority: Option<MessagePriority>,
                         recurrence: Option<Recurrence>)
    | RemoveReminderCall(id: int)
    | UpdateReminderCall(id: int, triggerDateTime: DateTimeOffset, updatedMessage: Option<String>,
                         priority: Option<MessagePriority>, recurrence: Option<Recurrence>)
    | AddUserVectorMemoryCall(content: String)
    | AddAssistantVectorMemoryCall(content: String)
    | SearchVectorMemoryCall(context: Option<EmbeddingContextKind>, content: String, includeStale: bool,
                             after: Option<DateTimeOffset>, before: Option<DateTimeOffset>)
    | RemoveVectorMemoryCall(id: int)
    | UpdateVectorMemoryCall(id: int, content: String)
    | ScheduleSelfPromptCall(triggerDateTime: DateTimeOffset, wasConvertedFromRelativeTime: bool, prompt: String,
                             recurrence: Option<Recurrence>)
    | UpdateSelfPromptCall(id: int, triggerDateTime: DateTimeOffset, wasConvertedFromRelativeTime: bool,
                           updatedPrompt: Option<String>, recurrence: Option<Recurrence>)
    | DeleteSelfPromptCall(id: int)
    | MessageUserCall(message: String, sendPriority: MessagePriority)
    | SecondLayerDocumentationCall(toolGroupName: AssistantLlm.ToolGroup)
    | GetWeatherCall(startDate: DateTime, endDate: DateTime)
    | AddToShoppingListCall(content: String)
    | RetrieveShoppingListCall
    | ListSmartHomeEntityIdsCall
    | ControlSmartLightCall(entityId: String, isOn: bool, brightnessPointChange: Option<int>,
                            coldnessChangePointChange: Option<int>)
    | ResetLightCall(entityId: String)

  /** The dates a deserialiser produces are real calendar dates. */
  predicate WellFormed(a: ToolArgs) {
    && (a.CreateReminderCall? || a.UpdateReminderCall? || a.ScheduleSelfPromptCall? || a.UpdateSelfPromptCall?
        ==> ValidDate(a.triggerDateTime.clock))
    && (a.SearchVectorMemoryCall? ==> (a.after.Some? ==> ValidDate(a.after.value.clock))
                                      && (a.before.Some? ==> ValidDate(a.before.value.clock)))
  }

  /** What `node.Deserialize(schemaType)` gives: null, an exception's
      message, or the call. */
  datatype Deserialised = Null | Threw(message: String) | Parsed(args: ToolArgs)

  ghost predicate Deserialises(deserialise: SchemaType -> Deserialised) {
    forall t :: deserialise(t).Parsed? ==> WellFormed(deserialise(t).args)
  }

  // ---- Texts ----

  function ToolNotFound(name: String): String {
    "Tool not found: '" + name + "'."
  }

  const DeserialiseFailed: String := "Failed to deserialise tool call"

  function CallFailed(message: String): String {
    "Call failed: '" + message + "'."
  }

  /** `SendUserResponseAsync`: a notice to the user is sent as a code block. */
  function Fenced(response: String): String {
    FenceOpen + response + FenceClose
  }

  const FenceOpen: String := "```\n"
  const FenceClose: String := "\n```"

  /** The message of `NotImplementedException()`. */
  const NotImplementedMessage: String := "The method or operation is not implemented."

  /** The message of the `SwitchExpressionException` a group without an arm raises. */
  const UnmatchedGroupMessage: String := "Non-exhaustive switch expression failed to match its input.\nUnmatched value was Reminders."

  const Instructions: String := "Instructions for assistant: Determine if any of these entries are redundant/obsolete/invalid given the context of the new memory. If so, remove them."

  const NoEntryFound: String := "No entry was found."

  const SmartHomeEntities: String := "['living_room_lamp': 'living room lamp', 'hallway_lamp': 'hallway lamp', 'floor_lamp': 'floor lamp in living room', 'bedroom_lamp': 'bedroom lamp', 'automatic_lights': 'all smart lights in the home']"

  /** The text of a bool in an interpolated string. */
  function BoolText(b: bool): String {
    if b then "True" else "False"
  }

  /** `ToString("yyyy-MM-dd")`. */
  function FormatDate(d: DateTime): String {
    PadNumber(d.year, 4) + "-" + PadNumber(d.month, 2) + "-" + PadNumber(d.day, 2)
  }

  /** The answer to a created reminder. */
  function CreatedReply(id: int): String {
    "Created reminder with ID " + IntToString(id) + "."
  }

  /** The first line of the reply to an added memory: its kind and id. */
  function AddedHead(noun: String, id: int): String {
    noun + " added with ID " + IntToString(id) + "\n"
  }

  /** The notice for an added memory: the first line and the content cut to
      500 characters. */
  function AddedNotice(noun: String, id: int, content: String): String {
    AddedHead(noun, id) + ": " + Truncate(content, 500, TruncationSuffix)
  }

  const NeighboursLead: String := " next to the following entries (top 3 nearest neighbours):\n"
  const NeighboursTail: String := "\n\n" + Instructions + "\n"

  function WithNeighbours(head: String, listing: String): String {
    head + NeighboursLead + listing + NeighboursTail
  }

  /** The reply to an added memory: its id, and when it has neighbours, the
      listing of them with the instruction to remove redundant ones. */
  function MemoryAddedReply(noun: String, id: int, nearest: seq<EmbeddingEntry>): String {
    if |nearest| == 0 then AddedHead(noun, id)
    else WithNeighbours(AddedHead(noun, id), Concat(Pieces(nearest, ModelBlock)))
  }

  /** The three nearest current memories of the given kind to a vector, as
      the add handlers ask for them. */
  function SameKind(entries: seq<EmbeddingEntry>, vector: Vector, context: EmbeddingContextKind): (r: seq<EmbeddingEntry>)
    ensures |r| <= 3 && forall e :: e in r ==> e in entries && e.context == context && !e.isStale
  {
    GetNearest(entries, NearestQuery(vector, Some(context), None, 3, false, None, None))
  }

  /** The reply to an added memory, its listing built by
      `BuildEmbeddingListString`. */
  method BuildAddedReply(noun: String, id: int, nearest: seq<EmbeddingEntry>) returns (r: String)
    ensures r == MemoryAddedReply(noun, id, nearest)
  {
    if |nearest| > 0 {
      var listing := BuildEmbeddingListString(nearest);
      r := WithNeighbours(AddedHead(noun, id), listing);
    } else {
      r := AddedHead(noun, id);
    }
  }

  /** The reply to a search that found memories. */
  function SearchReply(listing: String): String {
    SearchHead + listing + InstructionsBlock
  }

  const SearchHead: String := "Nearest neighbours (top 3):\n"

  /** The instructions on a line of their own. */
  const InstructionsBlock: String := "\n" + Instructions + "\n"

  /** The schema types `SecondLayerDocumentationAsync` documents for a group;
      the switch has no arm for Reminders. */
  function DocumentedTypes(g: AssistantLlm.ToolGroup): (r: Option<seq<SchemaType>>)
    ensures r.None? <==> g.Reminders?
    ensures g.Weather? ==> r == Some([GetWeatherSchema])
    ensures g.ShoppingList? ==> r.Some? && |r.value| == 2
    ensures g.HomeAutomation? ==> r.Some? && |r.value| == 2
    ensures r.Some? ==> forall t :: t in r.value ==> t in SchemaTypes
  {
    match g
    case Weather => Some([GetWeatherSchema])
    case ShoppingList => Some([AddToShoppingListSchema, RetrieveShoppingListSchema])
    case HomeAutomation => Some([ListSmartHomeEntityIdsSchema, ControlSmartLightSchema])
    case Reminders => None
  }

  /** The schedule entry `CreateReminderAsync` stores: a reminder due at the
      call's UTC time, of normal priority unless the call names one, with the
      recurrence pair copied (both null when there is none); it is active,
      as every new entry is. Its id is assigned by the table. */
  function NewReminder(call: ToolArgs, userIdentifier: String, now: DateTime): (e: ScheduleEntry)
    requires call.CreateReminderCall? && ValidDate(call.triggerDateTime.clock)
    ensures e.kind == Reminder && e.isActive && e.createdAtUtc == now
    ensures e.triggerAtUtc == UtcDateTime(call.triggerDateTime)
    ensures e.content == call.message && e.userIdentifier == userIdentifier
    ensures e.priority == (if call.priority.Some? then call.priority.value else Normal)
    ensures RecurrencePaired(e) && (e.recurrenceUnit.Some? <==> call.recurrence.Some?)
    ensures call.recurrence.Some? ==> e.recurrenceUnit == Some(call.recurrence.value.frequency)
                                      && e.recurrenceInterval == Some(call.recurrence.value.interval)
  {
    ScheduleEntry(0, now, UtcDateTime(call.triggerDateTime), call.message, Reminder, true,
                  call.priority.GetOr(Normal), userIdentifier,
                  FrequencyOf(call.recurrence), IntervalOf(call.recurrence))
  }

  /** The query of `SearchVectorMemoryAsync`: the three nearest memories to the
      embedding of the content, with the call's filters; the date bounds are
      compared as UTC instants. */
  function SearchQuery(call: ToolArgs, vector: Vector): NearestQuery
    requires call.SearchVectorMemoryCall? && WellFormed(call)
  {
    NearestQuery(vector, call.context, None, 3, call.includeStale,
                 if call.after.Some? then Some(UtcDateTime(call.after.value)) else None,
                 if call.before.Some? then Some(UtcDateTime(call.before.value)) else None)
  }

  /** The memories `SearchVectorMemoryAsync` finds for a call. */
  function Searched(entries: seq<EmbeddingEntry>, call: ToolArgs, vector: Vector): (r: seq<EmbeddingEntry>)
    requires call.SearchVectorMemoryCall? && WellFormed(call)
    ensures |r| <= 3 && forall e :: e in r ==> e in entries && (!call.includeStale ==> !e.isStale)
  {
    GetNearest(entries, SearchQuery(call, vector))
  }

  /** The arms `External` handles. */
  predicate Reporting(call: ToolArgs) {
    call.GetWeatherCall? || call.RetrieveShoppingListCall? || call.ControlSmartLightCall? || call.ListSmartHomeEntityIdsCall?
  }

  /** The arms that ask a web service. */
  predicate Requests(call: ToolArgs) {
    call.GetWeatherCall? || call.RetrieveShoppingListCall?
  }

  /** The arms that neither store nor remove anything. */
  predicate ReadOnly(call: ToolArgs) {
    Reporting(call) || call.SearchVectorMemoryCall? || call.SecondLayerDocumentationCall? || call.MessageUserCall?
  }

  /** The reminder arms. */
  predicate ReminderArm(call: ToolArgs) {
    call.CreateReminderCall? || call.RemoveReminderCall? || call.UpdateReminderCall?
  }

  /** The memory arms. */
  predicate MemoryArm(call: ToolArgs) {
    call.AddUserVectorMemoryCall? || call.AddAssistantVectorMemoryCall? || call.SearchVectorMemoryCall?
    || call.RemoveVectorMemoryCall? || call.UpdateVectorMemoryCall?
  }

  const SentToUser: String := "Sent message to user."

  /** The notice of an arm handled by `External`. */
  function ExternalNotice(call: ToolArgs, shoppingListSlug: String): String
    requires Reporting(call)
  {
    match call
    case GetWeatherCall(startDate, endDate) =>
      "Called weather API with start date " + FormatDate(startDate) + " and end date " + FormatDate(endDate)
    case RetrieveShoppingListCall =>
      "Called Planera API with slug " + shoppingListSlug + " and filter 'Open'."
    case ControlSmartLightCall(entityId, isOn, brightness, temperature) =>
      "Called smart home API. ID: " + entityId + ", IsOn: " + BoolText(isOn) + ", Brightness: "
      + OptionalIntText(brightness) + ", Temperature: " + OptionalIntText(temperature)
    case ListSmartHomeEntityIdsCall =>
      "Retrieved list of smart home entities."
  }

  /** The exception a call raises inside its handler, as seen before the call:
      a missing reminder or memory, an arm that is not implemented, a group
      without documentation, or a failing weather or Planera request. */
  function Failure(args: ToolArgs, rows: seq<ScheduleEntry>, entries: seq<EmbeddingEntry>,
                   remote: ToolArgs -> Result<String>): Option<String>
  {
    match args
    case RemoveReminderCall(id) => if id in RowIds(rows) then None else Some(Reminders.ReminderNotFound(id))
    case UpdateReminderCall(id, _, _, _, _) => if id in RowIds(rows) then None else Some(Reminders.ReminderNotFound(id))
    case RemoveVectorMemoryCall(id) => if IndexOf(entries, EmbeddingEntryId, id) < 0 then Some(NotFoundMessage(id)) else None
    case UpdateVectorMemoryCall(id, _) => if IndexOf(entries, EmbeddingEntryId, id) < 0 then Some(NotFoundMessage(id)) else None
    case UpdateSelfPromptCall(_, _, _, _, _) => Some(NotImplementedMessage)
    case DeleteSelfPromptCall(_) => Some(NotImplementedMessage)
    case AddToShoppingListCall(_) => Some(NotImplementedMessage)
    case ResetLightCall(_) => Some(NotImplementedMessage)
    case SecondLayerDocumentationCall(g) => if g.Reminders? then Some(UnmatchedGroupMessage) else None
    case GetWeatherCall(_, _) => if remote(args).Err? then Some(remote(args).message) else None
    case RetrieveShoppingListCall => if remote(args).Err? then Some(remote(args).message) else None
    case _ => None
  }

  /** A row found by id is the one row with that id. */
  lemma RowById(rows: seq<ScheduleEntry>, e: ScheduleEntry)
    requires ScheduleIdsDistinct(rows) && e in rows
    ensures FindRow(rows, e.id) == Some(e)
  {
    var x := FindRow(rows, e.id);
    assert e.id in RowIds(rows);
    var i :| 0 <= i < |rows| && rows[i] == e;
    var j :| 0 <= j < |rows| && rows[j] == x.value;
  }

  /** After the row with `id` was replaced by its patch, looking the id up
      finds the patch. */
  lemma PatchFound(before: seq<ScheduleEntry>, after: seq<ScheduleEntry>, id: int, triggerAtUtc: DateTime,
                   content: Option<String>, priority: Option<MessagePriority>, recurrence: Option<Recurrence>)
    requires ScheduleIdsDistinct(before) && id in RowIds(before)
    requires var i := IndexOf(before, ScheduleEntryId, id);
             0 <= i && after == before[i := Patch(before[i], triggerAtUtc, content, priority, recurrence)]
    ensures FindRow(after, id) == Some(Patch(FindRow(before, id).value, triggerAtUtc, content, priority, recurrence))
  {
    var i := IndexOf(before, ScheduleEntryId, id);
    RowById(before, before[i]);
    assert ScheduleIdsDistinct(after) by {
      forall a, b | 0 <= a < |after| && 0 <= b < |after| && a != b ensures after[a].id != after[b].id {
      }
    }
    RowById(after, after[i]);
  }

  /** A memory without a back-reference leaves no memory dangling. */
  lemma AddUnlinkedKeepsSynced(entries: seq<EmbeddingEntry>, e: EmbeddingEntry, rows: seq<ScheduleEntry>)
    requires NoDanglingLinks(entries, rows) && e.relatedItemTableName.None?
    ensures NoDanglingLinks(entries + [e], rows)
  {
  }

  /** A memory is found by id exactly when some memory has that id. */
  lemma MemoryIndex(entries: seq<EmbeddingEntry>, id: int)
    ensures IndexOf(entries, EmbeddingEntryId, id) < 0 <==> forall e :: e in entries ==> e.id != id
  {
    var i := IndexOf(entries, EmbeddingEntryId, id);
    if i >= 0 {
      assert entries[i] in entries;
    } else {
      forall e | e in entries ensures e.id != id {
        var k :| 0 <= k < |entries| && entries[k] == e;
      }
    }
  }

  // ---- The service ----

  class ToolService {
    const table: ScheduleTable
    const memory: EmbeddingService
    const reminders: Reminders.ReminderService
    const selfPrompts: SelfPrompts.SelfPromptService
    const messenger: Messenger
    /** `IEmbeddingClient.GetEmbeddingAsync`. */
    const embed: String -> Vector
    /** `OpenAiUtils.CreateFunctionTool` of a schema type. */
    const describe: SchemaType -> ChatTool
    /** The reply of the weather and Planera services to a call, or the
        message of the exception the request raised. */
    const remote: ToolArgs -> Result<String>
    /** The "Planera:ShoppingListSlug" setting. */
    const shoppingListSlug: String

    /** Both services work on the one schedule table and the one memory, and
        the two stay in step. */
    ghost predicate Valid()
      reads this, table, memory, reminders, selfPrompts
    {
      && reminders.table == table && reminders.memory == memory
      && selfPrompts.table == table && selfPrompts.memory == memory
      && Synced(table, memory)
    }

    constructor (reminders: Reminders.ReminderService, selfPrompts: SelfPrompts.SelfPromptService,
                 messenger: Messenger, embed: String -> Vector, describe: SchemaType -> ChatTool,
                 remote: ToolArgs -> Result<String>, shoppingListSlug: String)
      requires reminders.table == selfPrompts.table && reminders.memory == selfPrompts.memory
      requires Synced(reminders.table, reminders.memory)
      ensures Valid() && this.messenger == messenger && this.table == reminders.table && this.memory == reminders.memory
    {
      this.table := reminders.table;
      this.memory := reminders.memory;
      this.reminders := reminders;
      this.selfPrompts := selfPrompts;
      this.messenger := messenger;
      this.embed := embed;
      this.describe := describe;
      this.remote := remote;
      this.shoppingListSlug := shoppingListSlug;
    }

    /** `SendUserResponseAsync`: the text as a code block, kept out of the
        model's context. */
    method Notify(response: String)
      modifies messenger
      ensures messenger.sent == old(messenger.sent) + [Fenced(response)]
    {
      messenger.Send(Fenced(response), false);
    }

    /** `CreateReminderAsync`: stores the reminder and its memory under the
        next id, tells the user when it triggers, and answers with the id. */
    method CreateReminder(call: ToolArgs, userIdentifier: String, now: DateTime) returns (r: ToolResponse)
      requires Valid() && call.CreateReminderCall? && WellFormed(call)
      modifies table, memory, messenger
      ensures Valid()
      ensures var id := old(table.nextId);
              var reminder := NewReminder(call, userIdentifier, now);
              var text := Reminders.BuildEmbeddingContent(reminder.content, call.triggerDateTime.clock,
                                                          reminder.recurrenceUnit, reminder.recurrenceInterval);
              && r == Response(CreatedReply(id))
              && table.rows == old(table.rows) + [reminder.(id := id)]
              && memory.entries == old(memory.entries) + [EmbeddingEntry(old(memory.nextId), now, AssistantAction, text,
                                     Some(embed(text)), Some(ScheduleEntriesTable), Some(id), false)]
              && FindByRelatedItem(memory.entries, ScheduleEntriesTable, id) == Some(memory.entries[|memory.entries| - 1])
              && messenger.sent == old(messenger.sent)
                   + [Fenced("Created reminder " + IntToString(id) + ". "
                             + BuildSchedulingString(call.triggerDateTime, Some(call.message), FrequencyOf(call.recurrence),
                                                     IntervalOf(call.recurrence), false))]
    {
      var reminder := NewReminder(call, userIdentifier, now);
      var local := call.triggerDateTime.clock;
      var text := Reminders.BuildEmbeddingContent(reminder.content, local, reminder.recurrenceUnit, reminder.recurrenceInterval);
      var id := reminders.Add(reminder, local, now, embed(text));
      var schedulingString := BuildSchedulingString(call.triggerDateTime, Some(call.message), FrequencyOf(call.recurrence),
                                                    IntervalOf(call.recurrence), false);
      Notify("Created reminder " + IntToString(id) + ". " + schedulingString);
      r := Response(CreatedReply(id));
    }

    /** `RemoveReminderAsync`: deletes the entry with its memory and tells the
        user what was removed, its time marked as UTC; a missing id raises. */
    method RemoveReminder(id: int) returns (r: Result<ToolResponse>)
      requires Valid()
      modifies table, memory, messenger
      ensures Valid()
      ensures r.Err? <==> id !in RowIds(old(table.rows))
      ensures r.Err? ==> r.message == Reminders.ReminderNotFound(id) && table.rows == old(table.rows)
                         && memory.entries == old(memory.entries) && messenger.sent == old(messenger.sent)
      ensures r.Ok? ==>
                var e := FindRow(old(table.rows), id).value;
                && r.value == Response("Removed reminder " + IntToString(id) + ".")
                && RowIds(table.rows) == RowIds(old(table.rows)) - {id}
                && (forall x :: x in table.rows <==> x in old(table.rows) && x.id != id)
                && (forall m :: m in memory.entries <==> m in old(memory.entries) && !LinkedTo(m, ScheduleEntriesTable, id))
                && FindByRelatedItem(memory.entries, ScheduleEntriesTable, id).None?
                && messenger.sent == old(messenger.sent)
                     + [Fenced("Removed reminder " + IntToString(id) + ". "
                               + BuildSchedulingString(DateTimeOffset(e.triggerAtUtc, 0), Some(e.content), e.recurrenceUnit,
                                                       e.recurrenceInterval, true) + ".")]
    {
      ghost var rows0 := table.rows;
      var removed := reminders.Remove(id);
      if removed.Err? {
        return Err(removed.message);
      }
      var e := removed.value;
      RowById(rows0, e);
      assert RowIds(table.rows) == RowIds(rows0) - {id} by {
        forall x | x in RowIds(rows0) - {id} ensures x in RowIds(table.rows) {
          var row :| row in rows0 && row.id == x;
        }
      }
      var schedulingString := BuildSchedulingString(DateTimeOffset(e.triggerAtUtc, 0), Some(e.content), e.recurrenceUnit,
                                                    e.recurrenceInterval, true);
      Notify("Removed reminder " + IntToString(id) + ". " + schedulingString + ".");
      r := Ok(Response("Removed reminder " + IntToString(id) + "."));
    }

    /** `UpdateReminderAsync`: updates the entry and its memory, and tells the
        user the new schedule; a missing id raises. */
    method UpdateReminder(call: ToolArgs) returns (r: Result<ToolResponse>)
      requires Valid() && call.UpdateReminderCall?
      modifies table, memory, messenger
      ensures Valid()
      ensures r.Err? <==> call.id !in RowIds(old(table.rows))
      ensures r.Err? ==> r.message == Reminders.ReminderNotFound(call.id) && table.rows == old(table.rows)
                         && memory.entries == old(memory.entries) && messenger.sent == old(messenger.sent)
      ensures r.Ok? ==>
                && r.value == Response("Updated reminder " + IntToString(call.id) + ".")
                && UpdatedAsAsked(call, old(table.rows), table.rows, old(memory.entries), memory.entries)
                && messenger.sent == old(messenger.sent)
                     + [Fenced("Updated reminder " + IntToString(call.id) + ". "
                               + BuildSchedulingString(call.triggerDateTime, call.updatedMessage, FrequencyOf(call.recurrence),
                                                       IntervalOf(call.recurrence), false))]
    {
      var updated := ApplyUpdate(call);
      if updated.Err? {
        return Err(updated.message);
      }
      var reply := ReportUpdated(call);
      r := Ok(reply);
    }

    /** The store half of `UpdateReminderAsync`: the row patched in place,
        found again under its id. */
    method ApplyUpdate(call: ToolArgs) returns (r: Result<()>)
      requires Valid() && call.UpdateReminderCall?
      modifies table, memory
      ensures Valid()
      ensures r.Err? <==> call.id !in RowIds(old(table.rows))
      ensures r.Err? ==> r.message == Reminders.ReminderNotFound(call.id) && table.rows == old(table.rows)
                         && memory.entries == old(memory.entries)
      ensures r.Ok? ==> UpdatedAsAsked(call, old(table.rows), table.rows, old(memory.entries), memory.entries)
    {
      ghost var rows0 := table.rows;
      r := reminders.Update(call.id, call.triggerDateTime.clock, call.updatedMessage, call.priority, call.recurrence);
      if r.Ok? {
        PatchFound(rows0, table.rows, call.id, reminders.toUtc(call.triggerDateTime.clock), call.updatedMessage, call.priority, call.recurrence);
      }
    }

    /** What `UpdateReminderAsync` leaves on success: the row with the call's
        id patched in place, found again under that id, and its linked memory's
        text rebuilt from the new or kept message and the call's recurrence. */
    ghost predicate UpdatedAsAsked(call: ToolArgs, rows0: seq<ScheduleEntry>, rows: seq<ScheduleEntry>,
                                   entries0: seq<EmbeddingEntry>, entries: seq<EmbeddingEntry>)
      requires call.UpdateReminderCall?
    {
      var found := FindRow(rows0, call.id);
      var i := IndexOf(rows0, ScheduleEntryId, call.id);
      var triggerAtUtc := reminders.toUtc(call.triggerDateTime.clock);
      && found.Some? && 0 <= i
      && rows == rows0[i := Patch(rows0[i], triggerAtUtc, call.updatedMessage, call.priority, call.recurrence)]
      && FindRow(rows, call.id) == Some(Patch(found.value, triggerAtUtc, call.updatedMessage, call.priority, call.recurrence))
      && Relinked(entries0, entries, call.id,
                  Retext(Reminders.BuildEmbeddingContent(
                    if call.updatedMessage.Some? then call.updatedMessage.value else found.value.content,
                    call.triggerDateTime.clock, FrequencyOf(call.recurrence), IntervalOf(call.recurrence))))
    }

    /** The notice and the reply for a reminder just updated. */
    method ReportUpdated(call: ToolArgs) returns (r: ToolResponse)
      requires call.UpdateReminderCall?
      modifies messenger
      ensures r == Response("Updated reminder " + IntToString(call.id) + ".")
      ensures messenger.sent == old(messenger.sent)
                + [Fenced("Updated reminder " + IntToString(call.id) + ". "
                          + BuildSchedulingString(call.triggerDateTime, call.updatedMessage, FrequencyOf(call.recurrence),
                                                  IntervalOf(call.recurrence), false))]
    {
      var schedulingString := BuildSchedulingString(call.triggerDateTime, call.updatedMessage, FrequencyOf(call.recurrence),
                                                    IntervalOf(call.recurrence), false);
      Notify("Updated reminder " + IntToString(call.id) + ". " + schedulingString);
      r := Response("Updated reminder " + IntToString(call.id) + ".");
    }

    /** Stores a memory of the given kind with its vector and no link; the
        services stay in step. */
    method Store(context: EmbeddingContextKind, content: String, vector: Vector, now: DateTime) returns (id: int)
      requires Valid()
      modifies memory
      ensures Valid() && id == old(memory.nextId)
      ensures memory.entries == old(memory.entries)
                + [EmbeddingEntry(id, now, context, content, Some(vector), None, None, false)]
    {
      ghost var entries0 := memory.entries;
      id := memory.nextId;
      var entry := memory.Add(now, context, content, None, None, Some(vector), vector);
      AddUnlinkedKeepsSynced(entries0, EmbeddingEntry(id, now, context, content, Some(vector), None, None, false), table.rows);
    }

    /** `AddUserVectorMemoryAsync` and `AddAssistantVectorMemoryAsync`: looks
        up the three nearest memories of the same kind, stores the new one
        with its vector, shows it to the user cut to 500 characters, and
        answers with its id and the neighbours, if any. */
    method AddVectorMemory(context: EmbeddingContextKind, noun: String, content: String, now: DateTime)
      returns (r: ToolResponse)
      requires Valid()
      modifies memory, messenger
      ensures Valid()
      ensures memory.entries == old(memory.entries)
                + [EmbeddingEntry(old(memory.nextId), now, context, content, Some(embed(content)), None, None, false)]
      ensures r == Response(MemoryAddedReply(noun, old(memory.nextId), SameKind(old(memory.entries), embed(content), context)))
      ensures messenger.sent == old(messenger.sent) + [Fenced(AddedNotice(noun, old(memory.nextId), content))]
    {
      var vector := embed(content);
      var nearest := SameKind(memory.entries, vector, context);
      r := StoreAndReport(context, noun, content, vector, nearest, now);
    }

    /** Stores the memory, shows it to the user and answers with its id and
        the given neighbours. */
    method StoreAndReport(context: EmbeddingContextKind, noun: String, content: String, vector: Vector,
                          nearest: seq<EmbeddingEntry>, now: DateTime) returns (r: ToolResponse)
      requires Valid()
      modifies memory, messenger
      ensures Valid()
      ensures memory.entries == old(memory.entries)
                + [EmbeddingEntry(old(memory.nextId), now, context, content, Some(vector), None, None, false)]
      ensures r == Response(MemoryAddedReply(noun, old(memory.nextId), nearest))
      ensures messenger.sent == old(messenger.sent) + [Fenced(AddedNotice(noun, old(memory.nextId), content))]
    {
      var reply := BuildAddedReply(noun, memory.nextId, nearest);
      r := Response(reply);
      var id := StoreNoticed(context, noun, content, vector, now);
    }

    /** Stores the memory and shows it to the user. */
    method StoreNoticed(context: EmbeddingContextKind, noun: String, content: String, vector: Vector, now: DateTime)
      returns (id: int)
      requires Valid()
      modifies memory, messenger
      ensures Valid() && id == old(memory.nextId)
      ensures memory.entries == old(memory.entries)
                + [EmbeddingEntry(id, now, context, content, Some(vector), None, None, false)]
      ensures messenger.sent == old(messenger.sent) + [Fenced(AddedNotice(noun, id, content))]
    {
      id := Store(context, content, vector, now);
      Notify(AddedNotice(noun, id, content));
    }

    /** `SearchVectorMemoryAsync`: the three nearest memories to the
        embedding of the content under the call's filters; with none, only
        "No entry was found." and no notice; otherwise they are shown to the
        user and listed for the model. Nothing is stored. */
    method SearchVectorMemory(call: ToolArgs) returns (r: ToolResponse)
      requires call.SearchVectorMemoryCall? && WellFormed(call)
      modifies messenger
      ensures var nearest := Searched(memory.entries, call, embed(call.content));
              && (nearest == [] ==> r == Response(NoEntryFound) && messenger.sent == old(messenger.sent))
              && (nearest != [] ==>
                    r == Response(SearchReply(Concat(Pieces(nearest, ModelBlock))))
                    && messenger.sent == old(messenger.sent) + [Fenced(Concat(Pieces(nearest, UserBlock)))])
    {
      var nearest := Searched(memory.entries, call, embed(call.content));
      r := ReportNearest(nearest);
    }

    /** The search reply for the memories found, and the notice of them. */
    method ReportNearest(nearest: seq<EmbeddingEntry>) returns (r: ToolResponse)
      modifies messenger
      ensures nearest == [] ==> r == Response(NoEntryFound) && messenger.sent == old(messenger.sent)
      ensures nearest != [] ==>
                r == Response(SearchReply(Concat(Pieces(nearest, ModelBlock))))
                && messenger.sent == old(messenger.sent) + [Fenced(Concat(Pieces(nearest, UserBlock)))]
    {
      if |nearest| == 0 {
        return Response(NoEntryFound);
      }
      var forUser := BuildEmbeddingListStringForUser(nearest);
      Notify(forUser);
      var listing := BuildEmbeddingListString(nearest);
      r := Response(SearchReply(listing));
    }

    /** `RemoveVectorMemoryAsync`: deletes the memory and shows the user the
        start of its content; a missing id raises. */
    method RemoveVectorMemory(id: int) returns (r: Result<ToolResponse>)
      requires Valid()
      modifies memory, messenger
      ensures Valid()
      ensures r.Err? <==> IndexOf(old(memory.entries), EmbeddingEntryId, id) < 0
      ensures r.Err? ==> r.message == NotFoundMessage(id) && memory.entries == old(memory.entries)
                         && messenger.sent == old(messenger.sent)
      ensures r.Ok? ==>
                var e := old(memory.entries)[IndexOf(old(memory.entries), EmbeddingEntryId, id)];
                && r.value == Response("Removed vector memory " + IntToString(id) + ".")
                && (forall x :: x in memory.entries <==> x in old(memory.entries) && x.id != id)
                && messenger.sent == old(messenger.sent)
                     + [Fenced("Removed vector memory " + IntToString(id) + ". Content: " + Truncate(e.content, 100, "..."))]
    {
      ghost var entries0 := memory.entries;
      MemoryIndex(entries0, id);
      var removed := memory.Remove(id);
      if removed.Err? {
        return Err(removed.message);
      }
      IndexOfMember(entries0, removed.value);
      assert NoDanglingLinks(memory.entries, table.rows) by {
        forall e | e in memory.entries && RefersToSchedule(e) ensures e.relatedItemId.value in RowIds(table.rows) {
          assert e in entries0;
        }
      }
      Notify("Removed vector memory " + IntToString(id) + ". Content: " + Truncate(removed.value.content, 100, "..."));
      r := Ok(Response("Removed vector memory " + IntToString(id) + "."));
    }

    /** `UpdateVectorMemoryAsync`: replaces the content and the vector of the
        memory and shows the user the start of the new content; a missing id
        raises. */
    method UpdateVectorMemory(id: int, content: String) returns (r: Result<ToolResponse>)
      requires Valid()
      modifies memory, messenger
      ensures Valid()
      ensures var i := IndexOf(old(memory.entries), EmbeddingEntryId, id);
              && (r.Err? <==> i < 0)
              && (r.Err? ==> r.message == NotFoundMessage(id) && memory.entries == old(memory.entries)
                             && messenger.sent == old(messenger.sent))
              && (r.Ok? ==>
                    && r.value == Response("Updated vector memory " + IntToString(id) + ".")
                    && memory.entries == old(memory.entries)[i := old(memory.entries)[i].(content := content, embedding := Some(embed(content)))]
                    && messenger.sent == old(messenger.sent)
                         + [Fenced("Updated vector memory " + IntToString(id) + ". Content: " + Truncate(content, 100, "..."))])
    {
      ghost var entries0 := memory.entries;
      var updated := memory.Update(id, content, embed(content));
      if updated.Err? {
        return Err(updated.message);
      }
      ghost var i := IndexOf(entries0, EmbeddingEntryId, id);
      assert NoDanglingLinks(memory.entries, table.rows) by {
        forall e | e in memory.entries && RefersToSchedule(e) ensures e.relatedItemId.value in RowIds(table.rows) {
          var k :| 0 <= k < |memory.entries| && memory.entries[k] == e;
          assert RefersToSchedule(entries0[k]) && entries0[k] in entries0;
        }
      }
      Notify("Updated vector memory " + IntToString(id) + ". Content: " + Truncate(content, 100, "..."));
      r := Ok(Response("Updated vector memory " + IntToString(id) + "."));
    }

    /** `SelfPromptAsync`: schedules the self-prompt with its memory under the
        next id, tells the user when it triggers, and answers with the id. */
    method ScheduleSelfPrompt(call: ToolArgs, userIdentifier: String, now: DateTime) returns (r: ToolResponse)
      requires Valid() && call.ScheduleSelfPromptCall?
      modifies table, memory, messenger
      ensures Valid()
      ensures var id := old(table.nextId);
              var text := SelfPrompts.BuildEmbeddingContent(call.prompt, call.triggerDateTime.clock,
                                                            FrequencyOf(call.recurrence), IntervalOf(call.recurrence));
              && r == Response("Created self-prompt with ID " + IntToString(id) + ".")
              && table.rows == old(table.rows)
                   + [SelfPrompts.NewSelfPrompt(now, selfPrompts.toUtc(call.triggerDateTime.clock), call.prompt, userIdentifier,
                                                call.recurrence).(id := id)]
              && memory.entries == old(memory.entries) + [EmbeddingEntry(old(memory.nextId), now, AssistantAction, text,
                                     Some(embed(text)), Some(ScheduleEntriesTable), Some(id), false)]
              && FindByRelatedItem(memory.entries, ScheduleEntriesTable, id) == Some(memory.entries[|memory.entries| - 1])
              && messenger.sent == old(messenger.sent)
                   + [Fenced("Created self-prompt " + IntToString(id) + ": "
                             + BuildSchedulingString(call.triggerDateTime, Some(call.prompt), FrequencyOf(call.recurrence),
                                                     IntervalOf(call.recurrence), false) + ".")]
    {
      var local := call.triggerDateTime.clock;
      var text := SelfPrompts.BuildEmbeddingContent(call.prompt, local, FrequencyOf(call.recurrence), IntervalOf(call.recurrence));
      var id := selfPrompts.Schedule(local, call.prompt, userIdentifier, call.recurrence, now, embed(text));
      var schedulingString := BuildSchedulingString(call.triggerDateTime, Some(call.prompt), FrequencyOf(call.recurrence),
                                                    IntervalOf(call.recurrence), false);
      Notify("Created self-prompt " + IntToString(id) + ": " + schedulingString + ".");
      r := Response("Created self-prompt with ID " + IntToString(id) + ".");
    }

    /** `SecondLayerDocumentationAsync`: the tools of the group, with an
        empty text; a group the switch does not list raises. */
    method SecondLayerDocumentation(g: AssistantLlm.ToolGroup) returns (r: Result<ToolResponse>)
      modifies messenger
      ensures r.Err? <==> DocumentedTypes(g).None?
      ensures r.Err? ==> r.message == UnmatchedGroupMessage && messenger.sent == old(messenger.sent)
      ensures r.Ok? ==>
                var types := DocumentedTypes(g).value;
                && r.value == ToolResponse("", "", Some(seq(|types|, i requires 0 <= i < |types| => describe(types[i]))))
                && messenger.sent == old(messenger.sent) + [Fenced("Retrieved documentation for " + AssistantLlm.GroupName(g) + ".")]
    {
      var types := DocumentedTypes(g);
      if types.None? {
        return Err(UnmatchedGroupMessage);
      }
      var tools := seq(|types.value|, i requires 0 <= i < |types.value| => describe(types.value[i]));
      Notify("Retrieved documentation for " + AssistantLlm.GroupName(g) + ".");
      r := Ok(ToolResponse("", "", Some(tools)));
    }

    /** The arms that call a web service or only report: `GetWeatherAsync`,
        `RetrieveShoppingListAsync`, `ControlSmartLightAsync` and
        `ListSmartHomeEntityIdsAsync`. A failing request raises before the
        notice. */
    method External(call: ToolArgs) returns (r: Result<ToolResponse>)
      requires Reporting(call)
      modifies messenger
      ensures Requests(call) && remote(call).Err? ==> r == Err(remote(call).message) && messenger.sent == old(messenger.sent)
      ensures Requests(call) && remote(call).Ok? ==>
                r == Ok(Response(remote(call).value))
                && messenger.sent == old(messenger.sent) + [Fenced(ExternalNotice(call, shoppingListSlug))]
      ensures call.ControlSmartLightCall? ==>
                r == Ok(Response("Success.")) && messenger.sent == old(messenger.sent) + [Fenced(ExternalNotice(call, shoppingListSlug))]
      ensures call.ListSmartHomeEntityIdsCall? ==>
                r == Ok(Response(SmartHomeEntities)) && messenger.sent == old(messenger.sent) + [Fenced(ExternalNotice(call, shoppingListSlug))]
    {
      if Requests(call) {
        var reply := remote(call);
        if reply.Err? {
          return Err(reply.message);
        }
        Notify(ExternalNotice(call, shoppingListSlug));
        r := Ok(Response(reply.value));
      } else {
        Notify(ExternalNotice(call, shoppingListSlug));
        r := Ok(Response(if call.ControlSmartLightCall? then "Success." else SmartHomeEntities));
      }
    }

    /** The `catch` of `Execute(IToolSchema, ...)`: an exception becomes
        "Call failed" with its message, both as the notice and as the reply. */
    method Settle(outcome: Result<ToolResponse>) returns (r: ToolResponse)
      modifies messenger
      ensures outcome.Ok? ==> r == outcome.value && messenger.sent == old(messenger.sent)
      ensures outcome.Err? ==>
                r == Response(CallFailed(outcome.message))
                && messenger.sent == old(messenger.sent) + [Fenced(CallFailed(outcome.message))]
    {
      if outcome.Ok? {
        return outcome.value;
      }
      Notify(CallFailed(outcome.message));
      r := Response(CallFailed(outcome.message));
    }

    /** A handler's outcome as `Failure` predicts it: it raises exactly when
        `Failure` names an exception, with that message, and a raising
        handler has stored nothing and sent nothing. */
    twostate predicate Funnelled(args: ToolArgs, new r: Result<ToolResponse>)
      reads this, table, memory, messenger
    {
      var f := Failure(args, old(table.rows), old(memory.entries), remote);
      && (r.Err? <==> f.Some?)
      && (r.Err? ==> r.message == f.value && table.rows == old(table.rows) && memory.entries == old(memory.entries)
                     && messenger.sent == old(messenger.sent))
    }

    /** The reminder arms of the `switch`. */
    method DispatchReminder(args: ToolArgs, userIdentifier: String, now: DateTime) returns (r: Result<ToolResponse>)
      requires Valid() && WellFormed(args)
      requires ReminderArm(args)
      modifies table, memory, messenger
      ensures Valid() && Funnelled(args, r)
      ensures args.CreateReminderCall? ==> r == Ok(Response(CreatedReply(old(table.nextId))))
    {
      match args
      case CreateReminderCall(_, _, _, _) =>
        var reply := CreateReminder(args, userIdentifier, now);
        r := Ok(reply);
      case RemoveReminderCall(id) =>
        r := RemoveReminder(id);
      case UpdateReminderCall(_, _, _, _, _) =>
        r := UpdateReminder(args);
    }

    /** The memory arms of the `switch`. */
    method DispatchMemory(args: ToolArgs, now: DateTime) returns (r: Result<ToolResponse>)
      requires Valid() && WellFormed(args)
      requires MemoryArm(args)
      modifies memory, messenger
      ensures Valid() && Funnelled(args, r)
      ensures args.SearchVectorMemoryCall? ==> memory.entries == old(memory.entries)
      ensures args.SearchVectorMemoryCall? && Searched(old(memory.entries), args, embed(args.content)) == [] ==>
                r == Ok(Response(NoEntryFound)) && messenger.sent == old(messenger.sent)
    {
      if args.SearchVectorMemoryCall? {
        var reply := SearchVectorMemory(args);
        r := Ok(reply);
      } else {
        r := DispatchMemoryWrite(args, now);
      }
    }

    /** The memory arms that store, remove or rewrite a memory. */
    method DispatchMemoryWrite(args: ToolArgs, now: DateTime) returns (r: Result<ToolResponse>)
      requires Valid() && WellFormed(args)
      requires MemoryArm(args) && !args.SearchVectorMemoryCall?
      modifies memory, messenger
      ensures Valid() && Funnelled(args, r)
    {
      if args.AddUserVectorMemoryCall? || args.AddAssistantVectorMemoryCall? {
        assert Failure(args, table.rows, memory.entries, remote) == None;
      }
      if args.AddUserVectorMemoryCall? {
        var reply := AddVectorMemory(UserMemory, "User memory", args.content, now);
        r := Ok(reply);
      } else if args.AddAssistantVectorMemoryCall? {
        var reply := AddVectorMemory(AssistantMemory, "Assistant memory", args.content, now);
        r := Ok(reply);
      } else {
        r := DispatchMemoryEdit(args);
      }
    }

    /** The memory arms that remove or rewrite a memory by its id. */
    method DispatchMemoryEdit(args: ToolArgs) returns (r: Result<ToolResponse>)
      requires Valid() && WellFormed(args)
      requires args.RemoveVectorMemoryCall? || args.UpdateVectorMemoryCall?
      modifies memory, messenger
      ensures Valid() && Funnelled(args, r)
    {
      ghost var missing := IndexOf(memory.entries, EmbeddingEntryId, args.id) < 0;
      assert Failure(args, table.rows, memory.entries, remote) == if missing then Some(NotFoundMessage(args.id)) else None;
      if args.RemoveVectorMemoryCall? {
        r := RemoveVectorMemory(args.id);
      } else {
        r := UpdateVectorMemory(args.id, args.content);
      }
    }

    /** The remaining arms of the `switch`, and the schema types it has no arm
        for; none of them stores or removes anything but a self-prompt. */
    method DispatchOther(args: ToolArgs, userIdentifier: String, now: DateTime) returns (r: Result<ToolResponse>)
      requires Valid() && WellFormed(args)
      requires !ReminderArm(args) && !MemoryArm(args)
      modifies table, memory, messenger, messenger.llm
      ensures Valid() && Funnelled(args, r)
      ensures !args.ScheduleSelfPromptCall? ==> table.rows == old(table.rows) && memory.entries == old(memory.entries)
      ensures messenger.llm != null && !args.MessageUserCall? ==> messenger.llm.messages == old(messenger.llm.messages)
      ensures args.MessageUserCall? ==>
                var text := Outgoing(args.message, args.sendPriority, userIdentifier);
                && r == Ok(Response(SentToUser)) && messenger.sent == old(messenger.sent) + [text]
                && (messenger.llm != null ==>
                      messenger.llm.messages == KeepWithin(old(messenger.llm.messages) + [UserMessage(text)], messenger.llm.limit))
      ensures args.ScheduleSelfPromptCall? ==> r == Ok(Response("Created self-prompt with ID " + IntToString(old(table.nextId)) + "."))
      ensures args.SecondLayerDocumentationCall? && r.Ok? ==>
                r.value.assistantResponse == "" && r.value.tools.Some?
                && |r.value.tools.value| == |DocumentedTypes(args.toolGroupName).value|
    {
      if args.ScheduleSelfPromptCall? {
        var reply := ScheduleSelfPrompt(args, userIdentifier, now);
        r := Ok(reply);
      } else if args.MessageUserCall? {
        messenger.SendMessage(args.message, args.sendPriority, userIdentifier, true);
        r := Ok(Response(SentToUser));
      } else {
        r := DispatchRest(args);
      }
    }

    /** The arms served by other services, the documentation arm, and the
        arms that raise `NotImplementedException`. */
    method DispatchRest(args: ToolArgs) returns (r: Result<ToolResponse>)
      requires Valid() && WellFormed(args)
      requires !ReminderArm(args) && !MemoryArm(args)
      requires !args.ScheduleSelfPromptCall? && !args.MessageUserCall?
      modifies messenger
      ensures Funnelled(args, r)
      ensures args.SecondLayerDocumentationCall? && r.Ok? ==>
                r.value.assistantResponse == "" && r.value.tools.Some?
                && |r.value.tools.value| == |DocumentedTypes(args.toolGroupName).value|
    {
      if Reporting(args) {
        r := External(args);
      } else if args.SecondLayerDocumentationCall? {
        r := SecondLayerDocumentation(args.toolGroupName);
      } else {
        r := Err(NotImplementedMessage);
      }
    }

    /** The `switch` of `Execute(IToolSchema, ...)`: the handler of the call,
        or the exception it raises. Only a message to the user reaches the
        model's history. */
    method Dispatch(args: ToolArgs, userIdentifier: String, now: DateTime) returns (r: Result<ToolResponse>)
      requires Valid() && WellFormed(args)
      modifies table, memory, messenger, messenger.llm
      ensures Valid() && Funnelled(args, r)
      ensures ReadOnly(args) ==> table.rows == old(table.rows) && memory.entries == old(memory.entries)
      ensures messenger.llm != null && !args.MessageUserCall? ==> messenger.llm.messages == old(messenger.llm.messages)
      ensures args.MessageUserCall? ==>
                r == Ok(Response(SentToUser))
                && messenger.sent == old(messenger.sent) + [Outgoing(args.message, args.sendPriority, userIdentifier)]
      ensures args.CreateReminderCall? ==> r == Ok(Response(CreatedReply(old(table.nextId))))
      ensures args.SearchVectorMemoryCall? && Searched(old(memory.entries), args, embed(args.content)) == [] ==>
                r == Ok(Response(NoEntryFound)) && messenger.sent == old(messenger.sent)
    {
      if ReminderArm(args) {
        r := DispatchReminder(args, userIdentifier, now);
      } else {
        r := DispatchUnscheduled(args, userIdentifier, now);
      }
    }

    /** The arms of the `switch` other than the reminder ones. */
    method DispatchUnscheduled(args: ToolArgs, userIdentifier: String, now: DateTime) returns (r: Result<ToolResponse>)
      requires Valid() && WellFormed(args)
      requires !ReminderArm(args)
      modifies table, memory, messenger, messenger.llm
      ensures Valid() && Funnelled(args, r)
      ensures ReadOnly(args) ==> table.rows == old(table.rows) && memory.entries == old(memory.entries)
      ensures messenger.llm != null && !args.MessageUserCall? ==> messenger.llm.messages == old(messenger.llm.messages)
      ensures args.MessageUserCall? ==>
                r == Ok(Response(SentToUser))
                && messenger.sent == old(messenger.sent) + [Outgoing(args.message, args.sendPriority, userIdentifier)]
      ensures args.SearchVectorMemoryCall? && Searched(old(memory.entries), args, embed(args.content)) == [] ==>
                r == Ok(Response(NoEntryFound)) && messenger.sent == old(messenger.sent)
    {
      if MemoryArm(args) {
        r := DispatchMemory(args, now);
      } else {
        r := DispatchOther(args, userIdentifier, now);
      }
    }

    /** `Execute(IToolSchema, ...)`: every exception a handler raises is
        reported to the user and answered with "Call failed", with nothing
        stored. */
    method Execute(args: ToolArgs, userIdentifier: String, now: DateTime) returns (r: ToolResponse)
      requires Valid() && WellFormed(args)
      modifies table, memory, messenger, messenger.llm
      ensures Valid()
      ensures var f := Failure(args, old(table.rows), old(memory.entries), remote);
              f.Some? ==>
                && r == Response(CallFailed(f.value))
                && table.rows == old(table.rows) && memory.entries == old(memory.entries)
                && messenger.sent == old(messenger.sent) + [Fenced(CallFailed(f.value))]
      ensures ReadOnly(args) ==> table.rows == old(table.rows) && memory.entries == old(memory.entries)
      ensures messenger.llm != null && !args.MessageUserCall? ==> messenger.llm.messages == old(messenger.llm.messages)
      ensures args.MessageUserCall? ==>
                r == Response(SentToUser)
                && messenger.sent == old(messenger.sent) + [Outgoing(args.message, args.sendPriority, userIdentifier)]
      ensures args.CreateReminderCall? ==> r == Response(CreatedReply(old(table.nextId)))
      ensures args.SearchVectorMemoryCall? && Searched(old(memory.entries), args, embed(args.content)) == [] ==>
                r == Response(NoEntryFound) && messenger.sent == old(messenger.sent)
    {
      var outcome := Dispatch(args, userIdentifier, now);
      r := Settle(outcome);
    }

    /** `Execute(string, JsonElement, ...)`: an unknown name, a null and a
        throwing deserialisation are answered without running anything. */
    method ExecuteByName(name: String, deserialise: SchemaType -> Deserialised, userIdentifier: String, now: DateTime)
      returns (r: ToolResponse)
      requires Valid() && Deserialises(deserialise)
      modifies table, memory, messenger, messenger.llm
      ensures Valid()
      ensures Lookup(name).None? ==> r == Response(ToolNotFound(name)) && Untouched()
      ensures Lookup(name).Some? && deserialise(Lookup(name).value).Null? ==> r == Response(DeserialiseFailed) && Untouched()
      ensures Lookup(name).Some? && deserialise(Lookup(name).value).Threw? ==>
                r == Response(DeserialiseFailed + ": " + deserialise(Lookup(name).value).message) && Untouched()
      ensures Lookup(name).Some? && deserialise(Lookup(name).value).Parsed? ==>
                var f := Failure(deserialise(Lookup(name).value).args, old(table.rows), old(memory.entries), remote);
                f.Some? ==> r == Response(CallFailed(f.value)) && messenger.sent == old(messenger.sent) + [Fenced(CallFailed(f.value))]
    {
      var t := Lookup(name);
      if t.None? {
        return Response(ToolNotFound(name));
      }
      var d := deserialise(t.value);
      match d
      case Null =>
        r := Response(DeserialiseFailed);
      case Threw(message) =>
        r := Response(DeserialiseFailed + ": " + message);
      case Parsed(args) =>
        r := Execute(args, userIdentifier, now);
    }

    /** Nothing stored and nothing sent. */
    twostate predicate Untouched()
      reads this, table, memory, messenger, messenger.llm
    {
      && table.rows == old(table.rows) && memory.entries == old(memory.entries) && messenger.sent == old(messenger.sent)
      && (messenger.llm != null ==> messenger.llm.messages == old(messenger.llm.messages))
    }
  }
}
