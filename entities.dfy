/** The persisted records: schedule entries (reminders and self-prompts) and
    memory (embedding) entries, with the enums their fields use. */
module Entities {
  import opened Text
  import opened Calendar
  import opened Wrappers

  datatype Frequency = Daily | Weekly | Monthly | Yearly

  /** The `Recurrence` argument of the scheduling tools. */
  datatype Recurrence = Recurrence(frequency: Frequency, interval: int)

  datatype ScheduleEntryKind = Reminder | SelfPrompt

  datatype MessagePriority = Normal | Ping

  /** A row of the ScheduleEntries table. `recurrenceUnit` and
      `recurrenceInterval` are separate nullable columns. */
  datatype ScheduleEntry = ScheduleEntry(
    id: int,
    createdAtUtc: DateTime,
    triggerAtUtc: DateTime,
    content: String,
    kind: ScheduleEntryKind,
    isActive: bool,
    priority: MessagePriority,
    userIdentifier: String,
    recurrenceUnit: Option<Frequency>,
    recurrenceInterval: Option<int>)

  datatype EmbeddingContextKind = UserMemory | AssistantMemory | AssistantAction

  /** An embedding vector; the model keeps integer components. */
  type Vector = seq<int>

  /** A row of the Embeddings table: a memory with its vector and its optional
      back-reference (table name, id) to the record it describes. */
  datatype EmbeddingEntry = EmbeddingEntry(
    id: int,
    addedAtUtc: DateTime,
    context: EmbeddingContextKind,
    content: String,
    embedding: Option<Vector>,
    relatedItemTableName: Option<String>,
    relatedItemId: Option<int>,
    isStale: bool)

  /** The table name Entity Framework gives the `ScheduleEntry` type. */
  const ScheduleEntriesTable: String := "ScheduleEntries"

  function ScheduleEntryId(e: ScheduleEntry): int { e.id }

  function EmbeddingEntryId(e: EmbeddingEntry): int { e.id }

  /** The word for a recurrence unit in the user-facing and memory texts. */
  function UnitText(f: Frequency): String {
    match f
    case Daily => "day(s)"
    case Weekly => "week(s)"
    case Monthly => "month(s)"
    case Yearly => "year(s)"
  }

  function FrequencyOf(r: Option<Recurrence>): Option<Frequency> {
    if r.Some? then Some(r.value.frequency) else None
  }

  function IntervalOf(r: Option<Recurrence>): Option<int> {
    if r.Some? then Some(r.value.interval) else None
  }

  /** The recurrence columns are both set or both null. */
  predicate RecurrencePaired(e: ScheduleEntry) {
    e.recurrenceUnit.Some? <==> e.recurrenceInterval.Some?
  }
}
