/** `SelfPromptService`: schedule, update and remove self-prompts (prompts the
    assistant sends to itself later) with their linked memory. Remove and
    update look the entry up by id only and act on a reminder just the same. */
module SelfPrompts {
  import opened Text
  import opened Calendar
  import opened Wrappers
  import opened Entities
  import opened Memory
  import opened Schedule

  function EntryNotFound(id: int): String {
    "Entry not found: " + IntToString(id)
  }

  const SelfPromptNoun: String := "Self-prompt"

  /** `BuildEmbeddingContent`: the memory text of a self-prompt. */
  function BuildEmbeddingContent(prompt: String, localTriggerTime: DateTime,
                                 recurrenceUnit: Option<Frequency>, recurrenceInterval: Option<int>): (r: String)
    ensures StartsWith(r, SelfPromptNoun + ScheduledFor + (if recurrenceUnit.None? then "" else InitialTrigger)
                          + FormatSortable(localTriggerTime))
    ensures recurrenceUnit.None? ==> EndsWith(r, PromptOpen + prompt + "'.")
    ensures recurrenceUnit.Some? ==> EndsWith(r, " " + UnitText(recurrenceUnit.value) + PromptOpen + prompt + "'")
    ensures recurrenceUnit.Some? ==> StartsWith(r, SelfPromptNoun + ScheduledFor + InitialTrigger + FormatSortable(localTriggerTime)
                                                   + EveryLead + OptionalIntText(recurrenceInterval) + " "
                                                   + UnitText(recurrenceUnit.value) + PromptOpen)
    ensures EndsWith(r, ".") <==> recurrenceUnit.None?
  {
    ScheduledText(SelfPromptNoun, prompt, localTriggerTime, recurrenceUnit, recurrenceInterval)
  }

  /** The entry `Schedule` stores: a self-prompt due at the UTC trigger time,
      active, of normal priority, with the recurrence pair copied (both null
      when there is none). Its id is assigned by the table. */
  function NewSelfPrompt(now: DateTime, triggerAtUtc: DateTime, prompt: String, userIdentifier: String,
                         recurrence: Option<Recurrence>): (e: ScheduleEntry)
    ensures e.kind == SelfPrompt && e.isActive && e.priority == Normal
    ensures e.triggerAtUtc == triggerAtUtc && e.createdAtUtc == now
    ensures e.content == prompt && e.userIdentifier == userIdentifier
    ensures RecurrencePaired(e)
    ensures e.recurrenceUnit.Some? <==> recurrence.Some?
    ensures recurrence.Some? ==> e.recurrenceUnit == Some(recurrence.value.frequency)
                                 && e.recurrenceInterval == Some(recurrence.value.interval)
  {
    ScheduleEntry(0, now, triggerAtUtc, prompt, SelfPrompt, true, Normal, userIdentifier,
                  FrequencyOf(recurrence), IntervalOf(recurrence))
  }

  class SelfPromptService {
    const table: ScheduleTable
    const memory: EmbeddingService
    /** `TimeService.ToUtc`: the configured time zone's local-to-UTC conversion. */
    const toUtc: DateTime -> DateTime

    ghost predicate Valid()
      reads this, table, memory
    {
      Synced(table, memory)
    }

    constructor (table: ScheduleTable, memory: EmbeddingService, toUtc: DateTime -> DateTime)
      requires Synced(table, memory)
      ensures Valid() && this.table == table && this.memory == memory && this.toUtc == toUtc
    {
      this.table := table;
      this.memory := memory;
      this.toUtc := toUtc;
    }

    /** `Schedule`: stores a new self-prompt, then its linked `AssistantAction`
        memory, and returns the new id; `now` is the clock and `vector` the
        embedding of the memory text. */
    method Schedule(triggerAtLocal: DateTime, prompt: String, userIdentifier: String, recurrence: Option<Recurrence>,
                    now: DateTime, vector: Vector) returns (id: int)
      requires Valid()
      modifies table, memory
      ensures Valid()
      ensures id == old(table.nextId) && id !in RowIds(old(table.rows))
      ensures table.rows == old(table.rows)
                            + [NewSelfPrompt(now, toUtc(triggerAtLocal), prompt, userIdentifier, recurrence).(id := id)]
      ensures memory.entries == old(memory.entries) + [EmbeddingEntry(old(memory.nextId), now, AssistantAction,
                BuildEmbeddingContent(prompt, triggerAtLocal, FrequencyOf(recurrence), IntervalOf(recurrence)),
                Some(vector), Some(ScheduleEntriesTable), Some(id), false)]
      ensures FindByRelatedItem(memory.entries, ScheduleEntriesTable, id) == Some(memory.entries[|memory.entries| - 1])
    {
      ghost var rows0 := table.rows;
      ghost var entries0 := memory.entries;
      var selfPrompt := NewSelfPrompt(now, toUtc(triggerAtLocal), prompt, userIdentifier, recurrence);
      id := table.Add(selfPrompt);
      FreshIdUnlinked(entries0, rows0, id);
      var text := BuildEmbeddingContent(prompt, triggerAtLocal, FrequencyOf(recurrence), IntervalOf(recurrence));
      var saved := memory.Add(now, AssistantAction, text, Some(ScheduleEntriesTable), Some(id), None, vector);
      AddKeepsSynced(entries0, memory.entries[|memory.entries| - 1], rows0, selfPrompt.(id := id));
      FindByRelatedItemUnique(memory.entries, ScheduleEntriesTable, id, memory.entries[|memory.entries| - 1]);
    }

    /** `RemoveAsync`: deletes the entry with that id, whatever its kind, then
        the memory linked to it, and returns the entry; fails when there is none. */
    method Remove(id: int) returns (r: Result<ScheduleEntry>)
      requires Valid()
      modifies table, memory
      ensures Valid()
      ensures r.Err? <==> id !in RowIds(old(table.rows))
      ensures r.Err? ==> r.message == EntryNotFound(id)
                         && table.rows == old(table.rows) && memory.entries == old(memory.entries)
      ensures r.Ok? ==> r.value in old(table.rows) && r.value.id == id
      ensures r.Ok? ==> forall e :: e in table.rows <==> e in old(table.rows) && e.id != id
      ensures r.Ok? ==> forall e :: e in memory.entries <==> e in old(memory.entries) && !LinkedTo(e, ScheduleEntriesTable, id)
      ensures FindByRelatedItem(memory.entries, ScheduleEntriesTable, id).None?
    {
      var found := FindRow(table.rows, id);
      if found.None? {
        FreshIdUnlinked(memory.entries, table.rows, id);
        return Err(EntryNotFound(id));
      }
      table.Remove(id);
      UnlinkSchedule(table, memory, id);
      r := Ok(found.value);
    }

    /** `UpdateAsync`: replaces the trigger time with `toUtc(triggerAtLocal)`,
        the prompt only when given, and the recurrence pair together only when
        given; then rewrites the linked memory's text from the call's own
        recurrence argument without a new vector; fails when there is no entry. */
    method Update(id: int, triggerAtLocal: DateTime, prompt: Option<String>, recurrence: Option<Recurrence>)
      returns (r: Result<()>)
      requires Valid()
      modifies table, memory
      ensures Valid()
      ensures r.Err? <==> id !in RowIds(old(table.rows))
      ensures r.Err? ==> r.message == EntryNotFound(id)
                         && table.rows == old(table.rows) && memory.entries == old(memory.entries)
      ensures r.Ok? ==>
                var i := IndexOf(old(table.rows), ScheduleEntryId, id);
                0 <= i && table.rows == old(table.rows)[i := Patch(old(table.rows)[i], toUtc(triggerAtLocal), prompt, None, recurrence)]
      ensures r.Ok? ==>
                var row := FindRow(old(table.rows), id).value;
                var text := BuildEmbeddingContent(if prompt.Some? then prompt.value else row.content, triggerAtLocal,
                                                  FrequencyOf(recurrence), IntervalOf(recurrence));
                Relinked(old(memory.entries), memory.entries, id, Retext(text))
    {
      var found := FindRow(table.rows, id);
      if found.None? {
        return Err(EntryNotFound(id));
      }
      var updated := Patch(found.value, toUtc(triggerAtLocal), prompt, None, recurrence);
      table.Put(updated);
      var text := BuildEmbeddingContent(updated.content, triggerAtLocal, FrequencyOf(recurrence), IntervalOf(recurrence));
      RewriteLinked(table, memory, id, Retext(text));
      r := Ok(());
    }
  }
}
