/** `ReminderService`: create, update and remove schedule entries while
    keeping the one `AssistantAction` memory linked to each entry in step. */
module Reminders {
  import opened Text
  import opened Calendar
  import opened Wrappers
  import opened Entities
  import opened Memory
  import opened Schedule

  function ReminderNotFound(id: int): String {
    "Reminder with ID " + IntToString(id) + " was not found."
  }

  const ReminderNoun: String := "Reminder"

  /** `BuildEmbeddingContent`: the memory text of a reminder. */
  function BuildEmbeddingContent(message: String, localTriggerTime: DateTime,
                                 recurrenceUnit: Option<Frequency>, recurrenceInterval: Option<int>): (r: String)
    ensures StartsWith(r, ReminderNoun + ScheduledFor + (if recurrenceUnit.None? then "" else InitialTrigger)
                          + FormatSortable(localTriggerTime))
    ensures recurrenceUnit.None? ==> EndsWith(r, PromptOpen + message + "'.")
    ensures recurrenceUnit.Some? ==> EndsWith(r, " " + UnitText(recurrenceUnit.value) + PromptOpen + message + "'")
    ensures recurrenceUnit.Some? ==> StartsWith(r, ReminderNoun + ScheduledFor + InitialTrigger + FormatSortable(localTriggerTime)
                                                   + EveryLead + OptionalIntText(recurrenceInterval) + " "
                                                   + UnitText(recurrenceUnit.value) + PromptOpen)
    ensures EndsWith(r, ".") <==> recurrenceUnit.None?
  {
    ScheduledText(ReminderNoun, message, localTriggerTime, recurrenceUnit, recurrenceInterval)
  }

  class ReminderService {
    const table: ScheduleTable
    const memory: EmbeddingService
    /** `TimeService.ToUtc`: the configured time zone's local-to-UTC conversion. */
    const toUtc: DateTime -> DateTime

    ghost predicate Valid()
      reads this, table, memory
    {
      Synced(table, memory)
    }

    constructor (table: ScheduleTable, memory: EmbeddingService, toUtc: DateTime -> DateTime)
      requires Synced(table, memory)
      ensures Valid() && this.table == table && this.memory == memory && this.toUtc == toUtc
    {
      this.table := table;
      this.memory := memory;
      this.toUtc := toUtc;
    }

    /** `AddAsync`: stores the entry under a new id, then exactly one
        `AssistantAction` memory describing it and linked to that id; `now` is
        the clock and `vector` the embedding of the memory text. */
    method Add(reminder: ScheduleEntry, triggerAtLocal: DateTime, now: DateTime, vector: Vector) returns (id: int)
      requires Valid()
      modifies table, memory
      ensures Valid()
      ensures id == old(table.nextId) && id !in RowIds(old(table.rows))
      ensures table.rows == old(table.rows) + [reminder.(id := id)]
      ensures memory.entries == old(memory.entries) + [EmbeddingEntry(old(memory.nextId), now, AssistantAction,
                BuildEmbeddingContent(reminder.content, triggerAtLocal, reminder.recurrenceUnit, reminder.recurrenceInterval),
                Some(vector), Some(ScheduleEntriesTable), Some(id), false)]
      ensures FindByRelatedItem(memory.entries, ScheduleEntriesTable, id) == Some(memory.entries[|memory.entries| - 1])
    {
      ghost var rows0 := table.rows;
      ghost var entries0 := memory.entries;
      id := table.Add(reminder);
      FreshIdUnlinked(entries0, rows0, id);
      var text := BuildEmbeddingContent(reminder.content, triggerAtLocal, reminder.recurrenceUnit, reminder.recurrenceInterval);
      var saved := memory.Add(now, AssistantAction, text, Some(ScheduleEntriesTable), Some(id), None, vector);
      AddKeepsSynced(entries0, memory.entries[|memory.entries| - 1], rows0, reminder.(id := id));
      FindByRelatedItemUnique(memory.entries, ScheduleEntriesTable, id, memory.entries[|memory.entries| - 1]);
    }

    /** `RemoveAsync`: deletes the entry and the memory linked to it, and
        returns the entry; fails when there is no entry with that id. */
    method Remove(id: int) returns (r: Result<ScheduleEntry>)
      requires Valid()
      modifies table, memory
      ensures Valid()
      ensures r.Err? <==> id !in RowIds(old(table.rows))
      ensures r.Err? ==> r.message == ReminderNotFound(id)
                         && table.rows == old(table.rows) && memory.entries == old(memory.entries)
      ensures r.Ok? ==> r.value in old(table.rows) && r.value.id == id
      ensures r.Ok? ==> forall e :: e in table.rows <==> e in old(table.rows) && e.id != id
      ensures r.Ok? ==> forall e :: e in memory.entries <==> e in old(memory.entries) && !LinkedTo(e, ScheduleEntriesTable, id)
      ensures FindByRelatedItem(memory.entries, ScheduleEntriesTable, id).None?
    {
      var found := FindRow(table.rows, id);
      if found.None? {
        FreshIdUnlinked(memory.entries, table.rows, id);
        return Err(ReminderNotFound(id));
      }
      table.Remove(id);
      UnlinkSchedule(table, memory, id);
      r := Ok(found.value);
    }

    /** `UpdateAsync`: replaces the trigger time with `toUtc(triggerAtLocal)`
        and the content, priority and recurrence only when given; rewrites the
        linked memory's text from the call's own recurrence argument, without
        computing a new vector; fails when there is no entry with that id. */
    method Update(id: int, triggerAtLocal: DateTime, message: Option<String>, priority: Option<MessagePriority>,
                  recurrence: Option<Recurrence>) returns (r: Result<()>)
      requires Valid()
      modifies table, memory
      ensures Valid()
      ensures r.Err? <==> id !in RowIds(old(table.rows))
      ensures r.Err? ==> r.message == ReminderNotFound(id)
                         && table.rows == old(table.rows) && memory.entries == old(memory.entries)
      ensures r.Ok? ==>
                var i := IndexOf(old(table.rows), ScheduleEntryId, id);
                0 <= i && table.rows == old(table.rows)[i := Patch(old(table.rows)[i], toUtc(triggerAtLocal), message, priority, recurrence)]
      ensures r.Ok? ==>
                var row := FindRow(old(table.rows), id).value;
                var text := BuildEmbeddingContent(if message.Some? then message.value else row.content, triggerAtLocal,
                                                  FrequencyOf(recurrence), IntervalOf(recurrence));
                Relinked(old(memory.entries), memory.entries, id, Retext(text))
    {
      var found := FindRow(table.rows, id);
      if found.None? {
        return Err(ReminderNotFound(id));
      }
      var updated := Patch(found.value, toUtc(triggerAtLocal), message, priority, recurrence);
      table.Put(updated);
      var text := BuildEmbeddingContent(updated.content, triggerAtLocal, FrequencyOf(recurrence), IntervalOf(recurrence));
      RewriteLinked(table, memory, id, Retext(text));
      r := Ok(());
    }
  }
}
