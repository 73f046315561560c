/** The ScheduleEntries table (reminders and self-prompts) and the invariant
    that ties it to the Embeddings table: every memory that refers back to a
    schedule entry refers to a row that exists. */
module Schedule {
  import opened Text
  import opened Calendar
  import opened Wrappers
  import opened Entities
  import opened Memory

  /** The ids of a list of schedule rows. */
  function RowIds(rows: seq<ScheduleEntry>): set<int> {
    set e | e in rows :: e.id
  }

  ghost predicate ScheduleIdsDistinct(rows: seq<ScheduleEntry>) {
    forall i, j :: 0 <= i < |rows| && 0 <= j < |rows| && i != j ==> rows[i].id != rows[j].id
  }

  /** `FindAsync(id)` on the table: the row with that primary key, if any. */
  function FindRow(rows: seq<ScheduleEntry>, id: int): (r: Option<ScheduleEntry>)
    ensures r.Some? ==> r.value in rows && r.value.id == id
    ensures r.None? <==> id !in RowIds(rows)
  {
    var i := IndexOf(rows, ScheduleEntryId, id);
    if i < 0 then
      assert forall e :: e in rows ==> e.id != id by {
        forall e | e in rows ensures e.id != id {
          var k :| 0 <= k < |rows| && rows[k] == e;
        }
      }
      None
    else Some(rows[i])
  }

  class ScheduleTable {
    var rows: seq<ScheduleEntry>
    /** The next value of the identity column. */
    var nextId: int

    ghost predicate Valid()
      reads this
    {
      && nextId >= 1
      && (forall i :: 0 <= i < |rows| ==> 1 <= rows[i].id < nextId)
      && ScheduleIdsDistinct(rows)
    }

    constructor ()
      ensures Valid() && rows == [] && nextId == 1
    {
      rows := [];
      nextId := 1;
    }

    /** `ScheduleEntries.Add` and `SaveChanges`: the row is stored under the
        next identity value, which is returned. */
    method Add(entry: ScheduleEntry) returns (id: int)
      requires Valid()
      modifies this
      ensures Valid()
      ensures id == old(nextId) && id !in RowIds(old(rows))
      ensures rows == old(rows) + [entry.(id := id)] && nextId == old(nextId) + 1
    {
      id := nextId;
      rows := rows + [entry.(id := id)];
      nextId := nextId + 1;
    }

    /** `ScheduleEntries.Remove` of the row with that id, and `SaveChanges`. */
    method Remove(id: int)
      requires Valid()
      modifies this
      ensures Valid() && nextId == old(nextId)
      ensures forall e :: e in rows <==> e in old(rows) && e.id != id
      ensures RowIds(rows) == RowIds(old(rows)) - {id}
    {
      var i := IndexOf(rows, ScheduleEntryId, id);
      if i >= 0 {
        RemoveRowMembers(rows, i);
        rows := RemoveAt(rows, i);
      } else {
        assert id !in RowIds(rows);
      }
    }

    /** `ScheduleEntries.Update(entry)` and `SaveChanges` for a row that exists. */
    method Put(entry: ScheduleEntry)
      requires Valid() && entry.id in RowIds(rows)
      modifies this
      ensures Valid() && nextId == old(nextId)
      ensures var i := IndexOf(old(rows), ScheduleEntryId, entry.id);
              0 <= i && rows == old(rows)[i := entry]
      ensures RowIds(rows) == RowIds(old(rows))
    {
      RowIndex(rows, entry.id);
      var i := IndexOf(rows, ScheduleEntryId, entry.id);
      PutRowIds(rows, i, entry);
      rows := rows[i := entry];
    }

    /** `UpdateRange` and `SaveChanges` for the rows as read and edited in
        place: every row keeps its position and its id. */
    method SaveRows(edited: seq<ScheduleEntry>)
      requires Valid() && SameIds(rows, edited)
      modifies this
      ensures Valid() && rows == edited && nextId == old(nextId)
      ensures RowIds(rows) == RowIds(old(rows))
    {
      SameIdsRowIds(rows, edited);
      rows := edited;
    }
  }

  /** Two versions of the rows with the same id at every position. */
  predicate SameIds(rows: seq<ScheduleEntry>, edited: seq<ScheduleEntry>) {
    |edited| == |rows| && forall i :: 0 <= i < |rows| ==> edited[i].id == rows[i].id
  }

  /** Rows edited in place keep the set of ids. */
  lemma SameIdsRowIds(rows: seq<ScheduleEntry>, edited: seq<ScheduleEntry>)
    requires SameIds(rows, edited)
    ensures RowIds(edited) == RowIds(rows)
  {
    forall x | x in RowIds(rows) ensures x in RowIds(edited) {
      var e :| e in rows && e.id == x;
      var k :| 0 <= k < |rows| && rows[k] == e;
      assert edited[k].id == x;
    }
    forall x | x in RowIds(edited) ensures x in RowIds(rows) {
      var e :| e in edited && e.id == x;
      var k :| 0 <= k < |edited| && edited[k] == e;
      assert rows[k].id == x;
    }
  }

  /** A row that is there is found by `IndexOf`. */
  lemma RowIndex(rows: seq<ScheduleEntry>, id: int)
    requires id in RowIds(rows)
    ensures IndexOf(rows, ScheduleEntryId, id) >= 0
  {
    var e :| e in rows && e.id == id;
    var k :| 0 <= k < |rows| && rows[k] == e;
    assert ScheduleEntryId(rows[k]) == id;
  }

  /** Without row `i` exactly the rows with a different id remain. */
  lemma {:induction false} RemoveRowMembers(rows: seq<ScheduleEntry>, i: nat)
    requires ScheduleIdsDistinct(rows) && i < |rows|
    ensures ScheduleIdsDistinct(RemoveAt(rows, i))
    ensures forall e :: e in RemoveAt(rows, i) <==> e in rows && e.id != rows[i].id
    ensures RowIds(RemoveAt(rows, i)) == RowIds(rows) - {rows[i].id}
  {
    var r := RemoveAt(rows, i);
    forall e ensures e in r <==> e in rows && e.id != rows[i].id {
      if e in r {
        var k :| 0 <= k < |r| && r[k] == e;
        var m := if k < i then k else k + 1;
        assert rows[m] == e && m != i;
      }
      if e in rows && e.id != rows[i].id {
        var k :| 0 <= k < |rows| && rows[k] == e;
        if k < i {
          assert r[k] == e;
        } else {
          assert r[k - 1] == e;
        }
      }
    }
  }

  /** Overwriting a row with one of the same id keeps the set of ids. */
  lemma {:induction false} PutRowIds(rows: seq<ScheduleEntry>, i: nat, entry: ScheduleEntry)
    requires i < |rows| && rows[i].id == entry.id
    ensures RowIds(rows[i := entry]) == RowIds(rows)
  {
    var r := rows[i := entry];
    forall x | x in RowIds(rows) ensures x in RowIds(r) {
      var e :| e in rows && e.id == x;
      var k :| 0 <= k < |rows| && rows[k] == e;
      if k == i {
        assert r[i].id == x;
      } else {
        assert r[k] == e;
      }
    }
    forall x | x in RowIds(r) ensures x in RowIds(rows) {
      var e :| e in r && e.id == x;
      var k :| 0 <= k < |r| && r[k] == e;
      if k == i {
        assert rows[i].id == x;
      } else {
        assert rows[k] == e;
      }
    }
  }

  // ---- The Embeddings side of a schedule entry ----

  /** The memory refers back to some schedule entry. */
  predicate RefersToSchedule(e: EmbeddingEntry) {
    e.relatedItemTableName == Some(ScheduleEntriesTable) && e.relatedItemId.Some?
  }

  /** No memory refers to a schedule entry that is not in the table. */
  ghost predicate NoDanglingLinks(entries: seq<EmbeddingEntry>, rows: seq<ScheduleEntry>) {
    forall e :: e in entries && RefersToSchedule(e) ==> e.relatedItemId.value in RowIds(rows)
  }

  /** Both tables are valid and no memory dangles. */
  ghost predicate Synced(table: ScheduleTable, memory: EmbeddingService)
    reads table, memory
  {
    table.Valid() && memory.Valid() && NoDanglingLinks(memory.entries, table.rows)
  }

  /** A fresh id has no memory linked to it while no memory dangles. */
  lemma {:induction false} FreshIdUnlinked(entries: seq<EmbeddingEntry>, rows: seq<ScheduleEntry>, id: int)
    requires NoDanglingLinks(entries, rows) && id !in RowIds(rows)
    ensures !LinkTaken(entries, Some((ScheduleEntriesTable, id)), -1)
    ensures FindByRelatedItem(entries, ScheduleEntriesTable, id).None?
  {
    forall i | 0 <= i < |entries| ensures LinkOf(entries[i]) != Some((ScheduleEntriesTable, id)) {
      if LinkOf(entries[i]) == Some((ScheduleEntriesTable, id)) {
        assert entries[i] in entries && RefersToSchedule(entries[i]);
      }
    }
  }

  /** The row of a memory found by id when ids are distinct. */
  lemma IndexOfMember(rows: seq<EmbeddingEntry>, e: EmbeddingEntry)
    requires IdsDistinct(rows) && e in rows
    ensures var k := IndexOf(rows, EmbeddingEntryId, e.id); 0 <= k && rows[k] == e
  {
    var j :| 0 <= j < |rows| && rows[j] == e;
    var k := IndexOf(rows, EmbeddingEntryId, e.id);
    assert k >= 0 && rows[k].id == rows[j].id;
  }

  /** Removing the one memory linked to (table, id) leaves exactly the
      memories not linked to it. */
  lemma {:induction false} RemoveLinked(rows: seq<EmbeddingEntry>, k: nat, table: String, id: int)
    requires LinksUnique(rows) && k < |rows| && LinkedTo(rows[k], table, id)
    ensures forall x :: x in RemoveAt(rows, k) <==> x in rows && !LinkedTo(x, table, id)
  {
    var r := RemoveAt(rows, k);
    forall x ensures x in r <==> x in rows && !LinkedTo(x, table, id) {
      if x in r {
        var j :| 0 <= j < |r| && r[j] == x;
        var m := if j < k then j else j + 1;
        assert rows[m] == x && m != k;
        assert LinkOf(rows[k]).Some?;
      }
      if x in rows && !LinkedTo(x, table, id) {
        var j :| 0 <= j < |rows| && rows[j] == x;
        assert j != k;
        if j < k {
          assert r[j] == x;
        } else {
          assert r[j - 1] == x;
        }
      }
    }
  }

  /** A row keeps its own back-reference: writing it back never collides. */
  lemma OwnLinkFree(rows: seq<EmbeddingEntry>, k: nat, e: EmbeddingEntry)
    requires LinksUnique(rows) && k < |rows| && LinkOf(e) == LinkOf(rows[k])
    ensures !LinkTaken(rows, LinkOf(e), k)
  {
  }

  /** Changing a row's content or staleness keeps its back-reference, so the
      memory side stays free of dangling links. */
  lemma {:induction false} RewriteKeepsLinks(entries: seq<EmbeddingEntry>, rows: seq<ScheduleEntry>, k: nat, e: EmbeddingEntry)
    requires NoDanglingLinks(entries, rows) && k < |entries| && LinkOf(e) == LinkOf(entries[k])
    requires e.relatedItemTableName == entries[k].relatedItemTableName && e.relatedItemId == entries[k].relatedItemId
    ensures NoDanglingLinks(entries[k := e], rows)
  {
    forall x | x in entries[k := e] && RefersToSchedule(x) ensures x.relatedItemId.value in RowIds(rows) {
      var j :| 0 <= j < |entries[k := e]| && entries[k := e][j] == x;
      if j == k {
        assert entries[k] in entries;
      } else {
        assert entries[j] == x;
      }
    }
  }

  // ---- Shared by ReminderService and SelfPromptService ----

  /** An `int?` interpolated into a string: a null prints as nothing. */
  function OptionalIntText(n: Option<int>): String {
    if n.Some? then IntToString(n.value) else ""
  }

  const ScheduledFor: String := " scheduled for "
  const InitialTrigger: String := "initial trigger at "
  const PromptOpen: String := " with prompt: '"
  const EveryLead: String := " and then every "

  /** The last character of a text: whether it ends with `c`. */
  lemma EndsWithChar(s: String, c: char)
    ensures EndsWith(s, [c]) <==> |s| > 0 && s[|s| - 1] == c
  {
    if |s| > 0 {
      assert s[|s| - 1..] == [s[|s| - 1]];
    }
  }

  /** The memory text of a schedule entry, `<noun>` being "Reminder" or
      "Self-prompt": "<noun> scheduled for <t> with prompt: '<m>'." without a
      recurrence unit, and "<noun> scheduled for initial trigger at <t> and then
      every <n> <unit> with prompt: '<m>'" (no final full stop) with one. */
  function ScheduledText(noun: String, message: String, localTriggerTime: DateTime,
                         unit: Option<Frequency>, interval: Option<int>): (r: String)
    ensures StartsWith(r, noun + ScheduledFor + (if unit.None? then "" else InitialTrigger) + FormatSortable(localTriggerTime))
    ensures unit.None? ==> EndsWith(r, PromptOpen + message + "'.")
    ensures unit.Some? ==> EndsWith(r, " " + UnitText(unit.value) + PromptOpen + message + "'")
    ensures unit.Some? ==> StartsWith(r, noun + ScheduledFor + InitialTrigger + FormatSortable(localTriggerTime)
                                         + EveryLead + OptionalIntText(interval) + " " + UnitText(unit.value) + PromptOpen)
    ensures EndsWith(r, ".") <==> unit.None?
  {
    var head := noun + ScheduledFor + (if unit.None? then "" else InitialTrigger) + FormatSortable(localTriggerTime);
    var closing: String := if unit.None? then "'." else "'";
    var body := if unit.None? then PromptOpen + message else " " + UnitText(unit.value) + PromptOpen + message;
    var middle := if unit.None? then "" else EveryLead + OptionalIntText(interval);
    Framed(head, middle, body, closing);
    EveryFramed(head, OptionalIntText(interval), if unit.Some? then UnitText(unit.value) else "", message);
    EndsWithChar(head + (middle + (body + closing)), '.');
    head + (middle + (body + closing))
  }

  /** The recurring form opens with the head, the interval and the unit,
      right before the prompt. */
  lemma EveryFramed(head: String, interval: String, unitText: String, message: String)
    ensures var r := head + ((EveryLead + interval) + ((" " + unitText + PromptOpen + message) + "'"));
            StartsWith(r, head + EveryLead + interval + " " + unitText + PromptOpen)
  {
    var lead := head + EveryLead + interval + " " + unitText + PromptOpen;
    assert head + ((EveryLead + interval) + ((" " + unitText + PromptOpen + message) + "'")) == lead + (message + "'");
    ConcatAffixes(lead, message + "'");
  }

  /** A text made of a head, a middle, a body and a closing starts with the
      head, ends with the body and the closing, and its last character is
      the closing's. */
  lemma Framed(head: String, middle: String, body: String, closing: String)
    requires |closing| > 0
    ensures var r := head + (middle + (body + closing));
            StartsWith(r, head) && EndsWith(r, body + closing) && r[|r| - 1] == closing[|closing| - 1]
  {
    var tail := body + closing;
    ConcatAffixes(head, middle + tail);
    ConcatAffixes(middle, tail);
    EndsWithTransitive(head + (middle + tail), middle + tail, tail);
  }

  /** The optional-field update of a schedule entry (`UpdateAsync` of both
      services): the trigger time is always replaced; content, priority and
      the recurrence pair only when supplied; nothing else changes. */
  function Patch(e: ScheduleEntry, triggerAtUtc: DateTime, content: Option<String>,
                 priority: Option<MessagePriority>, recurrence: Option<Recurrence>): (r: ScheduleEntry)
    ensures r.triggerAtUtc == triggerAtUtc
    ensures r.content == (if content.Some? then content.value else e.content)
    ensures r.priority == (if priority.Some? then priority.value else e.priority)
    ensures r.recurrenceUnit == (if recurrence.Some? then Some(recurrence.value.frequency) else e.recurrenceUnit)
    ensures r.recurrenceInterval == (if recurrence.Some? then Some(recurrence.value.interval) else e.recurrenceInterval)
    ensures r.id == e.id && r.createdAtUtc == e.createdAtUtc && r.kind == e.kind
    ensures r.isActive == e.isActive && r.userIdentifier == e.userIdentifier
  {
    var e1 := e.(triggerAtUtc := triggerAtUtc, content := content.GetOr(e.content), priority := priority.GetOr(e.priority));
    if recurrence.Some? then
      e1.(recurrenceUnit := Some(recurrence.value.frequency), recurrenceInterval := Some(recurrence.value.interval))
    else e1
  }

  /** An update keeps the recurrence columns paired, and repeating it changes nothing. */
  lemma PatchPairedIdempotent(e: ScheduleEntry, triggerAtUtc: DateTime, content: Option<String>,
                              priority: Option<MessagePriority>, recurrence: Option<Recurrence>)
    requires RecurrencePaired(e)
    ensures RecurrencePaired(Patch(e, triggerAtUtc, content, priority, recurrence))
    ensures var r := Patch(e, triggerAtUtc, content, priority, recurrence);
            Patch(r, triggerAtUtc, content, priority, recurrence) == r
  {
  }

  /** Storing a new entry and a memory that refers to it (or to nothing in
      the schedule) leaves no memory dangling. */
  lemma {:induction false} AddKeepsSynced(entries: seq<EmbeddingEntry>, e: EmbeddingEntry,
                                          rows: seq<ScheduleEntry>, row: ScheduleEntry)
    requires NoDanglingLinks(entries, rows)
    requires RefersToSchedule(e) ==> e.relatedItemId.value == row.id
    ensures NoDanglingLinks(entries + [e], rows + [row])
  {
    assert RowIds(rows + [row]) == RowIds(rows) + {row.id};
  }

  /** The memories after `edit` was applied to the one linked to (ScheduleEntries,
      id), if there is one; all other memories are as they were. */
  ghost predicate Relinked(before: seq<EmbeddingEntry>, after: seq<EmbeddingEntry>, id: int,
                           edit: EmbeddingEntry -> EmbeddingEntry)
  {
    var linked := FindByRelatedItem(before, ScheduleEntriesTable, id);
    if linked.None? then after == before
    else
      var k := IndexOf(before, EmbeddingEntryId, linked.value.id);
      0 <= k && after == before[k := edit(linked.value)]
  }

  /** An edit of a memory that keeps its id and its back-reference. */
  ghost predicate KeepsIdentity(edit: EmbeddingEntry -> EmbeddingEntry) {
    forall e :: edit(e).id == e.id && edit(e).relatedItemTableName == e.relatedItemTableName
                && edit(e).relatedItemId == e.relatedItemId
  }

  /** The edit the update handlers apply to a linked memory: its text is
      replaced, nothing else. */
  function Retext(text: String): (r: EmbeddingEntry -> EmbeddingEntry)
    ensures KeepsIdentity(r)
  {
    (e: EmbeddingEntry) => e.(content := text)
  }

  /** Finds the memory linked to (ScheduleEntries, id), applies `edit` to it and
      writes it back with `UpdateAsync(entry)`; no new vector is computed. */
  method RewriteLinked(table: ScheduleTable, memory: EmbeddingService, id: int, edit: EmbeddingEntry -> EmbeddingEntry)
    requires Synced(table, memory) && KeepsIdentity(edit)
    modifies memory
    ensures Synced(table, memory) && memory.nextId == old(memory.nextId)
    ensures Relinked(old(memory.entries), memory.entries, id, edit)
  {
    var linked := FindByRelatedItem(memory.entries, ScheduleEntriesTable, id);
    if linked.Some? {
      var edited := edit(linked.value);
      IndexOfMember(memory.entries, linked.value);
      ghost var k := IndexOf(memory.entries, EmbeddingEntryId, linked.value.id);
      OwnLinkFree(memory.entries, k, edited);
      RewriteKeepsLinks(memory.entries, table.rows, k, edited);
      var saved := memory.UpdateEntry(edited);
    }
  }

  /** Deletes the memory linked to (ScheduleEntries, id) after that entry was
      deleted, with `RemoveAsync(entry)`. */
  method UnlinkSchedule(table: ScheduleTable, memory: EmbeddingService, id: int)
    requires table.Valid() && memory.Valid() && id !in RowIds(table.rows)
    requires forall e :: e in memory.entries && RefersToSchedule(e) ==> e.relatedItemId.value in RowIds(table.rows) + {id}
    modifies memory
    ensures Synced(table, memory) && memory.nextId == old(memory.nextId)
    ensures forall e :: e in memory.entries <==> e in old(memory.entries) && !LinkedTo(e, ScheduleEntriesTable, id)
    ensures FindByRelatedItem(memory.entries, ScheduleEntriesTable, id).None?
  {
    var linked := FindByRelatedItem(memory.entries, ScheduleEntriesTable, id);
    if linked.Some? {
      IndexOfMember(memory.entries, linked.value);
      ghost var k := IndexOf(memory.entries, EmbeddingEntryId, linked.value.id);
      RemoveLinked(memory.entries, k, ScheduleEntriesTable, id);
      var removed := memory.RemoveEntry(linked.value);
    }
  }
}
