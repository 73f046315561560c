/** `SchedulingWorker`: a sweep fires every active schedule entry that is due,
    marks the memory of each entry that fired as stale, and then moves the
    trigger of a recurring entry on by one step or switches a one-off entry
    off. */
module Scheduling {
  import opened Text
  import opened Wrappers
  import opened Calendar
  import opened Entities
  import opened Memory
  import opened Schedule
  import opened Chat
  import opened Messaging

  // ---- ResolveRecurrenceTimeSpan ----

  const Int32Modulus: int := 0x1_0000_0000

  /** An `int` product in C#'s default unchecked context: the two's
      complement value of the low 32 bits. */
  function Wrap32(x: int): (r: int)
    ensures -0x8000_0000 <= r < 0x8000_0000
    ensures (x - r) % Int32Modulus == 0
    ensures -0x8000_0000 <= x < 0x8000_0000 ==> r == x
  {
    (x + 0x8000_0000) % Int32Modulus - 0x8000_0000
  }

  /** The result of a .NET `DateTime` operation: a result outside
      0001..9999 raises. */
  function Checked(d: DateTime): (r: Option<DateTime>)
    ensures r.Some? <==> InRange(d)
    ensures r.Some? ==> r.value == d
  {
    if InRange(d) then Some(d) else None
  }

  /** `ResolveRecurrenceTimeSpan` with the week step in unbounded arithmetic:
      `n` days, `7 n` days, `n` months or `n` years on from the old trigger,
      or `None` where .NET raises (a missing interval, an argument out of
      bounds, a result out of range). */
  function ResolveRecurrence(t: DateTime, unit: Frequency, interval: Option<int>): Option<DateTime>
    requires ValidDate(t)
  {
    if interval.None? then None
    else
      var n := interval.value;
      match unit
      case Daily => Checked(AddDays(t, n))
      case Weekly => Checked(AddDays(t, n * 7))
      case Monthly => if n < -120000 || n > 120000 then None else Checked(AddMonths(t, n))
      case Yearly => if n < -10000 || n > 10000 then None else Checked(AddYears(t, n))
  }

  /** `ResolveRecurrenceTimeSpan` as written: `interval * 7` is an `int`
      product that wraps around. */
  function ResolveRecurrenceAsWritten(t: DateTime, unit: Frequency, interval: Option<int>): Option<DateTime>
    requires ValidDate(t)
  {
    if unit == Weekly && interval.Some? then Checked(AddDays(t, Wrap32(interval.value * 7)))
    else ResolveRecurrence(t, unit, interval)
  }

  /** One step of each unit: days move the day number, a week is seven days,
      months move the month index and clamp the day, a year is twelve months.
      The time of day is kept and the result is a valid .NET date. */
  lemma {:induction false} RecurrenceStep(t: DateTime, unit: Frequency, interval: Option<int>)
    requires ValidDate(t)
    ensures var r := ResolveRecurrence(t, unit, interval);
            && (interval.None? ==> r.None?)
            && (r.Some? ==> InRange(r.value) && r.value.second == t.second)
            && (r.Some? && unit == Daily ==> DayNumber(r.value) == DayNumber(t) + interval.value)
            && (r.Some? && unit == Weekly ==> DayNumber(r.value) == DayNumber(t) + 7 * interval.value)
            && (r.Some? && unit == Monthly ==> r.value == AddMonths(t, interval.value))
            && (r.Some? && unit == Yearly ==> r.value == AddMonths(t, 12 * interval.value) && r.value.year == t.year + interval.value)
  {
    if interval.Some? {
      var n := interval.value;
      match unit
      case Daily => AddDaysMoves(t, n);
      case Weekly => AddDaysMoves(t, n * 7);
      case Monthly =>
      case Yearly => AddYearsIsTwelveMonths(t, n);
    }
  }

  /** A step forward moves the trigger later in time. */
  lemma {:induction false} RecurrenceMovesForward(t: DateTime, unit: Frequency, n: int)
    requires ValidDate(t) && n > 0 && (unit == Daily || unit == Weekly)
    requires ResolveRecurrence(t, unit, Some(n)).Some?
    ensures Before(t, ResolveRecurrence(t, unit, Some(n)).value)
  {
    if unit == Daily {
      AddDaysMoves(t, n);
    } else {
      AddDaysMoves(t, n * 7);
    }
  }

  /** Days before year `y` are between 365 and 366 per year. */
  lemma {:induction false} DaysBeforeYearBounds(y: int)
    requires y >= 1
    ensures 365 * (y - 1) <= DaysBeforeYear(y) <= 366 * (y - 1)
    decreases y
  {
    if y > 1 {
      DaysBeforeYearBounds(y - 1);
    }
  }

  /** Every representable date has a day number below 366 * 9999 + 366. */
  lemma DayNumberBound(d: DateTime)
    requires InRange(d)
    ensures 0 <= DayNumber(d) < 366 * MaxYear + 366
  {
    DaysBeforeYearBounds(d.year);
  }

  /** The week step as written wraps: an interval of 613566757 weeks is
      4294967299 days, which as an `int` is 3; the entry moves on by three
      days where the step should raise, being far out of range. */
  lemma WeeklyIntervalWraps()
    ensures var t := DateTime(2025, 1, 1, 0);
            && ResolveRecurrenceAsWritten(t, Weekly, Some(613566757)) == Some(DateTime(2025, 1, 4, 0))
            && ResolveRecurrence(t, Weekly, Some(613566757)) == None
  {
    var t := DateTime(2025, 1, 1, 0);
    assert Wrap32(613566757 * 7) == 3;
    assert AddDays(t, 3) == AddDays(DateTime(2025, 1, 2, 0), 2) == AddDays(DateTime(2025, 1, 3, 0), 1) == DateTime(2025, 1, 4, 0);
    var far := AddDays(t, 613566757 * 7);
    AddDaysMoves(t, 613566757 * 7);
    DaysBeforeYearBounds(2025);
    if InRange(far) {
      DayNumberBound(far);
      assert false;
    }
  }

  /** `ResolveRecurrenceTimeSpan` applied by the sweep to an entry that fired:
      a recurring entry gets the next trigger, counted from its old trigger;
      a one-off entry is switched off. Only those two fields change. */
  function Advance(e: ScheduleEntry): (r: Option<ScheduleEntry>)
    requires ValidDate(e.triggerAtUtc)
    ensures r.Some? ==> r.value == e.(isActive := r.value.isActive, triggerAtUtc := r.value.triggerAtUtc)
    ensures e.recurrenceUnit.None? ==> r.Some? && !r.value.isActive && r.value.triggerAtUtc == e.triggerAtUtc
    ensures e.recurrenceUnit.Some? ==>
              && (r.Some? <==> ResolveRecurrence(e.triggerAtUtc, e.recurrenceUnit.value, e.recurrenceInterval).Some?)
              && (r.Some? ==> r.value.isActive == e.isActive
                              && Some(r.value.triggerAtUtc) == ResolveRecurrence(e.triggerAtUtc, e.recurrenceUnit.value, e.recurrenceInterval))
    ensures InRange(e.triggerAtUtc) && r.Some? ==> InRange(r.value.triggerAtUtc)
  {
    if e.recurrenceUnit.Some? then
      var next := ResolveRecurrence(e.triggerAtUtc, e.recurrenceUnit.value, e.recurrenceInterval);
      if next.None? then None else Some(e.(triggerAtUtc := next.value))
    else Some(e.(isActive := false))
  }

  // ---- Selection ----

  /** Every stored trigger is a .NET `DateTime`. */
  ghost predicate Representable(rows: seq<ScheduleEntry>) {
    forall i :: 0 <= i < |rows| ==> InRange(rows[i].triggerAtUtc)
  }

  /** An entry the sweep fires: active, and its trigger at or before now. */
  predicate IsDue(e: ScheduleEntry, now: DateTime) {
    e.isActive && AtOrBefore(e.triggerAtUtc, now)
  }

  predicate Increasing(s: seq<nat>) {
    forall a, b :: 0 <= a < b < |s| ==> s[a] < s[b]
  }

  predicate Within(s: seq<nat>, n: nat) {
    forall k :: 0 <= k < |s| ==> s[k] < n
  }

  /** The positions of the rows the two `Where` clauses select, in table
      order: exactly the due rows. */
  function DueIndices(rows: seq<ScheduleEntry>, now: DateTime): (r: seq<nat>)
    ensures Increasing(r) && Within(r, |rows|)
    ensures forall i :: 0 <= i < |rows| ==> (i in r <==> IsDue(rows[i], now))
  {
    if |rows| == 0 then []
    else
      var n := |rows| - 1;
      var prefix := DueIndices(rows[..n], now);
      assert forall i :: 0 <= i < n ==> rows[..n][i] == rows[i];
      prefix + (if IsDue(rows[n], now) then [n] else [])
  }

  // ---- Firing ----

  /** What `SendSelfPromptAsync` did: it raised, or it answered with the
      texts of the tool calls it ran. */
  datatype SelfPromptReply = Threw | Answered(functionCallResponses: seq<String>)

  /** A message of the fire step, and whether it also goes into the model's
      history. */
  datatype Sent = Sent(text: String, remember: bool)

  const SentMarker: String := "Sent message to user"
  const Fence: String := "```"

  function NoCallsNotice(e: ScheduleEntry): String {
    "[System] Self-prompt " + IntToString(e.id) + " failed because no function calls were made. Prompt: '" + e.content + "'."
  }

  /** One tool output in the self-prompt summary: fenced, unless it reports a
      message the user already got. */
  function SummaryPiece(response: String): (r: String)
    ensures r == [] <==> Contains(response, SentMarker)
    ensures r != [] ==> r[0] == '`'
  {
    if Contains(response, SentMarker) then [] else Fence + "\n" + response + "\n" + Fence + "\n"
  }

  /** The text the summary loop of `ExecuteSelfPromptAsync` builds. */
  function Summary(responses: seq<String>): String {
    if |responses| == 0 then []
    else Summary(responses[..|responses| - 1]) + SummaryPiece(responses[|responses| - 1])
  }

  /** The summary is blank, and so not sent, exactly when every tool output
      reports a message sent to the user. */
  lemma {:induction false} SummaryBlank(responses: seq<String>)
    ensures IsBlank(Summary(responses)) <==> forall i :: 0 <= i < |responses| ==> Contains(responses[i], SentMarker)
    ensures IsBlank(Summary(responses)) <==> Summary(responses) == []
  {
    if |responses| > 0 {
      var n := |responses| - 1;
      SummaryBlank(responses[..n]);
      var head := Summary(responses[..n]);
      var piece := SummaryPiece(responses[n]);
      assert Summary(responses) == head + piece;
      if piece != [] {
        assert (head + piece)[|head|] == '`';
        assert !IsWhiteSpace('`');
      } else if head != [] {
        assert (head + piece)[..|head|] == head;
        assert !IsBlank(head);
        var j :| 0 <= j < |head| && !IsWhiteSpace(head[j]);
        assert (head + piece)[j] == head[j];
      }
      assert forall i :: 0 <= i < n ==> responses[..n][i] == responses[i];
    }
  }

  /** What a self-prompt sends: the failure notice when no tool ran, kept out
      of the history; otherwise the summary, unless it is blank. A raising
      model sends nothing. */
  function SelfPromptSends(e: ScheduleEntry, reply: SelfPromptReply): seq<Sent> {
    match reply
    case Threw => []
    case Answered(responses) =>
      if |responses| == 0 then [Sent(NoCallsNotice(e), false)]
      else if IsBlank(Summary(responses)) then []
      else [Sent(Summary(responses), true)]
  }

  /** What firing an entry sends: a reminder its content through the
      two-argument overload, kept in the history; a self-prompt what
      `SelfPromptSends` says. A channel that refuses sends nothing. */
  function FireSends(e: ScheduleEntry, delivers: bool, reply: SelfPromptReply): seq<Sent> {
    if !delivers then []
    else if e.kind == Reminder then [Sent(e.content, true)]
    else SelfPromptSends(e, reply)
  }

  /** Whether the fire task completes: a self-prompt swallows every exception. */
  predicate FireSucceeds(e: ScheduleEntry, delivers: bool) {
    e.kind == SelfPrompt || delivers
  }

  /** The texts of the messages, in order. */
  function Texts(s: seq<Sent>): seq<String> {
    if |s| == 0 then [] else Texts(s[..|s| - 1]) + [s[|s| - 1].text]
  }

  /** The history after the remembered messages were added one by one. */
  function Remembered(history: seq<ChatMessage>, s: seq<Sent>, limit: nat): seq<ChatMessage> {
    if |s| == 0 then history
    else
      var h := Remembered(history, s[..|s| - 1], limit);
      if s[|s| - 1].remember then KeepWithin(h + [UserMessage(s[|s| - 1].text)], limit) else h
  }

  lemma {:induction false} TextsAppend(a: seq<Sent>, b: seq<Sent>)
    ensures Texts(a + b) == Texts(a) + Texts(b)
    decreases |b|
  {
    if |b| > 0 {
      assert (a + b)[..|a + b| - 1] == a + b[..|b| - 1];
      TextsAppend(a, b[..|b| - 1]);
    } else {
      assert a + b == a;
    }
  }

  lemma {:induction false} RememberedAppend(history: seq<ChatMessage>, a: seq<Sent>, b: seq<Sent>, limit: nat)
    ensures Remembered(history, a + b, limit) == Remembered(Remembered(history, a, limit), b, limit)
    decreases |b|
  {
    if |b| > 0 {
      assert (a + b)[..|a + b| - 1] == a + b[..|b| - 1];
      RememberedAppend(history, a, b[..|b| - 1], limit);
    } else {
      assert a + b == a;
    }
  }

  /** The stale mark of `ExecuteScheduleEntry`. */
  function MarkStale(e: EmbeddingEntry): EmbeddingEntry {
    e.(isStale := true)
  }

  /** The memories after the one linked to entry `id`, if any, was marked
      stale; nothing else changes. */
  function StaleMarked(entries: seq<EmbeddingEntry>, id: int): (r: seq<EmbeddingEntry>)
    requires IdsDistinct(entries)
    ensures |r| == |entries| && IdsDistinct(r)
    ensures forall i :: 0 <= i < |entries| ==>
              r[i] == entries[i] || (r[i] == MarkStale(entries[i]) && LinkedTo(entries[i], ScheduleEntriesTable, id))
  {
    var linked := FindByRelatedItem(entries, ScheduleEntriesTable, id);
    if linked.None? then entries
    else
      IndexOfMember(entries, linked.value);
      entries[IndexOf(entries, EmbeddingEntryId, linked.value.id) := MarkStale(linked.value)]
  }

  // ---- The sweep, as functions of the rows it read ----

  /** The messages of firing the rows at `due`, in order. */
  function SweepSends(rows: seq<ScheduleEntry>, due: seq<nat>, delivers: ScheduleEntry -> bool,
                      reply: ScheduleEntry -> SelfPromptReply): seq<Sent>
    requires Within(due, |rows|)
  {
    if |due| == 0 then []
    else
      var e := rows[due[|due| - 1]];
      SweepSends(rows, due[..|due| - 1], delivers, reply) + FireSends(e, delivers(e), reply(e))
  }

  /** The positions whose fire task completed: `successfulEntries`. */
  function Fired(rows: seq<ScheduleEntry>, due: seq<nat>, delivers: ScheduleEntry -> bool): (r: seq<nat>)
    requires Within(due, |rows|)
    ensures Within(r, |rows|)
  {
    if |due| == 0 then []
    else
      var i := due[|due| - 1];
      Fired(rows, due[..|due| - 1], delivers) + (if FireSucceeds(rows[i], delivers(rows[i])) then [i] else [])
  }

  /** `successfulEntries` holds exactly the selected positions whose fire
      completed, in the order they were selected. */
  lemma {:induction false} FiredExactly(rows: seq<ScheduleEntry>, due: seq<nat>, delivers: ScheduleEntry -> bool)
    requires Within(due, |rows|)
    ensures var r := Fired(rows, due, delivers);
            && (forall i :: i in r <==> i in due && FireSucceeds(rows[i], delivers(rows[i])))
            && (Increasing(due) ==> Increasing(r))
  {
    if |due| > 0 {
      var n := |due| - 1;
      FiredExactly(rows, due[..n], delivers);
      assert due == due[..n] + [due[n]];
      var prefix := Fired(rows, due[..n], delivers);
      if Increasing(due) {
        forall k | 0 <= k < |prefix| ensures prefix[k] < due[n] {
          assert prefix[k] in due[..n];
        }
      }
    }
  }

  /** The memories after the stale marks of the fired rows. */
  function StaleAll(entries: seq<EmbeddingEntry>, rows: seq<ScheduleEntry>, fired: seq<nat>): (r: seq<EmbeddingEntry>)
    requires Within(fired, |rows|) && IdsDistinct(entries)
    ensures IdsDistinct(r)
  {
    if |fired| == 0 then entries
    else StaleMarked(StaleAll(entries, rows, fired[..|fired| - 1]), rows[fired[|fired| - 1]].id)
  }

  /** Every fired row has a next trigger (or is one-off): the reconciliation
      does not raise. */
  predicate Resolvable(rows: seq<ScheduleEntry>, fired: seq<nat>)
    requires Within(fired, |rows|) && Representable(rows)
  {
    forall k :: 0 <= k < |fired| ==> Advance(rows[fired[k]]).Some?
  }

  /** The rows after a reconciliation that did not raise: each fired row
      advanced, every other row as it was. */
  function Swept(rows: seq<ScheduleEntry>, fired: seq<nat>): (r: seq<ScheduleEntry>)
    requires Within(fired, |rows|) && Representable(rows) && Resolvable(rows, fired)
    ensures |r| == |rows| && SameIds(rows, r) && Representable(r)
    ensures forall i :: 0 <= i < |rows| && i !in fired ==> r[i] == rows[i]
    ensures forall k :: 0 <= k < |fired| ==> r[fired[k]] == Advance(rows[fired[k]]).value
  {
    seq(|rows|, i requires 0 <= i < |rows| =>
      if i in fired then Advance(rows[i]).value else rows[i])
  }

  /** The folds of the sweep, one position further. */
  lemma SweepStep(rows: seq<ScheduleEntry>, due: seq<nat>, k: nat, delivers: ScheduleEntry -> bool,
                  reply: ScheduleEntry -> SelfPromptReply)
    requires Within(due, |rows|) && k < |due|
    ensures var e := rows[due[k]];
            SweepSends(rows, due[..k + 1], delivers, reply) == SweepSends(rows, due[..k], delivers, reply) + FireSends(e, delivers(e), reply(e))
  {
    var d := due[..k + 1];
    assert d[..|d| - 1] == due[..k] && d[|d| - 1] == due[k];
    SweepSendsLast(rows, d, delivers, reply);
  }

  /** One unfolding of `SweepSends`, with `FireSends` left unexpanded. */
  lemma SweepSendsLast(rows: seq<ScheduleEntry>, d: seq<nat>, delivers: ScheduleEntry -> bool,
                       reply: ScheduleEntry -> SelfPromptReply)
    requires Within(d, |rows|) && |d| > 0
    ensures var e := rows[d[|d| - 1]];
            SweepSends(rows, d, delivers, reply) == SweepSends(rows, d[..|d| - 1], delivers, reply) + FireSends(e, delivers(e), reply(e))
  {
  }

  lemma FiredPrefixStep(rows: seq<ScheduleEntry>, due: seq<nat>, k: nat, delivers: ScheduleEntry -> bool)
    requires Within(due, |rows|) && k < |due|
    ensures var e := rows[due[k]];
            Fired(rows, due[..k + 1], delivers) == Fired(rows, due[..k], delivers) + (if FireSucceeds(e, delivers(e)) then [due[k]] else [])
  {
    var d := due[..k + 1];
    assert d[..|d| - 1] == due[..k] && d[|d| - 1] == due[k];
  }

  lemma StaleStep(entries: seq<EmbeddingEntry>, rows: seq<ScheduleEntry>, fired: seq<nat>, i: nat)
    requires Within(fired, |rows|) && IdsDistinct(entries) && i < |rows|
    ensures StaleAll(entries, rows, fired + [i]) == StaleMarked(StaleAll(entries, rows, fired), rows[i].id)
  {
    assert (fired + [i])[..|fired|] == fired;
  }

  /** One fire, seen from the memories: the fired positions and the stale
      marks grow by the fired row, if it fired. */
  lemma FiredStep(rows: seq<ScheduleEntry>, due: seq<nat>, k: nat, delivers: ScheduleEntry -> bool,
                  fired: seq<nat>, next: seq<nat>, ok: bool,
                  entries: seq<EmbeddingEntry>, before: seq<EmbeddingEntry>, after: seq<EmbeddingEntry>)
    requires Within(due, |rows|) && k < |due| && IdsDistinct(entries)
    requires fired == Fired(rows, due[..k], delivers) && before == StaleAll(entries, rows, fired)
    requires ok == FireSucceeds(rows[due[k]], delivers(rows[due[k]]))
    requires next == (if ok then fired + [due[k]] else fired)
    requires after == (if ok then StaleMarked(before, rows[due[k]].id) else before)
    ensures next == Fired(rows, due[..k + 1], delivers) && after == StaleAll(entries, rows, next)
  {
    FiredPrefixStep(rows, due, k, delivers);
    if ok {
      StaleStep(entries, rows, fired, due[k]);
    }
  }

  /** One fire, seen from the channel. */
  lemma SentStep(rows: seq<ScheduleEntry>, due: seq<nat>, k: nat, delivers: ScheduleEntry -> bool,
                 reply: ScheduleEntry -> SelfPromptReply, sent: seq<String>, before: seq<String>, after: seq<String>)
    requires Within(due, |rows|) && k < |due|
    requires before == sent + Texts(SweepSends(rows, due[..k], delivers, reply))
    requires after == before + Texts(FireSends(rows[due[k]], delivers(rows[due[k]]), reply(rows[due[k]])))
    ensures after == sent + Texts(SweepSends(rows, due[..k + 1], delivers, reply))
  {
    var e := rows[due[k]];
    var a, b := SweepSends(rows, due[..k], delivers, reply), FireSends(e, delivers(e), reply(e));
    SweepStep(rows, due, k, delivers, reply);
    TextsAppend(a, b);
    AppendAssociative(sent, Texts(a), Texts(b));
  }

  /** One fire, seen from the conversation history. */
  lemma RememberedStep(rows: seq<ScheduleEntry>, due: seq<nat>, k: nat, delivers: ScheduleEntry -> bool,
                       reply: ScheduleEntry -> SelfPromptReply, limit: nat,
                       history: seq<ChatMessage>, before: seq<ChatMessage>, after: seq<ChatMessage>)
    requires Within(due, |rows|) && k < |due|
    requires before == Remembered(history, SweepSends(rows, due[..k], delivers, reply), limit)
    requires after == Remembered(before, FireSends(rows[due[k]], delivers(rows[due[k]]), reply(rows[due[k]])), limit)
    ensures after == Remembered(history, SweepSends(rows, due[..k + 1], delivers, reply), limit)
  {
    var e := rows[due[k]];
    var a, b := SweepSends(rows, due[..k], delivers, reply), FireSends(e, delivers(e), reply(e));
    SweepStep(rows, due, k, delivers, reply);
    assert SweepSends(rows, due[..k + 1], delivers, reply) == a + b;
    RememberedAppend(history, a, b, limit);
  }

  // ---- What the sweep promises ----

  /** A due self-prompt always counts as fired, whatever the model and the
      channel did. */
  lemma {:induction false} SelfPromptsAlwaysFire(rows: seq<ScheduleEntry>, due: seq<nat>, delivers: ScheduleEntry -> bool, i: nat)
    requires Within(due, |rows|) && i in due && rows[i].kind == SelfPrompt
    ensures i in Fired(rows, due, delivers)
  {
    FiredExactly(rows, due, delivers);
  }

  /** An entry that was due and did not fire is due again at every later
      sweep, whether or not the reconciliation was saved. */
  lemma FailedStaysDue(rows: seq<ScheduleEntry>, now: DateTime, delivers: ScheduleEntry -> bool, i: nat, later: DateTime)
    requires Representable(rows) && i < |rows| && IsDue(rows[i], now) && !FireSucceeds(rows[i], delivers(rows[i]))
    requires AtOrBefore(now, later)
    ensures var fired := Fired(rows, DueIndices(rows, now), delivers);
            && i !in fired
            && (Resolvable(rows, fired) ==> IsDue(Swept(rows, fired)[i], later))
            && IsDue(rows[i], later)
  {
    FiredExactly(rows, DueIndices(rows, now), delivers);
    if Before(rows[i].triggerAtUtc, now) && Before(now, later) {
      BeforeTransitive(rows[i].triggerAtUtc, now, later);
    }
  }

  /** A fired one-off entry is switched off at its old trigger; a fired
      recurring entry stays active, its trigger one step on from the old one. */
  lemma FiredEntryAdvanced(rows: seq<ScheduleEntry>, fired: seq<nat>, k: nat)
    requires Within(fired, |rows|) && Representable(rows) && Resolvable(rows, fired) && k < |fired|
    requires rows[fired[k]].isActive
    ensures var before := rows[fired[k]];
            var after := Swept(rows, fired)[fired[k]];
            && after.id == before.id && after.content == before.content && after.kind == before.kind
            && (before.recurrenceUnit.None? ==> !after.isActive && after.triggerAtUtc == before.triggerAtUtc)
            && (before.recurrenceUnit.Some? ==>
                  after.isActive
                  && Some(after.triggerAtUtc) == ResolveRecurrence(before.triggerAtUtc, before.recurrenceUnit.value, before.recurrenceInterval))
  {
  }

  // ---- The worker ----

  class SchedulingWorker {
    const table: ScheduleTable
    const memory: EmbeddingService
    const messenger: Messenger
    /** Whether the Discord channel accepts the messages of an entry's fire. */
    const delivers: ScheduleEntry -> bool
    /** `SendSelfPromptAsync` of the LLM client on an entry's prompt. */
    const reply: ScheduleEntry -> SelfPromptReply

    ghost predicate Valid()
      reads this, table, memory
    {
      Synced(table, memory) && Representable(table.rows)
    }

    constructor (table: ScheduleTable, memory: EmbeddingService, messenger: Messenger,
                 delivers: ScheduleEntry -> bool, reply: ScheduleEntry -> SelfPromptReply)
      requires Synced(table, memory) && Representable(table.rows)
      ensures Valid() && this.table == table && this.memory == memory && this.messenger == messenger
      ensures this.delivers == delivers && this.reply == reply
    {
      this.table := table;
      this.memory := memory;
      this.messenger := messenger;
      this.delivers := delivers;
      this.reply := reply;
    }

    /** Sends the messages of a fire, in order. */
    method SendAll(s: seq<Sent>)
      modifies messenger, messenger.llm
      ensures messenger.sent == old(messenger.sent) + Texts(s)
      ensures messenger.llm != null ==> messenger.llm.messages == Remembered(old(messenger.llm.messages), s, messenger.llm.limit)
    {
      var k := 0;
      while k < |s|
        invariant 0 <= k <= |s|
        invariant messenger.sent == old(messenger.sent) + Texts(s[..k])
        invariant messenger.llm != null ==> messenger.llm.messages == Remembered(old(messenger.llm.messages), s[..k], messenger.llm.limit)
      {
        assert s[..k + 1][..k] == s[..k];
        messenger.Send(s[k].text, s[k].remember);
        k := k + 1;
      }
      assert s[..k] == s;
    }

    /** The summary loop of `ExecuteSelfPromptAsync`. */
    static method BuildSummary(responses: seq<String>) returns (r: String)
      ensures r == Summary(responses)
    {
      r := [];
      for k := 0 to |responses|
        invariant r == Summary(responses[..k])
      {
        assert responses[..k + 1][..k] == responses[..k];
        if Contains(responses[k], SentMarker) {
          continue;
        }
        var piece := Fence + "\n" + responses[k] + "\n" + Fence + "\n";
        r := r + piece;
      }
      assert responses[..|responses|] == responses;
    }

    /** `ExecuteSelfPromptAsync`: a failing model or channel is swallowed. */
    method ExecuteSelfPrompt(e: ScheduleEntry)
      requires e.kind == SelfPrompt
      modifies messenger, messenger.llm
      ensures messenger.sent == old(messenger.sent) + Texts(FireSends(e, delivers(e), reply(e)))
      ensures messenger.llm != null ==>
                messenger.llm.messages == Remembered(old(messenger.llm.messages), FireSends(e, delivers(e), reply(e)), messenger.llm.limit)
    {
      var answer := reply(e);
      if answer.Threw? || !delivers(e) {
        SendAll([]);
        return;
      }
      if |answer.functionCallResponses| == 0 {
        SendAll([Sent(NoCallsNotice(e), false)]);
        return;
      }
      var summary := BuildSummary(answer.functionCallResponses);
      if !IsBlank(summary) {
        SendAll([Sent(summary, true)]);
      } else {
        SendAll([]);
      }
    }

    /** `ExecuteScheduleEntry`: fires the entry; when that did not raise,
        marks its memory stale. */
    method ExecuteScheduleEntry(e: ScheduleEntry) returns (ok: bool)
      requires Valid()
      modifies memory, messenger, messenger.llm
      ensures Valid() && memory.nextId == old(memory.nextId)
      ensures ok == FireSucceeds(e, delivers(e))
      ensures memory.entries == if ok then StaleMarked(old(memory.entries), e.id) else old(memory.entries)
      ensures messenger.sent == old(messenger.sent) + Texts(FireSends(e, delivers(e), reply(e)))
      ensures messenger.llm != null ==>
                messenger.llm.messages == Remembered(old(messenger.llm.messages), FireSends(e, delivers(e), reply(e)), messenger.llm.limit)
    {
      if e.kind == Reminder {
        if !delivers(e) {
          SendAll([]);
          return false;
        }
        SendAll([Sent(e.content, true)]);
      } else {
        ExecuteSelfPrompt(e);
      }
      ghost var entries0 := memory.entries;
      RewriteLinked(table, memory, e.id, MarkStale);
      ok := true;
    }

    /** `ExecuteScheduledEntriesAsync`: fires the due rows in table order,
        then advances or switches off those that fired and saves them all at
        once; a trigger that cannot be advanced raises before the save. */
    method ExecuteScheduledEntries(now: DateTime) returns (saved: bool)
      requires Valid()
      modifies table, memory, messenger, messenger.llm
      ensures Valid()
      ensures var due := DueIndices(old(table.rows), now);
              var fired := Fired(old(table.rows), due, delivers);
              && IdsDistinct(old(memory.entries))
              && memory.entries == StaleAll(old(memory.entries), old(table.rows), fired)
              && messenger.sent == old(messenger.sent) + Texts(SweepSends(old(table.rows), due, delivers, reply))
              && (saved <==> Resolvable(old(table.rows), fired))
              && (saved ==> table.rows == Swept(old(table.rows), fired))
              && (!saved ==> table.rows == old(table.rows))
      ensures messenger.llm != null ==>
                messenger.llm.messages
                == Remembered(old(messenger.llm.messages), SweepSends(old(table.rows), DueIndices(old(table.rows), now), delivers, reply),
                              messenger.llm.limit)
    {
      ghost var rows0 := table.rows;
      ghost var entries0 := memory.entries;
      var due := DueIndices(table.rows, now);
      var fired := Fire(due);
      saved := Reconcile(fired);
    }

    /** The fire loop: every position in `due` in turn. */
    method Fire(due: seq<nat>) returns (fired: seq<nat>)
      requires Valid() && Increasing(due) && Within(due, |table.rows|)
      modifies memory, messenger, messenger.llm
      ensures Valid() && Increasing(fired)
      ensures fired == Fired(table.rows, due, delivers)
      ensures memory.entries == StaleAll(old(memory.entries), table.rows, fired)
      ensures messenger.sent == old(messenger.sent) + Texts(SweepSends(table.rows, due, delivers, reply))
      ensures messenger.llm != null ==>
                messenger.llm.messages == Remembered(old(messenger.llm.messages), SweepSends(table.rows, due, delivers, reply), messenger.llm.limit)
    {
      ghost var history := if messenger.llm != null then messenger.llm.messages else [];
      fired := [];
      var k := 0;
      while k < |due|
        invariant 0 <= k <= |due|
        invariant FiredSoFar(due, k, fired, old(memory.entries), old(messenger.sent), history)
      {
        fired := FireNext(due, k, fired, old(memory.entries), old(messenger.sent), history);
        k := k + 1;
      }
      assert due[..k] == due;
      FiredExactly(table.rows, due, delivers);
    }

    /** The state after firing the first `k` positions of `due`, from the
        memories, the channel and the history as they were before. */
    ghost predicate FiredSoFar(due: seq<nat>, k: nat, fired: seq<nat>, entries: seq<EmbeddingEntry>, sent: seq<String>,
                               history: seq<ChatMessage>)
      reads this, table, memory, messenger, messenger.llm
    {
      && Valid() && IdsDistinct(entries) && Within(due, |table.rows|) && k <= |due|
      && fired == Fired(table.rows, due[..k], delivers)
      && memory.entries == StaleAll(entries, table.rows, fired)
      && messenger.sent == sent + Texts(SweepSends(table.rows, due[..k], delivers, reply))
      && (messenger.llm != null ==>
            messenger.llm.messages == Remembered(history, SweepSends(table.rows, due[..k], delivers, reply), messenger.llm.limit))
    }

    /** One turn of the fire loop. */
    method FireNext(due: seq<nat>, k: nat, fired: seq<nat>, ghost entries: seq<EmbeddingEntry>, ghost sent: seq<String>,
                    ghost history: seq<ChatMessage>) returns (next: seq<nat>)
      requires k < |due| && FiredSoFar(due, k, fired, entries, sent, history)
      modifies memory, messenger, messenger.llm
      ensures FiredSoFar(due, k + 1, next, entries, sent, history)
    {
      var e := table.rows[due[k]];
      ghost var entries0, sent0 := memory.entries, messenger.sent;
      ghost var history0 := if messenger.llm != null then messenger.llm.messages else [];
      var ok := ExecuteScheduleEntry(e);
      next := if ok then fired + [due[k]] else fired;
      FiredStep(table.rows, due, k, delivers, fired, next, ok, entries, entries0, memory.entries);
      SentStep(table.rows, due, k, delivers, reply, sent, sent0, messenger.sent);
      if messenger.llm != null {
        RememberedStep(table.rows, due, k, delivers, reply, messenger.llm.limit, history, history0, messenger.llm.messages);
      }
    }

    /** The reconciliation loop over the fired rows, then one save. */
    method Reconcile(fired: seq<nat>) returns (saved: bool)
      requires Valid() && Increasing(fired) && Within(fired, |table.rows|)
      modifies table
      ensures Valid()
      ensures saved <==> Resolvable(old(table.rows), fired)
      ensures saved ==> table.rows == Swept(old(table.rows), fired)
      ensures !saved ==> table.rows == old(table.rows)
    {
      var rows := table.rows;
      var k := 0;
      while k < |fired|
        invariant 0 <= k <= |fired| && |rows| == |table.rows|
        invariant forall j :: 0 <= j < k ==> Advance(table.rows[fired[j]]).Some?
        invariant forall i :: 0 <= i < |rows| ==>
                    rows[i] == if i in fired[..k] then Advance(table.rows[i]).value else table.rows[i]
      {
        var i := fired[k];
        assert i !in fired[..k];
        var next := Advance(rows[i]);
        if next.None? {
          return false;
        }
        rows := rows[i := next.value];
        assert fired[..k + 1] == fired[..k] + [i];
        k := k + 1;
      }
      assert fired[..k] == fired;
      SameIdsRowIds(table.rows, rows);
      table.SaveRows(rows);
      saved := true;
    }
  }
}
