/** The deterministic texts of `ToolService`: the scheduling summary shown to
    the user, and the memory listings given to the model and to the user. */
module ToolText {
  import opened Text
  import opened Calendar
  import opened Wrappers
  import opened Entities
  import opened StringUtils
  import opened Schedule

  // ---- BuildSchedulingString ----

  /** The `zzz` part of the round-trip format: the offset as "+hh:mm" or "-hh:mm". */
  function OffsetText(minutes: int): String {
    var m := if minutes < 0 then -minutes else minutes;
    (if minutes < 0 then "-" else "+") + PadNumber(m / 60, 2) + ":" + PadNumber(m % 60, 2)
  }

  /** `DateTimeOffset.ToString("O")`. */
  function FormatOffsetRoundTrip(o: DateTimeOffset): String {
    FormatRoundTrip(o.clock) + OffsetText(o.offsetMinutes)
  }

  /** The parts of a three-part text sit where they were put. */
  lemma Split3(a: String, b: String, c: String)
    ensures StartsWith(a + b + c, a) && StartsWith(a + b + c, a + b)
    ensures EndsWith(a + b + c, c) && EndsWith(a + b + c, b + c)
    ensures (a + b + c)[|a|..] == b + c && OccursAt(a + b + c, b, |a|)
  {
    assert (a + b + c)[..|a|] == a;
    assert (a + b + c)[..|a + b|] == a + b;
    assert (a + b + c)[|a|..] == b + c;
    assert (a + b + c)[|a|..|a| + |b|] == b;
  }

  /** The parts of the scheduling text sit where they were put. */
  lemma Split5(lead: String, time: String, utc: String, every: String, msg: String)
    requires |lead| > 0
    ensures var r := lead + time + utc + every + msg;
            && StartsWith(r, lead) && StartsWith(r, lead + time) && r[0] == lead[0]
            && r[|lead + time|..] == utc + (every + msg)
            && EndsWith(r, msg) && OccursAt(r, every, |lead + time + utc|)
  {
    var r := lead + time + utc + every + msg;
    assert r[..|lead|] == lead;
    assert r[..|lead + time|] == lead + time;
    assert r[|lead + time|..] == utc + (every + msg);
    assert r[|r| - |msg|..] == msg;
    assert r[|lead + time + utc|..|lead + time + utc| + |every|] == every;
  }

  const TriggerLead: String := "Trigger at: "
  const InitialTriggerLead: String := "Initial trigger at: "
  const UtcMark: String := " UTC"
  const MessageLead: String := " message: '"
  const Unchanged: String := "*unchanged*"

  function Lead(unit: Option<Frequency>): String {
    if unit.None? then TriggerLead else InitialTriggerLead
  }

  /** The recurrence part: " and then every <n> <unit> with", or nothing. */
  function EveryPart(unit: Option<Frequency>, interval: Option<int>): String {
    if unit.Some? then EveryLead + OptionalIntText(interval) + " " + UnitText(unit.value) + " with" else ""
  }

  /** The message part: " message: '<m>'", "*unchanged*" standing for no message. */
  function MessagePart(message: Option<String>): String {
    MessageLead + message.GetOr(Unchanged) + "'"
  }

  /** What follows the time never starts with " UTC" by itself. */
  lemma TailNotUtc(unit: Option<Frequency>, interval: Option<int>, message: Option<String>)
    ensures !StartsWith(EveryPart(unit, interval) + MessagePart(message), UtcMark)
  {
    var t := EveryPart(unit, interval) + MessagePart(message);
    if unit.Some? {
      assert t[1] == EveryLead[1] == 'a';
    } else {
      assert t[1] == MessageLead[1] == 'm';
    }
    assert UtcMark[1] == 'U';
  }

  /** `BuildSchedulingString`: "Trigger at: " for a single trigger and
      "Initial trigger at: " for a recurring one, then the time, then " UTC"
      exactly when the time is a UTC one, the recurrence part for a recurring
      one, and last the message, "*unchanged*" when the call gave none. */
  function BuildSchedulingString(triggerAt: DateTimeOffset, message: Option<String>, unit: Option<Frequency>,
                                 interval: Option<int>, isUtc: bool): (r: String)
    ensures StartsWith(r, TriggerLead) <==> unit.None?
    ensures StartsWith(r, Lead(unit) + FormatOffsetRoundTrip(triggerAt))
    ensures StartsWith(r[|Lead(unit) + FormatOffsetRoundTrip(triggerAt)|..], UtcMark) <==> isUtc
    ensures EndsWith(r, MessagePart(message))
    ensures unit.Some? ==> Contains(r, EveryPart(unit, interval))
  {
    var utc := if isUtc then UtcMark else "";
    var r := Lead(unit) + FormatOffsetRoundTrip(triggerAt) + utc + EveryPart(unit, interval) + MessagePart(message);
    Split5(Lead(unit), FormatOffsetRoundTrip(triggerAt), utc, EveryPart(unit, interval), MessagePart(message));
    TailNotUtc(unit, interval, message);
    assert StartsWith(r, TriggerLead) ==> r[0] == TriggerLead[0] == 'T';
    assert unit.Some? ==> r[0] == InitialTriggerLead[0] == 'I';
    var tail := EveryPart(unit, interval) + MessagePart(message);
    ConcatAffixes(utc, tail);
    assert !isUtc ==> utc + tail == tail;
    r
  }

  // ---- BuildEmbeddingListString and BuildEmbeddingListStringForUser ----

  const TruncationSuffix: String := "... (truncated)"

  /** The first entry of a listing keeps up to 750 characters, later ones 250. */
  function ContentLimit(index: nat): nat {
    if index == 0 then 750 else 250
  }

  /** The name of a context kind, as an enum prints. */
  function ContextName(k: EmbeddingContextKind): String {
    match k
    case UserMemory => "UserMemory"
    case AssistantMemory => "AssistantMemory"
    case AssistantAction => "AssistantAction"
  }

  /** `ToString("yyyy-MM-dd HH:mm")`. */
  function FormatMinutes(d: DateTime): String {
    PadNumber(d.year, 4) + "-" + PadNumber(d.month, 2) + "-" + PadNumber(d.day, 2)
    + " " + PadNumber(d.second / 3600, 2) + ":" + PadNumber(d.second % 3600 / 60, 2)
  }

  /** The item reference of a memory, when it has a table name. */
  function ItemText(e: EmbeddingEntry): String
    requires e.relatedItemTableName.Some?
  {
    "Item: ID=" + OptionalIntText(e.relatedItemId) + ", Table=" + e.relatedItemTableName.value
  }

  /** The header of a memory for the model. `AddedAtUtc` is read back from a
      `timestamp with time zone` column as a UTC `DateTime`, so its
      round-trip form ends in the zone designator "Z". */
  function ModelHeader(e: EmbeddingEntry): String {
    "Created at " + FormatRoundTrip(e.addedAtUtc) + "Z with context " + ContextName(e.context)
    + ") and memory ID " + IntToString(e.id) + ":\n"
  }

  /** The content line: the content cut to `maxLength`, marked when cut. */
  function ContentLine(e: EmbeddingEntry, maxLength: nat): String {
    "Content: " + Truncate(e.content, maxLength, TruncationSuffix) + "\n"
  }

  /** The item line, for a memory with a table name only. */
  function ItemLine(e: EmbeddingEntry): (r: String)
    ensures r == [] <==> e.relatedItemTableName.None?
  {
    if e.relatedItemTableName.Some? then ItemText(e) + "\n" else ""
  }

  const Rule: String := "---\n"

  /** One entry of `BuildEmbeddingListString`: header line, content line with
      the content cut to `maxLength`, the item line only for a memory with a
      table name, and a "---" line. */
  function ModelBlock(e: EmbeddingEntry, maxLength: nat): (r: String)
    ensures StartsWith(r, ModelHeader(e) + ContentLine(e, maxLength))
    ensures EndsWith(r, ItemLine(e) + Rule)
    ensures r[|ModelHeader(e) + ContentLine(e, maxLength)|..] == ItemLine(e) + Rule
  {
    Split3(ModelHeader(e) + ContentLine(e, maxLength), ItemLine(e) + Rule, []);
    ModelHeader(e) + ContentLine(e, maxLength) + (ItemLine(e) + Rule)
  }

  function UserHeader(e: EmbeddingEntry): String {
    FormatMinutes(e.addedAtUtc) + " [" + ContextName(e.context) + ")] ID=" + IntToString(e.id) + ":\n"
  }

  /** The item line for the user, in parentheses, for a memory with a table name only. */
  function UserItemLine(e: EmbeddingEntry): (r: String)
    ensures r == [] <==> e.relatedItemTableName.None?
  {
    if e.relatedItemTableName.Some? then "(" + ItemText(e) + ")\n" else ""
  }

  /** The quoted content, cut to `maxLength`, and a blank line. */
  function QuoteLine(e: EmbeddingEntry, maxLength: nat): String {
    " > " + Truncate(e.content, maxLength, TruncationSuffix) + "\n\n"
  }

  /** One entry of `BuildEmbeddingListStringForUser`: header line, the item
      line only for a memory with a table name, the quoted content cut to
      `maxLength`, and a blank line. */
  function UserBlock(e: EmbeddingEntry, maxLength: nat): (r: String)
    ensures StartsWith(r, UserHeader(e) + UserItemLine(e))
    ensures EndsWith(r, QuoteLine(e, maxLength))
    ensures r[|UserHeader(e)|..] == UserItemLine(e) + QuoteLine(e, maxLength)
  {
    Split3(UserHeader(e), UserItemLine(e), QuoteLine(e, maxLength));
    UserHeader(e) + UserItemLine(e) + QuoteLine(e, maxLength)
  }

  /** How an entry is printed, given the most characters its content keeps. */
  type Block = (EmbeddingEntry, nat) -> String

  /** The printed entries, in order, each with the content limit of its place. */
  function Pieces(entries: seq<EmbeddingEntry>, block: Block): (r: seq<String>)
    ensures |r| == |entries|
    ensures forall i :: 0 <= i < |r| ==> r[i] == block(entries[i], ContentLimit(i))
  {
    if |entries| == 0 then []
    else Pieces(entries[..|entries| - 1], block) + [block(entries[|entries| - 1], ContentLimit(|entries| - 1))]
  }

  function Concat(parts: seq<String>): String {
    if |parts| == 0 then [] else Concat(parts[..|parts| - 1]) + parts[|parts| - 1]
  }

  /** A listing starts with its first entry, at the 750-character limit. */
  lemma {:induction false} ListingStartsWithFirst(entries: seq<EmbeddingEntry>, block: Block)
    requires |entries| > 0
    ensures StartsWith(Concat(Pieces(entries, block)), block(entries[0], 750))
  {
    var p := Pieces(entries, block);
    if |entries| > 1 {
      ListingStartsWithFirst(entries[..|entries| - 1], block);
      var q := Pieces(entries[..|entries| - 1], block);
      assert p[..|p| - 1] == q;
      ConcatAffixes(Concat(q), p[|p| - 1]);
    } else {
      assert p[..0] == [];
    }
  }

  /** A listing is the listing of all entries but the last, followed by the
      last entry at the 250-character limit. */
  lemma ListingSnoc(entries: seq<EmbeddingEntry>, block: Block)
    requires |entries| > 1
    ensures Concat(Pieces(entries, block))
            == Concat(Pieces(entries[..|entries| - 1], block)) + block(entries[|entries| - 1], 250)
  {
    var p := Pieces(entries, block);
    assert p[..|p| - 1] == Pieces(entries[..|entries| - 1], block);
  }

  /** The `foreach` with the `isFirst` flag of both listing builders. */
  method BuildListing(entries: seq<EmbeddingEntry>, block: Block) returns (r: String)
    ensures r == Concat(Pieces(entries, block))
  {
    r := "";
    var isFirst := true;
    var k := 0;
    while k < |entries|
      invariant 0 <= k <= |entries|
      invariant isFirst <==> k == 0
      invariant r == Concat(Pieces(entries[..k], block))
    {
      var maxLength := if isFirst then 750 else 250;
      var p := Pieces(entries[..k + 1], block);
      assert entries[..k + 1][..k] == entries[..k];
      assert p[..k] == Pieces(entries[..k], block);
      r := r + block(entries[k], maxLength);
      isFirst := false;
      k := k + 1;
    }
    assert entries[..k] == entries;
  }

  /** `BuildEmbeddingListString`: the memories as the model reads them. */
  method BuildEmbeddingListString(entries: seq<EmbeddingEntry>) returns (r: String)
    ensures r == Concat(Pieces(entries, ModelBlock))
  {
    r := BuildListing(entries, ModelBlock);
  }

  /** `BuildEmbeddingListStringForUser`: the memories as the user reads them. */
  method BuildEmbeddingListStringForUser(entries: seq<EmbeddingEntry>) returns (r: String)
    ensures r == Concat(Pieces(entries, UserBlock))
  {
    r := BuildListing(entries, UserBlock);
  }
}
