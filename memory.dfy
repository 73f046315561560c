/** `EmbeddingService`: the Embeddings table as an in-memory row list, with
    add, nearest-neighbour search, lookup by back-reference, remove and update.
    The unique index on (RelatedItemTableName, RelatedItemId) is kept as an
    invariant; adding or updating a row that would break it fails instead. */
module Memory {
  import opened Text
  import opened Calendar
  import opened Wrappers
  import opened Entities

  /** The message Entity Framework's `DbUpdateException` carries. */
  const SaveFailedMessage: String := "An error occurred while saving the entity changes. See the inner exception for details."

  /** The message of the concurrency exception for an update or delete of a row that is gone. */
  const RowMissingMessage: String :=
    "The database operation was expected to affect 1 row(s), but actually affected 0 row(s); "
    + "data may have been modified or deleted since entities were loaded. "
    + "See https://go.microsoft.com/fwlink/?LinkId=527962 for information on understanding "
    + "and handling optimistic concurrency exceptions."

  function NotFoundMessage(id: int): String {
    "An embedding with ID " + IntToString(id) + " was not found."
  }

  /** The back-reference of a row when both of its columns are set. A NULL in
      either column never collides in a PostgreSQL unique index. */
  function LinkOf(e: EmbeddingEntry): Option<(String, int)> {
    if e.relatedItemTableName.Some? && e.relatedItemId.Some?
    then Some((e.relatedItemTableName.value, e.relatedItemId.value))
    else None
  }

  /** Some row other than the one at `except` already carries `link`. */
  predicate LinkTaken(rows: seq<EmbeddingEntry>, link: Option<(String, int)>, except: int) {
    link.Some? && exists i :: 0 <= i < |rows| && i != except && LinkOf(rows[i]) == link
  }

  ghost predicate LinksUnique(rows: seq<EmbeddingEntry>) {
    forall i, j :: 0 <= i < |rows| && 0 <= j < |rows| && i != j && LinkOf(rows[i]).Some? ==> LinkOf(rows[i]) != LinkOf(rows[j])
  }

  ghost predicate IdsDistinct(rows: seq<EmbeddingEntry>) {
    forall i, j :: 0 <= i < |rows| && 0 <= j < |rows| && i != j ==> rows[i].id != rows[j].id
  }

  /** Dropping a row keeps ids and back-references unique. */
  lemma RemovedRow(rows: seq<EmbeddingEntry>, i: nat)
    requires IdsDistinct(rows) && LinksUnique(rows) && i < |rows|
    ensures IdsDistinct(RemoveAt(rows, i)) && LinksUnique(RemoveAt(rows, i))
  {
  }

  /** Dropping the row at `i` of a table with distinct ids leaves exactly the
      rows with another id. */
  lemma RemovedMembers(rows: seq<EmbeddingEntry>, i: nat)
    requires IdsDistinct(rows) && i < |rows|
    ensures forall e :: e in RemoveAt(rows, i) <==> e in rows && e.id != rows[i].id
  {
    var r := RemoveAt(rows, i);
    forall e | e in r ensures e in rows && e.id != rows[i].id {
      var k :| 0 <= k < |r| && r[k] == e;
      assert e == rows[if k < i then k else k + 1];
    }
    forall e | e in rows && e.id != rows[i].id ensures e in r {
      var k :| 0 <= k < |rows| && rows[k] == e;
      assert e == r[if k < i then k else k - 1];
    }
  }

  class EmbeddingService {
    var entries: seq<EmbeddingEntry>
    /** The next value of the identity column. */
    var nextId: int

    ghost predicate Valid()
      reads this
    {
      && nextId >= 1
      && (forall i :: 0 <= i < |entries| ==> 1 <= entries[i].id < nextId)
      && IdsDistinct(entries)
      && LinksUnique(entries)
    }

    constructor ()
      ensures Valid() && entries == [] && nextId == 1
    {
      entries := [];
      nextId := 1;
    }

    /** `AddAsync`: stores a new memory; its vector is the one supplied, or else
        `computed`, the embedding client's vector for `input`. A second row with
        the same back-reference is refused by the unique index. */
    method Add(now: DateTime, context: EmbeddingContextKind, input: String, relatedItemTableName: Option<String>,
               relatedItemId: Option<int>, vector: Option<Vector>, computed: Vector) returns (r: Result<EmbeddingEntry>)
      requires Valid()
      modifies this
      ensures Valid()
      ensures var e := EmbeddingEntry(old(nextId), now, context, input, Some(vector.GetOr(computed)),
                                      relatedItemTableName, relatedItemId, false);
              if LinkTaken(old(entries), LinkOf(e), -1)
              then r == Err(SaveFailedMessage) && entries == old(entries) && nextId == old(nextId)
              else r == Ok(e) && entries == old(entries) + [e] && nextId == old(nextId) + 1
    {
      var e := EmbeddingEntry(nextId, now, context, input, Some(vector.GetOr(computed)),
                              relatedItemTableName, relatedItemId, false);
      if LinkTaken(entries, LinkOf(e), -1) {
        return Err(SaveFailedMessage);
      }
      entries := entries + [e];
      nextId := nextId + 1;
      r := Ok(e);
    }

    /** `RemoveAsync(id)`: deletes the row with that id and returns it, or
        fails with `ArgumentException` when there is none. */
    method Remove(id: int) returns (r: Result<EmbeddingEntry>)
      requires Valid()
      modifies this
      ensures Valid() && nextId == old(nextId)
      ensures r.Err? <==> forall e :: e in old(entries) ==> e.id != id
      ensures r.Err? ==> r.message == NotFoundMessage(id) && entries == old(entries)
      ensures r.Ok? ==> r.value in old(entries) && r.value.id == id
      ensures r.Ok? ==> multiset(entries) + multiset{r.value} == multiset(old(entries))
      ensures r.Ok? ==> forall e :: e in entries <==> e in old(entries) && e.id != id
    {
      var i := IndexOf(entries, EmbeddingEntryId, id);
      if i < 0 {
        return Err(NotFoundMessage(id));
      }
      r := Ok(entries[i]);
      RemovedRow(entries, i);
      RemovedMembers(entries, i);
      entries := RemoveAt(entries, i);
    }

    /** `RemoveAsync(entry)`: deletes a row that was read before; a row that is
        gone makes `SaveChanges` throw. */
    method RemoveEntry(entry: EmbeddingEntry) returns (r: Result<()>)
      requires Valid()
      modifies this
      ensures Valid() && nextId == old(nextId)
      ensures var i := IndexOf(old(entries), EmbeddingEntryId, entry.id);
              if i < 0 then r == Err(RowMissingMessage) && entries == old(entries)
              else r == Ok(()) && entries == RemoveAt(old(entries), i)
    {
      var i := IndexOf(entries, EmbeddingEntryId, entry.id);
      if i < 0 {
        return Err(RowMissingMessage);
      }
      RemovedRow(entries, i);
      entries := RemoveAt(entries, i);
      r := Ok(());
    }

    /** `UpdateAsync(id, content)`: replaces the content and the vector
        (`vector`, the embedding client's vector for `content`) of one row and
        nothing else, or fails with `ArgumentException` when there is none. */
    method Update(id: int, content: String, vector: Vector) returns (r: Result<()>)
      requires Valid()
      modifies this
      ensures Valid() && nextId == old(nextId)
      ensures var i := IndexOf(old(entries), EmbeddingEntryId, id);
              if i < 0 then r == Err(NotFoundMessage(id)) && entries == old(entries)
              else r == Ok(()) && entries == old(entries)[i := old(entries)[i].(content := content, embedding := Some(vector))]
    {
      var i := IndexOf(entries, EmbeddingEntryId, id);
      if i < 0 {
        return Err(NotFoundMessage(id));
      }
      entries := entries[i := entries[i].(content := content, embedding := Some(vector))];
      r := Ok(());
    }

    /** `UpdateAsync(entry)`: writes back a row that was read and edited. A row
        that is gone, or a back-reference another row holds, makes `SaveChanges` throw. */
    method UpdateEntry(entry: EmbeddingEntry) returns (r: Result<()>)
      requires Valid()
      modifies this
      ensures Valid() && nextId == old(nextId)
      ensures var i := IndexOf(old(entries), EmbeddingEntryId, entry.id);
              if i < 0 then r == Err(RowMissingMessage) && entries == old(entries)
              else if LinkTaken(old(entries), LinkOf(entry), i) then r == Err(SaveFailedMessage) && entries == old(entries)
              else r == Ok(()) && entries == old(entries)[i := entry]
    {
      var i := IndexOf(entries, EmbeddingEntryId, entry.id);
      if i < 0 {
        return Err(RowMissingMessage);
      }
      if LinkTaken(entries, LinkOf(entry), i) {
        return Err(SaveFailedMessage);
      }
      entries := entries[i := entry];
      r := Ok(());
    }
  }

  // ---- FindByRelatedItemIdAsync ----

  predicate LinkedTo(e: EmbeddingEntry, table: String, id: int) {
    e.relatedItemTableName == Some(table) && e.relatedItemId == Some(id)
  }

  /** `FindByRelatedItemIdAsync`: the first row whose back-reference is
      (table, id), or none when no row has it. */
  function FindByRelatedItem(rows: seq<EmbeddingEntry>, table: String, id: int): (r: Option<EmbeddingEntry>)
    ensures r.Some? ==> r.value in rows && LinkedTo(r.value, table, id)
    ensures r.None? <==> forall e :: e in rows ==> !LinkedTo(e, table, id)
  {
    if |rows| == 0 then None
    else if LinkedTo(rows[0], table, id) then Some(rows[0])
    else FindByRelatedItem(rows[1..], table, id)
  }

  /** Under the unique index, the row found is the only one with that back-reference. */
  lemma {:induction false} FindByRelatedItemUnique(rows: seq<EmbeddingEntry>, table: String, id: int, e: EmbeddingEntry)
    requires LinksUnique(rows)
    requires e in rows && LinkedTo(e, table, id)
    ensures FindByRelatedItem(rows, table, id) == Some(e)
  {
    var f := FindByRelatedItem(rows, table, id);
    var i :| 0 <= i < |rows| && rows[i] == f.value;
    var j :| 0 <= j < |rows| && rows[j] == e;
    assert LinkOf(rows[i]) == LinkOf(rows[j]);
  }

  // ---- GetNearestAsync ----

  /** The arguments of `GetNearestAsync` (vector overload). The date bounds are
      the instants the database compares `AddedAtUtc` with. */
  datatype NearestQuery = NearestQuery(
    vector: Vector,
    context: Option<EmbeddingContextKind>,
    relatedItemTableName: Option<String>,
    limit: nat,
    includeStale: bool,
    after: Option<DateTime>,
    before: Option<DateTime>)

  /** The filters of the query, in the order the source applies them. */
  predicate Matches(e: EmbeddingEntry, q: NearestQuery) {
    && e.embedding.Some?
    && (q.context.Some? ==> e.context == q.context.value)
    && (q.relatedItemTableName.Some? ==> e.relatedItemTableName == q.relatedItemTableName)
    && (!q.includeStale ==> !e.isStale)
    && (q.after.Some? ==> Before(q.after.value, e.addedAtUtc))
    && (q.before.Some? ==> Before(e.addedAtUtc, q.before.value))
  }

  /** Squared Euclidean distance: ordered as the L2 distance is. */
  function SquaredDistance(a: Vector, b: Vector): (d: int)
    ensures d >= 0
  {
    if |a| == 0 || |b| == 0 then 0
    else (a[0] - b[0]) * (a[0] - b[0]) + SquaredDistance(a[1..], b[1..])
  }

  lemma {:induction false} SquaredDistanceSelf(a: Vector)
    ensures SquaredDistance(a, a) == 0
  {
    if |a| > 0 {
      SquaredDistanceSelf(a[1..]);
    }
  }

  function Distance(e: EmbeddingEntry, v: Vector): int {
    if e.embedding.Some? then SquaredDistance(e.embedding.value, v) else 0
  }

  function Filter(rows: seq<EmbeddingEntry>, q: NearestQuery): (r: seq<EmbeddingEntry>)
    ensures |r| <= |rows|
    ensures forall e :: e in r ==> e in rows && Matches(e, q)
    ensures forall e :: e in rows && Matches(e, q) ==> e in r
  {
    if |rows| == 0 then []
    else if Matches(rows[0], q) then [rows[0]] + Filter(rows[1..], q)
    else Filter(rows[1..], q)
  }

  ghost predicate SortedByDistance(s: seq<EmbeddingEntry>, v: Vector) {
    forall i, j :: 0 <= i < j < |s| ==> Distance(s[i], v) <= Distance(s[j], v)
  }

  /** Inserts `x` before the first row that is strictly farther. */
  function Insert(x: EmbeddingEntry, s: seq<EmbeddingEntry>, v: Vector): (r: seq<EmbeddingEntry>)
    requires SortedByDistance(s, v)
    ensures SortedByDistance(r, v)
    ensures |r| == |s| + 1
    ensures forall e :: e in r <==> e == x || e in s
    ensures multiset(r) == multiset(s) + multiset{x}
  {
    if |s| == 0 || Distance(x, v) <= Distance(s[0], v) then [x] + s
    else
      var rest := Insert(x, s[1..], v);
      assert s == [s[0]] + s[1..];
      InsertAfterHead(x, s, rest, v);
      [s[0]] + rest
  }

  /** The step of `Insert` that keeps the order: the head stays in front of
      a sorted tail whose rows are all at least as far. */
  lemma InsertAfterHead(x: EmbeddingEntry, s: seq<EmbeddingEntry>, rest: seq<EmbeddingEntry>, v: Vector)
    requires |s| > 0 && SortedByDistance(s, v) && Distance(s[0], v) < Distance(x, v)
    requires SortedByDistance(rest, v)
    requires forall e :: e in rest ==> e == x || e in s[1..]
    ensures SortedByDistance([s[0]] + rest, v)
  {
    forall e | e in rest ensures Distance(s[0], v) <= Distance(e, v) {
      if e != x {
        var k :| 0 <= k < |s[1..]| && s[1..][k] == e;
        assert s[k + 1] == e;
      }
    }
    var r := [s[0]] + rest;
    forall i, j | 0 <= i < j < |r| ensures Distance(r[i], v) <= Distance(r[j], v) {
      assert r[j] == rest[j - 1];
      if i > 0 {
        assert r[i] == rest[i - 1];
      }
    }
  }

  /** The order of `OrderBy(L2Distance)`: ascending distance, ties kept in row order. */
  function SortByDistance(s: seq<EmbeddingEntry>, v: Vector): (r: seq<EmbeddingEntry>)
    ensures SortedByDistance(r, v)
    ensures |r| == |s|
    ensures forall e :: e in r <==> e in s
    ensures multiset(r) == multiset(s)
  {
    if |s| == 0 then []
    else
      assert s == [s[0]] + s[1..];
      Insert(s[0], SortByDistance(s[1..], v), v)
  }

  /** `Take(k)` of a sorted list: every row kept is no farther than every row dropped. */
  lemma TakeKeepsNearest(sorted: seq<EmbeddingEntry>, k: nat, v: Vector, e: EmbeddingEntry, x: EmbeddingEntry)
    requires SortedByDistance(sorted, v) && k <= |sorted|
    requires e in sorted && e !in sorted[..k] && x in sorted[..k]
    ensures Distance(x, v) <= Distance(e, v)
  {
    var j :| 0 <= j < |sorted| && sorted[j] == e;
    var i :| 0 <= i < k && sorted[..k][i] == x;
  }

  /** `GetNearestAsync`: the `limit` rows nearest to the query vector among the
      rows that pass every filter, nearest first. */
  function GetNearest(rows: seq<EmbeddingEntry>, q: NearestQuery): (r: seq<EmbeddingEntry>)
    ensures |r| <= q.limit
    ensures forall e :: e in r ==> e in rows && Matches(e, q)
  {
    var sorted := SortByDistance(Filter(rows, q), q.vector);
    var k := if |sorted| < q.limit then |sorted| else q.limit;
    assert forall e :: e in sorted[..k] ==> e in sorted;
    sorted[..k]
  }

  /** The rows found are as many as the filters and the limit allow, nearest
      first, and no row left out is nearer than one found. */
  lemma NearestRanked(rows: seq<EmbeddingEntry>, q: NearestQuery)
    ensures var r := GetNearest(rows, q);
            && |r| == (if |Filter(rows, q)| < q.limit then |Filter(rows, q)| else q.limit)
            && SortedByDistance(r, q.vector)
            && forall e, x :: e in rows && Matches(e, q) && e !in r && x in r ==> Distance(x, q.vector) <= Distance(e, q.vector)
  {
    var sorted := SortByDistance(Filter(rows, q), q.vector);
    var k := if |sorted| < q.limit then |sorted| else q.limit;
    forall e, x | e in rows && Matches(e, q) && e !in sorted[..k] && x in sorted[..k]
      ensures Distance(x, q.vector) <= Distance(e, q.vector)
    {
      TakeKeepsNearest(sorted, k, q.vector, e, x);
    }
  }

  /** A stale memory is never found unless stale ones are asked for. */
  lemma NearestExcludesStale(rows: seq<EmbeddingEntry>, q: NearestQuery)
    requires !q.includeStale
    ensures forall e :: e in GetNearest(rows, q) ==> !e.isStale && e.embedding.Some?
  {
  }

  /** A query with no row passing the filters finds nothing, whatever the limit. */
  lemma NearestEmpty(rows: seq<EmbeddingEntry>, q: NearestQuery)
    requires forall e :: e in rows ==> !Matches(e, q)
    ensures GetNearest(rows, q) == []
  {
    NearestRanked(rows, q);
  }
}
