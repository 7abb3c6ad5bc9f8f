/**
 * The keyed stores of lib/db.ts: the settings table, the filters table and the
 * processed-items table, each a class over the rows it holds, plus the
 * notification log that the feed check writes to (used by the feed check but
 * not defined in lib/db.ts; modelled as an append-only log with a retention
 * cleanup). `unixepoch()` is the caller's clock `nowMs` divided by 1000.
 */
module Db {
  import opened Wrappers
  import opened Seqs
  import opened Types

  const SecondsPerDay := 24 * 60 * 60

  /** `Math.floor(nowMs / 1000) - days * 24 * 60 * 60` (Dafny's `/` floors for a positive divisor). */
  function CutoffTime(nowMs: int, days: int): int {
    nowMs / 1000 - days * SecondsPerDay
  }

  // ---------------------------------------------------------------------------
  // processed_items
  // ---------------------------------------------------------------------------

  datatype ProcessedItem = ProcessedItem(title: string, processedAt: int)

  /** `INSERT OR IGNORE`: a row is added only for a guid not yet present. */
  function InsertOrIgnore(rows: map<string, ProcessedItem>, guid: string, title: string, at: int)
    : (r: map<string, ProcessedItem>)
    ensures guid in r
    ensures r.Keys == rows.Keys + {guid}
    ensures forall g | g in rows :: r[g] == rows[g]
    ensures guid !in rows ==> r[guid] == ProcessedItem(title, at)
  {
    if guid in rows then rows else rows[guid := ProcessedItem(title, at)]
  }

  /** The rows `DELETE ... WHERE processed_at < cutoff` keeps. */
  function RetainedSince(rows: map<string, ProcessedItem>, cutoff: int): map<string, ProcessedItem> {
    map g | g in rows && rows[g].processedAt >= cutoff :: rows[g]
  }

  /** The guids that statement deletes. */
  function ExpiredBefore(rows: map<string, ProcessedItem>, cutoff: int): set<string> {
    set g | g in rows && rows[g].processedAt < cutoff
  }

  /** Re-adding a guid changes nothing: no duplicate, and the first title and time stay. */
  lemma InsertOrIgnoreIdempotent(rows: map<string, ProcessedItem>, guid: string, t1: string, a1: int, t2: string, a2: int)
    ensures InsertOrIgnore(InsertOrIgnore(rows, guid, t1, a1), guid, t2, a2) == InsertOrIgnore(rows, guid, t1, a1)
  {
  }

  /**
   * Cleanup splits the rows into the kept ones, untouched, and the deleted ones;
   * a row stays exactly when it is not older than the cutoff.
   */
  lemma CleanupPartition(rows: map<string, ProcessedItem>, cutoff: int)
    ensures RetainedSince(rows, cutoff).Keys !! ExpiredBefore(rows, cutoff)
    ensures RetainedSince(rows, cutoff).Keys + ExpiredBefore(rows, cutoff) == rows.Keys
    ensures |RetainedSince(rows, cutoff)| + |ExpiredBefore(rows, cutoff)| == |rows|
    ensures forall g | g in rows :: g in RetainedSince(rows, cutoff) <==> rows[g].processedAt >= cutoff
  {
    var kept := RetainedSince(rows, cutoff).Keys;
    var gone := ExpiredBefore(rows, cutoff);
    assert kept + gone == rows.Keys;
    assert |kept + gone| == |kept| + |gone|;
    assert |RetainedSince(rows, cutoff)| == |kept|;
  }

  /**
   * With a 30-day window a row exactly 30 days old survives and a row one second
   * older is deleted.
   */
  lemma RetentionBoundary(rows: map<string, ProcessedItem>, nowMs: int, g: string, h: string)
    requires g in rows && rows[g].processedAt == nowMs / 1000 - 30 * 86400
    requires h in rows && rows[h].processedAt == nowMs / 1000 - 30 * 86400 - 1
    ensures g in RetainedSince(rows, CutoffTime(nowMs, 30))
    ensures h !in RetainedSince(rows, CutoffTime(nowMs, 30)) && h in ExpiredBefore(rows, CutoffTime(nowMs, 30))
  {
  }

  /** `processedItemsDb`. */
  class ProcessedItemsDb {
    var rows: map<string, ProcessedItem>

    constructor()
      ensures rows == map[]
    {
      rows := map[];
    }

    /** `has(guid)`. */
    predicate Has(guid: string)
      reads this
    {
      guid in rows
    }

    /** `add(guid, title)`: insert-or-ignore, stamped with the current second. */
    method Add(guid: string, title: string, nowMs: int)
      modifies this
      ensures rows == InsertOrIgnore(old(rows), guid, title, nowMs / 1000)
      ensures Has(guid)
    {
      rows := InsertOrIgnore(rows, guid, title, nowMs / 1000);
    }

    /** `cleanup(days)`: deletes the rows older than the cutoff and returns how many. */
    method Cleanup(days: int, nowMs: int) returns (deleted: nat)
      modifies this
      ensures rows == RetainedSince(old(rows), CutoffTime(nowMs, days))
      ensures deleted == |ExpiredBefore(old(rows), CutoffTime(nowMs, days))|
      ensures deleted + |rows| == |old(rows)|
    {
      var cutoff := CutoffTime(nowMs, days);
      CleanupPartition(rows, cutoff);
      deleted := |ExpiredBefore(rows, cutoff)|;
      rows := RetainedSince(rows, cutoff);
    }
  }

  // ---------------------------------------------------------------------------
  // notifications (used by the feed check, not defined in lib/db.ts)
  // ---------------------------------------------------------------------------

  datatype NotificationRecord = NotificationRecord(
    id: nat,
    guid: string,
    title: string,
    link: string,
    description: string,
    pubDate: string,
    matchedFilters: seq<string>,
    sentAt: int)

  /** The records a cleanup keeps: those sent at or after the cutoff, in order. */
  function SentSince(records: seq<NotificationRecord>, cutoff: int): (r: seq<NotificationRecord>)
    ensures |r| <= |records|
    ensures IsSubsequence(r, records)
    ensures forall n :: n in r <==> n in records && n.sentAt >= cutoff
  {
    var recent := (n: NotificationRecord) => n.sentAt >= cutoff;
    SelectIsSubsequence(records, recent);
    SelectMembers(records, recent);
    Select(records, recent)
  }

  /** The notification log: records in insertion order, ids from an auto-increment counter. */
  class NotificationsDb {
    var records: seq<NotificationRecord>
    var nextId: nat

    constructor()
      ensures records == [] && nextId == 1
    {
      records := [];
      nextId := 1;
    }

    /** `add(...)`: appends one record stamped with the current second. */
    method Add(guid: string, title: string, link: string, description: string, pubDate: string,
               matchedFilters: seq<string>, nowMs: int)
      modifies this
      ensures records == old(records) +
        [NotificationRecord(old(nextId), guid, title, link, description, pubDate, matchedFilters, nowMs / 1000)]
      ensures nextId == old(nextId) + 1
    {
      records := records + [NotificationRecord(nextId, guid, title, link, description, pubDate, matchedFilters, nowMs / 1000)];
      nextId := nextId + 1;
    }

    /** `cleanup(days)`: drops the records sent before the cutoff and returns how many. */
    method Cleanup(days: int, nowMs: int) returns (deleted: nat)
      modifies this
      ensures records == SentSince(old(records), CutoffTime(nowMs, days))
      ensures nextId == old(nextId)
      ensures deleted == |old(records)| - |records|
    {
      var kept := SentSince(records, CutoffTime(nowMs, days));
      deleted := |records| - |kept|;
      records := kept;
    }
  }

  // ---------------------------------------------------------------------------
  // settings
  // ---------------------------------------------------------------------------

  /** The rows seeded into an empty settings table. */
  const DefaultSettingValues: map<string, string> := map[
    "feedUrl" := DefaultFeedUrl,
    "cronSchedule" := DefaultCronSchedule,
    "discordWebhookUrl" := "",
    "enableNotifications" := "true",
    "enableScheduler" := "true",
    "onboardingComplete" := "false"
  ]

  /** `row?.value || null`: a missing key and a stored "" both read as absent. */
  function Lookup(values: map<string, string>, key: string): (r: Option<string>)
    ensures r.Some? <==> key in values && values[key] != ""
    ensures r.Some? ==> r.value == values[key]
  {
    if key in values && values[key] != "" then Some(values[key]) else None
  }

  /** `settingsDb`. */
  class SettingsDb {
    var values: map<string, string>

    constructor()
      ensures values == map[]
    {
      values := map[];
    }

    /** `get(key)`. */
    function Get(key: string): (r: Option<string>)
      reads this
      ensures r == Lookup(values, key)
    {
      Lookup(values, key)
    }

    /** `set(key, value)`. */
    method Set(key: string, value: string)
      modifies this
      ensures values == old(values)[key := value]
    {
      values := values[key := value];
    }

    /**
     * `setMultiple(settings)`: each entry written in turn with `INSERT OR
     * REPLACE`; the given keys take the given values and every other key is
     * untouched.
     */
    method SetMultiple(settings: map<string, string>)
      modifies this
      ensures values == old(values) + settings
      ensures forall k | k in settings :: k in values && values[k] == settings[k]
      ensures forall k | k !in settings :: (k in values <==> k in old(values)) && (k in values ==> values[k] == old(values)[k])
    {
      var remaining := settings.Keys;
      while remaining != {}
        invariant remaining <= settings.Keys
        invariant values == old(values) + (map k | k in settings && k !in remaining :: settings[k])
        decreases |remaining|
      {
        var k :| k in remaining;
        values := values[k := settings[k]];
        remaining := remaining - {k};
      }
      assert (map k | k in settings && k !in remaining :: settings[k]) == settings;
    }

    /** The default seeding of `initializeSchema`: only into an empty table. */
    method InitializeDefaults()
      modifies this
      ensures old(values) == map[] ==> values == DefaultSettingValues
      ensures old(values) != map[] ==> values == old(values)
    {
      if |values| == 0 {
        SetMultiple(DefaultSettingValues);
      }
    }
  }

  // ---------------------------------------------------------------------------
  // filters
  // ---------------------------------------------------------------------------

  /** The keyword lists the filters table stores; it has no date columns. */
  datatype StoredCriteria = StoredCriteria(
    titleIncludes: seq<string>,
    titleExcludes: seq<string>,
    descriptionIncludes: seq<string>,
    descriptionExcludes: seq<string>)

  datatype FilterRow = FilterRow(id: string, name: string, enabled: bool, criteria: StoredCriteria)

  /** The keyword lists of a filter, as `create`/`update` write them. */
  function Stored(c: FilterCriteria): StoredCriteria {
    StoredCriteria(c.titleIncludes, c.titleExcludes, c.descriptionIncludes, c.descriptionExcludes)
  }

  /** A row as `get`/`getAll` return it: no date bounds. */
  function RowToFilter(row: FilterRow): (f: Filter)
    ensures f.id == row.id && f.name == row.name && f.enabled == row.enabled
    ensures Stored(f.criteria) == row.criteria
    ensures f.criteria.minDate == NoDate && f.criteria.maxDate == NoDate
  {
    var c := row.criteria;
    Filter(row.id, row.name, row.enabled,
      FilterCriteria(c.titleIncludes, c.titleExcludes, c.descriptionIncludes, c.descriptionExcludes, NoDate, NoDate))
  }

  predicate HasId(rows: seq<FilterRow>, id: string) {
    exists i :: 0 <= i < |rows| && rows[i].id == id
  }

  /** The primary key: no two rows share an id. */
  predicate UniqueIds(rows: seq<FilterRow>) {
    forall i, j :: 0 <= i < j < |rows| ==> rows[i].id != rows[j].id
  }

  /** The index of the row with that id. */
  function FindRow(rows: seq<FilterRow>, id: string): (r: Option<nat>)
    ensures r.Some? ==> r.value < |rows| && rows[r.value].id == id
    ensures r.None? <==> !HasId(rows, id)
  {
    FirstIndex(rows, (row: FilterRow) => row.id == id)
  }

  /** `UPDATE filters SET ... WHERE id = ?` over the rows. */
  function UpdateRows(rows: seq<FilterRow>, id: string, name: string, enabled: bool, c: StoredCriteria)
    : (r: seq<FilterRow>)
    ensures |r| == |rows|
    ensures forall i :: 0 <= i < |rows| ==> r[i].id == rows[i].id
  {
    seq(|rows|, i requires 0 <= i < |rows| =>
      if rows[i].id == id then FilterRow(id, name, enabled, c) else rows[i])
  }

  /** `DELETE FROM filters WHERE id = ?`. */
  function DeleteRows(rows: seq<FilterRow>, id: string): (r: seq<FilterRow>)
    ensures |r| <= |rows|
  {
    Select(rows, (row: FilterRow) => row.id != id)
  }

  /** `filtersDb`: rows in `created_at` order. */
  class FiltersDb {
    var rows: seq<FilterRow>

    ghost predicate Valid()
      reads this
    {
      UniqueIds(rows)
    }

    constructor()
      ensures Valid() && rows == []
    {
      rows := [];
    }

    /** `getAll()`. */
    function GetAll(): (r: seq<Filter>)
      reads this
      ensures |r| == |rows| && forall i :: 0 <= i < |rows| ==> r[i] == RowToFilter(rows[i])
    {
      seq(|rows|, i reads this requires 0 <= i < |rows| => RowToFilter(rows[i]))
    }

    /** `get(id)`: null when no row has that id. */
    function Get(id: string): (r: Option<Filter>)
      reads this
      ensures r.None? <==> !HasId(rows, id)
      ensures r.Some? ==> exists i :: 0 <= i < |rows| && rows[i].id == id && r.value == RowToFilter(rows[i])
    {
      match FindRow(rows, id)
      case Some(i) => Some(RowToFilter(rows[i]))
      case None => None
    }

    /** `create(filter)`: fails on the primary key when the id is taken. */
    method Create(row: FilterRow) returns (ok: bool)
      requires Valid()
      modifies this
      ensures Valid()
      ensures ok <==> !HasId(old(rows), row.id)
      ensures rows == if ok then old(rows) + [row] else old(rows)
    {
      ok := FindRow(rows, row.id).None?;
      if ok {
        rows := rows + [row];
      }
    }

    /**
     * `update(id, filter)`: `enabled` is stored as 0 when absent, and absent
     * criteria throw before anything is written.
     */
    method Update(id: string, name: string, enabled: Option<bool>, criteria: Option<StoredCriteria>)
      returns (ok: bool)
      requires Valid()
      modifies this
      ensures Valid()
      ensures ok <==> criteria.Some?
      ensures rows == if ok then UpdateRows(old(rows), id, name, enabled == Some(true), criteria.value) else old(rows)
    {
      if criteria.None? {
        return false;
      }
      rows := UpdateRows(rows, id, name, enabled == Some(true), criteria.value);
      ok := true;
    }

    /** `delete(id)`. */
    method Delete(id: string)
      requires Valid()
      modifies this
      ensures Valid()
      ensures rows == DeleteRows(old(rows), id)
    {
      DeleteKeepsUnique(rows, id);
      rows := DeleteRows(rows, id);
    }
  }

  lemma DeleteKeepsUnique(rows: seq<FilterRow>, id: string)
    requires UniqueIds(rows)
    ensures UniqueIds(DeleteRows(rows, id))
  {
    SelectIsSubsequence(rows, (row: FilterRow) => row.id != id);
    SubsequenceKeepsUnique(DeleteRows(rows, id), rows);
  }

  lemma {:induction false} SubsequenceKeepsUnique(a: seq<FilterRow>, b: seq<FilterRow>)
    requires IsSubsequence(a, b) && UniqueIds(b)
    ensures UniqueIds(a)
    decreases |b|
  {
    if a != [] && b != [] {
      assert UniqueIds(b[1..]) by {
        forall i, j | 0 <= i < j < |b[1..]| ensures b[1..][i].id != b[1..][j].id {
          assert b[1..][i] == b[i + 1] && b[1..][j] == b[j + 1];
        }
      }
      if a[0] == b[0] {
        SubsequenceKeepsUnique(a[1..], b[1..]);
        SubsequenceMembers(a[1..], b[1..]);
        forall j | 0 < j < |a| ensures a[0].id != a[j].id {
          assert a[j] == a[1..][j - 1];
          var k :| 0 <= k < |b[1..]| && b[1..][k] == a[j];
          assert b[k + 1] == a[j];
        }
        forall i, j | 0 <= i < j < |a| ensures a[i].id != a[j].id {
          if i > 0 {
            assert a[i] == a[1..][i - 1] && a[j] == a[1..][j - 1];
          }
        }
      } else {
        SubsequenceKeepsUnique(a, b[1..]);
      }
    }
  }

  lemma {:induction false} SubsequenceMembers(a: seq<FilterRow>, b: seq<FilterRow>)
    requires IsSubsequence(a, b)
    ensures forall j :: 0 <= j < |a| ==> exists k :: 0 <= k < |b| && b[k] == a[j]
    decreases |b|
  {
    if a != [] && b != [] {
      if a[0] == b[0] {
        SubsequenceMembers(a[1..], b[1..]);
        forall j | 0 <= j < |a| ensures exists k :: 0 <= k < |b| && b[k] == a[j] {
          if j == 0 {
            assert b[0] == a[0];
          } else {
            assert a[j] == a[1..][j - 1];
            var k :| 0 <= k < |b[1..]| && b[1..][k] == a[1..][j - 1];
            assert b[k + 1] == a[j];
          }
        }
      } else {
        SubsequenceMembers(a, b[1..]);
        forall j | 0 <= j < |a| ensures exists k :: 0 <= k < |b| && b[k] == a[j] {
          var k :| 0 <= k < |b[1..]| && b[1..][k] == a[j];
          assert b[k + 1] == a[j];
        }
      }
    }
  }

  /**
   * `get` after a successful `create` returns the stored name, enabled flag and
   * keyword lists, with no date bounds.
   */
  lemma CreateThenGet(rows: seq<FilterRow>, row: FilterRow)
    requires !HasId(rows, row.id)
    ensures FindRow(rows + [row], row.id) == Some(|rows|)
    ensures RowToFilter((rows + [row])[|rows|]) == RowToFilter(row)
    ensures RowToFilter(row).name == row.name && RowToFilter(row).enabled == row.enabled
    ensures Stored(RowToFilter(row).criteria) == row.criteria
  {
    var r := FindRow(rows + [row], row.id);
    assert (rows + [row])[|rows|].id == row.id;
    assert r.Some?;
  }

  /** A create keeps the criteria a filter was built from, less its date bounds. */
  lemma CreateDropsDates(f: Filter)
    ensures RowToFilter(FilterRow(f.id, f.name, f.enabled, Stored(f.criteria))).criteria
      == f.criteria.(minDate := NoDate, maxDate := NoDate)
  {
  }

  /** Updating an id no row has changes nothing. */
  lemma UpdateMissingIsNoop(rows: seq<FilterRow>, id: string, name: string, enabled: bool, c: StoredCriteria)
    requires !HasId(rows, id)
    ensures UpdateRows(rows, id, name, enabled, c) == rows
  {
  }

  /** Updating rewrites the row with that id and leaves every other row as it was. */
  lemma UpdateSpec(rows: seq<FilterRow>, id: string, name: string, enabled: bool, c: StoredCriteria, i: nat)
    requires i < |rows|
    ensures rows[i].id == id ==> UpdateRows(rows, id, name, enabled, c)[i] == FilterRow(id, name, enabled, c)
    ensures rows[i].id != id ==> UpdateRows(rows, id, name, enabled, c)[i] == rows[i]
  {
  }

  /** Deleting removes exactly the row with that id and keeps the others in order. */
  lemma DeleteSpec(rows: seq<FilterRow>, id: string, row: FilterRow)
    ensures IsSubsequence(DeleteRows(rows, id), rows)
    ensures row in DeleteRows(rows, id) <==> row in rows && row.id != id
  {
    SelectIsSubsequence(rows, (r: FilterRow) => r.id != id);
    SelectMembership(rows, (r: FilterRow) => r.id != id, row);
  }
}
