/**
 * The browser's offline store (`useOfflineData`): an IndexedDB database
 * with the tables `feeding_records`, `conflicts` and `sync_queue`. Every
 * local change to a feeding record also appends one entry to the sync
 * queue, which is what a later push to the server would replay.
 */
module OfflineData {
  import opened Wrappers
  import opened Seqs
  import opened Sorting
  import opened Schema

  /** A row of `feeding_records`; `key` is the auto-incremented primary key. */
  datatype LocalRecord = LocalRecord(key: nat, clientId: Uuid, feedingTime: Time, foodType: string, notes: string, updatedAt: Time)

  datatype Operation = Create | Update | Delete

  /** What a queue entry carries: the whole record, or only its client id for a delete. */
  datatype Payload = RecordPayload(record: LocalRecord) | ClientIdPayload(clientId: Uuid)

  /** A row of `sync_queue`. */
  datatype QueueEntry = QueueEntry(key: nat, clientId: Uuid, operation: Operation, payload: Payload, createdAt: Time, retryCount: nat)

  /** A row of `conflicts`, reduced to what the store reads from it. */
  datatype Conflict = Conflict(key: nat, clientId: Uuid, resolved: bool)

  /** The fields a caller passes to create a record; an absent (or empty) one takes its default. */
  datatype NewFeeding = NewFeeding(feedingTime: Option<Time>, foodType: Option<string>, notes: Option<string>)

  /** The fields a caller passes to change a record; the present ones overwrite the stored ones. */
  datatype Patch = Patch(feedingTime: Option<Time>, foodType: Option<string>, notes: Option<string>)

  datatype Validation = Validation(isValid: bool, errors: seq<string>)

  datatype Stats = Stats(feedingRecords: nat, unresolvedConflicts: nat, queuedOperations: nat)

  const NotFound := "Record not found"

  function ClientIdOf(r: LocalRecord): Uuid {
    r.clientId
  }

  function KeyOf(r: LocalRecord): nat {
    r.key
  }

  /** `validateFeedingRecord`: one error for a missing feeding time, another for one that does not parse. */
  function Validate(feedingTime: TimeText): Validation {
    match feedingTime
    case Missing => Validation(false, ["Feeding time is required"])
    case Unparseable => Validation(false, ["Invalid feeding time format"])
    case At(_) => Validation(true, [])
  }

  /** Valid exactly when there are no errors, and exactly for a feeding time that parses; at most one error. */
  lemma ValidateFacts(feedingTime: TimeText)
    ensures Validate(feedingTime).isValid <==> Validate(feedingTime).errors == []
    ensures Validate(feedingTime).isValid <==> feedingTime.At?
    ensures |Validate(feedingTime).errors| <= 1
    ensures feedingTime.Missing? ==> Validate(feedingTime).errors == ["Feeding time is required"]
    ensures feedingTime.Unparseable? ==> Validate(feedingTime).errors == ["Invalid feeding time format"]
  {
  }

  /** `where('client_id').equals(clientId).first()`. */
  function FindRecord(records: seq<LocalRecord>, clientId: Uuid): (r: Option<LocalRecord>)
    ensures r.None? <==> forall i :: 0 <= i < |records| ==> records[i].clientId != clientId
    ensures r.Some? ==> r.value in records && r.value.clientId == clientId
  {
    var i := FirstIndex(records, (x: LocalRecord) => x.clientId == clientId);
    if i < 0 then None else Some(records[i])
  }

  /** `{ ...existing, ...data, updated_at: now }`. */
  function Overlay(existing: LocalRecord, data: Patch, now: Time): LocalRecord {
    LocalRecord(existing.key, existing.clientId,
      data.feedingTime.GetOr(existing.feedingTime), data.foodType.GetOr(existing.foodType),
      data.notes.GetOr(existing.notes), now)
  }

  /** `where('client_id').equals(clientId).modify(updated)`: every record with that client id takes the new fields. */
  function Modified(records: seq<LocalRecord>, clientId: Uuid, updated: LocalRecord): seq<LocalRecord> {
    Image(records, (r: LocalRecord) => if r.clientId == clientId then updated else r)
  }

  /** `where('client_id').equals(clientId).delete()`. */
  function Deleted(records: seq<LocalRecord>, clientId: Uuid): seq<LocalRecord> {
    Filter(records, (r: LocalRecord) => r.clientId != clientId)
  }

  /** The `feeding_time` index read backwards: latest feeding first, equal feeding times by latest key first. */
  function NewestFirst(a: LocalRecord, b: LocalRecord): bool {
    a.feedingTime > b.feedingTime || (a.feedingTime == b.feedingTime && a.key >= b.key)
  }

  predicate ChangedAfter(r: LocalRecord, since: Option<Time>) {
    since.None? || r.updatedAt > since.value
  }

  /** `getFeedingRecords({ since })`. */
  function Listing(records: seq<LocalRecord>, since: Option<Time>): seq<LocalRecord> {
    Filter(SortBy(records, NewestFirst), (r: LocalRecord) => ChangedAfter(r, since))
  }

  function UnresolvedCount(conflicts: seq<Conflict>): nat {
    |Filter(conflicts, (c: Conflict) => !c.resolved)|
  }

  /** The store's own constraints: unique primary keys below the next key, and unique client ids (UUIDs do not collide). */
  predicate StoreOk(records: seq<LocalRecord>, nextKey: nat) {
    && DistinctBy(records, KeyOf)
    && DistinctBy(records, ClientIdOf)
    && (forall i :: 0 <= i < |records| ==> records[i].key < nextKey)
  }

  /** A modify that keeps the key and client id of the one record it targets leaves every other record as it was and keeps the constraints. */
  lemma ModifiedFacts(records: seq<LocalRecord>, nextKey: nat, existing: LocalRecord, updated: LocalRecord)
    requires StoreOk(records, nextKey) && existing in records
    requires updated.key == existing.key && updated.clientId == existing.clientId
    ensures var r := Modified(records, existing.clientId, updated);
      && |r| == |records|
      && (forall i :: 0 <= i < |records| ==> r[i] == if records[i] == existing then updated else records[i])
      && StoreOk(r, nextKey)
  {
    var r := Modified(records, existing.clientId, updated);
    forall i | 0 <= i < |records|
      ensures r[i] == if records[i] == existing then updated else records[i]
    {
      var p :| 0 <= p < |records| && records[p] == existing;
      if records[i].clientId == existing.clientId && i != p {
        assert false;
      }
    }
    assert forall i :: 0 <= i < |r| ==> r[i].key == records[i].key && r[i].clientId == records[i].clientId;
  }

  /** After a delete no record has that client id, every other record stays, and exactly one record goes when there was one. */
  lemma {:induction false} DeletedFacts(records: seq<LocalRecord>, nextKey: nat, existing: LocalRecord)
    requires StoreOk(records, nextKey) && existing in records
    ensures var r := Deleted(records, existing.clientId);
      && (forall x :: x in r <==> x in records && x.clientId != existing.clientId)
      && |r| == |records| - 1
      && StoreOk(r, nextKey)
  {
    var r := Deleted(records, existing.clientId);
    var p :| 0 <= p < |records| && records[p] == existing;
    FilterDistinctBy(records, (x: LocalRecord) => x.clientId != existing.clientId, KeyOf);
    FilterDistinctBy(records, (x: LocalRecord) => x.clientId != existing.clientId, ClientIdOf);
    FilterCountOne(records, existing, (x: LocalRecord) => x.clientId != existing.clientId, p);
    forall i | 0 <= i < |r|
      ensures r[i].key < nextKey
    {
      assert r[i] in records;
    }
  }

  /** Exactly one element, at `p`, fails `keep`: the filter is one shorter. */
  lemma FilterCountOne(records: seq<LocalRecord>, existing: LocalRecord, keep: LocalRecord -> bool, p: nat)
    requires p < |records| && records[p] == existing && !keep(existing)
    requires DistinctBy(records, ClientIdOf)
    requires forall x :: keep(x) <==> x.clientId != existing.clientId
    ensures |Filter(records, keep)| == |records| - 1
  {
    forall i | 0 <= i < |records| && i != p
      ensures keep(records[i])
    {
      assert records[i].clientId != records[p].clientId;
    }
    FilterDropOne(records, keep, p);
  }

  /**
   * `getFeedingRecords`: with a watermark, only records changed after it;
   * without one, every record; always latest feeding first.
   */
  lemma ListingFacts(records: seq<LocalRecord>, since: Option<Time>)
    ensures var r := Listing(records, since);
      && (forall x :: x in r <==> x in records && ChangedAfter(x, since))
      && (forall i, j :: 0 <= i < j < |r| ==> r[i].feedingTime >= r[j].feedingTime)
      && (since.None? ==> multiset(r) == multiset(records))
  {
    var sorted := SortBy(records, NewestFirst);
    var keep := (x: LocalRecord) => ChangedAfter(x, since);
    SortMembers(records, NewestFirst);
    SortMultiset(records, NewestFirst);
    assert TotalPreorder(NewestFirst);
    SortSorted(records, NewestFirst);
    FilterSorted(sorted, keep, NewestFirst);
    if since.None? {
      FilterAll(sorted, keep);
    }
  }

  /** Filtering a sorted sequence leaves it sorted. */
  lemma {:induction false} FilterSorted<T(!new)>(s: seq<T>, p: T -> bool, le: (T, T) -> bool)
    requires SortedBy(s, le)
    ensures SortedBy(Filter(s, p), le)
  {
    if s != [] {
      FilterSorted(s[1..], p, le);
      var rest := Filter(s[1..], p);
      forall k | 0 <= k < |rest|
        ensures le(s[0], rest[k])
      {
        assert rest[k] in s[1..];
        var j :| 0 <= j < |s[1..]| && s[1..][j] == rest[k];
        assert s[j + 1] == rest[k];
      }
    }
  }

  class LocalStore {
    var records: seq<LocalRecord>
    var conflicts: seq<Conflict>
    var queue: seq<QueueEntry>
    var nextRecordKey: nat
    var nextQueueKey: nat

    predicate Valid()
      reads this
    {
      StoreOk(records, nextRecordKey)
    }

    /** A freshly opened, empty database. */
    constructor ()
      ensures Valid() && records == [] && conflicts == [] && queue == []
    {
      records := [];
      conflicts := [];
      queue := [];
      nextRecordKey := 1;
      nextQueueKey := 1;
    }

    /**
     * `createFeedingRecord`: the new record, with generated client id
     * `clientId` and the clock reading `now`, and one `create` entry.
     */
    method CreateRecord(data: NewFeeding, clientId: Uuid, now: Time) returns (record: LocalRecord)
      requires Valid() && FindRecord(records, clientId).None?
      modifies this
      ensures Valid()
      ensures record == LocalRecord(old(nextRecordKey), clientId, data.feedingTime.GetOr(now),
                                    data.foodType.GetOr(""), data.notes.GetOr(""), now)
      ensures records == old(records) + [record]
      ensures queue == old(queue) + [QueueEntry(old(nextQueueKey), clientId, Create, RecordPayload(record), now, 0)]
      ensures conflicts == old(conflicts)
      ensures nextRecordKey == old(nextRecordKey) + 1 && nextQueueKey == old(nextQueueKey) + 1
    {
      record := LocalRecord(nextRecordKey, clientId, data.feedingTime.GetOr(now), data.foodType.GetOr(""), data.notes.GetOr(""), now);
      records := records + [record];
      nextRecordKey := nextRecordKey + 1;
      queue := queue + [QueueEntry(nextQueueKey, clientId, Create, RecordPayload(record), now, 0)];
      nextQueueKey := nextQueueKey + 1;
    }

    /**
     * `updateFeedingRecord`: an unknown client id is refused with nothing
     * changed; otherwise the stored record takes the given fields and a new
     * `updated_at`, and one `update` entry is queued.
     */
    method UpdateRecord(clientId: Uuid, data: Patch, now: Time) returns (result: Result<LocalRecord, string>)
      requires Valid()
      modifies this
      ensures Valid()
      ensures FindRecord(old(records), clientId).None? ==>
        result == Err(NotFound) && records == old(records) && queue == old(queue) && nextQueueKey == old(nextQueueKey)
      ensures FindRecord(old(records), clientId).Some? ==>
        && result == Ok(Overlay(FindRecord(old(records), clientId).value, data, now))
        && records == Modified(old(records), clientId, result.value)
        && queue == old(queue) + [QueueEntry(old(nextQueueKey), clientId, Update, RecordPayload(result.value), now, 0)]
        && nextQueueKey == old(nextQueueKey) + 1
      ensures conflicts == old(conflicts) && nextRecordKey == old(nextRecordKey)
    {
      var existing := FindRecord(records, clientId);
      if existing.None? {
        return Err(NotFound);
      }
      var updated := Overlay(existing.value, data, now);
      ModifiedFacts(records, nextRecordKey, existing.value, updated);
      records := Modified(records, clientId, updated);
      queue := queue + [QueueEntry(nextQueueKey, clientId, Update, RecordPayload(updated), now, 0)];
      nextQueueKey := nextQueueKey + 1;
      result := Ok(updated);
    }

    /**
     * `deleteFeedingRecord`: an unknown client id is refused with nothing
     * changed; otherwise its record goes and one `delete` entry carrying
     * only the client id is queued.
     */
    method DeleteRecord(clientId: Uuid, now: Time) returns (result: Result<bool, string>)
      requires Valid()
      modifies this
      ensures Valid()
      ensures FindRecord(old(records), clientId).None? ==>
        result == Err(NotFound) && records == old(records) && queue == old(queue) && nextQueueKey == old(nextQueueKey)
      ensures FindRecord(old(records), clientId).Some? ==>
        && result == Ok(true)
        && records == Deleted(old(records), clientId)
        && queue == old(queue) + [QueueEntry(old(nextQueueKey), clientId, Delete, ClientIdPayload(clientId), now, 0)]
        && nextQueueKey == old(nextQueueKey) + 1
      ensures conflicts == old(conflicts) && nextRecordKey == old(nextRecordKey)
    {
      var existing := FindRecord(records, clientId);
      if existing.None? {
        return Err(NotFound);
      }
      DeletedFacts(records, nextRecordKey, existing.value);
      records := Deleted(records, clientId);
      queue := queue + [QueueEntry(nextQueueKey, clientId, Delete, ClientIdPayload(clientId), now, 0)];
      nextQueueKey := nextQueueKey + 1;
      result := Ok(true);
    }

    /** `clearAllData`: all three tables emptied; the key generators keep counting. */
    method ClearAll() returns (done: bool)
      requires Valid()
      modifies this
      ensures Valid() && records == [] && conflicts == [] && queue == [] && done
      ensures Statistics() == Stats(0, 0, 0)
      ensures nextRecordKey == old(nextRecordKey) && nextQueueKey == old(nextQueueKey)
    {
      records := [];
      conflicts := [];
      queue := [];
      done := true;
    }

    /**
     * `getDatabaseStats` as its result fields describe it: the number of
     * conflicts whose `resolved` flag is false. The query as written
     * never yields this (see `StatisticsAsWritten`).
     */
    function Statistics(): Stats
      reads this
    {
      Stats(|records|, UnresolvedCount(conflicts), |queue|)
    }
  }

  /** A JavaScript value used as an IndexedDB key: a number, a string, or a boolean. */
  datatype KeyValue = KeyNumber(n: int) | KeyText(s: string) | KeyBool(b: bool)

  /** The Indexed Database API's valid keys include numbers and strings, but not booleans. */
  predicate IsValidKey(v: KeyValue) {
    !v.KeyBool?
  }

  /**
   * `table.where(index).equals(v).count()` over the keys the index holds:
   * `IDBKeyRange.only(v)` throws a `DataError` for a value that is not a
   * valid key, and the count rejects with it.
   */
  function CountEquals(indexed: seq<KeyValue>, v: KeyValue): (r: Result<nat, string>)
    ensures r.Err? <==> !IsValidKey(v)
    ensures r.Err? ==> r.error == DataError
    ensures r.Ok? ==> r.value <= |indexed|
  {
    if !IsValidKey(v) then Err(DataError) else Ok(|Filter(indexed, (x: KeyValue) => x == v)|)
  }

  const DataError := "DataError"

  /** The entries of the `resolved` index: a record enters an index only when its value there is a valid key. */
  function ResolvedIndex(conflicts: seq<Conflict>): seq<KeyValue> {
    Filter(Image(conflicts, (c: Conflict) => KeyBool(c.resolved)), IsValidKey)
  }

  /** `getDatabaseStats` as written: the conflict count asks the `resolved` index for the boolean `false`, and a rejection is rethrown. */
  function StatisticsAsWritten(records: seq<LocalRecord>, conflicts: seq<Conflict>, queue: seq<QueueEntry>): Result<Stats, string> {
    StatsFrom(records, CountEquals(ResolvedIndex(conflicts), KeyBool(false)), queue)
  }

  /** `Promise.all` of the three counts: the statistics, or the first rejection. */
  function StatsFrom(records: seq<LocalRecord>, conflictCount: Result<nat, string>, queue: seq<QueueEntry>): Result<Stats, string> {
    match conflictCount
    case Err(e) => Err(e)
    case Ok(n) => Ok(Stats(|records|, n, |queue|))
  }

  /**
   * The statistics call as written rejects with a `DataError` on every
   * store. One unresolved conflict shows the gap: the intended count is 1.
   */
  lemma StatsAsWrittenRejects(records: seq<LocalRecord>, conflicts: seq<Conflict>, queue: seq<QueueEntry>)
    ensures StatisticsAsWritten(records, conflicts, queue) == Err(DataError)
    ensures UnresolvedCount([Conflict(1, 0, false)]) == 1
  {
    var c := [Conflict(1, 0, false)];
    assert c == [c[0]] + c[1..];
  }

  /** The unresolved count is at most the number of conflicts, and zero exactly when every conflict is resolved. */
  lemma StatsFacts(conflicts: seq<Conflict>)
    ensures UnresolvedCount(conflicts) <= |conflicts|
    ensures UnresolvedCount(conflicts) == 0 <==> forall c :: c in conflicts ==> c.resolved
  {
    var open := Filter(conflicts, (c: Conflict) => !c.resolved);
    if |open| > 0 {
      assert open[0] in open;
    }
  }
}
