/**
 * GET /api/feedings/sync: the pull half of offline sync. A client sends
 * the watermark `since` and receives every row changed after it, oldest
 * change first, so that it can apply them in order.
 */
module Sync {
  import opened Wrappers
  import opened Seqs
  import opened Sorting
  import opened Schema

  /** The reply body; `since` echoes the parsed watermark (the handler echoes the query text itself) and `serverTime` is the server's clock at reply time. */
  datatype SyncReply = SyncReply(records: seq<Row>, count: nat, since: Time, serverTime: Time)

  /** `ORDER BY updated_at ASC`. */
  function UpdatedAsc(a: Row, b: Row): bool {
    a.updatedAt <= b.updatedAt
  }

  /** The rows changed after the watermark: `WHERE updated_at > since`. */
  function ChangedSince(rows: seq<Row>, since: Time): seq<Row> {
    Filter(rows, (r: Row) => r.updatedAt > since)
  }

  /**
   * The handler: a missing watermark is refused before any query, then an
   * unparseable one; `dbFails` says that the SELECT failed.
   */
  function PullChanges(rows: seq<Row>, since: TimeText, serverTime: Time, dbFails: bool): Result<SyncReply, HttpError> {
    match since
    case Missing => Err(HttpError(400, "since parameter is required for sync"))
    case Unparseable => Err(HttpError(400, "Invalid since timestamp format. Use ISO 8601 format."))
    case At(t) =>
      if dbFails then Err(HttpError(500, "Failed to fetch sync data"))
      else
        var records := SortBy(ChangedSince(rows, t), UpdatedAsc);
        Ok(SyncReply(records, |records|, t, serverTime))
  }

  lemma UpdatedAscTotal()
    ensures TotalPreorder(UpdatedAsc)
  {
  }

  /** The two 400 replies and the 500 reply, each exactly when its condition holds. */
  lemma PullErrors(rows: seq<Row>, since: TimeText, serverTime: Time, dbFails: bool)
    ensures since.Missing? ==> PullChanges(rows, since, serverTime, dbFails) == Err(HttpError(400, "since parameter is required for sync"))
    ensures since.Unparseable? ==>
      PullChanges(rows, since, serverTime, dbFails) == Err(HttpError(400, "Invalid since timestamp format. Use ISO 8601 format."))
    ensures since.At? ==> (PullChanges(rows, since, serverTime, dbFails).Err? <==> dbFails)
    ensures since.At? && dbFails ==> PullChanges(rows, since, serverTime, dbFails).error.statusCode == 500
  {
  }

  /**
   * A successful pull returns exactly the rows changed after `since`,
   * each as often as it occurs in the table, in non-decreasing `updated_at`
   * order, and counts them.
   */
  lemma {:induction false} PullContents(rows: seq<Row>, t: Time, serverTime: Time)
    ensures PullChanges(rows, At(t), serverTime, false).Ok?
    ensures var reply := PullChanges(rows, At(t), serverTime, false).value;
      && (forall x :: x in reply.records <==> x in rows && x.updatedAt > t)
      && (forall x :: multiset(reply.records)[x] == if x.updatedAt > t then multiset(rows)[x] else 0)
      && (forall i, j :: 0 <= i < j < |reply.records| ==> reply.records[i].updatedAt <= reply.records[j].updatedAt)
      && reply.count == |reply.records|
      && reply.since == t
  {
    var changed := ChangedSince(rows, t);
    var records := SortBy(changed, UpdatedAsc);
    FilterMultiset(rows, (r: Row) => r.updatedAt > t);
    SortMembers(changed, UpdatedAsc);
    SortMultiset(changed, UpdatedAsc);
    UpdatedAscTotal();
    SortSorted(changed, UpdatedAsc);
  }

  /** A client that is caught up (no row changed after its watermark) receives nothing. */
  lemma PullCaughtUp(rows: seq<Row>, t: Time, serverTime: Time)
    requires forall x :: x in rows ==> x.updatedAt <= t
    ensures PullChanges(rows, At(t), serverTime, false) == Ok(SyncReply([], 0, t, serverTime))
  {
    var caughtUp := (r: Row) => (r.updatedAt <= t);
    FilterAll(rows, caughtUp);
    var changed := (r: Row) => (r.updatedAt > t);
    FilterSplit(rows, caughtUp, changed);
    assert ChangedSince(rows, t) == [];
  }

  /** A later watermark never returns more: what it returns the earlier one returns too. */
  lemma PullMonotone(rows: seq<Row>, t1: Time, t2: Time, serverTime: Time)
    requires t1 <= t2
    ensures var r1 := PullChanges(rows, At(t1), serverTime, false).value;
      var r2 := PullChanges(rows, At(t2), serverTime, false).value;
      (forall x :: x in r2.records ==> x in r1.records) && r2.count <= r1.count
  {
    PullContents(rows, t1, serverTime);
    PullContents(rows, t2, serverTime);
    FilterLengthMono(rows, (r: Row) => r.updatedAt > t2, (r: Row) => r.updatedAt > t1);
  }
}
