/**
 * GET /api/feedings/migration-status: the migration state is not stored
 * anywhere; it is recomputed from three counts over the table on every
 * request, so it can never disagree with the data.
 */
module MigrationStatus {
  import opened Wrappers
  import opened Seqs
  import opened Schema

  datatype Status = NotStarted | InProgress | Complete | NoData

  /** The `migration_status` text of the reply. */
  function StatusName(s: Status): string {
    match s
    case NotStarted => "not_started"
    case InProgress => "in_progress"
    case Complete => "complete"
    case NoData => "no_data"
  }

  /** The handler's if/else chain: an empty table is checked before a fully migrated one. */
  function DeriveStatus(total: nat, migrated: nat, remaining: nat): Status {
    if total == 0 then NoData
    else if remaining == 0 then Complete
    else if migrated == 0 then NotStarted
    else InProgress
  }

  /**
   * The JSON reply. `progress` and `columnNullable` are None in the reply
   * for a table without the `client_id` column, which omits those fields.
   */
  datatype StatusReply = StatusReply(
    status: Status,
    total: nat,
    migrated: nat,
    remaining: nat,
    progress: Option<nat>,
    columnNullable: Option<bool>)

  /**
   * The handler over the catalog entry for `client_id` and the table's rows.
   * It only reads them; `dbFails` says that one of its SELECTs failed.
   */
  function CheckStatus(column: Option<ColumnInfo>, rows: seq<Row>, dbFails: bool): Result<StatusReply, HttpError> {
    if dbFails then Err(HttpError(500, "Failed to check migration status"))
    else if column.None? then Ok(StatusReply(NotStarted, 0, 0, 0, None, None))
    else
      var total := |rows|;
      var migrated := MigratedCount(rows);
      var remaining := NullCount(rows);
      Ok(StatusReply(
        DeriveStatus(total, migrated, remaining), total, migrated, remaining,
        Some(Progress(migrated, total)), Some(column.value.isNullable == "YES")))
  }

  /**
   * What the status says about the table: without the column it is
   * `not_started` with zero counts; with it, `no_data` exactly for an empty
   * table, `complete` exactly when rows exist and all have a client id,
   * `not_started` exactly when none has, and `in_progress` otherwise; the
   * counts add up and the percentage is the rounded share within 0..100.
   */
  lemma {:induction false} StatusFromTable(column: Option<ColumnInfo>, rows: seq<Row>)
    ensures CheckStatus(column, rows, false).Ok?
    ensures column.None? ==> CheckStatus(column, rows, false).value == StatusReply(NotStarted, 0, 0, 0, None, None)
    ensures column.Some? ==>
      var r := CheckStatus(column, rows, false).value;
      && r.total == |rows|
      && r.migrated + r.remaining == r.total
      && (r.status == NoData <==> rows == [])
      && (r.status == Complete <==> rows != [] && forall x :: x in rows ==> x.clientId.Some?)
      && (r.status == NotStarted <==> (exists x :: x in rows && x.clientId.None?) && forall x :: x in rows ==> x.clientId.None?)
      && (r.status == InProgress <==> (exists x :: x in rows && x.clientId.None?) && exists x :: x in rows && x.clientId.Some?)
      && r.progress == Some(Progress(r.migrated, r.total))
      && r.progress.value <= 100
      && (r.columnNullable == Some(true) <==> column.value.isNullable == "YES")
  {
    if column.Some? {
      CountsAddUp(rows);
      ProgressBounds(MigratedCount(rows), |rows|);
      var nulls := Filter(rows, IsNull);
      var ids := Filter(rows, HasClientId);
      assert (|nulls| == 0) <==> forall x :: x in rows ==> x.clientId.Some? by {
        if |nulls| > 0 {
          assert nulls[0] in nulls;
        }
      }
      assert (|ids| == 0) <==> forall x :: x in rows ==> x.clientId.None? by {
        if |ids| > 0 {
          assert ids[0] in ids;
        }
      }
      if rows != [] {
        assert rows[0] in rows;
      }
    }
  }
}
