/**
 * The server's `feeding_records` table, as the handlers under
 * server/api/ see it: rows with an integer key, an optional client
 * identifier (null for legacy rows and absent before the migration) and
 * integer timestamps.
 */
module Schema {
  import opened Wrappers
  import opened Seqs

  /** A UUID v4 value; only its identity matters to the model. */
  type Uuid = nat

  /** An instant, in milliseconds since the Unix epoch, UTC. */
  type Time = int

  const Day: int := 24 * 60 * 60 * 1000

  /** One row of `feeding_records`. */
  datatype Row = Row(
    id: nat,
    clientId: Option<Uuid>,
    feedingTime: Time,
    foodType: string,
    notes: string,
    createdAt: Time,
    updatedAt: Time)

  /**
   * The `information_schema.columns` entry for `client_id`; the handlers
   * read `is_nullable` as the text `'YES'` or `'NO'`.
   */
  datatype ColumnInfo = ColumnInfo(name: string, dataType: string, isNullable: string, columnDefault: Option<string>)

  /** What `ALTER TABLE feeding_records ADD COLUMN client_id UUID` creates: a nullable column without default. */
  const AddedClientIdColumn := ColumnInfo("client_id", "uuid", "YES", None)

  /**
   * A timestamp given as text, classified by what parsing it yields:
   * absent or empty (JavaScript-falsy), not a date, or the instant it denotes.
   */
  datatype TimeText = Missing | Unparseable | At(instant: Time)

  /** A numeric query parameter: absent (the handler's default applies), `parseInt` giving `NaN`, or a number. */
  datatype IntText = Absent | NotANumber | Parsed(n: int)

  /**
   * What PostgreSQL makes of a `LIMIT` or `OFFSET` parameter taken from
   * `parseInt` of a query parameter whose default is `dflt`: it rejects
   * `NaN` and negative counts (the query fails).
   */
  function SqlCount(p: IntText, dflt: nat): Option<nat> {
    match p
    case Absent => Some(dflt)
    case NotANumber => None
    case Parsed(n) => if n >= 0 then Some(n) else None
  }

  /** An h3 error (`createError({ statusCode, statusMessage })`). */
  datatype HttpError = HttpError(statusCode: nat, statusMessage: string)

  function RowId(r: Row): nat {
    r.id
  }

  predicate IsNull(r: Row) {
    r.clientId.None?
  }

  predicate HasClientId(r: Row) {
    r.clientId.Some?
  }

  /** `SELECT COUNT(*) … WHERE client_id IS NULL`. */
  function NullCount(rows: seq<Row>): nat {
    |Filter(rows, IsNull)|
  }

  /** `SELECT COUNT(*) … WHERE client_id IS NOT NULL`. */
  function MigratedCount(rows: seq<Row>): nat {
    |Filter(rows, HasClientId)|
  }

  /** Every row has a null client id or a non-null one. */
  lemma CountsAddUp(rows: seq<Row>)
    ensures MigratedCount(rows) + NullCount(rows) == |rows|
  {
    FilterSplit(rows, HasClientId, IsNull);
  }

  /** `id` is the primary key. */
  predicate UniqueIds(rows: seq<Row>) {
    DistinctBy(rows, RowId)
  }

  /** The unique index on `client_id` (nulls do not collide). */
  predicate UniqueClientIds(rows: seq<Row>) {
    forall i, j :: 0 <= i < |rows| && 0 <= j < |rows| && i != j && rows[i].clientId.Some? ==> rows[i].clientId != rows[j].clientId
  }

  /** The client id is in use by some row. */
  predicate ClientIdTaken(rows: seq<Row>, cid: Uuid) {
    exists i :: 0 <= i < |rows| && rows[i].clientId == Some(cid)
  }

  /**
   * The percentage `Math.round(migrated / total * 100)` computed on the
   * exact quotient: `100 * migrated / total` rounded half up; 0 for an
   * empty table. The source rounds a double instead, which differs for
   * some halves.
   */
  function Progress(migrated: nat, total: nat): (p: nat)
    ensures total > 0 ==> 2 * total * p <= 200 * migrated + total < 2 * total * p + 2 * total
    ensures total == 0 ==> p == 0
  {
    if total == 0 then 0
    else
      var p := (200 * migrated + total) / (2 * total);
      DivBounds(200 * migrated + total, 2 * total);
      p
  }

  lemma DivBounds(a: nat, b: nat)
    requires b > 0
    ensures b * (a / b) <= a < b * (a / b) + b
  {
  }

  /** The percentage lies in 0..100 when no more rows are migrated than exist; it is 100 when all are and 0 when none are. */
  lemma {:induction false} ProgressBounds(migrated: nat, total: nat)
    requires migrated <= total
    ensures Progress(migrated, total) <= 100
    ensures total > 0 && migrated == total ==> Progress(migrated, total) == 100
    ensures migrated == 0 ==> Progress(migrated, total) == 0
  {
    if total > 0 {
      var p := Progress(migrated, total);
      var d := 2 * total;
      var a := 200 * migrated + total;
      assert d * p <= a < d * p + d;
      assert a <= 101 * d - total by {
        MulMono(200, migrated, total);
      }
      if p >= 101 {
        MulMono(d, 101, p);
        assert false;
      }
      if migrated == total {
        assert a == 100 * d + total;
        if p <= 99 {
          MulMono(d, p, 99);
          assert false;
        }
      }
      if migrated == 0 {
        assert a == total;
        if p >= 1 {
          MulMono(d, 1, p);
          assert false;
        }
      }
    }
  }

  lemma MulMono(a: nat, x: nat, y: nat)
    requires x <= y
    ensures a * x <= a * y
  {
  }
}
