/**
 * The server's database as the write handlers under server/api/feedings/
 * change it: whether the `client_id` column exists, the rows of
 * `feeding_records`, and the next value of the `id` sequence.
 *
 * Each handler issues its queries one after another. Which query fails,
 * if any, is an input: `fail == Some(q)` makes the query with 0-based
 * index `q` of that call throw. The UUIDs the handlers generate come from
 * a supply `gen` whose values are distinct and not yet in the table.
 */
module ServerDb {
  import opened Wrappers
  import opened Seqs
  import opened Schema
  import opened Backfill

  /** The constraints of the table: primary key, unique index on `client_id`, a serial key, no ids before the column exists. */
  predicate TableOk(column: Option<ColumnInfo>, rows: seq<Row>, nextId: nat) {
    && UniqueIds(rows)
    && UniqueClientIds(rows)
    && (forall i :: 0 <= i < |rows| ==> rows[i].id < nextId)
    && (column.None? ==> forall i :: 0 <= i < |rows| ==> IsNull(rows[i]))
  }

  /** None of the queries `lo` up to `hi` (exclusive) of a call fails. */
  predicate PassedFrom(fail: Option<nat>, lo: nat, hi: nat) {
    fail.None? || fail.value < lo || hi <= fail.value
  }

  /** The generator never repeats a value. */
  ghost predicate Injective(gen: nat -> Uuid) {
    forall a, b :: a != b ==> gen(a) != gen(b)
  }

  /** No value the generator gives from draw `n` on is already in the table. */
  ghost predicate FreshFrom(gen: nat -> Uuid, n: nat, rows: seq<Row>) {
    forall j, i :: n <= j && 0 <= i < |rows| ==> rows[i].clientId != Some(gen(j))
  }

  ghost predicate FreshSupply(gen: nat -> Uuid, rows: seq<Row>) {
    Injective(gen) && FreshFrom(gen, 0, rows)
  }

  /**
   * The state of a backfill that has filled the rows in `filled` so far:
   * exactly those rows changed, the `j`-th with generated id number `j`,
   * the null count dropped by their number, and the ids still to be drawn
   * are not in the table.
   */
  ghost predicate Progressed(before: seq<Row>, after: seq<Row>, filled: seq<FilledRow>, gen: nat -> Uuid, now: Time) {
    && FilledExactly(before, after, filled, now)
    && DrawsInOrder(filled, gen)
    && NullCount(after) + |filled| == NullCount(before)
    && FreshFrom(gen, |filled|, after)
  }

  lemma ProgressedStart(rows: seq<Row>, gen: nat -> Uuid, now: Time)
    requires FreshSupply(gen, rows)
    ensures Progressed(rows, rows, [], gen, now)
  {
    FilledExactlyNothing(rows, now);
  }

  /** Targeting the row at `p` changes that row only, when keys are unique. */
  lemma AssignOnly(rows: seq<Row>, p: nat, cid: Uuid, now: Time)
    requires UniqueIds(rows) && p < |rows|
    ensures Assign(rows, rows[p].id, cid, now)[p] == Fill(rows[p], cid, now)
    ensures forall i :: 0 <= i < |rows| && i != p ==> Assign(rows, rows[p].id, cid, now)[i] == rows[i]
  {
    forall i | 0 <= i < |rows| && i != p
      ensures Assign(rows, rows[p].id, cid, now)[i] == rows[i]
    {
      assert rows[i].id != rows[p].id;
    }
  }

  /** Giving one row an id that no row has keeps client ids unique. */
  lemma AssignUniqueClientIds(rows: seq<Row>, p: nat, cid: Uuid, now: Time)
    requires UniqueIds(rows) && UniqueClientIds(rows) && p < |rows|
    requires forall i :: 0 <= i < |rows| ==> rows[i].clientId != Some(cid)
    ensures UniqueClientIds(Assign(rows, rows[p].id, cid, now))
  {
    var next := Assign(rows, rows[p].id, cid, now);
    AssignOnly(rows, p, cid, now);
    forall i, j | 0 <= i < |next| && 0 <= j < |next| && i != j && next[i].clientId.Some?
      ensures next[i].clientId != next[j].clientId
    {
      if i == p {
        assert next[j] == rows[j];
      } else if j == p {
        assert next[i] == rows[i];
      }
    }
  }

  /** Using draw `n` leaves the later draws fresh. */
  lemma AssignFresh(rows: seq<Row>, p: nat, gen: nat -> Uuid, n: nat, now: Time)
    requires UniqueIds(rows) && p < |rows| && Injective(gen) && FreshFrom(gen, n, rows)
    ensures FreshFrom(gen, n + 1, Assign(rows, rows[p].id, gen(n), now))
  {
    var next := Assign(rows, rows[p].id, gen(n), now);
    AssignOnly(rows, p, gen(n), now);
    forall j, i | n + 1 <= j && 0 <= i < |next|
      ensures next[i].clientId != Some(gen(j))
    {
      if i == p {
        assert gen(j) != gen(n);
      } else {
        assert next[i] == rows[i];
      }
    }
  }

  /** Filling one more null row with the next generated id keeps the table's constraints and the backfill's bookkeeping. */
  lemma FillOne(start: seq<Row>, rows: seq<Row>, filled: seq<FilledRow>, gen: nat -> Uuid, now: Time,
                column: Option<ColumnInfo>, nextId: nat, b: Row)
    requires TableOk(column, rows, nextId) && column.Some? && UniqueIds(start) && Injective(gen)
    requires Progressed(start, rows, filled, gen, now)
    requires b in rows && IsNull(b)
    ensures TableOk(column, Assign(rows, b.id, gen(|filled|), now), nextId)
    ensures Progressed(start, Assign(rows, b.id, gen(|filled|), now), filled + [FilledRow(b.id, gen(|filled|), b.feedingTime)], gen, now)
  {
    var n := |filled|;
    var cid := gen(n);
    var next := Assign(rows, b.id, cid, now);
    var filled' := filled + [FilledRow(b.id, cid, b.feedingTime)];
    var p :| 0 <= p < |rows| && rows[p] == b;
    assert FilledExactly(start, next, filled', now) by {
      NullRowsUnfilled(start, rows, filled, now, b);
      FillStep(start, rows, filled, b, cid, now);
    }
    assert NullCount(next) + |filled'| == NullCount(start) by {
      AssignNullCount(rows, b, cid, now);
    }
    assert UniqueIds(next) by {
      AssignUniqueIds(rows, b.id, cid, now);
    }
    assert UniqueClientIds(next) by {
      AssignUniqueClientIds(rows, p, cid, now);
    }
    assert FreshFrom(gen, |filled'|, next) by {
      AssignFresh(rows, p, gen, n, now);
    }
    assert DrawsInOrder(filled', gen) by {
      DrawsInOrderAppend(filled, gen, FilledRow(b.id, cid, b.feedingTime));
    }
    assert forall i :: 0 <= i < |next| ==> next[i].id < nextId by {
      forall i | 0 <= i < |next|
        ensures next[i].id < nextId
      {
        assert next[i].id == rows[i].id;
      }
    }
  }

  /** The `j`-th record carries draw `j`. */
  ghost predicate DrawsInOrder(filled: seq<FilledRow>, gen: nat -> Uuid) {
    forall j :: 0 <= j < |filled| ==> filled[j].clientId == gen(j)
  }

  lemma DrawsInOrderAppend(filled: seq<FilledRow>, gen: nat -> Uuid, e: FilledRow)
    requires DrawsInOrder(filled, gen) && e.clientId == gen(|filled|)
    ensures DrawsInOrder(filled + [e], gen)
  {
    forall j | 0 <= j < |filled| + 1
      ensures (filled + [e])[j].clientId == gen(j)
    {
      if j < |filled| {
        assert (filled + [e])[j] == filled[j];
      }
    }
  }

  /** A query that does not fail moves the failure-free window one query on. */
  lemma PassedStep(fail: Option<nat>, lo: nat, q: nat)
    requires PassedFrom(fail, lo, q) && fail != Some(q)
    ensures PassedFrom(fail, lo, q + 1)
  {
  }

  /** The invariant of the loop over one batch, after its first `i` updates. */
  ghost predicate BatchLoop(start: seq<Row>, rows0: seq<Row>, table: seq<Row>, filled0: seq<FilledRow>, filled: seq<FilledRow>,
                            batch: seq<Row>, i: nat, gen: nat -> Uuid, now: Time, column: Option<ColumnInfo>, nextId: nat)
  {
    && i <= |batch|
    && TableOk(column, table, nextId)
    && Progressed(start, table, filled, gen, now)
    && |filled| == |filled0| + i
    && filled0 + Stamp(batch, gen, |filled0|) == filled + Stamp(batch[i..], gen, |filled0| + i)
    && AssignBatch(rows0, batch, gen, |filled0|, now) == AssignBatch(table, batch[i..], gen, |filled0| + i, now)
    && (forall j :: i <= j < |batch| ==> batch[j] in table)
  }

  /** One more update keeps the loop invariant. */
  lemma BatchLoopStep(start: seq<Row>, rows0: seq<Row>, table: seq<Row>, filled0: seq<FilledRow>, filled: seq<FilledRow>,
                      batch: seq<Row>, i: nat, gen: nat -> Uuid, now: Time, column: Option<ColumnInfo>, nextId: nat)
    requires column.Some? && UniqueIds(start) && Injective(gen)
    requires DistinctBy(batch, RowId) && (forall x :: x in batch ==> IsNull(x))
    requires BatchLoop(start, rows0, table, filled0, filled, batch, i, gen, now, column, nextId) && i < |batch|
    ensures BatchLoop(start, rows0, Assign(table, batch[i].id, gen(|filled|), now),
                      filled0, filled + [FilledRow(batch[i].id, gen(|filled|), batch[i].feedingTime)],
                      batch, i + 1, gen, now, column, nextId)
  {
    var b := batch[i];
    assert b in batch && b in table;
    FillOne(start, table, filled, gen, now, column, nextId, b);
    RestInTable(table, batch, i, gen(|filled|), now);
    AssignBatchStep(rows0, table, batch, i, gen, |filled0|, now);
    StampStep(filled0, filled, batch, i, gen);
  }

  /** The rows of a batch after the `i`-th are still in the table once the `i`-th is filled. */
  lemma RestInTable(table: seq<Row>, batch: seq<Row>, i: nat, cid: Uuid, now: Time)
    requires DistinctBy(batch, RowId) && i < |batch|
    requires forall j :: i <= j < |batch| ==> batch[j] in table
    ensures forall j :: i + 1 <= j < |batch| ==> batch[j] in Assign(table, batch[i].id, cid, now)
  {
    forall j | i < j < |batch|
      ensures batch[j] in Assign(table, batch[i].id, cid, now)
    {
      AssignKeeps(table, batch[i].id, cid, now, batch[j]);
    }
  }

  /** Peeling the `i`-th update off the rest of a batch. */
  lemma AssignBatchStep(rows0: seq<Row>, table: seq<Row>, batch: seq<Row>, i: nat, gen: nat -> Uuid, k: nat, now: Time)
    requires i < |batch|
    requires AssignBatch(rows0, batch, gen, k, now) == AssignBatch(table, batch[i..], gen, k + i, now)
    ensures AssignBatch(rows0, batch, gen, k, now) == AssignBatch(Assign(table, batch[i].id, gen(k + i), now), batch[i + 1..], gen, k + i + 1, now)
  {
    assert batch[i..][0] == batch[i] && batch[i..][1..] == batch[i + 1..];
  }

  /** Peeling the `i`-th record off the rest of a batch's records. */
  lemma StampStep(filled0: seq<FilledRow>, filled: seq<FilledRow>, batch: seq<Row>, i: nat, gen: nat -> Uuid)
    requires i < |batch| && |filled| == |filled0| + i
    requires filled0 + Stamp(batch, gen, |filled0|) == filled + Stamp(batch[i..], gen, |filled0| + i)
    ensures filled0 + Stamp(batch, gen, |filled0|)
      == (filled + [FilledRow(batch[i].id, gen(|filled|), batch[i].feedingTime)]) + Stamp(batch[i + 1..], gen, |filled0| + i + 1)
  {
    var e := FilledRow(batch[i].id, gen(|filled|), batch[i].feedingTime);
    var rest := Stamp(batch[i + 1..], gen, |filled0| + i + 1);
    assert batch[i..][0] == batch[i] && batch[i..][1..] == batch[i + 1..];
    assert Stamp(batch[i..], gen, |filled0| + i) == [e] + rest;
    ConcatAssoc(filled, [e], rest);
  }

  /**
   * The `UPDATE`s of one batch over the table `rows`, none of them failing:
   * the `i`-th row gets generated id number `|filled0| + i`.
   */
  method ApplyBatch(rows: seq<Row>, column: Option<ColumnInfo>, nextId: nat, batch: seq<Row>, gen: nat -> Uuid, now: Time,
                    ghost start: seq<Row>, filled0: seq<FilledRow>)
    returns (table: seq<Row>, filled: seq<FilledRow>)
    requires TableOk(column, rows, nextId) && column.Some? && UniqueIds(start) && Injective(gen)
    requires Progressed(start, rows, filled0, gen, now)
    requires DistinctBy(batch, RowId) && forall x :: x in batch ==> x in rows && IsNull(x)
    ensures TableOk(column, table, nextId)
    ensures Progressed(start, table, filled, gen, now)
    ensures table == AssignBatch(rows, batch, gen, |filled0|, now)
    ensures filled == filled0 + Stamp(batch, gen, |filled0|)
  {
    filled := filled0;
    table := rows;
    var i := 0;
    while i < |batch|
      invariant BatchLoop(start, rows, table, filled0, filled, batch, i, gen, now, column, nextId)
    {
      var b := batch[i];
      var cid := gen(|filled|);
      BatchLoopStep(start, rows, table, filled0, filled, batch, i, gen, now, column, nextId);
      table := Assign(table, b.id, cid, now);
      filled := filled + [FilledRow(b.id, cid, b.feedingTime)];
      i := i + 1;
    }
    assert batch[i..] == [];
  }

  /** The `UPDATE`s of one batch of which the one for row `skip` fails: every other row is still updated. */
  method ApplyBatchExcept(rows: seq<Row>, column: Option<ColumnInfo>, nextId: nat, batch: seq<Row>, skip: nat, gen: nat -> Uuid, now: Time,
                          ghost start: seq<Row>, filled0: seq<FilledRow>)
    returns (table: seq<Row>, filled: seq<FilledRow>)
    requires TableOk(column, rows, nextId) && column.Some? && UniqueIds(start) && Injective(gen)
    requires Progressed(start, rows, filled0, gen, now)
    requires DistinctBy(batch, RowId) && (forall x :: x in batch ==> x in rows && IsNull(x)) && skip < |batch|
    ensures TableOk(column, table, nextId)
    ensures Progressed(start, table, filled, gen, now)
    ensures table == AssignBatch(rows, RemoveAt(batch, skip), gen, |filled0|, now)
    ensures filled == filled0 + Stamp(RemoveAt(batch, skip), gen, |filled0|)
  {
    RemoveAtDistinctBy(batch, skip, RowId);
    table, filled := ApplyBatch(rows, column, nextId, RemoveAt(batch, skip), gen, now, start, filled0);
  }

  /**
   * `await Promise.all(records.rows.map(...))` over one batch: query
   * `q0 + i` is the `UPDATE` of the `i`-th row. Every update is issued
   * before any is awaited, so when one of them fails the others still
   * apply; the failing row alone keeps its null client id.
   */
  method FillBatchRows(rows: seq<Row>, column: Option<ColumnInfo>, nextId: nat, batch: seq<Row>, gen: nat -> Uuid, now: Time, fail: Option<nat>, q0: nat,
                         ghost start: seq<Row>, filled0: seq<FilledRow>)
    returns (table: seq<Row>, filled: seq<FilledRow>, q: nat, failed: bool)
    requires TableOk(column, rows, nextId) && column.Some? && UniqueIds(start) && Injective(gen)
    requires Progressed(start, rows, filled0, gen, now)
    requires DistinctBy(batch, RowId) && forall x :: x in batch ==> x in rows && IsNull(x)
    ensures TableOk(column, table, nextId)
    ensures Progressed(start, table, filled, gen, now)
    ensures failed <==> fail.Some? && q0 <= fail.value < q0 + |batch|
    ensures !failed ==> table == AssignBatch(rows, batch, gen, |filled0|, now)
    ensures !failed ==> filled == filled0 + Stamp(batch, gen, |filled0|)
    ensures !failed ==> q == q0 + |batch| && PassedFrom(fail, q0, q)
    ensures failed ==> fail == Some(q) && q - q0 < |batch|
    ensures failed ==> table == AssignBatch(rows, RemoveAt(batch, q - q0), gen, |filled0|, now)
    ensures failed ==> filled == filled0 + Stamp(RemoveAt(batch, q - q0), gen, |filled0|)
  {
    if fail.Some? && q0 <= fail.value < q0 + |batch| {
      failed := true;
      q := fail.value;
      table, filled := ApplyBatchExcept(rows, column, nextId, batch, q - q0, gen, now, start, filled0);
    } else {
      failed := false;
      q := q0 + |batch|;
      table, filled := ApplyBatch(rows, column, nextId, batch, gen, now, start, filled0);
    }
  }

  /**
   * The batched `while (offset < expected)` loop of both backfill
   * handlers over the table `rows`, with `expected` the null count read
   * before it. Query `q0` is its first `SELECT`.
   */
  method BackfillRows(rows: seq<Row>, column: Option<ColumnInfo>, nextId: nat, expected: nat,
                      gen: nat -> Uuid, now: Time, fail: Option<nat>, q0: nat)
    returns (table: seq<Row>, filled: seq<FilledRow>, q: nat, failed: bool)
    requires TableOk(column, rows, nextId) && column.Some? && FreshSupply(gen, rows)
    ensures TableOk(column, table, nextId)
    ensures Progressed(rows, table, filled, gen, now)
    ensures !failed ==> Outcome(table, filled) == Run(rows, expected, 0, gen, 0, now)
    ensures failed ==> fail == Some(q)
    ensures !failed ==> PassedFrom(fail, q0, q)
  {
    ProgressedStart(rows, gen, now);
    table := rows;
    filled := [];
    q := q0;
    failed := false;
    var offset: nat := 0;
    while offset < expected
      invariant BackfillLoop(rows, table, filled, offset, expected, gen, now, column, nextId)
      invariant q0 <= q && PassedFrom(fail, q0, q) && !failed
      decreases expected - offset
    {
      var stop;
      table, filled, q, stop, failed := BackfillRound(rows, column, nextId, expected, gen, now, fail, q0, q, table, filled, offset);
      if failed || stop {
        return;
      }
      offset := offset + BatchSize;
    }
    BackfillLoopDone(rows, table, filled, offset, expected, gen, now, column, nextId);
  }

  /**
   * One round of the backfill loop at `offset`: the `SELECT` of the next
   * batch (query `q`), then, unless it is empty, the batch's `UPDATE`s.
   * `stop` says the batch was empty and the loop ends.
   */
  method BackfillRound(rows: seq<Row>, column: Option<ColumnInfo>, nextId: nat, expected: nat,
                       gen: nat -> Uuid, now: Time, fail: Option<nat>, ghost q0: nat, q: nat,
                       table0: seq<Row>, filled0: seq<FilledRow>, offset: nat)
    returns (table: seq<Row>, filled: seq<FilledRow>, q1: nat, stop: bool, failed: bool)
    requires TableOk(column, rows, nextId) && column.Some? && FreshSupply(gen, rows)
    requires BackfillLoop(rows, table0, filled0, offset, expected, gen, now, column, nextId) && offset < expected
    requires q0 <= q && PassedFrom(fail, q0, q)
    ensures TableOk(column, table, nextId) && Progressed(rows, table, filled, gen, now)
    ensures q0 <= q <= q1
    ensures failed ==> fail == Some(q1)
    ensures !failed ==> PassedFrom(fail, q0, q1)
    ensures !failed && stop ==> table == table0 && filled == filled0 && Page(Pending(table0), offset, BatchSize) == []
    ensures !failed && stop ==> Outcome(table, filled) == Run(rows, expected, 0, gen, 0, now)
    ensures !failed && !stop ==> BackfillLoop(rows, table, filled, offset + BatchSize, expected, gen, now, column, nextId)
  {
    table, filled, q1, stop, failed := table0, filled0, q, false, false;
    if fail == Some(q) {
      failed := true;
      return;
    }
    PassedStep(fail, q0, q);
    var batch := Page(Pending(table0), offset, BatchSize);
    if batch == [] {
      stop := true;
      q1 := q + 1;
      BackfillLoopDone(rows, table0, filled0, offset, expected, gen, now, column, nextId);
      return;
    }
    BatchFacts(table0, offset);
    table, filled, q1, failed := FillBatchRows(table0, column, nextId, batch, gen, now, fail, q + 1, rows, filled0);
    if !failed {
      PassedAfter(fail, q0, q + 1, q1);
      BackfillLoopStep(rows, table0, filled0, offset, expected, gen, now, column, nextId, table, filled);
    }
  }

  /** The loop invariant where the loop ends gives the run's outcome. */
  lemma BackfillLoopDone(rows: seq<Row>, table: seq<Row>, filled: seq<FilledRow>, offset: nat, expected: nat,
                         gen: nat -> Uuid, now: Time, column: Option<ColumnInfo>, nextId: nat)
    requires BackfillLoop(rows, table, filled, offset, expected, gen, now, column, nextId)
    requires offset >= expected || Page(Pending(table), offset, BatchSize) == []
    ensures Outcome(table, filled) == Run(rows, expected, 0, gen, 0, now)
  {
    assert Run(table, expected, offset, gen, |filled|, now) == Outcome(table, []);
    assert filled + [] == filled;
  }

  /** The invariant of the backfill loop before the round that starts at `offset`. */
  ghost predicate BackfillLoop(rows: seq<Row>, table: seq<Row>, filled: seq<FilledRow>, offset: nat, expected: nat,
                               gen: nat -> Uuid, now: Time, column: Option<ColumnInfo>, nextId: nat)
  {
    && TableOk(column, table, nextId)
    && Progressed(rows, table, filled, gen, now)
    && var rest := Run(table, expected, offset, gen, |filled|, now);
       Run(rows, expected, 0, gen, 0, now) == Outcome(rest.rows, filled + rest.filled)
  }

  /** A round that fills its whole batch keeps the loop invariant. */
  lemma BackfillLoopStep(rows: seq<Row>, table0: seq<Row>, filled0: seq<FilledRow>, offset: nat, expected: nat,
                         gen: nat -> Uuid, now: Time, column: Option<ColumnInfo>, nextId: nat,
                         table: seq<Row>, filled: seq<FilledRow>)
    requires BackfillLoop(rows, table0, filled0, offset, expected, gen, now, column, nextId) && offset < expected
    requires var batch := Page(Pending(table0), offset, BatchSize);
      && batch != []
      && table == AssignBatch(table0, batch, gen, |filled0|, now)
      && filled == filled0 + Stamp(batch, gen, |filled0|)
    requires TableOk(column, table, nextId) && Progressed(rows, table, filled, gen, now)
    ensures BackfillLoop(rows, table, filled, offset + BatchSize, expected, gen, now, column, nextId)
  {
    var batch := Page(Pending(table0), offset, BatchSize);
    var rest := Run(table, expected, offset + BatchSize, gen, |filled|, now);
    assert Run(table0, expected, offset, gen, |filled0|, now) == Outcome(rest.rows, Stamp(batch, gen, |filled0|) + rest.filled);
    ConcatAssoc(filled0, Stamp(batch, gen, |filled0|), rest.filled);
  }

  /** Two failure-free windows that meet make one. */
  lemma PassedAfter(fail: Option<nat>, lo: nat, mid: nat, hi: nat)
    requires lo <= mid && PassedFrom(fail, lo, mid) && PassedFrom(fail, mid, hi)
    ensures PassedFrom(fail, lo, hi)
  {
  }

  /** The `status` field of the backfill replies. */
  datatype AutoStatus = Complete | Partial

  /** The result object of POST /api/feedings/auto-migrate. */
  datatype AutoReply =
    | Migrated(status: AutoStatus, totalRecords: nat, migratedRecords: nat, remainingRecords: nat, progressPercentage: nat)
    | MigrationFailed(error: string)

  /** The successful replies of POST /api/feedings/backfill-client-ids. */
  datatype BackfillReply =
    | NothingToBackfill
    | Backfilled(updatedCount: nat, remainingRecords: nat, status: AutoStatus, records: seq<FilledRow>)

  /** What POST /api/feedings/run-migration reports about the column it added. */
  datatype ColumnReport = ColumnReport(name: string, dataType: string, nullable: bool, columnDefault: Option<string>)

  datatype MigrationReply = AlreadyExists | Completed(columnInfo: ColumnReport)

  /** The request body of POST /api/feedings. */
  datatype FeedingInput = FeedingInput(feedingTime: TimeText, foodType: Option<string>, notes: Option<string>)

  /** How the database answers the `INSERT … RETURNING`, when it is reached. */
  datatype InsertAnswer = ReturnsRow | ReturnsNothing | Throws

  /** The result object of POST /api/feedings: the handler never throws. */
  datatype CreateReply = Saved(feeding: Row) | NotSaved(message: string)

  const StatusFrom := (remaining: nat) => if remaining == 0 then Complete else Partial

  /**
   * What a successful auto-migration reports: the table left by one run of
   * the loop over the null count read before it, its total, null and
   * non-null counts, the rounded percentage, and `complete` exactly when
   * no null row remains.
   */
  ghost predicate MigratedReply(before: seq<Row>, after: seq<Row>, filled: seq<FilledRow>, gen: nat -> Uuid, now: Time, reply: AutoReply) {
    var run := Run(before, NullCount(before), 0, gen, 0, now);
    && reply.Migrated?
    && after == run.rows && filled == run.filled
    && reply.totalRecords == |after|
    && reply.remainingRecords == NullCount(after)
    && reply.migratedRecords == MigratedCount(after)
    && reply.progressPercentage == Progress(reply.migratedRecords, reply.totalRecords)
    && (reply.status == Complete <==> reply.remainingRecords == 0)
  }

  /** The auto-migration from the null count on, once the column exists; query `q` is the null count. */
  method MigrateRows(rows: seq<Row>, column: Option<ColumnInfo>, nextId: nat, gen: nat -> Uuid, now: Time,
                     fail: Option<nat>, q0: nat, errorMessage: string)
    returns (table: seq<Row>, reply: AutoReply, ghost filled: seq<FilledRow>)
    requires TableOk(column, rows, nextId) && column.Some? && FreshSupply(gen, rows)
    ensures TableOk(column, table, nextId)
    ensures reply.MigrationFailed? ==> reply.error == errorMessage
    ensures Progressed(rows, table, filled, gen, now)
    ensures reply.Migrated? ==> MigratedReply(rows, table, filled, gen, now, reply)
    ensures NullCount(rows) == 0 ==> table == rows
    ensures fail.None? ==> reply.Migrated?
  {
    table := rows;
    filled := [];
    ProgressedStart(rows, gen, now);
    if fail == Some(q0) {
      return table, MigrationFailed(errorMessage), filled;
    }
    var q := q0 + 1;
    var expected := NullCount(rows);
    if expected > 0 {
      var failed;
      table, filled, q, failed := BackfillRows(rows, column, nextId, expected, gen, now, fail, q);
      if failed {
        return table, MigrationFailed(errorMessage), filled;
      }
    }
    if fail == Some(q) {
      return table, MigrationFailed(errorMessage), filled;
    }
    var remaining := NullCount(table);
    if fail == Some(q + 1) {
      return table, MigrationFailed(errorMessage), filled;
    }
    var total := |table|;
    CountsAddUp(table);
    var migrated := total - remaining;
    reply := Migrated(StatusFrom(remaining), total, migrated, remaining, Progress(migrated, total));
  }

  class Database {
    var column: Option<ColumnInfo>
    var rows: seq<Row>
    var nextId: nat

    predicate Valid()
      reads this
    {
      TableOk(column, rows, nextId)
    }

    constructor (column0: Option<ColumnInfo>, rows0: seq<Row>, nextId0: nat)
      requires TableOk(column0, rows0, nextId0)
      ensures Valid() && column == column0 && rows == rows0 && nextId == nextId0
    {
      column := column0;
      rows := rows0;
      nextId := nextId0;
    }

    /** The batched backfill loop, on the table held by this object. */
    method BackfillBatches(expected: nat, gen: nat -> Uuid, now: Time, fail: Option<nat>, q0: nat)
      returns (filled: seq<FilledRow>, q: nat, failed: bool)
      requires Valid() && column.Some? && FreshSupply(gen, rows)
      modifies this
      ensures Valid() && column == old(column) && nextId == old(nextId)
      ensures Progressed(old(rows), rows, filled, gen, now)
      ensures !failed ==> Outcome(rows, filled) == Run(old(rows), expected, 0, gen, 0, now)
      ensures failed ==> fail == Some(q)
      ensures !failed ==> PassedFrom(fail, q0, q)
    {
      var table;
      table, filled, q, failed := BackfillRows(rows, column, nextId, expected, gen, now, fail, q0);
      rows := table;
    }

    /**
     * POST /api/feedings/auto-migrate. Queries in order: the column check,
     * the DDL when the column is absent, the null count, the loop, the
     * final null count and the total count. `errorMessage` is the message
     * of whatever the failing query throws.
     */
    method AutoMigrate(gen: nat -> Uuid, now: Time, fail: Option<nat>, errorMessage: string)
      returns (reply: AutoReply, ghost filled: seq<FilledRow>)
      requires Valid() && FreshSupply(gen, rows)
      modifies this
      ensures Valid() && nextId == old(nextId)
      ensures old(column).Some? ==> column == old(column)
      ensures old(column).None? ==> column == None || column == Some(AddedClientIdColumn)
      ensures reply.MigrationFailed? ==> reply.error == errorMessage
      ensures reply.Migrated? ==> column.Some?
      ensures Progressed(old(rows), rows, filled, gen, now)
      ensures reply.Migrated? ==> MigratedReply(old(rows), rows, filled, gen, now, reply)
      ensures NullCount(old(rows)) == 0 ==> rows == old(rows)
      ensures fail.None? ==> reply.Migrated?
    {
      filled := [];
      ProgressedStart(rows, gen, now);
      if fail == Some(0) {
        return MigrationFailed(errorMessage), filled;
      }
      var q := 1;
      if column.None? {
        if fail == Some(1) {
          return MigrationFailed(errorMessage), filled;
        }
        column := Some(AddedClientIdColumn);
        q := 2;
      }
      var table;
      table, reply, filled := MigrateRows(rows, column, nextId, gen, now, fail, q, errorMessage);
      rows := table;
    }

    /**
     * POST /api/feedings/backfill-client-ids. Queries in order: the column
     * check, the null count, the loop and the final null count. The 400 for
     * a missing column passes through the handler's catch unchanged; every
     * other failure becomes a 500.
     */
    method BackfillClientIds(gen: nat -> Uuid, now: Time, fail: Option<nat>)
      returns (result: Result<BackfillReply, HttpError>, updatedRecords: seq<FilledRow>)
      requires Valid() && FreshSupply(gen, rows)
      modifies this
      ensures Valid() && column == old(column) && nextId == old(nextId)
      ensures Progressed(old(rows), rows, updatedRecords, gen, now)
      ensures old(column).None? && fail != Some(0) ==>
        result == Err(HttpError(400, "client_id column does not exist. Run migration first.")) && rows == old(rows)
      ensures result.Err? ==> result.error == HttpError(500, "Failed to backfill client_ids") || result.error.statusCode == 400
      ensures result == Ok(NothingToBackfill) ==> NullCount(old(rows)) == 0 && rows == old(rows)
      ensures result.Ok? && result.value.Backfilled? ==>
        var run := Run(old(rows), NullCount(old(rows)), 0, gen, 0, now);
        var r := result.value;
        && rows == run.rows && updatedRecords == run.filled
        && r.updatedCount == |updatedRecords|
        && r.records == Take(updatedRecords, 10)
        && r.remainingRecords == NullCount(rows)
        && (r.status == Complete <==> r.remainingRecords == 0)
      ensures fail.None? && old(column).Some? ==> result.Ok?
    {
      updatedRecords := [];
      ProgressedStart(rows, gen, now);
      if fail == Some(0) {
        return Err(HttpError(500, "Failed to backfill client_ids")), updatedRecords;
      }
      if column.None? {
        return Err(HttpError(400, "client_id column does not exist. Run migration first.")), updatedRecords;
      }
      if fail == Some(1) {
        return Err(HttpError(500, "Failed to backfill client_ids")), updatedRecords;
      }
      var expected := NullCount(rows);
      if expected == 0 {
        return Ok(NothingToBackfill), updatedRecords;
      }
      var q, failed;
      updatedRecords, q, failed := BackfillBatches(expected, gen, now, fail, 2);
      if failed || fail == Some(q) {
        return Err(HttpError(500, "Failed to backfill client_ids")), updatedRecords;
      }
      var remaining := NullCount(rows);
      result := Ok(Backfilled(|updatedRecords|, remaining, StatusFrom(remaining), Take(updatedRecords, 10)));
    }

    /**
     * POST /api/feedings/run-migration. Queries in order: the column check,
     * the DDL (one atomic step) and the verification read of the column.
     */
    method RunMigration(fail: Option<nat>) returns (result: Result<MigrationReply, HttpError>)
      requires Valid()
      modifies this
      ensures Valid() && rows == old(rows) && nextId == old(nextId)
      ensures old(column).Some? && fail != Some(0) ==> result == Ok(AlreadyExists) && column == old(column)
      ensures old(column).Some? ==> column == old(column)
      ensures old(column).None? ==> column == None || column == Some(AddedClientIdColumn)
      ensures result.Ok? ==> column.Some?
      ensures result.Err? ==> result.error == HttpError(500, "Failed to run database migration")
      ensures result.Ok? && result.value.Completed? ==>
        && old(column).None?
        && result.value.columnInfo.name == column.value.name
        && result.value.columnInfo.dataType == column.value.dataType
        && (result.value.columnInfo.nullable <==> column.value.isNullable == "YES")
        && result.value.columnInfo.columnDefault == column.value.columnDefault
      ensures old(column).None? && fail.None? ==> result.Ok? && result.value.Completed?
    {
      if fail == Some(0) {
        return Err(HttpError(500, "Failed to run database migration"));
      }
      if column.Some? {
        return Ok(AlreadyExists);
      }
      if fail == Some(1) {
        return Err(HttpError(500, "Failed to run database migration"));
      }
      column := Some(AddedClientIdColumn);
      if fail == Some(2) {
        return Err(HttpError(500, "Failed to run database migration"));
      }
      var info := column.value;
      result := Ok(Completed(ColumnReport(info.name, info.dataType, info.isNullable == "YES", info.columnDefault)));
    }

    /** A second migration after a successful one reports that the column already exists and changes nothing. */
    method RunMigrationTwice() returns (first: Result<MigrationReply, HttpError>, second: Result<MigrationReply, HttpError>)
      requires Valid()
      modifies this
      ensures first.Ok? && second == Ok(AlreadyExists)
      ensures old(column).Some? ==> first == Ok(AlreadyExists)
      ensures old(column).None? ==> column == Some(AddedClientIdColumn)
      ensures rows == old(rows) && nextId == old(nextId)
    {
      first := RunMigration(None);
      var c := column;
      second := RunMigration(None);
      assert column == c;
    }

    /**
     * POST /api/feedings: `cid` is the UUID the handler generates and
     * `answer` how the `INSERT` would be answered; the insert itself also
     * throws when the column is missing, when `cid` is already taken, or
     * when the time text does not parse (the handler then passes null for a
     * required column).
     */
    method CreateFeeding(input: FeedingInput, cid: Uuid, now: Time, answer: InsertAnswer) returns (reply: CreateReply)
      requires Valid()
      modifies this
      ensures Valid() && column == old(column)
      ensures input.feedingTime.Missing? ==> reply == NotSaved("feeding_time is required")
      ensures reply.NotSaved? ==> rows == old(rows) && nextId == old(nextId)
      ensures reply.NotSaved? && !input.feedingTime.Missing? ==> reply.message == "Failed to create feeding record"
      ensures reply.Saved? <==>
        input.feedingTime.At? && old(column).Some? && !ClientIdTaken(old(rows), cid) && answer == ReturnsRow
      ensures reply.Saved? ==>
        && reply.feeding == Row(old(nextId), Some(cid), input.feedingTime.instant, input.foodType.GetOr(""), input.notes.GetOr(""), now, now)
        && rows == old(rows) + [reply.feeding]
        && nextId == old(nextId) + 1
    {
      if input.feedingTime.Missing? {
        return NotSaved("feeding_time is required");
      }
      if input.feedingTime.Unparseable? || column.None? || ClientIdTaken(rows, cid) || answer == Throws {
        return NotSaved("Failed to create feeding record");
      }
      if answer == ReturnsNothing {
        return NotSaved("Failed to create feeding record");
      }
      var row := Row(nextId, Some(cid), input.feedingTime.instant, input.foodType.GetOr(""), input.notes.GetOr(""), now, now);
      rows := rows + [row];
      nextId := nextId + 1;
      reply := Saved(row);
    }
  }
}
