/**
 * The batched client-id backfill shared by POST /api/feedings/auto-migrate
 * and POST /api/feedings/backfill-client-ids, as functions of the table.
 *
 * The loop reads `expected`, the number of rows whose `client_id` is null,
 * once before it starts. Each round selects
 * `WHERE client_id IS NULL ORDER BY created_at ASC LIMIT 100 OFFSET offset`,
 * gives every selected row the next generated id and a new `updated_at`,
 * and then advances `offset` by 100. Since filled rows leave the null set,
 * the offset skips rows that are still null: one run fills every row only
 * when at most 100 were null (`SingleRunCompletesIff`).
 */
module Backfill {
  import opened Wrappers
  import opened Seqs
  import opened Sorting
  import opened Schema

  const BatchSize: nat := 100

  predicate CreatedNoLater(a: Row, b: Row) {
    a.createdAt <= b.createdAt
  }

  /** The rows still lacking a client id, in the order the batch query reads them. */
  function Pending(rows: seq<Row>): seq<Row> {
    SortBy(Filter(rows, IsNull), CreatedNoLater)
  }

  /** The batch query reads every null row once, by ascending creation time, and nothing else. */
  lemma PendingFacts(rows: seq<Row>)
    requires UniqueIds(rows)
    ensures |Pending(rows)| == NullCount(rows)
    ensures forall x :: x in Pending(rows) <==> x in rows && IsNull(x)
    ensures DistinctBy(Pending(rows), RowId)
    ensures SortedBy(Pending(rows), CreatedNoLater)
  {
    var nulls := Filter(rows, IsNull);
    SortMembers(nulls, CreatedNoLater);
    FilterDistinctBy(rows, IsNull, RowId);
    SortDistinctBy(nulls, CreatedNoLater, RowId);
    SortSorted(nulls, CreatedNoLater);
  }

  /** A row as `SET client_id = $1, updated_at = NOW()` leaves it. */
  function Fill(r: Row, cid: Uuid, now: Time): Row {
    r.(clientId := Some(cid), updatedAt := now)
  }

  /** `UPDATE feeding_records SET client_id = cid, updated_at = NOW() WHERE id = id`. */
  function Assign(rows: seq<Row>, id: nat, cid: Uuid, now: Time): (r: seq<Row>)
    ensures |r| == |rows|
    ensures forall i :: 0 <= i < |rows| ==> r[i] == if rows[i].id == id then Fill(rows[i], cid, now) else rows[i]
  {
    if rows == [] then []
    else [if rows[0].id == id then Fill(rows[0], cid, now) else rows[0]] + Assign(rows[1..], id, cid, now)
  }

  /** What the handler records about one updated row: `{ id, client_id, feeding_time }`. */
  datatype FilledRow = FilledRow(id: nat, clientId: Uuid, feedingTime: Time)

  function FilledRowId(f: FilledRow): nat {
    f.id
  }

  /** One batch of updates: the `i`-th selected row gets generated id number `k + i`. */
  function AssignBatch(rows: seq<Row>, batch: seq<Row>, gen: nat -> Uuid, k: nat, now: Time): seq<Row>
    decreases |batch|
  {
    if batch == [] then rows
    else AssignBatch(Assign(rows, batch[0].id, gen(k), now), batch[1..], gen, k + 1, now)
  }

  /** The records one batch reports, the `i`-th with generated id number `k + i`. */
  function Stamp(batch: seq<Row>, gen: nat -> Uuid, k: nat): (r: seq<FilledRow>)
    ensures |r| == |batch|
    ensures forall i :: 0 <= i < |batch| ==> r[i] == FilledRow(batch[i].id, gen(k + i), batch[i].feedingTime)
    decreases |batch|
  {
    if batch == [] then []
    else [FilledRow(batch[0].id, gen(k), batch[0].feedingTime)] + Stamp(batch[1..], gen, k + 1)
  }

  /** The table after a run and the records the run accumulated. */
  datatype Outcome = Outcome(rows: seq<Row>, filled: seq<FilledRow>)

  /**
   * The loop from `offset` on, when the count read before it was `expected`
   * and `k` ids have been drawn from `gen` so far.
   */
  function Run(rows: seq<Row>, expected: nat, offset: nat, gen: nat -> Uuid, k: nat, now: Time): Outcome
    decreases if offset < expected then expected - offset else 0
  {
    if offset >= expected then Outcome(rows, [])
    else
      var batch := Page(Pending(rows), offset, BatchSize);
      if batch == [] then Outcome(rows, [])
      else
        var rest := Run(AssignBatch(rows, batch, gen, k, now), expected, offset + BatchSize, gen, k + |batch|, now);
        Outcome(rest.rows, Stamp(batch, gen, k) + rest.filled)
  }

  /** The number of rows a run fills, from the number `m` of null rows alone. */
  function FilledCount(m: nat, expected: nat, offset: nat): nat
    decreases if offset < expected then expected - offset else 0
  {
    if offset >= expected || m <= offset then 0
    else
      var b := Min(BatchSize, m - offset);
      b + FilledCount(m - b, expected, offset + BatchSize)
  }

  /** Filling one null row lowers the null count by one. */
  lemma AssignNullCount(rows: seq<Row>, r: Row, cid: Uuid, now: Time)
    requires UniqueIds(rows) && r in rows && IsNull(r)
    ensures NullCount(Assign(rows, r.id, cid, now)) == NullCount(rows) - 1
  {
    var a := Assign(rows, r.id, cid, now);
    var k :| 0 <= k < |rows| && rows[k] == r;
    forall i | 0 <= i < |rows| && i != k
      ensures IsNull(rows[i]) == IsNull(a[i])
    {
      assert rows[i].id != rows[k].id;
    }
    FilterLengthDrop(rows, a, IsNull, k);
  }

  /** A row the update does not target stays in the table as it was. */
  lemma AssignKeeps(rows: seq<Row>, id: nat, cid: Uuid, now: Time, x: Row)
    requires x in rows && x.id != id
    ensures x in Assign(rows, id, cid, now)
  {
    var p :| 0 <= p < |rows| && rows[p] == x;
    assert Assign(rows, id, cid, now)[p] == x;
  }

  /** Updates leave every row's key where it was. */
  lemma AssignBatchIds(rows: seq<Row>, batch: seq<Row>, gen: nat -> Uuid, k: nat, now: Time)
    ensures |AssignBatch(rows, batch, gen, k, now)| == |rows|
    ensures forall i :: 0 <= i < |rows| ==> AssignBatch(rows, batch, gen, k, now)[i].id == rows[i].id
    decreases |batch|
  {
    if batch != [] {
      AssignBatchIds(Assign(rows, batch[0].id, gen(k), now), batch[1..], gen, k + 1, now);
    }
  }

  /** Targeting one row keeps the keys unique. */
  lemma AssignUniqueIds(rows: seq<Row>, id: nat, cid: Uuid, now: Time)
    requires UniqueIds(rows)
    ensures UniqueIds(Assign(rows, id, cid, now))
  {
    var next := Assign(rows, id, cid, now);
    forall i, j | 0 <= i < j < |next|
      ensures next[i].id != next[j].id
    {
      assert next[i].id == rows[i].id && next[j].id == rows[j].id;
    }
  }

  /** After the first row of a batch is filled, the rest of the batch is still null and in the table. */
  lemma BatchTail(rows: seq<Row>, batch: seq<Row>, cid: Uuid, now: Time)
    requires batch != [] && DistinctBy(batch, RowId)
    requires forall x :: x in batch ==> x in rows && IsNull(x)
    ensures DistinctBy(batch[1..], RowId)
    ensures forall x :: x in batch[1..] ==> x in Assign(rows, batch[0].id, cid, now) && IsNull(x)
  {
    var tail := batch[1..];
    forall x | x in tail
      ensures x in Assign(rows, batch[0].id, cid, now) && IsNull(x)
    {
      var j :| 0 <= j < |tail| && tail[j] == x;
      assert batch[j + 1] == x;
      AssignKeeps(rows, batch[0].id, cid, now, x);
    }
    forall i, j | 0 <= i < j < |tail|
      ensures tail[i].id != tail[j].id
    {
      assert tail[i] == batch[i + 1] && tail[j] == batch[j + 1];
    }
  }

  /** A batch of distinct null rows lowers the null count by its size. */
  lemma {:induction false} AssignBatchNullCount(rows: seq<Row>, batch: seq<Row>, gen: nat -> Uuid, k: nat, now: Time)
    requires UniqueIds(rows) && DistinctBy(batch, RowId)
    requires forall x :: x in batch ==> x in rows && IsNull(x)
    ensures NullCount(AssignBatch(rows, batch, gen, k, now)) == NullCount(rows) - |batch|
    decreases |batch|
  {
    if batch != [] {
      assert batch[0] in batch;
      AssignNullCount(rows, batch[0], gen(k), now);
      AssignUniqueIds(rows, batch[0].id, gen(k), now);
      BatchTail(rows, batch, gen(k), now);
      AssignBatchNullCount(Assign(rows, batch[0].id, gen(k), now), batch[1..], gen, k + 1, now);
    }
  }

  /** One round's batch: distinct null rows of the table, as many as remain after `offset`, at most 100. */
  lemma BatchFacts(rows: seq<Row>, offset: nat)
    requires UniqueIds(rows)
    ensures var batch := Page(Pending(rows), offset, BatchSize);
      && DistinctBy(batch, RowId)
      && (forall x :: x in batch ==> x in rows && IsNull(x))
      && |batch| == if offset < NullCount(rows) then Min(BatchSize, NullCount(rows) - offset) else 0
  {
    var pending := Pending(rows);
    PendingFacts(rows);
    var batch := Page(pending, offset, BatchSize);
    PageDistinctBy(pending, offset, BatchSize, RowId);
    forall x | x in batch
      ensures x in rows && IsNull(x)
    {
      var j :| 0 <= j < |batch| && batch[j] == x;
      assert pending[offset + j] == x;
    }
  }

  /** Updates keep the keys unique. */
  lemma AssignBatchUniqueIds(rows: seq<Row>, batch: seq<Row>, gen: nat -> Uuid, k: nat, now: Time)
    requires UniqueIds(rows)
    ensures UniqueIds(AssignBatch(rows, batch, gen, k, now))
  {
    var next := AssignBatch(rows, batch, gen, k, now);
    AssignBatchIds(rows, batch, gen, k, now);
    forall i, j | 0 <= i < j < |next|
      ensures next[i].id != next[j].id
    {
      assert next[i].id == rows[i].id && next[j].id == rows[j].id;
    }
  }

  /** One round of the loop, unfolded, as far as the counts go. */
  lemma RunUnfold(rows: seq<Row>, expected: nat, offset: nat, gen: nat -> Uuid, k: nat, now: Time)
    requires offset < expected
    ensures var batch := Page(Pending(rows), offset, BatchSize);
      && (batch == [] ==> Run(rows, expected, offset, gen, k, now) == Outcome(rows, []))
      && (batch != [] ==>
            var rest := Run(AssignBatch(rows, batch, gen, k, now), expected, offset + BatchSize, gen, k + |batch|, now);
            && Run(rows, expected, offset, gen, k, now).rows == rest.rows
            && |Run(rows, expected, offset, gen, k, now).filled| == |batch| + |rest.filled|)
  {
  }

  /** One round's batch and what filling it does to the table's keys and null count. */
  lemma RoundFacts(rows: seq<Row>, offset: nat, gen: nat -> Uuid, k: nat, now: Time)
    requires UniqueIds(rows)
    ensures var batch := Page(Pending(rows), offset, BatchSize);
      var next := AssignBatch(rows, batch, gen, k, now);
      && |batch| == (if offset < NullCount(rows) then Min(BatchSize, NullCount(rows) - offset) else 0)
      && UniqueIds(next)
      && NullCount(next) == NullCount(rows) - |batch|
  {
    var batch := Page(Pending(rows), offset, BatchSize);
    BatchFacts(rows, offset);
    AssignBatchUniqueIds(rows, batch, gen, k, now);
    AssignBatchNullCount(rows, batch, gen, k, now);
  }

  /** The run's accounting: it fills `FilledCount` rows and the null count drops by exactly that many. */
  lemma RunCount(rows: seq<Row>, expected: nat, offset: nat, gen: nat -> Uuid, k: nat, now: Time)
    requires UniqueIds(rows)
    ensures |Run(rows, expected, offset, gen, k, now).filled| == FilledCount(NullCount(rows), expected, offset)
    ensures NullCount(Run(rows, expected, offset, gen, k, now).rows) == NullCount(rows) - |Run(rows, expected, offset, gen, k, now).filled|
  {
    RunFilled(rows, expected, offset, gen, k, now);
    RunNulls(rows, expected, offset, gen, k, now);
  }

  lemma {:induction false} RunFilled(rows: seq<Row>, expected: nat, offset: nat, gen: nat -> Uuid, k: nat, now: Time)
    requires UniqueIds(rows)
    ensures |Run(rows, expected, offset, gen, k, now).filled| == FilledCount(NullCount(rows), expected, offset)
    decreases if offset < expected then expected - offset else 0
  {
    var batch := Page(Pending(rows), offset, BatchSize);
    if offset < expected && batch != [] {
      var next := AssignBatch(rows, batch, gen, k, now);
      AssignBatchUniqueIds(rows, batch, gen, k, now);
      RunFilled(next, expected, offset + BatchSize, gen, k + |batch|, now);
      RunFilledStep(rows, expected, offset, gen, k, now, batch, next);
    } else {
      RunStops(rows, expected, offset, gen, k, now);
    }
  }

  /** A round with a non-empty batch adds that batch's size to what the rest of the run fills. */
  lemma RunFilledStep(rows: seq<Row>, expected: nat, offset: nat, gen: nat -> Uuid, k: nat, now: Time, batch: seq<Row>, next: seq<Row>)
    requires UniqueIds(rows) && offset < expected
    requires batch == Page(Pending(rows), offset, BatchSize) && batch != []
    requires next == AssignBatch(rows, batch, gen, k, now)
    requires |Run(next, expected, offset + BatchSize, gen, k + |batch|, now).filled| == FilledCount(NullCount(next), expected, offset + BatchSize)
    ensures |Run(rows, expected, offset, gen, k, now).filled| == FilledCount(NullCount(rows), expected, offset)
  {
    RoundFacts(rows, offset, gen, k, now);
    RunUnfold(rows, expected, offset, gen, k, now);
    FilledCountStep(NullCount(rows), expected, offset, |batch|, NullCount(next));
  }

  /** A run that stops at once (offset reached, or an empty batch) fills nothing and none were left to fill from `offset`. */
  lemma RunStops(rows: seq<Row>, expected: nat, offset: nat, gen: nat -> Uuid, k: nat, now: Time)
    requires UniqueIds(rows)
    requires offset >= expected || Page(Pending(rows), offset, BatchSize) == []
    ensures Run(rows, expected, offset, gen, k, now) == Outcome(rows, [])
    ensures FilledCount(NullCount(rows), expected, offset) == 0
  {
    if offset < expected {
      RoundFacts(rows, offset, gen, k, now);
    }
  }

  lemma {:induction false} RunNulls(rows: seq<Row>, expected: nat, offset: nat, gen: nat -> Uuid, k: nat, now: Time)
    requires UniqueIds(rows)
    ensures NullCount(Run(rows, expected, offset, gen, k, now).rows) == NullCount(rows) - |Run(rows, expected, offset, gen, k, now).filled|
    decreases if offset < expected then expected - offset else 0
  {
    var batch := Page(Pending(rows), offset, BatchSize);
    if offset < expected && batch != [] {
      var next := AssignBatch(rows, batch, gen, k, now);
      AssignBatchUniqueIds(rows, batch, gen, k, now);
      RunNulls(next, expected, offset + BatchSize, gen, k + |batch|, now);
      RunNullsStep(rows, expected, offset, gen, k, now, batch, next);
    } else {
      RunStops(rows, expected, offset, gen, k, now);
    }
  }

  /** A round with a non-empty batch lowers the null count by that batch's size before the rest of the run. */
  lemma RunNullsStep(rows: seq<Row>, expected: nat, offset: nat, gen: nat -> Uuid, k: nat, now: Time, batch: seq<Row>, next: seq<Row>)
    requires UniqueIds(rows) && offset < expected
    requires batch == Page(Pending(rows), offset, BatchSize) && batch != []
    requires next == AssignBatch(rows, batch, gen, k, now)
    requires NullCount(Run(next, expected, offset + BatchSize, gen, k + |batch|, now).rows) == NullCount(next) - |Run(next, expected, offset + BatchSize, gen, k + |batch|, now).filled|
    ensures NullCount(Run(rows, expected, offset, gen, k, now).rows) == NullCount(rows) - |Run(rows, expected, offset, gen, k, now).filled|
  {
    RoundFacts(rows, offset, gen, k, now);
    RunUnfold(rows, expected, offset, gen, k, now);
  }

  lemma FilledCountStep(m: nat, expected: nat, offset: nat, b: nat, rest: nat)
    requires offset < expected && offset < m
    requires b == Min(BatchSize, m - offset) && rest == m - b
    ensures FilledCount(m, expected, offset) == b + FilledCount(rest, expected, offset + BatchSize)
  {
  }

  /** A run fills at most the null rows that lie at or after `offset`. */
  lemma {:induction false} FilledCountBound(m: nat, expected: nat, offset: nat)
    ensures FilledCount(m, expected, offset) <= if m > offset then m - offset else 0
    decreases if offset < expected then expected - offset else 0
  {
    if offset < expected && m > offset {
      var b := Min(BatchSize, m - offset);
      FilledCountBound(m - b, expected, offset + BatchSize);
    }
  }

  /**
   * One run starting with `m` null rows fills them all exactly when there
   * are at most 100; otherwise it fills fewer (and the handlers report
   * `partial`), but always at least the first batch.
   */
  lemma {:induction false} SingleRunCompletesIff(m: nat)
    ensures FilledCount(m, m, 0) == m <==> m <= BatchSize
    ensures FilledCount(m, m, 0) >= Min(m, BatchSize)
  {
    if m > 0 {
      var b := Min(BatchSize, m);
      FilledCountBound(m - b, m, BatchSize);
      assert FilledCount(m, m, 0) == b + FilledCount(m - b, m, BatchSize);
    }
  }

  /** With 250 null rows, one run fills 150 of them and leaves 100 null. */
  lemma TwoHundredFiftyNullRows(rows: seq<Row>, gen: nat -> Uuid, now: Time)
    requires UniqueIds(rows) && NullCount(rows) == 250
    ensures |Run(rows, 250, 0, gen, 0, now).filled| == 150
    ensures NullCount(Run(rows, 250, 0, gen, 0, now).rows) == 100
  {
    RunCount(rows, 250, 0, gen, 0, now);
    assert FilledCount(50, 250, 200) == 0;
    assert FilledCount(100, 250, 200) == 0;
    assert FilledCount(150, 250, 100) == 50;
    assert FilledCount(250, 250, 0) == 150;
  }

  function FilledIds(filled: seq<FilledRow>): set<nat> {
    set j | 0 <= j < |filled| :: filled[j].id
  }

  function RowIds(rows: seq<Row>): set<nat> {
    set i | 0 <= i < |rows| :: rows[i].id
  }

  /**
   * `after` is `before` with exactly the rows named in `filled` changed:
   * each of them had a null client id, is named once, and now has the
   * listed client id and `updated_at = now`; every other row is unchanged.
   */
  ghost predicate FilledExactly(before: seq<Row>, after: seq<Row>, filled: seq<FilledRow>, now: Time) {
    && |after| == |before|
    && DistinctBy(filled, FilledRowId)
    && FilledIds(filled) <= RowIds(before)
    && (forall i :: 0 <= i < |before| ==> after[i].id == before[i].id)
    && (forall i :: 0 <= i < |before| && before[i].id !in FilledIds(filled) ==> after[i] == before[i])
    && (forall i, j :: 0 <= i < |before| && 0 <= j < |filled| && before[i].id == filled[j].id ==>
          && IsNull(before[i])
          && after[i] == Fill(before[i], filled[j].clientId, now)
          && filled[j].feedingTime == before[i].feedingTime)
  }

  lemma FilledExactlyNothing(rows: seq<Row>, now: Time)
    ensures FilledExactly(rows, rows, [], now)
  {
  }

  /** A row that is still null in `after` has not been filled. */
  lemma NullRowsUnfilled(before: seq<Row>, after: seq<Row>, filled: seq<FilledRow>, now: Time, x: Row)
    requires FilledExactly(before, after, filled, now) && UniqueIds(before)
    requires x in after && IsNull(x)
    ensures x.id !in FilledIds(filled)
  {
  }

  /** Recording one more row adds its key to the recorded keys. */
  lemma FilledIdsAppend(filled: seq<FilledRow>, e: FilledRow)
    ensures FilledIds(filled + [e]) == FilledIds(filled) + {e.id}
  {
    var filled' := filled + [e];
    forall x | x in FilledIds(filled')
      ensures x in FilledIds(filled) + {e.id}
    {
      var j :| 0 <= j < |filled'| && filled'[j].id == x;
      if j < |filled| {
        assert filled[j].id == x;
      }
    }
    forall x | x in FilledIds(filled)
      ensures x in FilledIds(filled')
    {
      var j :| 0 <= j < |filled| && filled[j].id == x;
      assert filled'[j].id == x;
    }
    assert filled'[|filled|].id == e.id;
  }

  /** A row not yet recorded keeps the record keys distinct. */
  lemma FilledDistinctAppend(filled: seq<FilledRow>, e: FilledRow)
    requires DistinctBy(filled, FilledRowId) && e.id !in FilledIds(filled)
    ensures DistinctBy(filled + [e], FilledRowId)
  {
    var filled' := filled + [e];
    forall i, j | 0 <= i < j < |filled'|
      ensures filled'[i].id != filled'[j].id
    {
      if j == |filled| {
        assert filled[i].id in FilledIds(filled);
      }
    }
  }

  /** Filling one more null row extends the record list by that row. */
  lemma FillStep(before: seq<Row>, after: seq<Row>, filled: seq<FilledRow>, b: Row, cid: Uuid, now: Time)
    requires FilledExactly(before, after, filled, now) && UniqueIds(before)
    requires b in after && IsNull(b) && b.id !in FilledIds(filled)
    ensures FilledExactly(before, Assign(after, b.id, cid, now), filled + [FilledRow(b.id, cid, b.feedingTime)], now)
  {
    var e := FilledRow(b.id, cid, b.feedingTime);
    var p :| 0 <= p < |after| && after[p] == b;
    FillStepShape(before, after, filled, b, cid, now, p);
    FilledIdsAppend(filled, e);
    FilledDistinctAppend(filled, e);
    FillStepRecords(before, after, filled, b, cid, now, p);
  }

  /** The filled row is the one at `p`; keys stay in place and rows with keys neither recorded nor filled stay as they were. */
  lemma FillStepShape(before: seq<Row>, after: seq<Row>, filled: seq<FilledRow>, b: Row, cid: Uuid, now: Time, p: nat)
    requires FilledExactly(before, after, filled, now)
    requires p < |after| && after[p] == b && IsNull(b) && b.id !in FilledIds(filled)
    ensures var after' := Assign(after, b.id, cid, now);
      && before[p] == b
      && b.id in RowIds(before)
      && |after'| == |before|
      && (forall i :: 0 <= i < |before| ==> after'[i].id == before[i].id)
      && (forall i :: 0 <= i < |before| && before[i].id !in FilledIds(filled) + {b.id} ==> after'[i] == before[i])
  {
  }

  /** Every recorded row, the new one included, was null and now carries its recorded id. */
  lemma FillStepRecords(before: seq<Row>, after: seq<Row>, filled: seq<FilledRow>, b: Row, cid: Uuid, now: Time, p: nat)
    requires FilledExactly(before, after, filled, now) && UniqueIds(before)
    requires p < |after| && after[p] == b && before[p] == b && IsNull(b) && b.id !in FilledIds(filled)
    ensures var filled' := filled + [FilledRow(b.id, cid, b.feedingTime)];
      var after' := Assign(after, b.id, cid, now);
      forall i, j :: 0 <= i < |before| && 0 <= j < |filled'| && before[i].id == filled'[j].id ==>
        && IsNull(before[i])
        && after'[i] == Fill(before[i], filled'[j].clientId, now)
        && filled'[j].feedingTime == before[i].feedingTime
  {
    var filled' := filled + [FilledRow(b.id, cid, b.feedingTime)];
    forall i, j | 0 <= i < |before| && 0 <= j < |filled| && before[i].id == filled[j].id
      ensures IsNull(before[i]) && Assign(after, b.id, cid, now)[i] == Fill(before[i], filled[j].clientId, now)
      ensures filled[j].feedingTime == before[i].feedingTime
    {
      FillStepOld(before, after, filled, b.id, cid, now, i, j);
    }
    forall i | 0 <= i < |before| && before[i].id == b.id
      ensures IsNull(before[i]) && Assign(after, b.id, cid, now)[i] == Fill(before[i], cid, now)
    {
      FillStepNew(before, after, b, cid, now, p, i);
    }
    assert forall j :: 0 <= j < |filled| ==> filled'[j] == filled[j];
    assert filled'[|filled|] == FilledRow(b.id, cid, b.feedingTime);
  }

  /** The row filled now is the one at `p`, the only row with its key. */
  lemma FillStepNew(before: seq<Row>, after: seq<Row>, b: Row, cid: Uuid, now: Time, p: nat, i: nat)
    requires UniqueIds(before) && |after| == |before| && p < |before| && i < |before|
    requires before[p].id == b.id && after[p] == before[p] && before[i].id == b.id && IsNull(b) && after[p] == b
    ensures IsNull(before[i]) && Assign(after, b.id, cid, now)[i] == Fill(before[i], cid, now)
  {
    assert i == p;
  }

  /** A row filled earlier is not touched by filling another key. */
  lemma FillStepOld(before: seq<Row>, after: seq<Row>, filled: seq<FilledRow>, id: nat, cid: Uuid, now: Time, i: nat, j: nat)
    requires FilledExactly(before, after, filled, now) && id !in FilledIds(filled)
    requires i < |before| && j < |filled| && before[i].id == filled[j].id
    ensures IsNull(before[i]) && Assign(after, id, cid, now)[i] == Fill(before[i], filled[j].clientId, now)
    ensures filled[j].feedingTime == before[i].feedingTime
  {
    assert filled[j].id in FilledIds(filled);
  }
}
