/**
 * GET /api/feedings: the feeding history, optionally searched, ordered by
 * feeding time, one page at a time, with the size of the whole result.
 */
module FeedingQuery {
  import opened Wrappers
  import opened Seqs
  import opened Sorting
  import opened Text
  import opened Schema

  /** The query parameters; an absent one takes the handler's default. */
  datatype ListParams = ListParams(sort: Option<string>, limit: IntText, offset: IntText, search: Option<string>)

  /** The reply body: the page, the number of rows matching the search, and the parsed `limit` and `offset`. */
  datatype ListReply = ListReply(feedings: seq<Row>, total: nat, limit: nat, offset: nat)

  const DefaultLimit: nat := 50

  /** `food_type ILIKE '%search%' OR notes ILIKE '%search%'`; an empty search keeps every row. */
  predicate Matches(r: Row, search: string) {
    search == [] || ContainsIgnoringCase(r.foodType, search) || ContainsIgnoringCase(r.notes, search)
  }

  function Searched(rows: seq<Row>, search: string): seq<Row> {
    Filter(rows, (r: Row) => Matches(r, search))
  }

  function FeedingAsc(a: Row, b: Row): bool {
    a.feedingTime <= b.feedingTime
  }

  function FeedingDesc(a: Row, b: Row): bool {
    a.feedingTime >= b.feedingTime
  }

  /** `ORDER BY feeding_time ASC` exactly for `sort=asc`; any other value, or none, sorts newest first. */
  function OrderFor(sort: string): (Row, Row) -> bool {
    if sort == "asc" then FeedingAsc else FeedingDesc
  }

  /** The handler; `dbFails` says that the page query or the count query failed. */
  function ListFeedings(rows: seq<Row>, params: ListParams, dbFails: bool): Result<ListReply, HttpError> {
    var sort := params.sort.GetOr("desc");
    var search := params.search.GetOr("");
    var limit := SqlCount(params.limit, DefaultLimit);
    var offset := SqlCount(params.offset, 0);
    if dbFails || limit.None? || offset.None? then Err(HttpError(500, "Failed to fetch feedings"))
    else
      var matching := Searched(rows, search);
      var ordered := SortBy(matching, OrderFor(sort));
      Ok(ListReply(Page(ordered, offset.value, limit.value), |matching|, limit.value, offset.value))
  }

  /** Leaving out a parameter is the same as passing its default. */
  lemma ListDefaults(rows: seq<Row>, dbFails: bool)
    ensures ListFeedings(rows, ListParams(None, Absent, Absent, None), dbFails)
         == ListFeedings(rows, ListParams(Some("desc"), Parsed(50), Parsed(0), Some("")), dbFails)
  {
  }

  /** The one error reply: a failed query, or a `limit`/`offset` that is not a non-negative integer. */
  lemma ListErrors(rows: seq<Row>, params: ListParams, dbFails: bool)
    ensures ListFeedings(rows, params, dbFails).Err? <==>
      dbFails || SqlCount(params.limit, DefaultLimit).None? || SqlCount(params.offset, 0).None?
    ensures ListFeedings(rows, params, dbFails).Err? ==>
      ListFeedings(rows, params, dbFails).error == HttpError(500, "Failed to fetch feedings")
  {
  }

  lemma OrdersTotal()
    ensures TotalPreorder(FeedingAsc) && TotalPreorder(FeedingDesc)
  {
  }

  /**
   * A page is the matching rows, ordered by feeding time (ascending only
   * for `asc`), with `offset` of them skipped and at most `limit` kept; it
   * holds only rows of the table that match the search, and the echoed
   * `limit` and `offset` are the parsed ones.
   */
  lemma {:induction false} ListPage(rows: seq<Row>, params: ListParams, limit: nat, offset: nat)
    requires SqlCount(params.limit, DefaultLimit) == Some(limit) && SqlCount(params.offset, 0) == Some(offset)
    ensures ListFeedings(rows, params, false).Ok?
    ensures var reply := ListFeedings(rows, params, false).value;
      var search := params.search.GetOr("");
      var ordered := SortBy(Searched(rows, search), OrderFor(params.sort.GetOr("desc")));
      && multiset(ordered) == multiset(Searched(rows, search))
      && (params.sort == Some("asc") ==> forall i, j :: 0 <= i < j < |ordered| ==> ordered[i].feedingTime <= ordered[j].feedingTime)
      && (params.sort != Some("asc") ==> forall i, j :: 0 <= i < j < |ordered| ==> ordered[i].feedingTime >= ordered[j].feedingTime)
      && |reply.feedings| == (if offset < reply.total then Min(limit, reply.total - offset) else 0)
      && (forall i :: 0 <= i < |reply.feedings| ==> reply.feedings[i] == ordered[offset + i])
      && (forall x :: x in reply.feedings ==> x in rows && Matches(x, search))
      && reply.limit == limit && reply.offset == offset
  {
    var search := params.search.GetOr("");
    var matching := Searched(rows, search);
    var le := OrderFor(params.sort.GetOr("desc"));
    var ordered := SortBy(matching, le);
    OrdersTotal();
    SortSorted(matching, le);
    SortMembers(matching, le);
    SortMultiset(matching, le);
    var reply := ListFeedings(rows, params, false).value;
    forall x | x in reply.feedings
      ensures x in rows && Matches(x, search)
    {
      var i :| 0 <= i < |reply.feedings| && reply.feedings[i] == x;
      assert ordered[offset + i] == x;
    }
  }

  /** `total` counts every matching row: it depends on the search alone, not on the page asked for or the order. */
  lemma ListTotal(rows: seq<Row>, p1: ListParams, p2: ListParams)
    requires p1.search == p2.search
    requires ListFeedings(rows, p1, false).Ok? && ListFeedings(rows, p2, false).Ok?
    ensures ListFeedings(rows, p1, false).value.total == ListFeedings(rows, p2, false).value.total
    ensures ListFeedings(rows, p1, false).value.total == |Searched(rows, p1.search.GetOr(""))|
  {
  }

  /** Without a search the total is the table size, as `SELECT COUNT(*) FROM feeding_records`. */
  lemma {:induction false} ListTotalUnsearched(rows: seq<Row>, params: ListParams)
    requires params.search.GetOr("") == ""
    requires ListFeedings(rows, params, false).Ok?
    ensures ListFeedings(rows, params, false).value.total == |rows|
  {
    FilterAll(rows, (r: Row) => Matches(r, ""));
  }
}
