/**
 * GET /api/food-types and GET /api/food-types/recent: the food types in
 * use, grouped by name and ranked by how often they are used, for the
 * autocomplete list and the quick-pick buttons.
 */
module FoodTypes {
  import opened Wrappers
  import opened Seqs
  import opened Sorting
  import opened Text
  import opened Schema

  const DefaultLimit: nat := 20
  const DefaultRecentLimit: nat := 8
  const RecentWindow: int := 30 * Day

  function FoodTypeOf(r: Row): string {
    r.foodType
  }

  /** `COUNT(*)` of the group `name` among the rows that passed the `WHERE`. */
  function Usage(scope: seq<Row>, name: string): nat {
    |Filter(scope, (r: Row) => r.foodType == name)|
  }

  /** The groups of `GROUP BY food_type`, each once, in order of first occurrence. */
  function Groups(scope: seq<Row>): seq<string> {
    Dedup(Image(scope, FoodTypeOf))
  }

  /** `MAX(created_at)` of the group `name`; only asked about a group that has rows. */
  function LastUsed(scope: seq<Row>, name: string): int {
    if scope == [] then 0
    else
      var rest := LastUsed(scope[1..], name);
      if scope[0].foodType != name then rest
      else if name in Image(scope[1..], FoodTypeOf) then Max(scope[0].createdAt, rest)
      else scope[0].createdAt
  }

  /** `ORDER BY usage_count DESC, food_type ASC`. */
  function MoreUsed(scope: seq<Row>): (string, string) -> bool {
    (a: string, b: string) => Usage(scope, a) > Usage(scope, b) || (Usage(scope, a) == Usage(scope, b) && LexLe(a, b))
  }

  /** `ORDER BY usage_count DESC, MAX(created_at) DESC`. */
  function MoreUsedRecently(scope: seq<Row>): (string, string) -> bool {
    (a: string, b: string) => Usage(scope, a) > Usage(scope, b) || (Usage(scope, a) == Usage(scope, b) && LastUsed(scope, a) >= LastUsed(scope, b))
  }

  /** `WHERE food_type != '' [AND food_type ILIKE '%search%']`. */
  predicate Listed(r: Row, search: string) {
    r.foodType != "" && (search == "" || ContainsIgnoringCase(r.foodType, search))
  }

  /** `WHERE food_type != '' AND created_at >= NOW() - INTERVAL '30 days'`. */
  predicate Recent(r: Row, now: Time) {
    r.foodType != "" && r.createdAt >= now - RecentWindow
  }

  function ListingScope(rows: seq<Row>, search: string): seq<Row> {
    Filter(rows, (r: Row) => Listed(r, search))
  }

  function RecentScope(rows: seq<Row>, now: Time): seq<Row> {
    Filter(rows, (r: Row) => Recent(r, now))
  }

  /** GET /api/food-types; `dbFails` says that the query failed. */
  function ListFoodTypes(rows: seq<Row>, search: Option<string>, limit: IntText, dbFails: bool): Result<seq<string>, HttpError> {
    var n := SqlCount(limit, DefaultLimit);
    if dbFails || n.None? then Err(HttpError(500, "Failed to fetch food types"))
    else
      var s := search.GetOr("");
      var scope := ListingScope(rows, s);
      Ok(Take(SortBy(Groups(scope), MoreUsed(scope)), n.value))
  }

  /** GET /api/food-types/recent at the database clock `now`. */
  function RecentFoodTypes(rows: seq<Row>, now: Time, limit: IntText, dbFails: bool): Result<seq<string>, HttpError> {
    var n := SqlCount(limit, DefaultRecentLimit);
    if dbFails || n.None? then Err(HttpError(500, "Failed to fetch recent food types"))
    else
      var scope := RecentScope(rows, now);
      Ok(Take(SortBy(Groups(scope), MoreUsedRecently(scope)), n.value))
  }

  lemma MoreUsedTotal(scope: seq<Row>)
    ensures TotalPreorder(MoreUsed(scope))
  {
    var le := MoreUsed(scope);
    forall a, b
      ensures le(a, b) || le(b, a)
    {
      LexLeTotal(a, b);
    }
    forall a, b, c | le(a, b) && le(b, c)
      ensures le(a, c)
    {
      if Usage(scope, a) == Usage(scope, b) == Usage(scope, c) {
        LexLeTransitive(a, b, c);
      }
    }
  }

  lemma MoreUsedRecentlyTotal(scope: seq<Row>)
    ensures TotalPreorder(MoreUsedRecently(scope))
  {
  }

  lemma ImageMembers(scope: seq<Row>, name: string)
    ensures name in Image(scope, FoodTypeOf) <==> exists r :: r in scope && r.foodType == name
  {
    if name in Image(scope, FoodTypeOf) {
      var i :| 0 <= i < |scope| && Image(scope, FoodTypeOf)[i] == name;
      assert scope[i] in scope;
    }
  }

  /** A group has rows exactly when its count is positive. */
  lemma {:induction false} UsagePositive(scope: seq<Row>, name: string)
    ensures Usage(scope, name) > 0 <==> name in Groups(scope)
  {
    var hits := Filter(scope, (r: Row) => r.foodType == name);
    ImageMembers(scope, name);
    if |hits| > 0 {
      assert hits[0] in hits;
    }
  }

  /** The group's latest `created_at` belongs to one of its rows and is no earlier than any of them. */
  lemma {:induction false} LastUsedIsMax(scope: seq<Row>, name: string)
    requires name in Image(scope, FoodTypeOf)
    ensures exists r :: r in scope && r.foodType == name && r.createdAt == LastUsed(scope, name)
    ensures forall r :: r in scope && r.foodType == name ==> r.createdAt <= LastUsed(scope, name)
  {
    assert scope != [];
    assert forall r :: r in scope[1..] ==> r in scope;
    assert forall r :: r in scope ==> r == scope[0] || r in scope[1..];
    if name in Image(scope[1..], FoodTypeOf) {
      LastUsedIsMax(scope[1..], name);
    } else {
      ImageMembers(scope[1..], name);
    }
  }

  /** The ranking's result: the first `limit` groups of `scope`, distinct, ordered by `le`, and no group left out ranks above one kept. */
  lemma {:induction false} TopGroups(scope: seq<Row>, le: (string, string) -> bool, limit: nat)
    requires TotalPreorder(le)
    ensures var names := Take(SortBy(Groups(scope), le), limit);
      && Distinct(names)
      && SortedBy(names, le)
      && |names| == Min(limit, |Groups(scope)|)
      && (forall n :: n in names ==> n in Groups(scope))
      && (forall n, m :: n in names && m in Groups(scope) && m !in names ==> le(n, m))
  {
    var groups := Groups(scope);
    var ranked := SortBy(groups, le);
    var names := Take(ranked, limit);
    SortSorted(groups, le);
    SortMembers(groups, le);
    SortDistinctBy(groups, le, (x: string) => x);
    assert Distinct(ranked) by {
      assert DistinctBy(ranked, (x: string) => x);
    }
    forall n, m | n in names && m in groups && m !in names
      ensures le(n, m)
    {
      var i :| 0 <= i < |names| && names[i] == n;
      var j :| 0 <= j < |ranked| && ranked[j] == m;
    }
  }

  /** The ranking of the listing's groups by `MoreUsed`. */
  lemma RankedListing(scope: seq<Row>, limit: nat)
    ensures var names := Take(SortBy(Groups(scope), MoreUsed(scope)), limit);
      && Distinct(names)
      && SortedBy(names, MoreUsed(scope))
      && |names| == Min(limit, |Groups(scope)|)
      && (forall n :: n in names ==> n in Groups(scope))
      && (forall n, m :: n in names && m in Groups(scope) && m !in names ==> MoreUsed(scope)(n, m))
  {
    MoreUsedTotal(scope);
    TopGroups(scope, MoreUsed(scope), limit);
  }

  /** The ranking of the recent groups by `MoreUsedRecently`. */
  lemma RankedRecent(scope: seq<Row>, limit: nat)
    ensures var names := Take(SortBy(Groups(scope), MoreUsedRecently(scope)), limit);
      && Distinct(names)
      && SortedBy(names, MoreUsedRecently(scope))
      && |names| == Min(limit, |Groups(scope)|)
      && (forall n :: n in names ==> n in Groups(scope))
      && (forall n, m :: n in names && m in Groups(scope) && m !in names ==> MoreUsedRecently(scope)(n, m))
  {
    MoreUsedRecentlyTotal(scope);
    TopGroups(scope, MoreUsedRecently(scope), limit);
  }

  /**
   * GET /api/food-types returns distinct names, as many as there are
   * groups up to `limit`, each a non-empty food type of some row that
   * matches the search.
   */
  lemma FoodTypesMembers(rows: seq<Row>, search: Option<string>, limit: nat)
    ensures var scope := ListingScope(rows, search.GetOr(""));
      var result := ListFoodTypes(rows, search, Parsed(limit), false);
      && result.Ok?
      && Distinct(result.value)
      && |result.value| == Min(limit, |Groups(scope)|)
      && (forall n :: n in result.value ==> n != "" && (search.GetOr("") != "" ==> ContainsIgnoringCase(n, search.GetOr(""))))
      && (forall n :: n in result.value ==> exists r :: r in rows && r.foodType == n)
      && (forall n :: n in result.value ==> Usage(scope, n) > 0)
  {
    var s := search.GetOr("");
    var scope := ListingScope(rows, s);
    var names := ListFoodTypes(rows, search, Parsed(limit), false).value;
    RankedListing(scope, limit);
    forall n | n in names
      ensures n != "" && (s != "" ==> ContainsIgnoringCase(n, s))
      ensures exists r :: r in rows && r.foodType == n
      ensures Usage(scope, n) > 0
    {
      GroupListed(rows, s, n);
    }
  }

  /**
   * GET /api/food-types ranks the most used first and ties by name, and
   * every group left out is used no more than each one kept.
   */
  lemma FoodTypesRanked(rows: seq<Row>, search: Option<string>, limit: nat)
    ensures var scope := ListingScope(rows, search.GetOr(""));
      var result := ListFoodTypes(rows, search, Parsed(limit), false);
      && result.Ok?
      && (forall i, j :: 0 <= i < j < |result.value| ==>
            Usage(scope, result.value[i]) > Usage(scope, result.value[j])
            || (Usage(scope, result.value[i]) == Usage(scope, result.value[j]) && LexLe(result.value[i], result.value[j])))
      && (forall n, m :: n in result.value && m in Groups(scope) && m !in result.value ==> Usage(scope, n) >= Usage(scope, m))
  {
    var scope := ListingScope(rows, search.GetOr(""));
    var names := ListFoodTypes(rows, search, Parsed(limit), false).value;
    RankedListing(scope, limit);
    forall i, j | 0 <= i < j < |names|
      ensures Usage(scope, names[i]) > Usage(scope, names[j]) || (Usage(scope, names[i]) == Usage(scope, names[j]) && LexLe(names[i], names[j]))
    {
      assert MoreUsed(scope)(names[i], names[j]);
    }
    forall n, m | n in names && m in Groups(scope) && m !in names
      ensures Usage(scope, n) >= Usage(scope, m)
    {
      assert MoreUsed(scope)(n, m);
    }
  }

  /** A group of the listing is a non-empty, matching food type of some row, and has rows. */
  lemma GroupListed(rows: seq<Row>, s: string, n: string)
    requires n in Groups(ListingScope(rows, s))
    ensures n != "" && (s != "" ==> ContainsIgnoringCase(n, s))
    ensures exists r :: r in rows && r.foodType == n
    ensures Usage(ListingScope(rows, s), n) > 0
  {
    var scope := ListingScope(rows, s);
    ImageMembers(scope, n);
    UsagePositive(scope, n);
  }

  /**
   * GET /api/food-types/recent returns distinct names, as many as there
   * are groups up to `limit`, each the non-empty food type of some row
   * created in the last 30 days.
   */
  lemma RecentMembers(rows: seq<Row>, now: Time, limit: nat)
    ensures var scope := RecentScope(rows, now);
      var result := RecentFoodTypes(rows, now, Parsed(limit), false);
      && result.Ok?
      && Distinct(result.value)
      && |result.value| == Min(limit, |Groups(scope)|)
      && (forall n :: n in result.value ==> n != "" && exists r :: r in rows && r.foodType == n && r.createdAt >= now - 30 * Day)
  {
    var scope := RecentScope(rows, now);
    var names := RecentFoodTypes(rows, now, Parsed(limit), false).value;
    RankedRecent(scope, limit);
    forall n | n in names
      ensures n != "" && exists r :: r in rows && r.foodType == n && r.createdAt >= now - 30 * Day
    {
      ImageMembers(scope, n);
    }
  }

  /**
   * GET /api/food-types/recent ranks the most used first and ties by the
   * latest use, and every group left out is used no more than each kept.
   */
  lemma RecentRanked(rows: seq<Row>, now: Time, limit: nat)
    ensures var scope := RecentScope(rows, now);
      var result := RecentFoodTypes(rows, now, Parsed(limit), false);
      && result.Ok?
      && (forall i, j :: 0 <= i < j < |result.value| ==>
            Usage(scope, result.value[i]) > Usage(scope, result.value[j])
            || (Usage(scope, result.value[i]) == Usage(scope, result.value[j])
                && LastUsed(scope, result.value[i]) >= LastUsed(scope, result.value[j])))
      && (forall n, m :: n in result.value && m in Groups(scope) && m !in result.value ==> Usage(scope, n) >= Usage(scope, m))
  {
    var scope := RecentScope(rows, now);
    var names := RecentFoodTypes(rows, now, Parsed(limit), false).value;
    RankedRecent(scope, limit);
    forall i, j | 0 <= i < j < |names|
      ensures Usage(scope, names[i]) > Usage(scope, names[j])
        || (Usage(scope, names[i]) == Usage(scope, names[j]) && LastUsed(scope, names[i]) >= LastUsed(scope, names[j]))
    {
      assert MoreUsedRecently(scope)(names[i], names[j]);
    }
    forall n, m | n in names && m in Groups(scope) && m !in names
      ensures Usage(scope, n) >= Usage(scope, m)
    {
      assert MoreUsedRecently(scope)(n, m);
    }
  }

  /** Both lists refuse a `limit` that is not a non-negative integer, and report a failed query, with a 500. */
  lemma FoodTypesErrors(rows: seq<Row>, search: Option<string>, now: Time, limit: IntText, dbFails: bool)
    ensures ListFoodTypes(rows, search, limit, dbFails).Err? <==> dbFails || SqlCount(limit, DefaultLimit).None?
    ensures RecentFoodTypes(rows, now, limit, dbFails).Err? <==> dbFails || SqlCount(limit, DefaultRecentLimit).None?
    ensures ListFoodTypes(rows, search, limit, dbFails).Err? ==> ListFoodTypes(rows, search, limit, dbFails).error.statusCode == 500
    ensures RecentFoodTypes(rows, now, limit, dbFails).Err? ==> RecentFoodTypes(rows, now, limit, dbFails).error.statusCode == 500
  {
  }
}
