/**
 * The public listings query: the filter built from the query string
 * (always for sale, then the optional search, brand, price range, hours
 * range and location), the sort it maps `sortBy` to, the pagination
 * arithmetic on JavaScript numbers, and the brand list and range statistics
 * returned beside the page.
 */
module ListingQuery {
  import opened Wrappers
  import opened JsText
  import opened GeneratorModel

  /** The query string: `searchParams.get(k)` is `None` (null) for a missing key. */
  type Query = map<string, string>

  function Param(q: Query, k: string): Option<string> {
    if k in q then Some(q[k]) else None
  }

  /** `searchParams.get(k) || d`: the default for a missing or empty parameter. */
  function ParamOr(q: Query, k: string, d: string): (r: string)
    ensures k in q && q[k] != "" ==> r == q[k]
    ensures !(k in q && q[k] != "") ==> r == d
  {
    if k in q && q[k] != "" then q[k] else d
  }

  // ---------------------------------------------------------------- pagination

  /** A JavaScript number as the pagination arithmetic produces it. */
  datatype Number = Finite(v: int) | Infinity | NaN

  /** `Math.ceil(totalCount / limit)`, with `limit` `None` for `NaN`. */
  function TotalPages(totalCount: nat, limit: Option<int>): Number {
    if limit.None? then NaN
    else if limit.value > 0 then Finite((totalCount + limit.value - 1) / limit.value)
    else if limit.value < 0 then Finite(-(totalCount / -limit.value))
    else if totalCount > 0 then Infinity
    else NaN
  }

  /** `page < totalPages`: false when either side is `NaN`, true below `Infinity`. */
  predicate Below(page: Option<int>, n: Number) {
    page.Some? && match n
      case Finite(v) => page.value < v
      case Infinity => true
      case NaN => false
  }

  /** `(page - 1) * limit`. */
  function Skip(page: Option<int>, limit: Option<int>): Number {
    if page.None? || limit.None? then NaN else Finite((page.value - 1) * limit.value)
  }

  /** The `pagination` object of both listing routes. */
  datatype Pagination = Pagination(
    currentPage: Option<int>,
    totalPages: Number,
    totalCount: nat,
    limit: Option<int>,
    hasNextPage: bool,
    hasPrevPage: bool)

  function PaginationOf(page: Option<int>, limit: Option<int>, totalCount: nat): Pagination {
    var totalPages := TotalPages(totalCount, limit);
    Pagination(page, totalPages, totalCount, limit, Below(page, totalPages), page.Some? && page.value > 1)
  }

  /** Floor division by a positive number bounds a product from both sides. */
  lemma BelowQuotient(x: int, a: int, l: int)
    requires l > 0
    ensures x < a / l <==> (x + 1) * l <= a
  {
    var q := a / l;
    assert a == q * l + a % l && 0 <= a % l < l;
    if x < q {
      assert (x + 1) * l <= q * l;
    } else {
      assert q * l <= x * l;
      assert (x + 1) * l == x * l + l;
    }
  }

  /**
   * With a positive limit the page count is the least number of pages that
   * hold every listing, there is a next page exactly when listings lie
   * beyond this page, a previous one exactly after the first page, and the
   * skip passes over the earlier pages.
   */
  lemma PaginationCharacterised(page: int, limit: int, totalCount: nat)
    requires limit > 0
    ensures var p := PaginationOf(Some(page), Some(limit), totalCount);
      p.totalPages.Finite?
      && totalCount <= p.totalPages.v * limit
      && (totalCount == 0 <==> p.totalPages.v == 0)
      && (totalCount > 0 ==> (p.totalPages.v - 1) * limit < totalCount)
      && (p.hasNextPage <==> page * limit < totalCount)
      && (p.hasPrevPage <==> page > 1)
      && Skip(Some(page), Some(limit)) == Finite((page - 1) * limit)
  {
    var a := totalCount + limit - 1;
    var tp := a / limit;
    BelowQuotient(page, a, limit);
    BelowQuotient(tp, a, limit);
    assert tp * limit <= a by {
      assert a == tp * limit + a % limit;
    }
    if totalCount == 0 {
      assert a < limit;
    } else {
      BelowQuotient(tp - 1, a, limit);
    }
  }

  /** A limit of 0 makes the page count infinite, so every page has a "next" page. */
  lemma ZeroLimitAlwaysHasNext(page: int, totalCount: nat)
    requires totalCount > 0
    ensures PaginationOf(Some(page), Some(0), totalCount).totalPages == Infinity
    ensures PaginationOf(Some(page), Some(0), totalCount).hasNextPage
  {
  }

  /** A page that `parseInt` cannot read has neither a next nor a previous page. */
  lemma UnreadablePageHasNoNeighbours(limit: Option<int>, totalCount: nat)
    ensures !PaginationOf(None, limit, totalCount).hasNextPage
    ensures !PaginationOf(None, limit, totalCount).hasPrevPage
  {
  }

  // ---------------------------------------------------------------- the public filter

  /** A range on a number: each bound absent, or the `parseInt` of its text (`None` for `NaN`). */
  datatype Range = Range(gte: Option<Option<int>>, lte: Option<Option<int>>)

  /**
   * The filter object: the status, a `$text` search, case-insensitive
   * patterns on brand and location, and the two ranges.
   */
  datatype Filter = Filter(
    status: Option<Status>,
    text: Option<string>,
    brand: Option<string>,
    price: Option<Range>,
    hoursRun: Option<Range>,
    location: Option<string>)

  /** The range for a pair of bound parameters, added when either is non-empty. */
  function RangeOf(q: Query, minKey: string, maxKey: string): (r: Option<Range>)
    ensures r.Some? <==> ParamOr(q, minKey, "") != "" || ParamOr(q, maxKey, "") != ""
    ensures r.Some? ==>
      ((r.value.gte.Some? <==> ParamOr(q, minKey, "") != "")
       && (r.value.lte.Some? <==> ParamOr(q, maxKey, "") != ""))
  {
    var lo := ParamOr(q, minKey, "");
    var hi := ParamOr(q, maxKey, "");
    if lo == "" && hi == "" then None
    else Some(Range(if lo != "" then Some(ParseInt(lo)) else None, if hi != "" then Some(ParseInt(hi)) else None))
  }

  /** The filter of the public route. */
  function PublicFilter(q: Query): Filter {
    var search := ParamOr(q, "search", "");
    var brand := ParamOr(q, "brand", "");
    var location := ParamOr(q, "location", "");
    Filter(Some(ForSale),
      if search != "" then Some(search) else None,
      if brand != "" then Some(brand) else None,
      RangeOf(q, "minPrice", "maxPrice"),
      RangeOf(q, "minHours", "maxHours"),
      if location != "" then Some(location) else None)
  }

  /**
   * The public filter always asks for listings for sale, and has a brand or
   * location pattern exactly when that parameter is non-empty, holding it.
   */
  lemma PublicFilterShape(q: Query)
    ensures PublicFilter(q).status == Some(ForSale)
    ensures PublicFilter(q).brand.Some? <==> "brand" in q && q["brand"] != ""
    ensures PublicFilter(q).brand.Some? ==> PublicFilter(q).brand.value == q["brand"]
    ensures PublicFilter(q).location.Some? <==> "location" in q && q["location"] != ""
    ensures PublicFilter(q).location.Some? ==> PublicFilter(q).location.value == q["location"]
    ensures PublicFilter(q).text.Some? <==> "search" in q && q["search"] != ""
  {
  }

  /** A bound is met when it is absent, and never when it is `NaN`. */
  predicate InRange(v: int, r: Option<Range>) {
    r.None? ||
      ((r.value.gte.None? || (r.value.gte.value.Some? && v >= r.value.gte.value.value))
       && (r.value.lte.None? || (r.value.lte.value.Some? && v <= r.value.lte.value.value)))
  }

  /**
   * Whether a listing matches the filter's status, patterns and ranges; a
   * pattern is read as text to find anywhere without regard to case, and
   * the `$text` search, which needs the text index, is not part of it.
   */
  predicate Matches(f: Filter, l: Listing) {
    (f.status.None? || l.status == f.status.value)
    && (f.brand.None? || Contains(Lower(l.brand), Lower(f.brand.value)))
    && (f.location.None? || Contains(Lower(l.locationText), Lower(f.location.value)))
    && InRange(l.price, f.price)
    && InRange(l.hoursRun, f.hoursRun)
  }

  /**
   * Only listings for sale match the public filter, and with no parameters
   * every listing for sale does.
   */
  lemma PublicFilterForSale(q: Query, l: Listing)
    ensures Matches(PublicFilter(q), l) ==> l.status == ForSale
    ensures q == map[] ==> (Matches(PublicFilter(q), l) <==> l.status == ForSale)
  {
  }

  /** A minimum price admits exactly the listings priced at or above it. */
  lemma MinPriceBound(l: Listing, min: nat)
    requires l.status == ForSale
    ensures Matches(PublicFilter(map["minPrice" := NatToString(min)]), l) <==> l.price >= min
  {
    var q := map["minPrice" := NatToString(min)];
    ParseIntNatToString(min);
    assert ParamOr(q, "minPrice", "") == NatToString(min);
    assert ParamOr(q, "maxPrice", "") == "" && ParamOr(q, "brand", "") == "" && ParamOr(q, "location", "") == "";
    assert ParamOr(q, "minHours", "") == "" && ParamOr(q, "maxHours", "") == "";
  }

  // ---------------------------------------------------------------- sorting

  datatype SortField = ByPrice | ByHoursRun | ByCreatedAt

  /** The sort object: one field, ascending (1) or descending (-1). */
  datatype Sort = Sort(field: SortField, direction: int)

  /**
   * The `switch` on `sortBy`: the four price and hours orders, newest and
   * oldest first, and otherwise creation date in `sortOrder`, descending
   * unless it is `asc`.
   */
  function SortOf(sortBy: string, sortOrder: string): (r: Sort)
    ensures r.direction == 1 || r.direction == -1
  {
    if sortBy == "price_asc" then Sort(ByPrice, 1)
    else if sortBy == "price_desc" then Sort(ByPrice, -1)
    else if sortBy == "hours_asc" then Sort(ByHoursRun, 1)
    else if sortBy == "hours_desc" then Sort(ByHoursRun, -1)
    else if sortBy == "newest" then Sort(ByCreatedAt, -1)
    else if sortBy == "oldest" then Sort(ByCreatedAt, 1)
    else Sort(ByCreatedAt, if sortOrder == "asc" then 1 else -1)
  }

  /** The query's sort: `sortBy` defaults to `createdAt` and `sortOrder` to `desc`. */
  function PublicSort(q: Query): Sort {
    SortOf(ParamOr(q, "sortBy", "createdAt"), ParamOr(q, "sortOrder", "desc"))
  }

  /**
   * With no parameters the newest listings come first; an unknown `sortBy`
   * falls back to creation date, in whichever order `sortOrder` names.
   */
  lemma SortDefaults(sortOrder: string)
    ensures PublicSort(map[]) == Sort(ByCreatedAt, -1)
    ensures SortOf("bogus", sortOrder).field == ByCreatedAt
    ensures SortOf("bogus", sortOrder).direction == (if sortOrder == "asc" then 1 else -1)
    ensures SortOf("newest", sortOrder) == PublicSort(map[])
  {
  }

  /** The named orders do not depend on `sortOrder`. */
  lemma NamedSortsIgnoreOrder(sortBy: string, o1: string, o2: string)
    requires sortBy in ["price_asc", "price_desc", "hours_asc", "hours_desc", "newest", "oldest"]
    ensures SortOf(sortBy, o1) == SortOf(sortBy, o2)
  {
  }

  /** The page size: `limit` defaults to 12 here. */
  function PublicPagination(q: Query, totalCount: nat): Pagination {
    PaginationOf(ParseInt(ParamOr(q, "page", "1")), ParseInt(ParamOr(q, "limit", "12")), totalCount)
  }

  /** With no parameters the first page of 12 is served. */
  lemma PublicPaginationDefaults(totalCount: nat)
    ensures PublicPagination(map[], totalCount).currentPage == Some(1)
    ensures PublicPagination(map[], totalCount).limit == Some(12)
    ensures !PublicPagination(map[], totalCount).hasPrevPage
    ensures PublicPagination(map[], totalCount).hasNextPage <==> totalCount > 12
  {
    ParseIntDigits("1");
    ParseIntDigits("12");
    assert DecimalValue("12") == 12 by {
      assert DecimalValue("1") == 1;
    }
    PaginationCharacterised(1, 12, totalCount);
  }

  // ---------------------------------------------------------------- brands and ranges

  /**
   * The order `Array.prototype.sort` uses without a comparator: character
   * by character, a proper prefix first.
   */
  predicate LexLeq(a: string, b: string)
    decreases |a|
  {
    a == [] || (b != [] && (a[0] < b[0] || (a[0] == b[0] && LexLeq(a[1..], b[1..]))))
  }

  lemma {:induction false} LexLeqTotal(a: string, b: string)
    ensures LexLeq(a, b) || LexLeq(b, a)
    decreases |a|
  {
    if a != [] && b != [] && a[0] == b[0] {
      LexLeqTotal(a[1..], b[1..]);
    }
  }

  lemma {:induction false} LexLeqTransitive(a: string, b: string, c: string)
    requires LexLeq(a, b) && LexLeq(b, c)
    ensures LexLeq(a, c)
    decreases |a|
  {
    if a != [] && b != [] && c != [] && a[0] == b[0] && b[0] == c[0] {
      LexLeqTransitive(a[1..], b[1..], c[1..]);
    }
  }

  predicate Sorted(s: seq<string>) {
    forall i :: 0 < i < |s| ==> LexLeq(s[i - 1], s[i])
  }

  /** `x` put before the first element it does not follow. */
  function Insert(x: string, s: seq<string>): (r: seq<string>)
    ensures multiset(r) == multiset(s) + multiset{x}
    ensures |r| == |s| + 1
  {
    if s == [] || LexLeq(x, s[0]) then [x] + s
    else
      assert s == [s[0]] + s[1..];
      [s[0]] + Insert(x, s[1..])
  }

  /** `availableBrands.sort()`. */
  function SortBrands(s: seq<string>): (r: seq<string>)
    ensures multiset(r) == multiset(s)
  {
    if s == [] then []
    else
      assert s == [s[0]] + s[1..];
      Insert(s[0], SortBrands(s[1..]))
  }

  lemma {:induction false} InsertSorted(x: string, s: seq<string>)
    requires Sorted(s)
    ensures Sorted(Insert(x, s))
    ensures Insert(x, s)[0] == x || (s != [] && Insert(x, s)[0] == s[0])
  {
    if s != [] && !LexLeq(x, s[0]) {
      LexLeqTotal(x, s[0]);
      assert Sorted(s[1..]) by {
        forall i | 0 < i < |s| - 1 ensures LexLeq(s[1..][i - 1], s[1..][i]) {
          assert s[1..][i - 1] == s[i] && s[1..][i] == s[i + 1];
        }
      }
      InsertSorted(x, s[1..]);
    }
  }

  /** The brands come back in order and are the same brands, each as often as before. */
  lemma {:induction false} SortBrandsCharacterised(s: seq<string>)
    ensures Sorted(SortBrands(s)) && multiset(SortBrands(s)) == multiset(s)
  {
    if s != [] {
      SortBrandsCharacterised(s[1..]);
      InsertSorted(s[0], SortBrands(s[1..]));
    }
  }

  /** In a sorted list every brand precedes all the later ones. */
  lemma {:induction false} SortedAllPairs(s: seq<string>, i: nat, j: nat)
    requires Sorted(s) && i <= j < |s|
    ensures LexLeq(s[i], s[j])
    decreases j - i
  {
    if i == j {
      LexLeqReflexive(s[i]);
    } else {
      SortedAllPairs(s, i, j - 1);
      LexLeqTransitive(s[i], s[j - 1], s[j]);
    }
  }

  lemma {:induction false} LexLeqReflexive(a: string)
    ensures LexLeq(a, a)
    decreases |a|
  {
    if a != [] {
      LexLeqReflexive(a[1..]);
    }
  }

  /** The price or hours statistics: minimum, maximum and average (a float, not modelled). */
  datatype RangeStats = RangeStats(min: int, max: int)

  /** `stats[0] || { min: 0, max: 0, avg: 0 }`: the aggregate's record, or zeros when nothing is for sale. */
  function RangeOrZero(stats: seq<RangeStats>): (r: RangeStats)
    ensures stats == [] ==> r == RangeStats(0, 0)
    ensures stats != [] ==> r == stats[0]
  {
    if stats == [] then RangeStats(0, 0) else stats[0]
  }
}
