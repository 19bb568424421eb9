/**
 * The public browse page: the filter values it reads from the address's
 * query string, the updates it makes to that query string when a filter or
 * the page changes, the window of page numbers it shows, and the count of
 * active filters on its badge.
 */
module BrowsePage {
  import opened Wrappers
  import opened JsText

  // ---------------------------------------------------------------- the query string

  /** `URLSearchParams`: the key/value entries in order, a key possibly repeated. */
  type Params = seq<(string, string)>

  /** `get(k)`: the value of the first entry with key `k`. */
  function Get(ps: Params, k: string): Option<string> {
    if ps == [] then None else if ps[0].0 == k then Some(ps[0].1) else Get(ps[1..], k)
  }

  /**
   * `set(k, v)` after `found` entries with key `k` were already dealt with:
   * the first entry with key `k` takes the value and later ones are removed;
   * with none, the entry is appended.
   */
  function SetFrom(ps: Params, k: string, v: string, found: bool): Params {
    if ps == [] then (if found then [] else [(k, v)])
    else if ps[0].0 == k then
      (if found then SetFrom(ps[1..], k, v, true) else [(k, v)] + SetFrom(ps[1..], k, v, true))
    else [ps[0]] + SetFrom(ps[1..], k, v, found)
  }

  function SetParam(ps: Params, k: string, v: string): Params {
    SetFrom(ps, k, v, false)
  }

  /** `delete(k)`: every entry with key `k` removed. */
  function Delete(ps: Params, k: string): (r: Params)
    ensures |r| <= |ps|
  {
    if ps == [] then [] else if ps[0].0 == k then Delete(ps[1..], k) else [ps[0]] + Delete(ps[1..], k)
  }

  lemma {:induction false} SetFromGet(ps: Params, k: string, v: string, found: bool, j: string)
    ensures Get(SetFrom(ps, k, v, found), j) == (if j == k then (if found then None else Some(v)) else Get(ps, j))
  {
    if ps != [] {
      SetFromGet(ps[1..], k, v, ps[0].0 == k || found, j);
    }
  }

  /**
   * After `set(k, v)` the key reads back as `v` and occurs once; every
   * other key reads as before.
   */
  lemma SetCharacterised(ps: Params, k: string, v: string, j: string)
    ensures Get(SetParam(ps, k, v), j) == (if j == k then Some(v) else Get(ps, j))
    ensures Count(SetParam(ps, k, v), k) == 1
  {
    SetFromGet(ps, k, v, false, j);
    SetFromCount(ps, k, v, false);
  }

  /** How many entries have key `k`. */
  function Count(ps: Params, k: string): nat {
    if ps == [] then 0 else (if ps[0].0 == k then 1 else 0) + Count(ps[1..], k)
  }

  lemma {:induction false} SetFromCount(ps: Params, k: string, v: string, found: bool)
    ensures Count(SetFrom(ps, k, v, found), k) == (if found then 0 else 1)
  {
    if ps != [] {
      SetFromCount(ps[1..], k, v, ps[0].0 == k || found);
    }
  }

  /** After `delete(k)` the key is gone and every other key reads as before. */
  lemma {:induction false} DeleteCharacterised(ps: Params, k: string, j: string)
    ensures Get(Delete(ps, k), j) == (if j == k then None else Get(ps, j))
    ensures Count(Delete(ps, k), k) == 0
  {
    if ps != [] {
      DeleteCharacterised(ps[1..], k, j);
    }
  }

  // ---------------------------------------------------------------- filter updates

  /** One entry of the `forEach` in `updateFilters`: set a non-empty value, delete an empty one. */
  function ApplyFilter(ps: Params, e: (string, string)): Params {
    if e.1 != "" then SetParam(ps, e.0, e.1) else Delete(ps, e.0)
  }

  /** The query string after the `forEach` over the first `n` new filter values. */
  function Applied(ps: Params, newFilters: seq<(string, string)>, n: nat): Params
    requires n <= |newFilters|
  {
    if n == 0 then ps else ApplyFilter(Applied(ps, newFilters, n - 1), newFilters[n - 1])
  }

  /** `updateFilters`: each new value applied in turn, then the page reset to 1. */
  function UpdatedParams(ps: Params, newFilters: seq<(string, string)>): Params {
    SetParam(Applied(ps, newFilters, |newFilters|), "page", "1")
  }

  /** The query string `updateFilters` pushes, built in place. */
  method UpdateFilters(searchParams: Params, newFilters: seq<(string, string)>) returns (params: Params)
    ensures params == UpdatedParams(searchParams, newFilters)
  {
    params := searchParams;
    for i := 0 to |newFilters|
      invariant params == Applied(searchParams, newFilters, i)
    {
      var (key, value) := newFilters[i];
      if value != "" {
        params := SetParam(params, key, value);
      } else {
        params := Delete(params, key);
      }
    }
    params := SetParam(params, "page", "1");
  }

  /** The value of the last new filter entry with key `k`, if any. */
  function LastValue(newFilters: seq<(string, string)>, n: nat, k: string): Option<string>
    requires n <= |newFilters|
  {
    if n == 0 then None
    else if newFilters[n - 1].0 == k then Some(newFilters[n - 1].1)
    else LastValue(newFilters, n - 1, k)
  }

  lemma {:induction false} AppliedCharacterised(ps: Params, newFilters: seq<(string, string)>, n: nat, k: string)
    requires n <= |newFilters|
    ensures Get(Applied(ps, newFilters, n), k) ==
      match LastValue(newFilters, n, k)
      case None => Get(ps, k)
      case Some(v) => if v != "" then Some(v) else None
  {
    if n > 0 {
      AppliedCharacterised(ps, newFilters, n - 1, k);
      var e := newFilters[n - 1];
      if e.1 != "" {
        SetCharacterised(Applied(ps, newFilters, n - 1), e.0, e.1, k);
      } else {
        DeleteCharacterised(Applied(ps, newFilters, n - 1), e.0, k);
      }
    }
  }

  /**
   * After `updateFilters` the page is "1"; a key given a non-empty value
   * reads as that value, a key given an empty one is gone, and every other
   * key reads as before.
   */
  lemma UpdateFiltersCharacterised(ps: Params, newFilters: seq<(string, string)>, k: string)
    ensures Get(UpdatedParams(ps, newFilters), "page") == Some("1")
    ensures k != "page" ==>
      (Get(UpdatedParams(ps, newFilters), k) ==
        match LastValue(newFilters, |newFilters|, k)
        case None => Get(ps, k)
        case Some(v) => if v != "" then Some(v) else None)
  {
    SetCharacterised(Applied(ps, newFilters, |newFilters|), "page", "1", k);
    SetCharacterised(Applied(ps, newFilters, |newFilters|), "page", "1", "page");
    AppliedCharacterised(ps, newFilters, |newFilters|, k);
  }

  /** `handlePageChange`: only the page entry changes, to the number's decimal text. */
  function PageChanged(ps: Params, page: int): Params {
    SetParam(ps, "page", IntToString(page))
  }

  // ---------------------------------------------------------------- the current filters

  /** `currentFilters`: the seven text filters, the sort, and the page as `parseInt` reads it. */
  datatype CurrentFilters = CurrentFilters(
    search: string, brand: string, minPrice: string, maxPrice: string,
    minHours: string, maxHours: string, location: string, sortBy: string, page: Option<int>)

  function Or(x: Option<string>, d: string): (r: string)
    ensures x.Some? && x.value != "" ==> r == x.value
    ensures !(x.Some? && x.value != "") ==> r == d
  {
    if x.Some? && x.value != "" then x.value else d
  }

  function CurrentFiltersOf(ps: Params): CurrentFilters {
    CurrentFilters(Or(Get(ps, "search"), ""), Or(Get(ps, "brand"), ""),
      Or(Get(ps, "minPrice"), ""), Or(Get(ps, "maxPrice"), ""),
      Or(Get(ps, "minHours"), ""), Or(Get(ps, "maxHours"), ""),
      Or(Get(ps, "location"), ""), Or(Get(ps, "sortBy"), "newest"),
      ParseInt(Or(Get(ps, "page"), "1")))
  }

  /**
   * A page change moves the page the browse page reads to the new number
   * and leaves every other filter as it was.
   */
  lemma PageChangeCharacterised(ps: Params, page: nat)
    ensures CurrentFiltersOf(PageChanged(ps, page)) == CurrentFiltersOf(ps).(page := Some(page))
  {
    var text := IntToString(page);
    SetCharacterised(ps, "page", text, "page");
    ParseIntNatToString(page);
    SetCharacterised(ps, "page", text, "search");
    SetCharacterised(ps, "page", text, "brand");
    SetCharacterised(ps, "page", text, "minPrice");
    SetCharacterised(ps, "page", text, "maxPrice");
    SetCharacterised(ps, "page", text, "minHours");
    SetCharacterised(ps, "page", text, "maxHours");
    SetCharacterised(ps, "page", text, "location");
    SetCharacterised(ps, "page", text, "sortBy");
  }

  /** After a filter update the browse page reads page 1. */
  lemma UpdateFiltersFirstPage(ps: Params, newFilters: seq<(string, string)>)
    ensures CurrentFiltersOf(UpdatedParams(ps, newFilters)).page == Some(1)
  {
    UpdateFiltersCharacterised(ps, newFilters, "page");
    ParseIntNatToString(1);
  }

  /** With no query string the browse page reads no filters, newest first, page 1. */
  lemma NoParamsDefaults()
    ensures CurrentFiltersOf([]) == CurrentFilters("", "", "", "", "", "", "", "newest", Some(1))
  {
    ParseIntNatToString(1);
  }

  // ---------------------------------------------------------------- active filters

  /** A text value the `filter` keeps: truthy, and neither `newest` nor `1`. */
  function CountsText(v: string): nat {
    if v != "" && v != "newest" && v != "1" then 1 else 0
  }

  function TextCount(f: CurrentFilters): nat {
    CountsText(f.search) + CountsText(f.brand) + CountsText(f.minPrice) + CountsText(f.maxPrice)
    + CountsText(f.minHours) + CountsText(f.maxHours) + CountsText(f.location) + CountsText(f.sortBy)
  }

  /**
   * `activeFiltersCount` as written: the page is a number, so it is never
   * the string `'1'` and counts whenever it is truthy (not 0 and not `NaN`).
   */
  function ActiveFiltersCountAsWritten(f: CurrentFilters): nat {
    TextCount(f) + (if f.page.Some? && f.page.value != 0 then 1 else 0)
  }

  /** `activeFiltersCount` as intended: the first page is not a filter. */
  function ActiveFiltersCount(f: CurrentFilters): nat {
    TextCount(f) + (if f.page.Some? && f.page.value != 0 && f.page.value != 1 then 1 else 0)
  }

  /**
   * With no query string at all, the count as written is 1, so the badge
   * and the "Clear Filters" button show although no filter is set.
   */
  lemma ActiveFiltersCountsPage()
    ensures ActiveFiltersCountAsWritten(CurrentFiltersOf([])) == 1
    ensures ActiveFiltersCount(CurrentFiltersOf([])) == 0
  {
    NoParamsDefaults();
  }

  /**
   * The intended count is 0 exactly when no text filter is set (apart from
   * the values `newest` and `1`) and the page is the first one (or one
   * `parseInt` reads as 0 or cannot read); as written, the first page adds one.
   */
  lemma ActiveFiltersCountCharacterised(f: CurrentFilters)
    ensures ActiveFiltersCount(f) == 0 <==>
      TextCount(f) == 0 && (f.page.None? || f.page.value == 0 || f.page.value == 1)
    ensures f.page == Some(1) ==> ActiveFiltersCountAsWritten(f) == ActiveFiltersCount(f) + 1
    ensures f.page != Some(1) ==> ActiveFiltersCountAsWritten(f) == ActiveFiltersCount(f)
  {
  }

  /** After any filter update the intended count ignores the page. */
  lemma UpdateFiltersCount(ps: Params, newFilters: seq<(string, string)>)
    ensures ActiveFiltersCount(CurrentFiltersOf(UpdatedParams(ps, newFilters)))
      == TextCount(CurrentFiltersOf(UpdatedParams(ps, newFilters)))
  {
    UpdateFiltersFirstPage(ps, newFilters);
  }

  // ---------------------------------------------------------------- the page window

  datatype PageItem = PageButton(page: int) | Ellipsis | Hidden

  /** What the page list shows for `page`: a button, an ellipsis, or nothing. */
  function WindowItem(page: int, current: int, total: int): PageItem {
    if page == 1 || page == total || (current - 1 <= page <= current + 1) then PageButton(page)
    else if page == current - 2 || page == current + 2 then Ellipsis
    else Hidden
  }

  /** The items for pages 1 to `totalPages`. */
  function Window(current: int, total: nat): (r: seq<PageItem>)
    ensures |r| == total
    ensures forall i :: 0 <= i < total ==> r[i] == WindowItem(i + 1, current, total)
  {
    seq(total, i requires 0 <= i < total => WindowItem(i + 1, current, total))
  }

  /**
   * The first, the last and (when in range) the current page always have a
   * button, and every page left out lies beyond an ellipsis: below the
   * current page past the one at `current - 2`, or above it past the one at
   * `current + 2`.
   */
  lemma WindowCharacterised(current: int, total: nat, p: int)
    requires 1 <= current <= total && 1 <= p <= total
    ensures Window(current, total)[0] == PageButton(1)
    ensures Window(current, total)[total - 1] == PageButton(total)
    ensures Window(current, total)[current - 1] == PageButton(current)
    ensures WindowItem(p, current, total) == Hidden ==>
      ((1 < p < current - 2 && Window(current, total)[current - 3] == Ellipsis)
       || (current + 2 < p < total && Window(current, total)[current + 1] == Ellipsis))
  {
  }

  /** The pages given an item. */
  function Shown(current: int, total: nat): set<int> {
    set p | 1 <= p <= total && WindowItem(p, current, total) != Hidden
  }

  /** However many pages there are, the list shows at most seven items. */
  lemma WindowAtMostSeven(current: int, total: nat)
    ensures |Shown(current, total)| <= 7
  {
    var around := {1, total, current - 2, current - 1, current, current + 1, current + 2};
    assert Shown(current, total) <= around;
    SubsetSize(Shown(current, total), around);
  }

  lemma SubsetSize(a: set<int>, b: set<int>)
    requires a <= b
    ensures |a| <= |b|
  {
    assert b == a + (b - a);
    assert a * (b - a) == {};
  }
}
