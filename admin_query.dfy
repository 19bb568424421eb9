/**
 * The admin listings query: a status filter that defaults to listings
 * pending review and is dropped for `all`, a search over four text fields,
 * the newest-first page with the shared pagination, and the dashboard's
 * count per status.
 */
module AdminListingQuery {
  import opened Wrappers
  import opened JsText
  import opened GeneratorModel
  import opened ListingQuery

  /** The admin filter: a status name to match exactly, and a search for `$or` over four fields. */
  datatype AdminFilter = AdminFilter(status: Option<string>, search: Option<string>)

  /** The `status` parameter, `pending_review` when missing or empty. */
  function StatusParam(q: Query): string {
    ParamOr(q, "status", "pending_review")
  }

  function AdminFilterOf(q: Query): AdminFilter {
    var status := StatusParam(q);
    var search := ParamOr(q, "search", "");
    AdminFilter(if status != "all" then Some(status) else None, if search != "" then Some(search) else None)
  }

  /** A search pattern found, without regard to case, in one of the text fields. */
  predicate SearchHit(pattern: string, l: Listing) {
    var p := Lower(pattern);
    Contains(Lower(l.brand), p) || Contains(Lower(l.model), p)
    || Contains(Lower(l.locationText), p) || Contains(Lower(l.description), p)
  }

  predicate AdminMatches(f: AdminFilter, l: Listing) {
    (f.status.None? || StatusName(l.status) == f.status.value)
    && (f.search.None? || SearchHit(f.search.value, l))
  }

  /**
   * With no parameters the admin sees the listings pending review; with
   * `status=all` and no search, every listing; with an unknown status
   * name, none.
   */
  lemma AdminFilterDefaults(l: Listing, name: string)
    requires StatusOf(name).None? && name != "all" && name != ""
    ensures AdminMatches(AdminFilterOf(map[]), l) <==> l.status == PendingReview
    ensures AdminMatches(AdminFilterOf(map["status" := "all"]), l)
    ensures !AdminMatches(AdminFilterOf(map["status" := name]), l)
  {
    if StatusName(l.status) == "pending_review" {
      assert StatusOf("pending_review") == Some(l.status);
    }
  }

  /** A search matches a listing exactly when one of the four fields holds it, whatever the status filter. */
  lemma AdminSearchCharacterised(q: Query, l: Listing)
    requires "search" in q && q["search"] != ""
    ensures AdminMatches(AdminFilterOf(q), l) <==>
      (StatusParam(q) == "all" || StatusName(l.status) == StatusParam(q)) && SearchHit(q["search"], l)
  {
  }

  /** The admin page: `limit` defaults to 10 and the page is sorted newest first. */
  function AdminPagination(q: Query, totalCount: nat): Pagination {
    PaginationOf(ParseInt(ParamOr(q, "page", "1")), ParseInt(ParamOr(q, "limit", "10")), totalCount)
  }

  lemma AdminPaginationDefaults(totalCount: nat)
    ensures AdminPagination(map[], totalCount).currentPage == Some(1)
    ensures AdminPagination(map[], totalCount).limit == Some(10)
    ensures AdminPagination(map[], totalCount).hasNextPage <==> totalCount > 10
  {
    ParseIntDigits("1");
    ParseIntDigits("10");
    PaginationCharacterised(1, 10, totalCount);
  }

  // ---------------------------------------------------------------- the status counts

  /** One record of the `$group` by status: the status value and how many listings have it. */
  datatype StatusCount = StatusCount(id: string, count: nat)

  /** The five status names, each counted 0. */
  function ZeroStats(): (r: map<string, nat>)
    ensures forall k :: k in r <==> StatusOf(k).Some?
    ensures forall k :: k in r ==> r[k] == 0
  {
    map k | k in StatusNames() :: 0
  }

  function StatusNames(): (r: set<string>)
    ensures forall k :: k in r <==> StatusOf(k).Some?
  {
    {"pending_review", "for_sale", "sold", "rejected", "failed_parsing"}
  }

  /** One step of the `forEach`: a known status name takes the record's count, anything else is ignored. */
  function Record(stats: map<string, nat>, c: StatusCount): map<string, nat> {
    if c.id in stats then stats[c.id := c.count] else stats
  }

  /** The counts after the `forEach` over the records. */
  function StatsAfter(counts: seq<StatusCount>): map<string, nat> {
    if counts == [] then ZeroStats() else Record(StatsAfter(counts[..|counts| - 1]), counts[|counts| - 1])
  }

  /** `statusStats` built in place from the aggregate's records. */
  method StatusStats(counts: seq<StatusCount>) returns (stats: map<string, nat>)
    ensures stats == StatsAfter(counts)
  {
    stats := map["pending_review" := 0, "for_sale" := 0, "sold" := 0, "rejected" := 0, "failed_parsing" := 0];
    assert stats == ZeroStats();
    assert counts[..0] == [];
    for i := 0 to |counts|
      invariant stats == StatsAfter(counts[..i])
    {
      assert counts[..i + 1][..i] == counts[..i];
      if counts[i].id in stats {
        stats := stats[counts[i].id := counts[i].count];
      }
    }
    assert counts[..|counts|] == counts;
  }

  /** The count of the last record for `name`, or 0 when no record has it. */
  function LastCount(counts: seq<StatusCount>, name: string): nat {
    if counts == [] then 0
    else if counts[|counts| - 1].id == name then counts[|counts| - 1].count
    else LastCount(counts[..|counts| - 1], name)
  }

  /**
   * The result has exactly the five status names, whatever the records
   * say; each holds the count of the last record for it, 0 without one.
   */
  lemma {:induction false} StatsAfterCharacterised(counts: seq<StatusCount>, name: string)
    ensures name in StatsAfter(counts) <==> StatusOf(name).Some?
    ensures name in StatsAfter(counts) ==> StatsAfter(counts)[name] == LastCount(counts, name)
  {
    if counts != [] {
      StatsAfterCharacterised(counts[..|counts| - 1], name);
      var c := counts[|counts| - 1];
      StatsAfterCharacterised(counts[..|counts| - 1], c.id);
    }
  }

  /** How many listings have a status. */
  function CountWith(ls: seq<Listing>, s: Status): nat {
    if ls == [] then 0 else CountWith(ls[..|ls| - 1], s) + (if ls[|ls| - 1].status == s then 1 else 0)
  }

  /**
   * The records `$group` produces: one per status that occurs, with its
   * status name and number of listings.
   */
  predicate GroupedBy(counts: seq<StatusCount>, ls: seq<Listing>) {
    (forall i, j :: 0 <= i < j < |counts| ==> counts[i].id != counts[j].id)
    && (forall i :: 0 <= i < |counts| ==>
          StatusOf(counts[i].id).Some? && counts[i].count == CountWith(ls, StatusOf(counts[i].id).value))
    && (forall s: Status :: CountWith(ls, s) > 0 ==> exists i :: 0 <= i < |counts| && counts[i].id == StatusName(s))
  }

  /** Over the records of a grouping, the dashboard shows each status's number of listings. */
  lemma StatsCountListings(counts: seq<StatusCount>, ls: seq<Listing>, s: Status)
    requires GroupedBy(counts, ls)
    ensures StatusName(s) in StatsAfter(counts)
    ensures StatsAfter(counts)[StatusName(s)] == CountWith(ls, s)
  {
    var name := StatusName(s);
    StatsAfterCharacterised(counts, name);
    if i :| 0 <= i < |counts| && counts[i].id == name {
      LastCountUnique(counts, name, i);
      assert StatusOf(name) == Some(s);
    } else {
      LastCountAbsent(counts, name);
    }
  }

  lemma {:induction false} LastCountUnique(counts: seq<StatusCount>, name: string, i: nat)
    requires forall a, b :: 0 <= a < b < |counts| ==> counts[a].id != counts[b].id
    requires i < |counts| && counts[i].id == name
    ensures LastCount(counts, name) == counts[i].count
  {
    var n := |counts|;
    if i < n - 1 {
      var init := counts[..n - 1];
      assert init[i] == counts[i];
      LastCountUnique(init, name, i);
    }
  }

  lemma {:induction false} LastCountAbsent(counts: seq<StatusCount>, name: string)
    requires forall i :: 0 <= i < |counts| ==> counts[i].id != name
    ensures LastCount(counts, name) == 0
  {
    if counts != [] {
      LastCountAbsent(counts[..|counts| - 1], name);
    }
  }
}
