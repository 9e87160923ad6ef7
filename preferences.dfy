/**
 * The search-parameter derivation and page arithmetic of the preference
 * service (src/app/core/user/preferences/preference.service.js).
 */
module Preferences {
  import opened Common
  import opened Util

  /** `{ [sort]: 1 | -1 }`. */
  datatype SortParams = SortParams(field: string, order: int)

  /** What search hands to doSearch. */
  datatype SearchPlan = SearchPlan(page: int, limit: int, sortParams: Option<SortParams>)

  /** The query-builder steps doSearch applies. */
  datatype PreferenceQuery = PreferenceQuery(sort: Option<SortParams>, skip: Option<int>, limit: Option<int>)

  /**
   * search: page from getPage, limit from getLimit with a maximum of 1000,
   * and a sort on the given field, ascending only for exactly 'ASC' or no
   * direction at all.
   */
  function Search(queryParams: QueryParams): (plan: SearchPlan)
    ensures plan.page == GetPage(queryParams) && plan.limit == GetLimit(queryParams, Some(1000))
    ensures plan.limit == GetLimitBounded(queryParams, Some(1000))
    ensures 0 <= plan.page && 1 <= plan.limit <= 1000
    ensures plan.sortParams.Some? <==> Truthy(queryParams.sort)
    ensures plan.sortParams.Some? ==>
              plan.sortParams.value.field == queryParams.sort.value &&
              (plan.sortParams.value.order == 1 <==> queryParams.dir == Some("ASC") || !Truthy(queryParams.dir)) &&
              (plan.sortParams.value.order == 1 || plan.sortParams.value.order == -1)
  {
    var page := GetPage(queryParams);
    var limit := GetLimit(queryParams, Some(1000));
    // With a maximum of 1000 the non-numeric default stays within bounds.
    GetLimitBoundedAgrees(queryParams, Some(1000));

    var sort := queryParams.sort;
    var dir := if Truthy(sort) && !Truthy(queryParams.dir) then Some("ASC") else queryParams.dir;

    var sortParams := if Truthy(sort) then Some(SortParams(sort.value, if dir == Some("ASC") then 1 else -1)) else None;
    SearchPlan(page, limit, sortParams)
  }

  /** The query part of doSearch: sort when given, skip and limit when the limit is not 0. */
  function DoSearchQuery(sortParams: Option<SortParams>, page: int, limit: int): (q: PreferenceQuery)
    ensures q.sort == sortParams
    ensures q.limit.Some? <==> limit != 0
    ensures q.limit.Some? ==> q.limit.value == limit && q.skip == Some(page * limit)
    ensures q.limit.None? ==> q.skip.None?
  {
    if limit != 0 then PreferenceQuery(sortParams, Some(page * limit), Some(limit))
    else PreferenceQuery(sortParams, None, None)
  }

  /** The result record of doSearch. */
  function DoSearchResult<T>(count: nat, elements: seq<T>, page: int, limit: int): (r: PagedResult<T>)
    requires limit >= 1
    ensures r.totalSize == count && r.pageNumber == page && r.pageSize == limit && r.elements == elements
    ensures (r.totalPages - 1) * limit < count <= r.totalPages * limit
  {
    PagedResult(count, page, limit, CeilDiv(count, limit), elements)
  }

  /**
   * Every plan search builds is paged: the `if (limit)` guard of doSearch
   * always holds, so the query skips page * limit documents, never a
   * negative number, and takes at most 1000.
   */
  lemma SearchIsAlwaysPaged(queryParams: QueryParams)
    ensures var plan := Search(queryParams);
            var q := DoSearchQuery(plan.sortParams, plan.page, plan.limit);
            q.skip == Some(plan.page * plan.limit) && q.skip.value >= 0 && q.limit == Some(plan.limit) && q.limit.value <= 1000
  {
    var plan := Search(queryParams);
    assert plan.page * plan.limit >= 0 by {
      assert plan.page >= 0 && plan.limit >= 1;
    }
  }

  /** A lower-case 'asc' sorts descending. */
  lemma LowerCaseAscSortsDescending(sort: string)
    requires sort != ""
    ensures Search(QueryParams(Absent, Absent, Some(sort), Some("asc"))).sortParams == Some(SortParams(sort, -1))
  {
  }
}
