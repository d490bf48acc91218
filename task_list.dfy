/**
 * The task list page (resources/js/views/__backoffice/tasks/List.js): the
 * status labels, the filter map and its keys, the sort state and its toggle,
 * and the restoration of filters from the URL on first render.
 *
 * The component's state hooks are the fields of a `ListView`; every request
 * the page sends to the listing endpoint is recorded in `requests`, every
 * delete in `deletes`, and each outcome is a parameter (`None` when the
 * request fails).
 */
module TaskList {
  import opened TaskRecords

  /**
   * `readableStatus` (List.js:375-382): the three tokens get their labels;
   * any other status is shown as it is.
   */
  function ReadableStatus(status: string): (shown: string)
    ensures status == PENDING ==> shown == "Pending"
    ensures status == IN_PROGRESS ==> shown == "In Progress"
    ensures status == COMPLETED ==> shown == "Completed"
    ensures status != PENDING && status != IN_PROGRESS && status != COMPLETED ==> shown == status
  {
    if status == IN_PROGRESS then "In Progress"
    else if status == COMPLETED then "Completed"
    else if status == PENDING then "Pending"
    else status
  }

  /** Labels are not unique: a task whose status is the label itself reads the same. */
  lemma ReadableStatusConflatesLabels()
    ensures ReadableStatus("Pending") == ReadableStatus(PENDING)
    ensures "Pending" != PENDING
  {
    assert "Pending"[0] != PENDING[0];
  }

  /** The active filters, keyed `<column>[<operator>]`. */
  type Filters = map<string, string>

  /** `${filterBy}[${filterType}]` (List.js:87). */
  function FilterKey(column: string, kind: string): (key: string)
    ensures |key| == |column| + |kind| + 2
    ensures key[..|column|] == column && key[|column|] == '[' && key[|column| + 1..|key| - 1] == kind
    ensures key[|key| - 1] == ']'
  {
    column + "[" + kind + "]"
  }

  /** The filters `handleFiltering` sends (List.js:85-88): that one key added or overwritten. */
  function WithFilter(filters: Filters, column: string, kind: string, value: string): (r: Filters)
    ensures r.Keys == filters.Keys + {FilterKey(column, kind)}
    ensures r[FilterKey(column, kind)] == value
    ensures forall k :: k in filters && k != FilterKey(column, kind) ==> r[k] == filters[k]
  {
    filters[FilterKey(column, kind) := value]
  }

  /** The filters `handleFilterRemove` sends (List.js:64-65): that one key deleted. */
  function WithoutFilter(filters: Filters, key: string): (r: Filters)
    ensures r.Keys == filters.Keys - {key}
    ensures forall k :: k in r ==> r[k] == filters[k]
  {
    filters - {key}
  }

  /** Removing a filter just added restores the filters from before, when its key was new. */
  lemma RemoveUndoesAdd(filters: Filters, column: string, kind: string, value: string)
    requires FilterKey(column, kind) !in filters
    ensures WithoutFilter(WithFilter(filters, column, kind, value), FilterKey(column, kind)) == filters
  {
    var r := WithoutFilter(WithFilter(filters, column, kind, value), FilterKey(column, kind));
    assert r.Keys == filters.Keys;
  }

  /** The sort state: column and direction. */
  datatype Sorting = Sorting(column: string, direction: string)

  /** The initial sort (List.js:24-27). */
  const DefaultSorting: Sorting := Sorting("title", "asc")

  /** The direction a header click asks for (List.js:455). */
  function Toggled(direction: string): (r: string)
    ensures r == "asc" || r == "desc"
    ensures direction == "asc" || direction == "desc" ==> r != direction
  {
    if direction == "asc" then "desc" else "asc"
  }

  /** A header click flips asc and desc; from any other direction it asks for asc. */
  lemma ToggleFlips(direction: string)
    ensures Toggled("asc") == "desc" && Toggled("desc") == "asc"
    ensures direction == "asc" || direction == "desc" ==> Toggled(Toggled(direction)) == direction
    ensures direction != "asc" ==> Toggled(direction) == "asc"
  {
  }

  /** A JavaScript value that is not undefined and not the empty string. */
  predicate Truthy(v: Option<string>)
  {
    v.Some? && v.value != ""
  }

  /** The sort state after a successful fetch (List.js:252-255). */
  function NextSorting(prev: Sorting, sortBy: Option<string>, sortType: Option<string>): (r: Sorting)
    ensures Truthy(sortBy) ==> r.column == sortBy.value
    ensures !Truthy(sortBy) ==> r.column == prev.column
    ensures Truthy(sortType) ==> r.direction == sortType.value
    ensures !Truthy(sortType) ==> r.direction == prev.direction
  {
    Sorting(if Truthy(sortBy) then sortBy.value else prev.column,
            if Truthy(sortType) then sortType.value else prev.direction)
  }

  /** The parameters `fetchUsers` takes; `None` is undefined. */
  datatype QueryParams = QueryParams(
    page: Option<string>,
    perPage: Option<string>,
    sortBy: Option<string>,
    sortType: Option<string>,
    filters: Option<Filters>)

  /** The pagination metadata of the last page fetched. */
  datatype PageMeta = PageMeta(currentPage: string, perPage: string)

  /**
   * `defaultQueryString` as written (List.js:269-280): it destructures
   * `sortBy` and `sortType` from a state whose fields are `by` and `type`,
   * so both come out undefined.
   */
  function DefaultQuery(sorting: Sorting, filters: Filters, pagination: Option<PageMeta>): (q: QueryParams)
    ensures q.sortBy == None && q.sortType == None
    ensures q.filters == Some(filters)
    ensures q.page == if pagination.Some? then Some(pagination.value.currentPage) else None
    ensures q.perPage == if pagination.Some? then Some(pagination.value.perPage) else None
  {
    QueryParams(
      if pagination.Some? then Some(pagination.value.currentPage) else None,
      if pagination.Some? then Some(pagination.value.perPage) else None,
      None, None, Some(filters))
  }

  /** `defaultQueryString` as evidently intended: it carries the current sort. */
  function IntendedDefaultQuery(sorting: Sorting, filters: Filters, pagination: Option<PageMeta>): (q: QueryParams)
    ensures q.sortBy == Some(sorting.column) && q.sortType == Some(sorting.direction)
    ensures q.filters == Some(filters)
    ensures q.page == if pagination.Some? then Some(pagination.value.currentPage) else None
    ensures q.perPage == if pagination.Some? then Some(pagination.value.perPage) else None
  {
    DefaultQuery(sorting, filters, pagination).(sortBy := Some(sorting.column), sortType := Some(sorting.direction))
  }

  /**
   * Changing page after sorting by description, descending: the request as
   * written carries no sort, so the server falls back to its default order,
   * while the page keeps showing description, descending, as the sort.
   */
  lemma PageChangeDropsSorting(filters: Filters, pagination: Option<PageMeta>, page: string)
    ensures var s := Sorting("description", "desc");
      var q := DefaultQuery(s, filters, pagination).(page := Some(page));
      && q.sortBy == None && q.sortType == None
      && NextSorting(s, q.sortBy, q.sortType) == s
  {
  }

  /** With the intended query, the request asks for exactly the sort the page shows. */
  lemma IntendedPageChangeKeepsSorting(sorting: Sorting, filters: Filters, pagination: Option<PageMeta>, page: string)
    requires sorting.column != "" && sorting.direction != ""
    ensures var q := IntendedDefaultQuery(sorting, filters, pagination).(page := Some(page));
      && q.sortBy == Some(sorting.column) && q.sortType == Some(sorting.direction)
      && NextSorting(sorting, q.sortBy, q.sortType) == sorting
  {
  }

  /**
   * A URL parameter that the first render restores as a filter
   * (List.js:321-322); stated through `RestoreFilters`, `Restorable` and
   * `FilterKeyRestoredIff`.
   */
  predicate IsFilterParam(name: string)
  {
    ']' in name && '_' !in name
  }

  /**
   * The filter restoration loop (List.js:318-325): keeps the parameters whose
   * name contains `]` and no `_`. Parameter names are distinct, as the keys
   * of an object are.
   */
  method RestoreFilters(params: seq<(string, string)>) returns (prevFilters: Filters)
    requires forall i, j :: 0 <= i < j < |params| ==> params[i].0 != params[j].0
    ensures forall k :: k in prevFilters <==> IsFilterParam(k) && exists i :: 0 <= i < |params| && params[i].0 == k
    ensures forall i :: 0 <= i < |params| && IsFilterParam(params[i].0) ==> prevFilters[params[i].0] == params[i].1
    ensures prevFilters == Restorable(ParamMap(params))
  {
    prevFilters := map[];
    var i := 0;
    while i < |params|
      invariant 0 <= i <= |params|
      invariant forall k :: k in prevFilters <==> IsFilterParam(k) && exists j :: 0 <= j < i && params[j].0 == k
      invariant forall j :: 0 <= j < i && IsFilterParam(params[j].0) ==> prevFilters[params[j].0] == params[j].1
    {
      var (param, value) := params[i];
      if IsFilterParam(param) {
        prevFilters := prevFilters[param := value];
      }
      i := i + 1;
    }
    var m := ParamMap(params);
    assert prevFilters.Keys == Restorable(m).Keys;
  }

  /** The parameters of a URL as the object `UrlUtils` parses them into. */
  function ParamMap(params: seq<(string, string)>): (m: map<string, string>)
    requires forall i, j :: 0 <= i < j < |params| ==> params[i].0 != params[j].0
    ensures forall k :: k in m <==> exists i :: 0 <= i < |params| && params[i].0 == k
    ensures forall i :: 0 <= i < |params| ==> m[params[i].0] == params[i].1
  {
    map i | 0 <= i < |params| :: params[i].0 := params[i].1
  }

  /**
   * A filter set from the form is restored from the URL exactly when neither
   * its column nor its operator contains an underscore.
   */
  lemma FilterKeyRestoredIff(column: string, kind: string)
    ensures IsFilterParam(FilterKey(column, kind)) <==> '_' !in column && '_' !in kind
  {
    var key := FilterKey(column, kind);
    assert key[|key| - 1] == ']';
    assert key == column + ("[" + kind + "]");
    assert "[" + kind + "]" == ['['] + kind + [']'];
  }

  /** Filters on the start and end dates are therefore never restored. */
  lemma DateFiltersAreNotRestored(kind: string)
    ensures !IsFilterParam(FilterKey("start_date", kind))
    ensures !IsFilterParam(FilterKey("end_date", kind))
  {
    FilterKeyRestoredIff("start_date", kind);
    FilterKeyRestoredIff("end_date", kind);
    assert "start_date"[5] == '_';
    assert "end_date"[3] == '_';
  }

  /**
   * The query string `updateQueryString` pushes (List.js:287-301): the page
   * and its size once a page has been fetched, the sort, and every filter.
   */
  function QueryString(sorting: Sorting, filters: Filters, pagination: Option<PageMeta>): (url: map<string, string>)
    ensures url.Keys == {"sortBy", "sortType"} + (if pagination.Some? then {"page", "perPage"} else {}) + filters.Keys
    ensures forall k :: k in filters ==> url[k] == filters[k]
    ensures "sortBy" !in filters ==> url["sortBy"] == sorting.column
    ensures "sortType" !in filters ==> url["sortType"] == sorting.direction
    ensures pagination.Some? && "page" !in filters ==> url["page"] == pagination.value.currentPage
    ensures pagination.Some? && "perPage" !in filters ==> url["perPage"] == pagination.value.perPage
  {
    var sorted := map["sortBy" := sorting.column, "sortType" := sorting.direction];
    var paged := if pagination.Some? then sorted["page" := pagination.value.currentPage]["perPage" := pagination.value.perPage] else sorted;
    paged + filters
  }

  /** The filters a URL parameter map restores on the first render. */
  function Restorable(params: map<string, string>): (r: Filters)
    ensures forall k :: k in r <==> k in params && IsFilterParam(k)
    ensures forall k :: k in r ==> r[k] == params[k]
  {
    map k | k in params && IsFilterParam(k) :: params[k]
  }

  /**
   * Reloading the page restores, of the filters it showed, exactly those
   * whose key has no underscore, with their values, and the sort it showed.
   */
  lemma ReloadRestoresFilters(sorting: Sorting, filters: Filters, pagination: Option<PageMeta>)
    requires forall k :: k in filters ==> ']' in k
    ensures Restorable(QueryString(sorting, filters, pagination)) == Restorable(filters)
    ensures QueryString(sorting, filters, pagination)["sortBy"] == sorting.column
    ensures QueryString(sorting, filters, pagination)["sortType"] == sorting.direction
  {
    var url := QueryString(sorting, filters, pagination);
    assert ']' !in "sortBy" && ']' !in "sortType" && ']' !in "page" && ']' !in "perPage";
    forall k | k in url && IsFilterParam(k)
      ensures k in filters
    {
      assert k != "sortBy" && k != "sortType" && k != "page" && k != "perPage";
    }
  }

  /** The value of a URL parameter, if present. */
  function Lookup(params: seq<(string, string)>, name: string): (r: Option<string>)
    ensures r.Some? ==> exists i :: 0 <= i < |params| && params[i] == (name, r.value)
    ensures r.None? ==> forall i :: 0 <= i < |params| ==> params[i].0 != name
  {
    if params == [] then None
    else if params[0].0 == name then Some(params[0].1)
    else Lookup(params[1..], name)
  }

  /** The list component's state and the requests it has sent. */
  class ListView {
    var sorting: Sorting
    var filters: Filters
    var pagination: Option<PageMeta>
    var requests: seq<QueryParams>
    var history: seq<map<string, string>>
    var deletes: seq<nat>

    constructor ()
      ensures sorting == DefaultSorting && filters == map[] && pagination == None
      ensures requests == [] && history == [] && deletes == []
    {
      sorting := DefaultSorting;
      filters := map[];
      pagination := None;
      requests := [];
      history := [];
      deletes := [];
    }

    function DefaultQueryString(): QueryParams
      reads this
    {
      DefaultQuery(sorting, filters, pagination)
    }

    /**
     * `fetchUsers` (List.js:229-262): the request is sent; on success the
     * sort and filters are taken from the parameters where given and kept
     * otherwise; on failure the state is left alone.
     */
    method FetchUsers(params: QueryParams, response: Option<PageMeta>)
      modifies this`requests, this`sorting, this`filters, this`pagination
      ensures requests == old(requests) + [params]
      ensures response.Some? ==>
        && sorting == NextSorting(old(sorting), params.sortBy, params.sortType)
        && filters == (if params.filters.Some? then params.filters.value else old(filters))
        && pagination == response
      ensures response.None? ==>
        sorting == old(sorting) && filters == old(filters) && pagination == old(pagination)
    {
      requests := requests + [params];
      if response.Some? {
        sorting := NextSorting(sorting, params.sortBy, params.sortType);
        filters := if params.filters.Some? then params.filters.value else filters;
        pagination := response;
      }
    }

    /** `handleFiltering` (List.js:82-94). */
    method HandleFiltering(column: string, kind: string, value: string, response: Option<PageMeta>)
      modifies this`requests, this`sorting, this`filters, this`pagination
      ensures requests == old(requests) + [old(DefaultQueryString()).(filters := Some(WithFilter(old(filters), column, kind, value)))]
      ensures sorting == old(sorting)
      ensures filters == if response.Some? then WithFilter(old(filters), column, kind, value) else old(filters)
      ensures pagination == if response.Some? then response else old(pagination)
    {
      var newFilters := WithFilter(filters, column, kind, value);
      FetchUsers(DefaultQueryString().(filters := Some(newFilters)), response);
    }

    /** `handleFilterRemove` (List.js:63-71). */
    method HandleFilterRemove(key: string, response: Option<PageMeta>)
      modifies this`requests, this`sorting, this`filters, this`pagination
      ensures requests == old(requests) + [old(DefaultQueryString()).(filters := Some(WithoutFilter(old(filters), key)))]
      ensures sorting == old(sorting)
      ensures filters == if response.Some? then WithoutFilter(old(filters), key) else old(filters)
      ensures pagination == if response.Some? then response else old(pagination)
    {
      var newFilters := WithoutFilter(filters, key);
      FetchUsers(DefaultQueryString().(filters := Some(newFilters)), response);
    }

    /** `handleSorting` (List.js:104-110). */
    method HandleSorting(sortBy: string, sortType: string, response: Option<PageMeta>)
      modifies this`requests, this`sorting, this`filters, this`pagination
      ensures requests == old(requests) + [old(DefaultQueryString()).(sortBy := Some(sortBy), sortType := Some(sortType))]
      ensures sorting == if response.Some? then NextSorting(old(sorting), Some(sortBy), Some(sortType)) else old(sorting)
      ensures filters == old(filters)
      ensures pagination == if response.Some? then response else old(pagination)
    {
      FetchUsers(DefaultQueryString().(sortBy := Some(sortBy), sortType := Some(sortType)), response);
    }

    /** A click on a column header (List.js:452-457): sort by it, in the other direction. */
    method HeaderCellClicked(cellName: string, response: Option<PageMeta>)
      modifies this`requests, this`sorting, this`filters, this`pagination
      ensures requests == old(requests) + [old(DefaultQueryString()).(sortBy := Some(cellName), sortType := Some(Toggled(old(sorting).direction)))]
      ensures sorting == if response.Some? then NextSorting(old(sorting), Some(cellName), Some(Toggled(old(sorting).direction))) else old(sorting)
      ensures response.Some? && cellName != "" ==> sorting == Sorting(cellName, Toggled(old(sorting).direction))
      ensures filters == old(filters)
      ensures pagination == if response.Some? then response else old(pagination)
    {
      HandleSorting(cellName, Toggled(sorting.direction), response);
    }

    /** `handlePageChange` (List.js:120-125). */
    method HandlePageChange(page: string, response: Option<PageMeta>)
      modifies this`requests, this`sorting, this`filters, this`pagination
      ensures requests == old(requests) + [old(DefaultQueryString()).(page := Some(page))]
      ensures sorting == old(sorting) && filters == old(filters)
      ensures pagination == if response.Some? then response else old(pagination)
    {
      FetchUsers(DefaultQueryString().(page := Some(page)), response);
    }

    /** `handlePerPageChange` (List.js:136-142). */
    method HandlePerPageChange(perPage: string, page: string, response: Option<PageMeta>)
      modifies this`requests, this`sorting, this`filters, this`pagination
      ensures requests == old(requests) + [old(DefaultQueryString()).(perPage := Some(perPage), page := Some(page))]
      ensures sorting == old(sorting) && filters == old(filters)
      ensures pagination == if response.Some? then response else old(pagination)
    {
      FetchUsers(DefaultQueryString().(perPage := Some(perPage), page := Some(page)), response);
    }

    /** `updateQueryString` (List.js:287-301): the current state goes into the URL. */
    method UpdateQueryString()
      modifies this`history
      ensures history == old(history) + [QueryString(sorting, filters, pagination)]
    {
      history := history + [QueryString(sorting, filters, pagination)];
    }

    /**
     * The effect on `pagination.data` (List.js:306-331): once a page has been
     * fetched the URL is updated; before that, the URL's page, size and sort
     * are passed on to a fetch, and its filter parameters become the filters.
     */
    method OnPaginationChange(url: seq<(string, string)>, response: Option<PageMeta>)
      requires forall i, j :: 0 <= i < j < |url| ==> url[i].0 != url[j].0
      modifies this`history, this`requests, this`sorting, this`filters, this`pagination
      ensures old(pagination).Some? ==>
        && history == old(history) + [old(QueryString(sorting, filters, pagination))]
        && requests == old(requests)
        && sorting == old(sorting) && filters == old(filters) && pagination == old(pagination)
      ensures old(pagination).None? ==>
        && history == old(history)
        && |requests| == |old(requests)| + 1
        && requests[..|old(requests)|] == old(requests)
        && var q := requests[|requests| - 1];
        && q.sortBy == Lookup(url, "sortBy") && q.sortType == Lookup(url, "sortType")
        && q.page == Lookup(url, "page") && q.perPage == Lookup(url, "perPage")
        && q.filters.Some?
        && (forall k :: k in q.filters.value <==> IsFilterParam(k) && exists i :: 0 <= i < |url| && url[i].0 == k)
        && (forall i :: 0 <= i < |url| && IsFilterParam(url[i].0) ==> q.filters.value[url[i].0] == url[i].1)
        && (response.Some? ==>
              && filters == q.filters.value
              && sorting == NextSorting(old(sorting), Lookup(url, "sortBy"), Lookup(url, "sortType"))
              && pagination == response)
        && (response.None? ==> filters == old(filters) && sorting == old(sorting) && pagination == old(pagination))
    {
      if pagination.Some? {
        UpdateQueryString();
        return;
      }
      var prevFilters := RestoreFilters(url);
      FetchUsers(QueryParams(Lookup(url, "page"), Lookup(url, "perPage"), Lookup(url, "sortBy"), Lookup(url, "sortType"), Some(prevFilters)), response);
    }

    /**
     * `deleteTask` (List.js:189-220): the delete request is sent; on success
     * the listing it returns becomes the page shown; on failure the page is
     * kept.
     */
    method DeleteTask(taskId: nat, response: Option<PageMeta>)
      modifies this`deletes, this`pagination
      ensures deletes == old(deletes) + [taskId]
      ensures pagination == if response.Some? then response else old(pagination)
    {
      deletes := deletes + [taskId];
      if response.Some? {
        pagination := response;
      }
    }
  }
}
