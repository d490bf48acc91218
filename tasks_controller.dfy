/**
 * The task API (app/Http/Controllers/Api/V1/TasksController.php): request
 * validation, the writes of `store`, `update` and `updateStatus`, `destroy`,
 * and the listing query with its defaults.
 *
 * A request is the map of inputs the controller receives, after Laravel's
 * global middleware (an empty string arrives as null). The `tasks` table is
 * a `TaskTable`; Eloquent's query builder is reduced to the `Query` value
 * the controller builds.
 */
module TasksController {
  import opened TaskRecords

  type Request = map<string, Value>

  /** `$request->input(key)` */
  function Input(req: Request, key: string): Value
  {
    if key in req then req[key] else Null
  }

  /** The characters PHP's `trim` removes. */
  const TrimmedChars: set<char> := {' ', '\t', '\n', '\r', '\0', '\U{000B}'}

  predicate IsBlank(s: string)
  {
    forall i :: 0 <= i < |s| ==> s[i] in TrimmedChars
  }

  /** Laravel's `required` rule: present, not null and not a blank string. */
  predicate Present(v: Value)
  {
    match v
    case Null => false
    case Text(s) => !IsBlank(s)
    case _ => true
  }

  /** The fields the `store` and `update` rules name (TasksController.php:35-42, 80-87). */
  const TaskFields: set<string> := {"user_id", "title", "start_date", "end_date", "description", "status"}

  /**
   * Whether one field passes its rules. Dates must parse; `after:start_date`
   * compares with the start date only when that is a date itself, and
   * otherwise compares with PHP's `false`, which any later day exceeds.
   */
  function FieldPasses(req: Request, field: string, today: int): (passes: bool)
    ensures passes ==> Present(Input(req, field))
    ensures field != "start_date" && field != "end_date" ==> (passes <==> Present(Input(req, field)))
    ensures field == "start_date" && passes ==> Input(req, field).Date? && Input(req, field).day > today
    ensures field == "end_date" && passes ==>
      Input(req, "end_date").Date? && (Input(req, "start_date").Date? ==> Input(req, "end_date").day > Input(req, "start_date").day)
  {
    var start, end := Input(req, "start_date"), Input(req, "end_date");
    if field == "start_date" then Present(start) && start.Date? && start.day > today
    else if field == "end_date" then Present(end) && end.Date? && (start.Date? ==> end.day > start.day)
    else Present(Input(req, field))
  }

  /** The fields that fail validation in `store` and `update`. */
  function TaskErrors(req: Request, today: int): (errors: set<string>)
    ensures errors <= TaskFields
    ensures "start_date" !in errors <==> Input(req, "start_date").Date? && Input(req, "start_date").day > today
    ensures "end_date" !in errors <==>
      && Input(req, "end_date").Date?
      && (Input(req, "start_date").Date? ==> Input(req, "end_date").day > Input(req, "start_date").day)
    ensures forall f :: f in TaskFields && f != "start_date" && f != "end_date" ==>
      (f in errors <==> !Present(Input(req, f)))
  {
    set f | f in TaskFields && !FieldPasses(req, f, today)
  }

  /** The fields that fail validation in `updateStatus` (TasksController.php:123-125). */
  function StatusErrors(req: Request): (errors: set<string>)
    ensures errors == {} <==> Present(Input(req, "status"))
    ensures errors <= {"status"}
  {
    if Present(Input(req, "status")) then {} else {"status"}
  }

  /** The attributes `Task::create` writes in `store` (TasksController.php:44-52). */
  const StoredColumns: set<string> := {"user_id", "title", "start_date", "end_date", "description", "status", "type"}

  /**
   * The attributes mass assignment accepts. The model class is not part of
   * this model; its fillable list is taken to be the columns `store` writes.
   */
  const Fillable: set<string> := StoredColumns

  /** The record `store` creates under the identifier the table assigns. */
  function NewTask(id: nat, req: Request): (t: Task)
    ensures t.id == id
    ensures t.attrs.Keys == StoredColumns
    ensures forall k :: k in StoredColumns ==> t.attrs[k] == Input(req, k)
  {
    Task(id, map k | k in StoredColumns :: Input(req, k))
  }

  /** `$task->fill($request->all())`: every fillable attribute of the request overwrites the task's. */
  function Fill(t: Task, req: Request): (r: Task)
    ensures r.id == t.id
    ensures forall k :: k in req && k in Fillable ==> k in r.attrs && r.attrs[k] == req[k]
    ensures forall k :: !(k in req && k in Fillable) ==>
      (k in r.attrs <==> k in t.attrs) && (k in t.attrs ==> r.attrs[k] == t.attrs[k])
  {
    t.(attrs := t.attrs + map k | k in req && k in Fillable :: req[k])
  }

  /** A response: a task as JSON with its status code, a listing, a 422 with the failing fields, or a 404. */
  datatype Response =
    | Json(code: int, task: Task)
    | Listing(query: Query)
    | ValidationFailed(errors: set<string>)
    | NotFound

  /**
   * `store` (TasksController.php:33-55). `newId` is the identifier the table
   * assigns to the new row.
   */
  method Store(table: TaskTable, req: Request, today: int, newId: nat) returns (r: Response)
    requires newId !in table.rows
    modifies table
    ensures TaskErrors(req, today) != {} ==> r == ValidationFailed(TaskErrors(req, today)) && table.rows == old(table.rows)
    ensures TaskErrors(req, today) == {} ==>
      && r == Json(201, NewTask(newId, req))
      && table.rows == old(table.rows)[newId := NewTask(newId, req)]
  {
    var errors := TaskErrors(req, today);
    if errors != {} {
      return ValidationFailed(errors);
    }
    var task := NewTask(newId, req);
    table.rows := table.rows[newId := task];
    return Json(201, task);
  }

  /** `show`: the bound task, or 404 when the identifier names no row. */
  method Show(table: TaskTable, id: nat) returns (r: Response)
    ensures id !in table.rows ==> r == NotFound
    ensures id in table.rows ==> r == Json(200, table.rows[id])
  {
    if id !in table.rows {
      return NotFound;
    }
    return Json(200, table.rows[id]);
  }

  /**
   * `update` (TasksController.php:78-94): the same rules as `store`, then
   * every request attribute is filled into the task and saved.
   */
  method Update(table: TaskTable, id: nat, req: Request, today: int) returns (r: Response)
    modifies table
    ensures id !in old(table.rows) ==> r == NotFound && table.rows == old(table.rows)
    ensures id in old(table.rows) && TaskErrors(req, today) != {} ==>
      r == ValidationFailed(TaskErrors(req, today)) && table.rows == old(table.rows)
    ensures id in old(table.rows) && TaskErrors(req, today) == {} ==>
      && r == Json(200, Fill(old(table.rows)[id], req))
      && table.rows == old(table.rows)[id := Fill(old(table.rows)[id], req)]
  {
    if id !in table.rows {
      return NotFound;
    }
    var errors := TaskErrors(req, today);
    if errors != {} {
      return ValidationFailed(errors);
    }
    var task := Fill(table.rows[id], req);
    table.rows := table.rows[id := task];
    return Json(200, task);
  }

  /**
   * `updateStatus` (TasksController.php:121-132): only `status` is required,
   * with any value; then every request attribute is filled in, as in `update`.
   */
  method UpdateStatus(table: TaskTable, id: nat, req: Request) returns (r: Response)
    modifies table
    ensures id !in old(table.rows) ==> r == NotFound && table.rows == old(table.rows)
    ensures id in old(table.rows) && StatusErrors(req) != {} ==>
      r == ValidationFailed(StatusErrors(req)) && table.rows == old(table.rows)
    ensures id in old(table.rows) && StatusErrors(req) == {} ==>
      && r == Json(200, Fill(old(table.rows)[id], req))
      && table.rows == old(table.rows)[id := Fill(old(table.rows)[id], req)]
  {
    if id !in table.rows {
      return NotFound;
    }
    var errors := StatusErrors(req);
    if errors != {} {
      return ValidationFailed(errors);
    }
    var task := Fill(table.rows[id], req);
    table.rows := table.rows[id := task];
    return Json(200, task);
  }

  /** `destroy` (TasksController.php:105-110): the row is deleted and the listing returned. */
  method Destroy(table: TaskTable, id: nat, req: Request) returns (r: Response)
    modifies table
    ensures id !in old(table.rows) ==> r == NotFound && table.rows == old(table.rows)
    ensures id in old(table.rows) ==> table.rows == old(table.rows) - {id} && r == Listing(ListingQuery(req))
  {
    if id !in table.rows {
      return NotFound;
    }
    table.rows := table.rows - {id};
    var q := PaginatedQuery(req);
    return Listing(q);
  }

  /** `index` (TasksController.php:21-24). */
  method Index(req: Request) returns (r: Response)
    ensures r == Listing(ListingQuery(req))
  {
    var q := PaginatedQuery(req);
    return Listing(q);
  }

  /** A `where` the unseen `filter` helper adds for one column. */
  datatype ColumnFilter = ColumnFilter(column: string, value: Value)

  /** The listing query: order, filters and page size. */
  datatype Query = Query(sortBy: Value, sortType: Value, filters: seq<ColumnFilter>, perPage: Value)

  /** The columns `paginatedQuery` may filter on, in the order it tests them. */
  const FilterColumns: seq<string> := ["title", "description", "start_date", "end_date", "status"]

  /** PHP truthiness of an input: null, "", "0" and 0 are false. */
  function Truthy(v: Value): (truthy: bool)
    ensures !truthy <==> v in {Null, Text(""), Text("0"), Num(0)}
  {
    match v
    case Null => false
    case Text(s) => s != "" && s != "0"
    case Num(n) => n != 0
    case Date(_) => true
  }

  /** PHP's `??`: the value unless it is null. */
  function Coalesce(v: Value, default: Value): (r: Value)
    ensures v != Null ==> r == v
    ensures v == Null ==> r == default
  {
    if v == Null then default else v
  }

  /** The filter `paginatedQuery` adds for one column: one when its input is truthy, else none. */
  function FilterIf(req: Request, column: string): (r: seq<ColumnFilter>)
    ensures |r| <= 1
    ensures forall f :: f in r <==> Truthy(Input(req, column)) && f == ColumnFilter(column, Input(req, column))
  {
    if Truthy(Input(req, column)) then [ColumnFilter(column, Input(req, column))] else []
  }

  /** The filters of the listing query, in the order `paginatedQuery` adds them. */
  function AppliedFilters(req: Request): seq<ColumnFilter>
  {
    FilterIf(req, "title") + FilterIf(req, "description") + FilterIf(req, "start_date")
    + FilterIf(req, "end_date") + FilterIf(req, "status")
  }

  /**
   * A filter is added for a column exactly when that column's input is
   * truthy, it filters on that input, and no other column is filtered.
   */
  lemma AppliedFiltersExactly(req: Request)
    ensures forall f :: f in AppliedFilters(req) ==> f.column in FilterColumns && f.value == Input(req, f.column) && Truthy(f.value)
    ensures forall c :: c in FilterColumns ==> (ColumnFilter(c, Input(req, c)) in AppliedFilters(req) <==> Truthy(Input(req, c)))
    ensures |AppliedFilters(req)| <= |FilterColumns|
  {
    var a, b, c := FilterIf(req, "title"), FilterIf(req, "description"), FilterIf(req, "start_date");
    var d, e := FilterIf(req, "end_date"), FilterIf(req, "status");
    var all := AppliedFilters(req);
    assert all == a + b + c + d + e;
    forall f | f in all
      ensures f.column in FilterColumns && f.value == Input(req, f.column) && Truthy(f.value)
    {
      assert f in a || f in b || f in c || f in d || f in e;
    }
    forall col | col in FilterColumns
      ensures ColumnFilter(col, Input(req, col)) in all <==> Truthy(Input(req, col))
    {
      var g := ColumnFilter(col, Input(req, col));
      assert g in all <==> g in a || g in b || g in c || g in d || g in e;
    }
  }

  /** No two filters are on the same column. */
  predicate OnePerColumn(filters: seq<ColumnFilter>)
  {
    forall i, j :: 0 <= i < j < |filters| ==> filters[i].column != filters[j].column
  }

  /** Joining two filter lists on disjoint columns keeps one filter per column. */
  lemma OnePerColumnAppend(x: seq<ColumnFilter>, y: seq<ColumnFilter>)
    requires OnePerColumn(x) && OnePerColumn(y)
    requires forall f, g :: f in x && g in y ==> f.column != g.column
    ensures OnePerColumn(x + y)
  {
    forall i, j | 0 <= i < j < |x + y|
      ensures (x + y)[i].column != (x + y)[j].column
    {
      if j < |x| {
        assert (x + y)[i] == x[i] && (x + y)[j] == x[j];
      } else if i < |x| {
        assert (x + y)[i] in x && (x + y)[j] in y;
      } else {
        assert (x + y)[i] == y[i - |x|] && (x + y)[j] == y[j - |x|];
      }
    }
  }

  /** The listing query filters each column at most once. */
  lemma AppliedFiltersOnePerColumn(req: Request)
    ensures OnePerColumn(AppliedFilters(req))
  {
    var a, b, c := FilterIf(req, "title"), FilterIf(req, "description"), FilterIf(req, "start_date");
    var d, e := FilterIf(req, "end_date"), FilterIf(req, "status");
    OnePerColumnAppend(a, b);
    OnePerColumnAppend(a + b, c);
    OnePerColumnAppend(a + b + c, d);
    OnePerColumnAppend(a + b + c + d, e);
  }

  /** The listing query a request asks for: its sort, size and filters, or the defaults. */
  function ListingQuery(req: Request): (q: Query)
    ensures q.sortBy != Null && q.sortType != Null && q.perPage != Null
    ensures forall f :: f in q.filters ==> f.column in FilterColumns && f.value == Input(req, f.column) && Truthy(f.value)
    ensures |q.filters| <= |FilterColumns|
    ensures OnePerColumn(q.filters)
    ensures forall c :: c in FilterColumns && Truthy(Input(req, c)) ==> ColumnFilter(c, Input(req, c)) in q.filters
  {
    AppliedFiltersExactly(req);
    AppliedFiltersOnePerColumn(req);
    Query(Coalesce(Input(req, "sortBy"), Text("title")), Coalesce(Input(req, "sortType"), Text("ASC")),
          AppliedFilters(req), Coalesce(Input(req, "perPage"), Num(10)))
  }

  /** `paginatedQuery` (TasksController.php:141-169), built one step at a time. */
  method PaginatedQuery(req: Request) returns (q: Query)
    ensures q == ListingQuery(req)
  {
    q := Query(Coalesce(Input(req, "sortBy"), Text("title")), Coalesce(Input(req, "sortType"), Text("ASC")), [], Null);
    if Truthy(Input(req, "title")) {
      q := q.(filters := q.filters + [ColumnFilter("title", Input(req, "title"))]);
    }
    assert q.filters == FilterIf(req, "title");
    if Truthy(Input(req, "description")) {
      q := q.(filters := q.filters + [ColumnFilter("description", Input(req, "description"))]);
    }
    assert q.filters == FilterIf(req, "title") + FilterIf(req, "description");
    if Truthy(Input(req, "start_date")) {
      q := q.(filters := q.filters + [ColumnFilter("start_date", Input(req, "start_date"))]);
    }
    assert q.filters == FilterIf(req, "title") + FilterIf(req, "description") + FilterIf(req, "start_date");
    if Truthy(Input(req, "end_date")) {
      q := q.(filters := q.filters + [ColumnFilter("end_date", Input(req, "end_date"))]);
    }
    assert q.filters == FilterIf(req, "title") + FilterIf(req, "description") + FilterIf(req, "start_date") + FilterIf(req, "end_date");
    if Truthy(Input(req, "status")) {
      q := q.(filters := q.filters + [ColumnFilter("status", Input(req, "status"))]);
    }
    q := q.(perPage := Coalesce(Input(req, "perPage"), Num(10)));
  }

  /** With no sort or page-size inputs the listing sorts by title ascending, ten per page. */
  lemma ListingDefaults(req: Request)
    requires "sortBy" !in req && "sortType" !in req && "perPage" !in req
    ensures ListingQuery(req) == Query(Text("title"), Text("ASC"), AppliedFilters(req), Num(10))
  {
  }

  /** Sort and page-size inputs that are given are used as they are. */
  lemma ListingUsesGivenInputs(req: Request)
    ensures Input(req, "sortBy") != Null ==> ListingQuery(req).sortBy == req["sortBy"]
    ensures Input(req, "sortType") != Null ==> ListingQuery(req).sortType == req["sortType"]
    ensures Input(req, "perPage") != Null ==> ListingQuery(req).perPage == req["perPage"]
  {
  }

  /** A title filter of "0" is falsy in PHP and is not applied. */
  lemma ZeroTitleIsNotFiltered()
    ensures AppliedFilters(map["title" := Text("0")]) == []
  {
  }

  /** `store` and `update` accept exactly the requests that meet all six rules. */
  lemma TaskRulesAcceptExactly(req: Request, today: int)
    ensures TaskErrors(req, today) == {} <==>
      && Present(Input(req, "user_id")) && Present(Input(req, "title"))
      && Present(Input(req, "description")) && Present(Input(req, "status"))
      && Input(req, "start_date").Date? && Input(req, "start_date").day > today
      && Input(req, "end_date").Date? && Input(req, "end_date").day > Input(req, "start_date").day
  {
    var errors := TaskErrors(req, today);
    if errors == {} {
      assert "user_id" !in errors && "title" !in errors && "description" !in errors && "status" !in errors;
    }
  }

  /** A start date of today is rejected: the start must be strictly after today. */
  lemma StartTodayIsRejected(req: Request, today: int)
    requires Input(req, "start_date") == Date(today)
    ensures "start_date" in TaskErrors(req, today)
  {
  }

  /** An end date on or before the start date is rejected. */
  lemma EndNotAfterStartIsRejected(req: Request, today: int)
    requires Input(req, "start_date").Date? && Input(req, "end_date").Date?
    requires Input(req, "end_date").day <= Input(req, "start_date").day
    ensures "end_date" in TaskErrors(req, today)
  {
  }

  /**
   * When the start date is missing or not a date, the end date is not
   * compared with it: only the start date is reported.
   */
  lemma EndDatePassesWithoutStartDate(req: Request, today: int, day: int)
    requires !Input(req, "start_date").Date? && Input(req, "end_date") == Date(day)
    ensures "end_date" !in TaskErrors(req, today)
    ensures "start_date" in TaskErrors(req, today)
  {
  }

  /** Any non-blank status string passes, recognised token or not. */
  lemma AnyStatusIsAccepted(req: Request, today: int, s: string)
    requires Input(req, "status") == Text(s) && !IsBlank(s)
    ensures "status" !in TaskErrors(req, today)
    ensures StatusErrors(req) == {}
  {
  }

  /** Filling twice with the same request is filling once. */
  lemma FillIsIdempotent(t: Task, req: Request)
    ensures Fill(Fill(t, req), req) == Fill(t, req)
  {
    var once := Fill(t, req);
    assert once.attrs + (map k | k in req && k in Fillable :: req[k]) == once.attrs;
  }

  /** A status-only request writes the status and nothing else. */
  lemma StatusOnlyRequestWritesStatus(t: Task, req: Request)
    requires req.Keys == {"status"}
    ensures Fill(t, req) == t.(attrs := t.attrs["status" := req["status"]])
  {
    assert Fill(t, req).attrs == t.attrs["status" := req["status"]];
  }

  /** `updateStatus` also writes the other attributes a request carries, such as the title. */
  lemma StatusUpdateCanRewriteTitle(t: Task)
    ensures var req := map["status" := Text(COMPLETED), "title" := Text("renamed")];
      && StatusErrors(req) == {}
      && Attr(Fill(t, req), "title") == Text("renamed")
  {
    var req := map["status" := Text(COMPLETED), "title" := Text("renamed")];
    assert !IsBlank(COMPLETED) by { assert COMPLETED[0] !in TrimmedChars; }
  }
}
