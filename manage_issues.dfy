/** The admin's issue table: the query string sent to the server, the normalised
    response, 12-per-page paging with clamped Prev/Next and the "Showing a - b of n"
    text, and the status, assignment, priority and delete handlers. */
module ManageIssues {
  import opened Js
  import opened Model
  import StaffOptions

  const PerPage: int := 12

  // ---------------------------------------------------------------------------
  // URLSearchParams

  /** The name-value list of a `URLSearchParams`, in order. */
  type Params = seq<(string, string)>

  /** `params.get(name)`: the value of the first pair with that name. */
  function Get(ps: Params, name: string): Option<string> {
    if ps == [] then None else if ps[0].0 == name then Some(ps[0].1) else Get(ps[1..], name)
  }

  /** How many pairs carry the name. */
  function Count(ps: Params, name: string): nat {
    if ps == [] then 0 else (if ps[0].0 == name then 1 else 0) + Count(ps[1..], name)
  }

  /** Removes every pair with the name; the other names keep their values. */
  function RemoveAll(ps: Params, name: string): (r: Params)
    ensures Count(r, name) == 0 && Get(r, name).None?
    ensures forall other :: other != name ==> Get(r, other) == Get(ps, other) && Count(r, other) == Count(ps, other)
  {
    if ps == [] then []
    else if ps[0].0 == name then RemoveAll(ps[1..], name)
    else [ps[0]] + RemoveAll(ps[1..], name)
  }

  /** `params.set(name, value)`: the first pair with the name takes the value and the
      others are removed, or else the pair is appended. Afterwards the name occurs once
      with that value, and every other name keeps its value and its count. */
  function Set(ps: Params, name: string, value: string): (r: Params)
    ensures Get(r, name) == Some(value) && Count(r, name) == 1
    ensures forall other :: other != name ==> Get(r, other) == Get(ps, other) && Count(r, other) == Count(ps, other)
  {
    if ps == [] then [(name, value)]
    else if ps[0].0 == name then [(name, value)] + RemoveAll(ps[1..], name)
    else [ps[0]] + Set(ps[1..], name, value)
  }

  /** The list holds each name at most once, and exactly the names of `expected`, with
      their values. */
  ghost predicate Holds(ps: Params, expected: map<string, string>) {
    && (forall name :: Get(ps, name) == if name in expected then Some(expected[name]) else None)
    && (forall name :: Count(ps, name) <= 1)
  }

  /** `set` on a list that holds a map holds the map with the name updated. */
  lemma SetHolds(ps: Params, expected: map<string, string>, name: string, value: string)
    requires Holds(ps, expected)
    ensures Holds(Set(ps, name, value), expected[name := value])
  {
  }

  /** A search-params object: its name-value list, changed by `set`. */
  class SearchParams {
    var list: Params

    /** `new URLSearchParams()`: no pairs. */
    constructor ()
      ensures list == []
    {
      list := [];
    }

    /** `params.set(name, value)` */
    method SetParam(name: string, value: string)
      modifies this
      ensures list == Set(old(list), name, value)
    {
      list := Set(list, name, value);
    }
  }

  /** The name-value pairs the query should carry: page and limit when non-zero, the
      search when non-empty, the status and priority filters when set and not "All". */
  function QueryFor(page: int, limit: int, search: string, statusFilter: string, priorityFilter: string): map<string, string> {
    var m1 := if page != 0 then map["page" := NumberToString(page)] else map[];
    var m2 := if limit != 0 then m1["limit" := NumberToString(limit)] else m1;
    var m3 := if search != "" then m2["search" := search] else m2;
    var m4 := if statusFilter != "" && statusFilter != "All" then m3["status" := statusFilter] else m3;
    if priorityFilter != "" && priorityFilter != "All" then m4["priority" := priorityFilter] else m4
  }

  /** The `queryFn`'s parameters, set one after the other on a fresh object: the list
      holds exactly the pairs of `QueryFor`, each name once. */
  method BuildQuery(page: int, limit: int, search: string, statusFilter: string, priorityFilter: string)
    returns (params: Params)
    ensures Holds(params, QueryFor(page, limit, search, statusFilter, priorityFilter))
  {
    var ps := new SearchParams();
    ghost var expected: map<string, string> := map[];
    if page != 0 {
      SetHolds(ps.list, expected, "page", NumberToString(page));
      ps.SetParam("page", NumberToString(page));
      expected := expected["page" := NumberToString(page)];
    }
    if limit != 0 {
      SetHolds(ps.list, expected, "limit", NumberToString(limit));
      ps.SetParam("limit", NumberToString(limit));
      expected := expected["limit" := NumberToString(limit)];
    }
    if search != "" {
      SetHolds(ps.list, expected, "search", search);
      ps.SetParam("search", search);
      expected := expected["search" := search];
    }
    if statusFilter != "" && statusFilter != "All" {
      SetHolds(ps.list, expected, "status", statusFilter);
      ps.SetParam("status", statusFilter);
      expected := expected["status" := statusFilter];
    }
    if priorityFilter != "" && priorityFilter != "All" {
      SetHolds(ps.list, expected, "priority", priorityFilter);
      ps.SetParam("priority", priorityFilter);
      expected := expected["priority" := priorityFilter];
    }
    params := ps.list;
  }

  /** Which parameters the query carries: status and priority only when set and not
      "All", the search only when non-empty, and no name outside the five. */
  lemma QueryForSpec(page: int, limit: int, search: string, statusFilter: string, priorityFilter: string)
    ensures var q := QueryFor(page, limit, search, statusFilter, priorityFilter);
            && ("page" in q <==> page != 0) && ("limit" in q <==> limit != 0)
            && ("search" in q <==> search != "") && ("search" in q ==> q["search"] == search)
            && ("status" in q <==> statusFilter != "" && statusFilter != "All")
            && ("status" in q ==> q["status"] == statusFilter)
            && ("priority" in q <==> priorityFilter != "" && priorityFilter != "All")
            && ("priority" in q ==> q["priority"] == priorityFilter)
            && q.Keys <= {"page", "limit", "search", "status", "priority"}
  {
  }

  // ---------------------------------------------------------------------------
  // Response and paging

  /** The issues of a response, in order. */
  function IssuesOf(data: IssuesData): seq<Issue> {
    match data
    case NoData => []
    case ArrayData(a) => a
    case PagedData(_, items) => items
  }

  /** The `queryFn`'s result: a `{ total, items }` body is kept; a bare array (or no
      body) becomes `{ total: length, items }`. The result is always the paged shape and
      carries the response's issues unchanged. */
  function Normalise(data: IssuesData): (r: IssuesData)
    ensures r.PagedData? && r.items == IssuesOf(data)
    ensures data.PagedData? ==> r == data
    ensures !data.PagedData? ==> r.total == Some(|IssuesOf(data)|)
  {
    if data.PagedData? then data else PagedData(Some(|IssuesOf(data)|), IssuesOf(data))
  }

  /** Normalising a normalised response changes nothing. */
  lemma NormaliseIdempotent(data: IssuesData)
    ensures Normalise(Normalise(data)) == Normalise(data)
  {
  }

  /** `issuesData?.items || []` */
  function Items(data: Option<IssuesData>): seq<Issue> {
    if data.Some? then IssuesOf(data.value) else []
  }

  /** `issuesData?.total || 0` */
  function Total(data: Option<IssuesData>): int {
    if data.Some? && data.value.PagedData? && data.value.total.Some? then data.value.total.value else 0
  }

  /** For a response that was a bare array, the total is the number of items. */
  lemma ArrayTotalIsLength(a: seq<Issue>)
    ensures Total(Some(Normalise(ArrayData(a)))) == |Items(Some(Normalise(ArrayData(a))))| == |a|
  {
  }

  /** `Math.max(1, Math.ceil(total / limit))`: at least one page, and for a positive
      total the fewest pages of 12 that hold it. */
  function Pages(total: int): (n: int)
    ensures n >= 1
    ensures total <= PerPage ==> n == 1
    ensures total > 0 ==> (n - 1) * PerPage < total <= n * PerPage
  {
    var c := CeilDiv(total, PerPage);
    if c > 1 then c else 1
  }

  /** The "Showing a - b of total" numbers. */
  function ShowingRange(page: int, total: int): (int, int) {
    (Min((page - 1) * PerPage + 1, total), Min(page * PerPage, total))
  }

  function Min(a: int, b: int): int {
    if a <= b then a else b
  }

  /** On any page of a non-empty list the range is a run of positions of the list that
      holds as many issues as the server puts on that page; with no issues it is 0 - 0. */
  lemma ShowingRangeSpec(page: int, total: int)
    requires 1 <= page <= Pages(total)
    ensures total > 0 ==>
              var (a, b) := ShowingRange(page, total);
              && a == (page - 1) * PerPage + 1 && 1 <= a <= b <= total
              && b - a + 1 == Min(PerPage, total - (page - 1) * PerPage)
    ensures total == 0 ==> ShowingRange(page, total) == (0, 0)
  {
    if total == 0 {
      assert page == 1;
    }
  }

  // ---------------------------------------------------------------------------
  // Page state

  /** The filters and the page number of the table. */
  class Table {
    var page: int
    var search: string
    var statusFilter: string
    var priorityFilter: string

    /** Page 1, no search, both filters "All". */
    constructor ()
      ensures page == 1 && search == "" && statusFilter == "All" && priorityFilter == "All"
    {
      page := 1;
      search := "";
      statusFilter := "All";
      priorityFilter := "All";
    }

    /** The page lies between 1 and the last page. */
    predicate InRange(pages: int)
      reads this
    {
      1 <= page <= pages
    }

    /** Typing a search: the search changes and the page goes back to 1. */
    method SetSearch(value: string)
      modifies this
      ensures search == value && page == 1
      ensures statusFilter == old(statusFilter) && priorityFilter == old(priorityFilter)
    {
      search := value;
      page := 1;
    }

    /** Choosing a status: the filter changes and the page goes back to 1. */
    method SetStatusFilter(value: string)
      modifies this
      ensures statusFilter == value && page == 1
      ensures search == old(search) && priorityFilter == old(priorityFilter)
    {
      statusFilter := value;
      page := 1;
    }

    /** Choosing a priority: the filter changes and the page goes back to 1. */
    method SetPriorityFilter(value: string)
      modifies this
      ensures priorityFilter == value && page == 1
      ensures search == old(search) && statusFilter == old(statusFilter)
    {
      priorityFilter := value;
      page := 1;
    }

    /** Prev: `Math.max(1, p - 1)`. The page never drops below 1 and stays in range. */
    method Prev(pages: int)
      modifies this
      ensures page == if old(page) - 1 >= 1 then old(page) - 1 else 1
      ensures page >= 1
      ensures old(InRange(pages)) ==> InRange(pages)
      ensures search == old(search) && statusFilter == old(statusFilter) && priorityFilter == old(priorityFilter)
    {
      page := if page - 1 >= 1 then page - 1 else 1;
    }

    /** Next: `Math.min(pages, p + 1)`. The page never rises above the last page and
        stays in range. */
    method Next(pages: int)
      modifies this
      ensures page == if old(page) + 1 <= pages then old(page) + 1 else pages
      ensures page <= pages
      ensures old(InRange(pages)) ==> InRange(pages)
      ensures search == old(search) && statusFilter == old(statusFilter) && priorityFilter == old(priorityFilter)
    {
      page := if page + 1 <= pages then page + 1 else pages;
    }
  }

  // ---------------------------------------------------------------------------
  // Handlers

  /** The object handed to the status mutation. */
  datatype StatusChange = StatusChange(id: string, newStatus: string, note: Option<string>)

  /** The body of the status request: `{ status }`. */
  datatype StatusBody = StatusBody(status: string)

  /** `onStatusChange`: the dialog's answer is dropped only when it has no value and the
      dialog library's `isConfirmed` property is not truthy; otherwise the mutation
      runs with the chosen status and the note. */
  function OnStatusChange(id: string, status: string, note: Option<string>, swalIsConfirmed: bool): (r: Option<StatusChange>)
    ensures r.None? <==> note.None? && !swalIsConfirmed
    ensures r.Some? ==> r.value == StatusChange(id, status, note)
  {
    if note.None? && !swalIsConfirmed then None else Some(StatusChange(id, status, note))
  }

  /** The mutation's request body. */
  function StatusRequestBody(m: StatusChange): (b: StatusBody)
    ensures b.status == m.newStatus
  {
    StatusBody(m.newStatus)
  }

  /** The note typed in the dialog never reaches the server: two changes that differ only
      in their note send the same body. */
  lemma NoteIsDropped(id: string, status: string, note1: Option<string>, note2: Option<string>, swalIsConfirmed: bool)
    requires OnStatusChange(id, status, note1, swalIsConfirmed).Some?
    requires OnStatusChange(id, status, note2, swalIsConfirmed).Some?
    ensures StatusRequestBody(OnStatusChange(id, status, note1, swalIsConfirmed).value)
         == StatusRequestBody(OnStatusChange(id, status, note2, swalIsConfirmed).value)
  {
  }

  /** What `onAssign` does. */
  datatype AssignOutcome = NoStaff | AssignCancelled | AssignSent(id: string, staffEmail: string)

  /** `onAssign`: with no staff an info message and no dialog; otherwise the picker is
      shown with one option per staff email, labelled `name || email`, and the request
      is sent only for a truthy choice. `chosen` is the picker's answer. */
  method OnAssign(id: string, staffList: seq<StaffMember>, chosen: Option<string>)
    returns (o: AssignOutcome, picker: Option<map<string, string>>)
    ensures o.NoStaff? <==> staffList == []
    ensures picker.None? <==> staffList == []
    ensures picker.Some? ==> picker.value == StaffOptions.OptionsOf(staffList, NameOrEmail)
    ensures o.AssignSent? <==> staffList != [] && Truthy(chosen)
    ensures o.AssignSent? ==> o == AssignSent(id, chosen.value)
  {
    if staffList == [] {
      return NoStaff, None;
    }
    var options := StaffOptions.BuildOptions(staffList, NameOrEmail);
    picker := Some(options);
    if !Truthy(chosen) {
      return AssignCancelled, picker;
    }
    o := AssignSent(id, chosen.value);
  }

  /** The priority picker's options. */
  const PriorityOptions: map<string, string> := map["normal" := "Normal", "high" := "High"]

  /** The picker's preselected value: the current priority, or "normal". */
  function PriorityInitial(current: string): (v: string)
    ensures current != "" ==> v == current
    ensures current == "" ==> v == "normal"
  {
    if current != "" then current else "normal"
  }

  /** The body of the priority request. */
  datatype PriorityChange = PriorityChange(id: string, priority: string)

  /** `onSetPriority`: the request is sent only for a truthy choice. */
  function OnSetPriority(id: string, chosen: Option<string>): (r: Option<PriorityChange>)
    ensures r.Some? <==> Truthy(chosen)
    ensures r.Some? ==> r.value == PriorityChange(id, chosen.value)
  {
    if Truthy(chosen) then Some(PriorityChange(id, chosen.value)) else None
  }

  /** The picker offers exactly "normal" and "high", so a choice made in it is all the
      request can carry. */
  lemma PriorityIsNormalOrHigh(id: string, chosen: Option<string>)
    requires chosen.Some? ==> chosen.value in PriorityOptions
    ensures PriorityOptions.Keys == {"normal", "high"}
    ensures OnSetPriority(id, chosen).Some? ==> OnSetPriority(id, chosen).value.priority in {"normal", "high"}
  {
  }

  /** Unlike the role dialog, the priority dialog tests only for a dismissed picker:
      confirming the preselected value sends a request for the priority the issue
      already has (or "normal" when it has none). */
  lemma PreselectedPriorityStillSent(id: string, current: string)
    ensures OnSetPriority(id, Some(PriorityInitial(current))) == Some(PriorityChange(id, PriorityInitial(current)))
    ensures current != "" ==> OnSetPriority(id, Some(PriorityInitial(current))) == Some(PriorityChange(id, current))
  {
  }
}
