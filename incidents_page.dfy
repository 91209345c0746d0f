/** The incident list page (`IncidentsPage`): four filters and a page number,
    a 500 ms debounce that every page or filter change re-arms (the effect's
    cleanup clears the previous timer), and the list request it finally sends.
    Timer firings and server replies are explicit events; replies are not
    matched to requests, because the page keeps no sequence number. */
module IncidentsPage {
  import opened Wrappers
  import opened JsonValue
  import PySlice

  const PageSize: nat := 10

  datatype Filters = Filters(search: string, severity: string, status: string, category: string)

  const InitialFilters: Filters := Filters("", "ALL", "ALL", "ALL")

  /** The `name` attribute of the control that changed. */
  datatype FilterName = Search | Severity | Status | Category

  function FieldOf(f: Filters, name: FilterName): string {
    match name
    case Search => f.search
    case Severity => f.severity
    case Status => f.status
    case Category => f.category
  }

  /** `{ ...prev, [name]: value }`. */
  function WithField(f: Filters, name: FilterName, value: string): (g: Filters)
    ensures FieldOf(g, name) == value
    ensures forall other :: other != name ==> FieldOf(g, other) == FieldOf(f, other)
  {
    match name
    case Search => f.(search := value)
    case Severity => f.(severity := value)
    case Status => f.(status := value)
    case Category => f.(category := value)
  }

  /** The query parameters of one list request. */
  datatype Params = Params(
    page: int, limit: int,
    search: Option<string>, severity: Option<string>, status: Option<string>, category: Option<string>)

  /** `page` and `limit` always; `search` only when non-empty; the three
      selects only when not 'ALL'. */
  function BuildParams(page: int, f: Filters): (p: Params)
    ensures p.page == page && p.limit == PageSize
    ensures p.search.Some? <==> f.search != ""
    ensures p.severity.Some? <==> f.severity != "ALL"
    ensures p.status.Some? <==> f.status != "ALL"
    ensures p.category.Some? <==> f.category != "ALL"
    ensures p.search.Some? ==> p.search.value == f.search
    ensures p.severity.Some? ==> p.severity.value == f.severity
    ensures p.status.Some? ==> p.status.value == f.status
    ensures p.category.Some? ==> p.category.value == f.category
  {
    Params(page, PageSize,
      if f.search != "" then Some(f.search) else None,
      if f.severity != "ALL" then Some(f.severity) else None,
      if f.status != "ALL" then Some(f.status) else None,
      if f.category != "ALL" then Some(f.category) else None)
  }

  /** The initial request asks for page 1 of everything. */
  lemma InitialParams()
    ensures BuildParams(1, InitialFilters) == Params(1, 10, None, None, None, None)
  {
  }

  /** "Next" stays enabled iff the last reply was a full page. */
  predicate HasMore(data: seq<Json>) {
    |data| == PageSize
  }

  /** Against the server's offset pages of a list `all`: "Next" stays
      enabled after page p iff the list holds p full pages, so an exactly
      full last page still offers "Next", whose page is then empty. */
  lemma HasMoreIffFullPages(all: seq<Json>, page: int)
    requires page >= 1
    ensures HasMore(PySlice.Page(all, page, PageSize)) <==> |all| >= page * PageSize
    ensures |all| == page * PageSize ==> PySlice.Page(all, page + 1, PageSize) == []
  {
    PySlice.PageWindow(all, page, PageSize);
    PySlice.PageWindow(all, page + 1, PageSize);
  }

  class Page {
    var groups: seq<Json>
    var loading: bool
    var page: int
    var filters: Filters
    var hasMore: bool
    /** The armed debounce timer, with the request its closure will send. */
    var pending: Option<Params>
    /** Requests sent whose reply has not arrived. */
    var inFlight: nat

    ghost predicate Valid() reads this {
      page >= 1
    }

    /** Mounting runs the effect once, arming the first timer. */
    constructor ()
      ensures Valid()
      ensures groups == [] && loading && page == 1 && filters == InitialFilters && hasMore
      ensures pending == Some(BuildParams(1, InitialFilters)) && inFlight == 0
    {
      groups := [];
      loading := true;
      page := 1;
      filters := InitialFilters;
      hasMore := true;
      pending := Some(BuildParams(1, InitialFilters));
      inFlight := 0;
    }

    /** `handleFilterChange`: one field changes, the page returns to 1, and a
        fresh timer replaces the pending one. */
    method ChangeFilter(name: FilterName, value: string)
      requires Valid()
      modifies this
      ensures Valid()
      ensures filters == WithField(old(filters), name, value) && page == 1
      ensures pending == Some(BuildParams(1, filters))
      ensures groups == old(groups) && loading == old(loading)
      ensures hasMore == old(hasMore) && inFlight == old(inFlight)
    {
      filters := WithField(filters, name, value);
      page := 1;
      pending := Some(BuildParams(page, filters));
    }

    /** "Previous": `Math.max(1, p - 1)`, disabled on page 1. */
    method Previous()
      requires Valid()
      modifies this
      ensures Valid()
      ensures old(page) == 1 ==> page == 1 && pending == old(pending)
      ensures old(page) > 1 ==> page == old(page) - 1 && pending == Some(BuildParams(page, filters))
      ensures filters == old(filters) && groups == old(groups) && loading == old(loading)
      ensures hasMore == old(hasMore) && inFlight == old(inFlight)
    {
      if page != 1 {
        page := if page - 1 > 1 then page - 1 else 1;
        pending := Some(BuildParams(page, filters));
      }
    }

    /** "Next": one page on, disabled when the last reply was short. */
    method Next()
      requires Valid()
      modifies this
      ensures Valid()
      ensures !old(hasMore) ==> page == old(page) && pending == old(pending)
      ensures old(hasMore) ==> page == old(page) + 1 && pending == Some(BuildParams(page, filters))
      ensures filters == old(filters) && groups == old(groups) && loading == old(loading)
      ensures hasMore == old(hasMore) && inFlight == old(inFlight)
    {
      if hasMore {
        page := page + 1;
        pending := Some(BuildParams(page, filters));
      }
    }

    /** The debounce timer fires: loading starts and the request goes out. */
    method DebounceFired() returns (request: Params)
      requires Valid() && pending.Some?
      modifies this
      ensures Valid()
      ensures request == old(pending.value) && pending.None?
      ensures loading && inFlight == old(inFlight) + 1
      ensures groups == old(groups) && page == old(page) && filters == old(filters)
      ensures hasMore == old(hasMore)
    {
      request := pending.value;
      pending := None;
      loading := true;
      inFlight := inFlight + 1;
    }

    /** Some reply arrives with data: whichever reply lands last wins. */
    method Succeeded(data: seq<Json>)
      requires Valid() && inFlight > 0
      modifies this
      ensures Valid()
      ensures groups == data && hasMore == HasMore(data) && !loading
      ensures inFlight == old(inFlight) - 1
      ensures page == old(page) && filters == old(filters) && pending == old(pending)
    {
      groups := data;
      hasMore := |data| == PageSize;
      loading := false;
      inFlight := inFlight - 1;
    }

    /** Some request fails: the list is emptied, `hasMore` is kept. */
    method Failed()
      requires Valid() && inFlight > 0
      modifies this
      ensures Valid()
      ensures groups == [] && !loading && hasMore == old(hasMore)
      ensures inFlight == old(inFlight) - 1
      ensures page == old(page) && filters == old(filters) && pending == old(pending)
    {
      groups := [];
      loading := false;
      inFlight := inFlight - 1;
    }
  }

  /** Typing a burst of search texts without pausing: each keystroke clears
      the previous timer, so when the last timer fires exactly one request is
      sent, for page 1 and the final text (the mount request never went out). */
  method SearchBurst(texts: seq<string>) returns (sent: Params, requestsSent: nat)
    requires |texts| > 0
    ensures requestsSent == 1
    ensures sent == BuildParams(1, InitialFilters.(search := texts[|texts| - 1]))
    ensures sent.search.Some? <==> texts[|texts| - 1] != ""
  {
    var p := new Page();
    var i := 0;
    while i < |texts|
      invariant 0 <= i <= |texts|
      invariant p.Valid() && p.inFlight == 0
      invariant i > 0 ==> p.filters == InitialFilters.(search := texts[i - 1])
      invariant i == 0 ==> p.filters == InitialFilters
      invariant p.pending == Some(BuildParams(p.page, p.filters)) && p.page == 1
    {
      p.ChangeFilter(Search, texts[i]);
      i := i + 1;
    }
    sent := p.DebounceFired();
    requestsSent := p.inFlight;
  }

  /** Paging forward twice after full pages and back once sends page 2 with
      unchanged filters; paging back never goes below page 1. */
  method PagingRoundTrip(first: seq<Json>, second: seq<Json>) returns (sent: Params, page: int)
    requires HasMore(first) && HasMore(second)
    ensures page == 2 && sent == BuildParams(2, InitialFilters)
  {
    var p := new Page();
    var r := p.DebounceFired();
    p.Succeeded(first);
    p.Next();
    r := p.DebounceFired();
    p.Succeeded(second);
    p.Next();
    p.Previous();
    sent := p.DebounceFired();
    page := p.page;
  }
}
