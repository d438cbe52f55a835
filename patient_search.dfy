/** `PatientSearch.jsx`: a paged patient search.  The search box's query is
    sent with a page number and a page size of 50; Next and Prev move one
    page when the guard allows it, and a new search always starts on page 1. */
module PatientSearch {
  import opened Js
  import opened Web
  import PatientApi
  import opened Numbers
  import opened Text

  const PageSize := 50

  /** `Math.ceil(totalPatients / pageSize)`: the division converts
      `totalPatients` (which is `response.total || 0`) to a number, so a
      numeric string counts like its number and a non-numeric value is NaN. */
  function TotalPages(totalPatients: Json): (pages: Number)
    ensures WellFormed(pages)
    ensures totalPatients.Num? ==> pages == Fraction(CeilDiv(totalPatients.n, PageSize), 1)
    ensures ToNumber(Some(totalPatients)).Fraction? ==> IsCeiling(pages, ToNumber(Some(totalPatients)), PageSize)
    ensures !ToNumber(Some(totalPatients)).Fraction? ==> pages == ToNumber(Some(totalPatients))
  {
    CeilDivBy(ToNumber(Some(totalPatients)), PageSize)
  }

  /** `currentPage < totalPages`; NaN is above no page. */
  predicate BeforeLastPage(currentPage: int, totalPatients: Json) {
    LessThan(currentPage, TotalPages(totalPatients))
  }

  /** The component's state (`loading` is false between handlers). */
  datatype SearchState = SearchState(
    searchQuery: string,
    patients: Json,
    error: string,
    currentPage: int,
    totalPatients: Json,
    hasSearched: bool)

  const Initial := SearchState("", Arr([]), "", 1, Num(0), false)

  /** What the list answer does to the state: the page moves only when the
      patients and total are read; `response.patients` on `null` throws, and
      every error leaves its message in `error`.  A success does not clear an
      earlier error. */
  function ApplyAnswer(r: Result<Json>, s: SearchState, page: int): (s': SearchState)
    ensures s'.searchQuery == s.searchQuery && s'.hasSearched
    ensures r.Ok? && !r.value.Null? ==>
      s' == s.(patients := JsonOr(Get(r.value, "patients"), Arr([])),
               totalPatients := JsonOr(Get(r.value, "total"), Num(0)),
               currentPage := page, hasSearched := true)
    ensures r.Err? ==> s' == s.(error := r.error.message, hasSearched := true)
    ensures r.Ok? && r.value.Null? ==> s' == s.(error := s'.error, hasSearched := true)
  {
    var s1 := s.(hasSearched := true);
    match r
    case Err(e) => s1.(error := e.message)
    case Ok(response) =>
      match ReadProperty(response, "patients")
      case Err(e) => s1.(error := e.message)
      case Ok(patients) =>
        s1.(patients := JsonOr(patients, Arr([])),
            totalPatients := JsonOr(Get(response, "total"), Num(0)),
            currentPage := page)
  }

  /** `handleSearch(page)` on the browser state `w`. */
  function SearchFlow(server: Server, w: World, s: SearchState, page: int): (SearchState, World) {
    var (r, w1) := PatientApi.FetchPatientsFlow(server, w, Some(page), Some(PageSize), Some(s.searchQuery), None, None, None);
    (ApplyAnswer(r, s, page), w1)
  }

  /** What the user can do on the page. */
  datatype Event = Type(query: string) | Search | Enter | Next | Prev

  /** The page an event calls `handleSearch` with: page 1 for a new search,
      the next or previous page when its guard allows, and none for typing
      or a guard that refuses. */
  function Target(s: SearchState, e: Event): Option<int> {
    match e
    case Type(_) => None
    case Search => Some(1)
    case Enter => Some(1)
    case Next => if BeforeLastPage(s.currentPage, s.totalPatients) then Some(s.currentPage + 1) else None
    case Prev => if s.currentPage > 1 then Some(s.currentPage - 1) else None
  }

  /** One event's handler on the browser state `w`. */
  function Step(server: Server, w: World, s: SearchState, e: Event): (SearchState, World) {
    if e.Type? then (s.(searchQuery := e.query), w)
    else
      match Target(s, e)
      case Some(page) => SearchFlow(server, w, s, page)
      case None => (s, w)
  }

  /** A sequence of events, handled in order. */
  function Run(server: Server, w: World, s: SearchState, events: seq<Event>): (SearchState, World)
    decreases |events|
  {
    if |events| == 0 then (s, w)
    else
      var (s1, w1) := Step(server, w, s, events[0]);
      Run(server, w1, s1, events[1..])
  }

  /** The component, with React's state hooks as fields. */
  class SearchView {
    var searchQuery: string
    var patients: Json
    var loading: bool
    var error: string
    var currentPage: int
    var totalPatients: Json
    var hasSearched: bool

    function State(): SearchState
      reads this
    {
      SearchState(searchQuery, patients, error, currentPage, totalPatients, hasSearched)
    }

    constructor ()
      ensures State() == Initial && !loading
    {
      searchQuery := "";
      patients := Arr([]);
      loading := false;
      error := "";
      currentPage := 1;
      totalPatients := Num(0);
      hasSearched := false;
    }

    /** The input's `onChange`. */
    method SetQuery(q: string)
      modifies this
      ensures State() == old(State()).(searchQuery := q) && loading == old(loading)
    {
      searchQuery := q;
    }

    /** `handleSearch(page)` */
    method HandleSearch(b: Browser, page: int)
      modifies this, b
      ensures (State(), b.State()) == SearchFlow(b.server, old(b.State()), old(State()), page)
      ensures !loading
    {
      ghost var s0 := State();
      loading := true;
      hasSearched := true;
      var response := FetchPage(b, page);
      Answer(response, page);
      AnswerMarksSearched(response, s0, page);
      loading := false;
    }

    /** The `fetchPatients` call `handleSearch` awaits; the component's state is left alone. */
    method FetchPage(b: Browser, page: int) returns (response: Result<Json>)
      modifies b
      ensures (response, b.State()) ==
        PatientApi.FetchPatientsFlow(b.server, old(b.State()), Some(page), Some(PageSize), Some(searchQuery), None, None, None)
      ensures State() == old(State()) && loading == old(loading)
    {
      response := PatientApi.FetchPatients(b, Some(page), Some(PageSize), Some(searchQuery), None, None, None);
    }

    /** The `try` block after `await fetchPatients(...)`, and its `catch`. */
    method Answer(response: Result<Json>, page: int)
      modifies this
      ensures State() == ApplyAnswer(response, old(State()), page) && loading == old(loading)
    {
      hasSearched := true;
      match response {
        case Err(e) =>
          error := e.message;
        case Ok(data) =>
          match ReadProperty(data, "patients") {
            case Err(e) =>
              error := e.message;
            case Ok(listed) =>
              patients := JsonOr(listed, Arr([]));
              totalPatients := JsonOr(Get(data, "total"), Num(0));
              currentPage := page;
          }
      }
    }

    /** The Search button and the Enter key. */
    method NewSearch(b: Browser)
      modifies this, b
      ensures (State(), b.State()) == SearchFlow(b.server, old(b.State()), old(State()), 1)
      ensures !loading
    {
      HandleSearch(b, 1);
    }

    /** `handleNextPage` */
    method HandleNextPage(b: Browser)
      modifies this, b
      ensures (State(), b.State()) == Step(b.server, old(b.State()), old(State()), Next)
      ensures !BeforeLastPage(old(currentPage), old(totalPatients)) ==> loading == old(loading)
    {
      ghost var s0, w0 := State(), b.State();
      if BeforeLastPage(currentPage, totalPatients) {
        assert Step(b.server, w0, s0, Next) == SearchFlow(b.server, w0, s0, s0.currentPage + 1);
        HandleSearch(b, currentPage + 1);
      } else {
        assert Step(b.server, w0, s0, Next) == (s0, w0);
      }
    }

    /** `handlePrevPage` */
    method HandlePrevPage(b: Browser)
      modifies this, b
      ensures (State(), b.State()) == Step(b.server, old(b.State()), old(State()), Prev)
      ensures old(currentPage) <= 1 ==> loading == old(loading)
    {
      ghost var s0, w0 := State(), b.State();
      if currentPage > 1 {
        assert Step(b.server, w0, s0, Prev) == SearchFlow(b.server, w0, s0, s0.currentPage - 1);
        HandleSearch(b, currentPage - 1);
      } else {
        assert Step(b.server, w0, s0, Prev) == (s0, w0);
      }
    }
  }

  // ---------------------------------------------------------------------
  // Properties

  /** The list request of `handleSearch(page)`: 50 patients, skipping
      `page - 1` of them when the page is not 0, and the query when it is not empty. */
  lemma SearchRequest(server: Server, w: World, s: SearchState, page: int)
    ensures var w' := SearchFlow(server, w, s, page).1;
      && |w'.requests| > |w.requests|
      && var sent := w'.requests[|w.requests|];
      && sent.url == PatientApi.RiskApiBaseUrl + PatientApi.ListEndpoint
      && sent.body == Some(PatientApi.ListBody(Some(page), Some(PageSize), Some(s.searchQuery), None, None, None))
      && Get(sent.body.value, "limit") == Some(Num(50))
      && Get(sent.body.value, "skip") == (if page != 0 then Some(Num(page - 1)) else None)
      && Get(sent.body.value, "search") == (if s.searchQuery != "" then Some(Str(s.searchQuery)) else None)
      && Get(sent.body.value, "exact_search").None?
  {
    var body := PatientApi.ListBody(Some(page), Some(PageSize), Some(s.searchQuery), None, None, None);
    PatientApi.ListRequestSent(server, w, body);
    var w' := SearchFlow(server, w, s, page).1;
    assert w' == PatientApi.ListFlow(server, w, body).1;
    assert Get(body, "limit") == Some(Num(50));
    assert Get(body, "skip") == (if page != 0 then Some(Num(page - 1)) else None);
    assert Get(body, "search") == (if s.searchQuery != "" then Some(Str(s.searchQuery)) else None);
    assert Get(body, "exact_search").None?;
  }

  /** A new search, by button or by Enter, always asks for page 1. */
  lemma NewSearchStartsAtPageOne(server: Server, w: World, s: SearchState)
    ensures Step(server, w, s, Search) == Step(server, w, s, Enter) == SearchFlow(server, w, s, 1)
    ensures var w' := SearchFlow(server, w, s, 1).1;
      && |w'.requests| > |w.requests|
      && w'.requests[|w.requests|].body.Some?
      && Get(w'.requests[|w.requests|].body.value, "skip") == Some(Num(0))
  {
    SearchRequest(server, w, s, 1);
  }

  /** Next searches the following page only before the last page; otherwise nothing happens. */
  lemma NextGuard(server: Server, w: World, s: SearchState)
    ensures BeforeLastPage(s.currentPage, s.totalPatients) ==>
      Step(server, w, s, Next) == SearchFlow(server, w, s, s.currentPage + 1)
    ensures !BeforeLastPage(s.currentPage, s.totalPatients) ==> Step(server, w, s, Next) == (s, w)
    ensures (ToNumber(Some(s.totalPatients)).Fraction? &&
             s.currentPage * PageSize * ToNumber(Some(s.totalPatients)).den >= ToNumber(Some(s.totalPatients)).num) ==>
      Step(server, w, s, Next) == (s, w)
  {
    if ToNumber(Some(s.totalPatients)).Fraction? && BeforeLastPage(s.currentPage, s.totalPatients) {
      NextStaysInRange(server, w, s);
    }
  }

  /** Prev searches the preceding page only after page 1; otherwise nothing happens. */
  lemma PrevGuard(server: Server, w: World, s: SearchState)
    ensures s.currentPage > 1 ==> Step(server, w, s, Prev) == SearchFlow(server, w, s, s.currentPage - 1)
    ensures s.currentPage <= 1 ==> Step(server, w, s, Prev) == (s, w)
  {
  }

  /** A successful answer moves to the requested page with `patients || []`
      and `total || 0`; a failure keeps the page and records the message. */
  lemma SearchOutcome(server: Server, w: World, s: SearchState, page: int)
    ensures var (r, _) := PatientApi.FetchPatientsFlow(server, w, Some(page), Some(PageSize), Some(s.searchQuery), None, None, None);
      var s' := SearchFlow(server, w, s, page).0;
      && (r.Ok? && !r.value.Null? ==>
            && s'.currentPage == page
            && s'.patients == JsonOr(Get(r.value, "patients"), Arr([]))
            && s'.totalPatients == JsonOr(Get(r.value, "total"), Num(0)))
      && (r.Err? ==> s'.currentPage == s.currentPage && s'.error == r.error.message && s'.patients == s.patients)
  {
  }

  /** Starting from page 1, no sequence of events ever leaves the page below 1:
      new searches use page 1, Next only increases the page and Prev is guarded. */
  lemma {:induction false} PageNeverBelowOne(server: Server, w: World, s: SearchState, events: seq<Event>)
    requires s.currentPage >= 1
    ensures Run(server, w, s, events).0.currentPage >= 1
    decreases |events|
  {
    if |events| > 0 {
      var (s1, w1) := Step(server, w, s, events[0]);
      StepKeepsPageAboveZero(server, w, s, events[0]);
      assert Run(server, w, s, events) == Run(server, w1, s1, events[1..]);
      PageNeverBelowOne(server, w1, s1, events[1..]);
    }
  }

  /** One event moves the page to 1, one past a page below the last, one
      before a page above 1, or leaves it. */
  lemma StepKeepsPageAboveZero(server: Server, w: World, s: SearchState, e: Event)
    requires s.currentPage >= 1
    ensures Step(server, w, s, e).0.currentPage >= 1
  {
    match Target(s, e)
    case Some(page) => SearchFlowPage(server, w, s, page);
    case None =>
  }

  /** A search leaves the page where it was or moves it to the requested page. */
  lemma SearchFlowPage(server: Server, w: World, s: SearchState, page: int)
    ensures SearchFlow(server, w, s, page).0.currentPage in {s.currentPage, page}
  {
    var (r, w1) := PatientApi.FetchPatientsFlow(server, w, Some(page), Some(PageSize), Some(s.searchQuery), None, None, None);
    AnswerPage(r, s, page);
  }

  /** `setHasSearched(true)` before the call does not change what the answer leaves. */
  lemma AnswerMarksSearched(r: Result<Json>, s: SearchState, page: int)
    ensures ApplyAnswer(r, s.(hasSearched := true), page) == ApplyAnswer(r, s, page)
  {
  }

  /** The answer leaves the page where it was or moves it to the requested page. */
  lemma AnswerPage(r: Result<Json>, s: SearchState, page: int)
    ensures ApplyAnswer(r, s, page).currentPage == s.currentPage || ApplyAnswer(r, s, page).currentPage == page
  {
  }

  /** From the initial state every reachable page is at least 1. */
  lemma ReachablePages(server: Server, w: World, events: seq<Event>)
    ensures Run(server, w, Initial, events).0.currentPage >= 1
  {
    PageNeverBelowOne(server, w, Initial, events);
  }

  /** When the total converts to a finite number, Next never passes the last
      page: the page it leaves starts before the total, `currentPage * 50 < total`. */
  lemma NextStaysInRange(server: Server, w: World, s: SearchState)
    requires ToNumber(Some(s.totalPatients)).Fraction?
    requires BeforeLastPage(s.currentPage, s.totalPatients)
    ensures var x := ToNumber(Some(s.totalPatients));
      s.currentPage * PageSize * x.den < x.num
  {
    LessThanCeiling(s.currentPage, ToNumber(Some(s.totalPatients)), PageSize);
  }

  /** A total sent as a numeric string pages like the number itself. */
  lemma TextTotalPages(n: int)
    ensures TotalPages(Str(IntToString(n))) == TotalPages(Num(n))
  {
    IntStringToNumber(n);
  }
}
