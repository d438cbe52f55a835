/** `patient.js`: the patient list and patient detail calls, both sent
    through the authenticated wrapper of `createApiInterceptor`.  Every
    failure is rethrown with a per-call prefix; a non-OK response is first
    thrown with that prefix inside the `try`, so it reaches the caller with
    the prefix twice. */
module PatientApi {
  import opened Js
  import opened Text
  import opened Web
  import Interceptor
  import Auth

  const RiskApiBaseUrl := "http://3.16.246.83:8090/api/v1"
  const ListEndpoint := "/patients/list"
  const RetrieveEndpoint := "/patients/retrieve/"
  const ListFailure := "Failed to fetch patients: "
  const DetailFailure := "Failed to fetch patient details: "

  /** `limit` when `pageSize` is truthy. */
  function LimitValue(pageSize: Option<int>): (v: Option<Json>)
    ensures v.Some? <==> TruthyNum(pageSize)
    ensures v.Some? ==> v.value == Num(pageSize.value)
  {
    if TruthyNum(pageSize) then Some(Num(pageSize.value)) else None
  }

  /** `skip = page - 1` when `page` is truthy. */
  function SkipValue(page: Option<int>): (v: Option<Json>)
    ensures v.Some? <==> TruthyNum(page)
    ensures v.Some? ==> v.value == Num(page.value - 1)
  {
    if TruthyNum(page) then Some(Num(page.value - 1)) else None
  }

  /** `exact_search = [firstName || "", LastName || "", DoB || ""]` when a name part is truthy. */
  function ExactSearchValue(firstName: Option<string>, lastName: Option<string>, dob: Option<string>): (v: Option<Json>)
    ensures v.Some? <==> Truthy(firstName) || Truthy(lastName)
    ensures v.Some? ==> v.value == Arr([Str(OrElse(firstName, "")), Str(OrElse(lastName, "")), Str(OrElse(dob, ""))])
  {
    if Truthy(firstName) || Truthy(lastName) then
      Some(Arr([Str(OrElse(firstName, "")), Str(OrElse(lastName, "")), Str(OrElse(dob, ""))]))
    else None
  }

  /** The `requestBody` of `fetchPatients`, with its fields in the order the source writes them. */
  function ListBody(page: Option<int>, pageSize: Option<int>, searchQuery: Option<string>,
                    firstName: Option<string>, lastName: Option<string>, dob: Option<string>): (j: Json)
    ensures j.Obj?
    ensures Keys(j.fields) == (if TruthyNum(pageSize) then ["limit"] else [])
      + (if TruthyNum(page) then ["skip"] else [])
      + (if Truthy(searchQuery) then ["search"] else [])
      + (if Truthy(firstName) || Truthy(lastName) then ["exact_search"] else [])
    ensures Get(j, "limit") == LimitValue(pageSize)
    ensures Get(j, "skip") == SkipValue(page)
    ensures Get(j, "search") == TruthyStr(searchQuery)
    ensures Get(j, "exact_search") == ExactSearchValue(firstName, lastName, dob)
  {
    var l := LimitValue(pageSize);
    var s := SkipValue(page);
    var q := TruthyStr(searchQuery);
    var e := ExactSearchValue(firstName, lastName, dob);
    ListFieldsRead(l, s, q, e);
    Obj(ListFields(l, s, q, e))
  }

  /** The four fields read back, and the keys in order. */
  lemma ListFieldsRead(limit: Option<Json>, skip: Option<Json>, search: Option<Json>, exact: Option<Json>)
    ensures Keys(ListFields(limit, skip, search, exact)) == OptionalKey("limit", limit) + OptionalKey("skip", skip)
      + OptionalKey("search", search) + OptionalKey("exact_search", exact)
    ensures Get(Obj(ListFields(limit, skip, search, exact)), "limit") == limit
    ensures Get(Obj(ListFields(limit, skip, search, exact)), "skip") == skip
    ensures Get(Obj(ListFields(limit, skip, search, exact)), "search") == search
    ensures Get(Obj(ListFields(limit, skip, search, exact)), "exact_search") == exact
  {
    var j := Obj(ListFields(limit, skip, search, exact));
    assert Get(j, "limit") == limit by { ListFieldsLookup(limit, skip, search, exact, "limit"); }
    assert Get(j, "skip") == skip by { ListFieldsLookup(limit, skip, search, exact, "skip"); }
    assert Get(j, "search") == search by { ListFieldsLookup(limit, skip, search, exact, "search"); }
    assert Get(j, "exact_search") == exact by { ListFieldsLookup(limit, skip, search, exact, "exact_search"); }
    ListFieldsKeys(limit, skip, search, exact);
  }

  /** `{}` extended by the four conditional assignments. */
  function ListFields(limit: Option<Json>, skip: Option<Json>, search: Option<Json>, exact: Option<Json>): seq<Field> {
    WithOptional(WithOptional(WithOptional(WithOptional([], "limit", limit), "skip", skip), "search", search),
                 "exact_search", exact)
  }

  /** Each of the four keys reads back the value assigned to it, if any. */
  lemma ListFieldsLookup(limit: Option<Json>, skip: Option<Json>, search: Option<Json>, exact: Option<Json>, k: string)
    requires k == "limit" || k == "skip" || k == "search" || k == "exact_search"
    ensures Lookup(ListFields(limit, skip, search, exact), k) ==
      if k == "limit" then limit else if k == "skip" then skip else if k == "search" then search else exact
  {
    var f1 := WithOptional([], "limit", limit);
    var f2 := WithOptional(f1, "skip", skip);
    var f3 := WithOptional(f2, "search", search);
    WithOptionalLookup([], "limit", limit, k);
    WithOptionalLookup(f1, "skip", skip, k);
    WithOptionalLookup(f2, "search", search, k);
    WithOptionalLookup(f3, "exact_search", exact, k);
  }

  /** The keys appear in the order of the assignments, each only when assigned. */
  lemma ListFieldsKeys(limit: Option<Json>, skip: Option<Json>, search: Option<Json>, exact: Option<Json>)
    ensures Keys(ListFields(limit, skip, search, exact)) == OptionalKey("limit", limit) + OptionalKey("skip", skip)
      + OptionalKey("search", search) + OptionalKey("exact_search", exact)
  {
    KeysOfFour("limit", "skip", "search", "exact_search", limit, skip, search, exact);
  }

  /** The keys `WithOptional` writes: the key, when there is a value. */
  function OptionalKey(k: string, v: Option<Json>): seq<string> {
    if v.Some? then [k] else []
  }

  lemma KeysOfFour(a: string, b: string, c: string, d: string,
                   va: Option<Json>, vb: Option<Json>, vc: Option<Json>, vd: Option<Json>)
    ensures Keys(WithOptional(WithOptional(WithOptional(WithOptional([], a, va), b, vb), c, vc), d, vd))
      == OptionalKey(a, va) + OptionalKey(b, vb) + OptionalKey(c, vc) + OptionalKey(d, vd)
  {
    KeysOfThree(a, b, c, va, vb, vc);
  }

  lemma KeysOfThree(a: string, b: string, c: string, va: Option<Json>, vb: Option<Json>, vc: Option<Json>)
    ensures Keys(WithOptional(WithOptional(WithOptional([], a, va), b, vb), c, vc))
      == OptionalKey(a, va) + OptionalKey(b, vb) + OptionalKey(c, vc)
  {
    KeysOfTwo(a, b, va, vb);
  }

  lemma KeysOfTwo(a: string, b: string, va: Option<Json>, vb: Option<Json>)
    ensures Keys(WithOptional(WithOptional([], a, va), b, vb)) == OptionalKey(a, va) + OptionalKey(b, vb)
  {
    assert Keys([]) == [];
  }

  /** The options object `fetchPatients` passes to the wrapper. */
  function ListOptions(body: Json): (o: Interceptor.Options)
    ensures o.httpMethod == Some("POST") && o.body == Some(body)
    ensures o.headers == Some(map["Content-Type" := "application/json"])
  {
    Interceptor.Options(Some("POST"), Some(map["Content-Type" := "application/json"]), Some(body))
  }

  /** The options object `getPatientById` passes to the wrapper. */
  function DetailOptions(): (o: Interceptor.Options)
    ensures o.httpMethod == Some("GET") && o.body.None?
    ensures o.headers == Some(map["Accept" := "application/json"])
  {
    Interceptor.Options(Some("GET"), Some(map["Accept" := "application/json"]), None)
  }

  /** How either call settles, given the wrapper's outcome: a non-OK status
      is thrown as `<prefix><status> <statusText>` and caught again, and every
      error leaves with `prefix` in front of its message. */
  function Settle(prefix: string, outcome: Interceptor.CallResult): (r: Result<Json>)
    ensures outcome.Threw? ==> r == Err(NewError(prefix + outcome.error.message))
    ensures outcome.Returned? && !outcome.response.Ok() ==>
      r == Err(NewError(prefix + (prefix + IntToString(outcome.response.status) + " " + outcome.response.statusText)))
    ensures outcome.Returned? && outcome.response.Ok() && outcome.response.body.parsed.Err? ==>
      r == Err(NewError(prefix + outcome.response.body.parsed.error.message))
    ensures outcome.Returned? && outcome.response.Ok() && outcome.response.body.parsed.Ok? ==>
      r == outcome.response.body.parsed
  {
    match outcome
    case Threw(e) => Err(NewError(prefix + e.message))
    case Returned(response) =>
      var attempt := if !response.Ok() then
                       Err(NewError(prefix + IntToString(response.status) + " " + response.statusText))
                     else response.body.parsed;
      match attempt
      case Ok(data) => Ok(data)
      case Err(e) => Err(NewError(prefix + e.message))
  }

  /** `fetchPatients(page, pageSize, searchQuery, firstName, LastName, DoB)` on the browser state `w`. */
  function FetchPatientsFlow(server: Server, w: World, page: Option<int>, pageSize: Option<int>, searchQuery: Option<string>,
                             firstName: Option<string>, lastName: Option<string>, dob: Option<string>): (Result<Json>, World)
  {
    ListFlow(server, w, ListBody(page, pageSize, searchQuery, firstName, lastName, dob))
  }

  /** `fetchPatients` once its request body is built. */
  function ListFlow(server: Server, w: World, body: Json): (Result<Json>, World) {
    var (outcome, w1, _) := Interceptor.Exchange(server, w, RiskApiBaseUrl + ListEndpoint, ListOptions(body));
    (Settle(ListFailure, outcome), w1)
  }

  /** The endpoint `getPatientById` passes to the wrapper. */
  function DetailPath(id: Json): string {
    RetrieveEndpoint + ValueString(id)
  }

  /** `getPatientById(id)` on the browser state `w`. */
  function GetPatientByIdFlow(server: Server, w: World, id: Json): (Result<Json>, World) {
    var (outcome, w1, _) := Interceptor.Exchange(server, w, RiskApiBaseUrl + DetailPath(id), DetailOptions());
    (Settle(DetailFailure, outcome), w1)
  }

  method FetchPatients(b: Browser, page: Option<int>, pageSize: Option<int>, searchQuery: Option<string>,
                       firstName: Option<string>, lastName: Option<string>, dob: Option<string>) returns (r: Result<Json>)
    modifies b
    ensures (r, b.State()) == FetchPatientsFlow(b.server, old(b.State()), page, pageSize, searchQuery, firstName, lastName, dob)
  {
    var requestBody := ListBody(page, pageSize, searchQuery, firstName, lastName, dob);
    var apiClient := new Interceptor.ApiClient(RiskApiBaseUrl);
    var options := new Interceptor.RequestOptions(ListOptions(requestBody));
    var outcome, _ := apiClient.Call(b, ListEndpoint, options);
    r := Settle(ListFailure, outcome);
  }

  method GetPatientById(b: Browser, id: Json) returns (r: Result<Json>)
    modifies b
    ensures (r, b.State()) == GetPatientByIdFlow(b.server, old(b.State()), id)
  {
    var apiClient := new Interceptor.ApiClient(RiskApiBaseUrl);
    var options := new Interceptor.RequestOptions(DetailOptions());
    var outcome, _ := apiClient.Call(b, DetailPath(id), options);
    r := Settle(DetailFailure, outcome);
  }

  // ---------------------------------------------------------------------
  // Properties

  /** `limit` is sent exactly when `pageSize` is truthy, and then equals it. */
  lemma LimitIffPageSize(page: Option<int>, pageSize: Option<int>, searchQuery: Option<string>,
                         firstName: Option<string>, lastName: Option<string>, dob: Option<string>)
    ensures var j := ListBody(page, pageSize, searchQuery, firstName, lastName, dob);
      && (Get(j, "limit").Some? <==> pageSize.Some? && pageSize.value != 0)
      && (Get(j, "limit").Some? ==> Get(j, "limit").value == Num(pageSize.value))
  {
  }

  /** Page 1 asks to skip nothing; page 0 or no page sends no `skip`. */
  lemma SkipIsZeroBased(pageSize: Option<int>, searchQuery: Option<string>,
                        firstName: Option<string>, lastName: Option<string>, dob: Option<string>)
    ensures Get(ListBody(Some(1), pageSize, searchQuery, firstName, lastName, dob), "skip") == Some(Num(0))
    ensures Get(ListBody(Some(0), pageSize, searchQuery, firstName, lastName, dob), "skip").None?
    ensures Get(ListBody(None, pageSize, searchQuery, firstName, lastName, dob), "skip").None?
  {
  }

  /** The exact-match search of the extraction panel (no page, no size, no
      query) sends `exact_search` and nothing else when a name part is set. */
  lemma ExactMatchBodyOnly(firstName: Option<string>, lastName: Option<string>, dob: Option<string>)
    requires Truthy(firstName) || Truthy(lastName)
    ensures var j := ListBody(None, None, None, firstName, lastName, dob);
      Keys(j.fields) == ["exact_search"] && Get(j, "exact_search") == ExactSearchValue(firstName, lastName, dob)
  {
  }

  /** A non-OK response reaches the caller with the prefix twice. */
  lemma NonOkPrefixedTwice(prefix: string, response: Response)
    requires !response.Ok()
    ensures Settle(prefix, Interceptor.Returned(response)).error.message
      == prefix + prefix + IntToString(response.status) + " " + response.statusText
  {
  }

  /** Every failure of either call is an `Error` whose message starts with the call's prefix. */
  lemma EveryFailurePrefixed(prefix: string, outcome: Interceptor.CallResult)
    ensures var r := Settle(prefix, outcome);
      r.Err? ==> r.error.name == "Error" && |prefix| <= |r.error.message| && r.error.message[..|prefix|] == prefix
  {
  }

  /** An unreachable backend: the wrapper's synthetic 500 makes `fetchPatients`
      fail with "Failed to fetch patients: Failed to fetch patients: 500 "
      after exactly one request. */
  lemma NetworkFailureMessage(server: Server, w: World, body: Json)
    requires var o := Interceptor.Authorize(ListOptions(body), Auth.TokensOf(w).accessToken);
      server(Interceptor.RequestOf(RiskApiBaseUrl + ListEndpoint, o), |w.requests|).Rejected?
    ensures var (r, w') := ListFlow(server, w, body);
      && r == Err(NewError(ListFailure + ListFailure + "500 "))
      && |w'.requests| == |w.requests| + 1 && w'.storage == w.storage
  {
    Interceptor.NetworkFailureBecomes500(server, w, RiskApiBaseUrl + ListEndpoint, ListOptions(body));
    assert IntToString(500) == "500";
  }

  /** `fetchPatients` POSTs its body to "/patients/list" as its first request. */
  lemma ListRequestSent(server: Server, w: World, body: Json)
    ensures var w' := ListFlow(server, w, body).1;
      var sent := w'.requests[|w.requests|];
      && |w'.requests| > |w.requests|
      && sent.url == RiskApiBaseUrl + "/patients/list" && sent.httpMethod == "POST"
      && sent.body == Some(body) && "Content-Type" in sent.headers && sent.headers["Content-Type"] == "application/json"
  {
    Interceptor.CallLog(server, w, RiskApiBaseUrl + ListEndpoint, ListOptions(body));
  }

  /** `getPatientById` GETs "/patients/retrieve/<id>" as its first request. */
  lemma DetailRequestSent(server: Server, w: World, id: Json)
    ensures var w' := GetPatientByIdFlow(server, w, id).1;
      var sent := w'.requests[|w.requests|];
      && |w'.requests| > |w.requests|
      && sent.url == RiskApiBaseUrl + "/patients/retrieve/" + ValueString(id) && sent.httpMethod == "GET"
      && sent.body.None? && "Accept" in sent.headers && sent.headers["Accept"] == "application/json"
  {
    Interceptor.CallLog(server, w, RiskApiBaseUrl + DetailPath(id), DetailOptions());
  }
}
