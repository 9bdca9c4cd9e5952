/**
 * The search client: pagination, the authentication headers read from the
 * stored catalog, and the search call with its parameter-update and error rules.
 */
module Google {
  import opened Js
  import opened Constants
  import opened Records
  import opened Storage
  import opened Remote
  import opened UiState
  import opened Appycentric

  const API_KEY_HEADER := "x-appycentricApiKey"
  const USER_HEADER := "x-appycentricUser"
  const BS_HEADER := "x-appycentricBsHeader"
  const LANG_HEADER := "x-appycentricLang"
  const DEBUG_API_HEADER := "x-appycentricDebugApi"

  const DAMAGED_SETTINGS := "Saved API parameters seem to be damaged. Please log in to tohe application from your user profile."
  /** What the engine throws when `forEach` is called on a missing `APIs` field. */
  const NO_API_LIST := "TypeError: Cannot read properties of undefined (reading 'forEach')"

  // ---------------------------------------------------------------------------
  // Pagination

  /** The window `nextPage` moves to: ten rows further on, clipped to `totalResults`. */
  function NextPageParams(p: Params, totalResults: int): (r: Params)
    ensures r == p.(start := r.start, num := r.num)
    ensures r.start <= totalResults && r.start <= p.start + ROWS_PER_PAGE
    ensures r.start == p.start + ROWS_PER_PAGE || r.start == totalResults
    ensures 0 <= r.num <= ROWS_PER_PAGE && r.start + r.num <= totalResults
    ensures r.num == ROWS_PER_PAGE <==> r.start + ROWS_PER_PAGE <= totalResults
    ensures r.num == ROWS_PER_PAGE || r.start + r.num == totalResults
  {
    var start := if p.start + ROWS_PER_PAGE <= totalResults then p.start + ROWS_PER_PAGE else totalResults;
    var num := if ROWS_PER_PAGE <= totalResults - start then ROWS_PER_PAGE else totalResults - start;
    p.(start := start, num := num)
  }

  /** The window `prevPage` moves to: ten full rows back, never before row 1. */
  function PrevPageParams(p: Params): (r: Params)
    ensures r == p.(start := r.start, num := r.num)
    ensures r.num == ROWS_PER_PAGE && r.start >= 1
    ensures r.start == p.start - ROWS_PER_PAGE || r.start == 1
    ensures p.start - ROWS_PER_PAGE >= 1 ==> r.start == p.start - ROWS_PER_PAGE
  {
    var start := if p.start - ROWS_PER_PAGE >= 1 then p.start - ROWS_PER_PAGE else 1;
    p.(num := ROWS_PER_PAGE, start := start)
  }

  /**
   * Paging forward and back again returns to the same first row when a full
   * page lay ahead. Nothing is claimed for a start below 1.
   */
  lemma {:induction false} PrevAfterNextRestoresStart(p: Params, totalResults: int)
    requires p.start >= 1 && p.start + ROWS_PER_PAGE <= totalResults
    ensures PrevPageParams(NextPageParams(p, totalResults)).start == p.start
    ensures NextPageParams(p, totalResults).start == p.start + ROWS_PER_PAGE
  {
    var q := NextPageParams(p, totalResults);
    assert q.start == p.start + ROWS_PER_PAGE;
  }

  // ---------------------------------------------------------------------------
  // Authentication headers

  /** The key of the last catalog entry named `name`, if any. */
  function LastMatch(apis: seq<StoredApi>, name: Option<string>): Option<string>
  {
    if apis == [] then None
    else if Some(apis[|apis| - 1].name) == name then Some(apis[|apis| - 1].key)
    else LastMatch(apis[..|apis| - 1], name)
  }

  /** `LastMatch` finds the key of the matching entry after which no entry matches. */
  lemma {:induction false} LastMatchIsLast(apis: seq<StoredApi>, name: Option<string>)
    ensures LastMatch(apis, name).None? <==> forall i :: 0 <= i < |apis| ==> Some(apis[i].name) != name
    ensures LastMatch(apis, name).Some? ==>
      exists i :: 0 <= i < |apis| && Some(apis[i].name) == name && apis[i].key == LastMatch(apis, name).value
        && forall j :: i < j < |apis| ==> Some(apis[j].name) != name
  {
    if apis != [] {
      var init := apis[..|apis| - 1];
      LastMatchIsLast(init, name);
      assert forall i :: 0 <= i < |init| ==> init[i] == apis[i];
      if Some(apis[|apis| - 1].name) != name && LastMatch(init, name).Some? {
        var i :| 0 <= i < |init| && Some(init[i].name) == name && init[i].key == LastMatch(init, name).value
          && forall j :: i < j < |init| ==> Some(init[j].name) != name;
        assert forall j :: i < j < |apis| ==> Some(apis[j].name) != name;
      }
    }
  }

  /** The header object; axios leaves out a header whose value is `undefined`. */
  function HeaderMap(apiKey: string, userEmail: Option<string>): map<string, string>
  {
    var always := map[API_KEY_HEADER := apiKey, BS_HEADER := "{}", LANG_HEADER := "en", DEBUG_API_HEADER := "no"];
    if userEmail.Some? then always[USER_HEADER := userEmail.value] else always
  }

  /** The outcome of `getRequestHeaderWithAuthData`. */
  function AuthHeaders(apiName: Option<string>, settings: CatalogView): Result<map<string, string>>
  {
    if settings.APIs.None? then Failure(NO_API_LIST)
    else
      var apikey := LastMatch(settings.APIs.value, apiName);
      if Falsy(apikey) then Failure("Error: " + DAMAGED_SETTINGS)
      else Success(HeaderMap(apikey.value, settings.userEmail))
  }

  /**
   * Headers are produced iff the catalog has an API list whose last entry
   * named `apiName` has a non-empty key; they then carry that key, the stored
   * email and the three fixed values under the five header names.
   */
  lemma {:induction false} AuthHeadersMeaning(apiName: Option<string>, settings: CatalogView)
    ensures settings.APIs.None? ==> AuthHeaders(apiName, settings) == Failure(NO_API_LIST)
    ensures AuthHeaders(apiName, settings).Success? <==>
      && settings.APIs.Some?
      && (exists i :: && 0 <= i < |settings.APIs.value|
                      && Some(settings.APIs.value[i].name) == apiName
                      && settings.APIs.value[i].key != ""
                      && forall j :: i < j < |settings.APIs.value| ==> Some(settings.APIs.value[j].name) != apiName)
    ensures AuthHeaders(apiName, settings).Success? ==>
      var h := AuthHeaders(apiName, settings).value;
      && h.Keys == {API_KEY_HEADER, BS_HEADER, LANG_HEADER, DEBUG_API_HEADER} + (if settings.userEmail.Some? then {USER_HEADER} else {})
      && Some(h[API_KEY_HEADER]) == LastMatch(settings.APIs.value, apiName) && h[API_KEY_HEADER] != ""
      && (settings.userEmail.Some? ==> h[USER_HEADER] == settings.userEmail.value)
      && h[BS_HEADER] == "{}" && h[LANG_HEADER] == "en" && h[DEBUG_API_HEADER] == "no"
    ensures AuthHeaders(apiName, settings).Failure? && settings.APIs.Some? ==>
      AuthHeaders(apiName, settings) == Failure("Error: " + DAMAGED_SETTINGS)
  {
    if settings.APIs.Some? {
      var apis := settings.APIs.value;
      LastMatchIsLast(apis, apiName);
      var m := LastMatch(apis, apiName);
      if exists i :: 0 <= i < |apis| && Some(apis[i].name) == apiName && apis[i].key != ""
           && forall j :: i < j < |apis| ==> Some(apis[j].name) != apiName {
        var i :| 0 <= i < |apis| && Some(apis[i].name) == apiName && apis[i].key != ""
           && forall j :: i < j < |apis| ==> Some(apis[j].name) != apiName;
        var i' :| 0 <= i' < |apis| && Some(apis[i'].name) == apiName && apis[i'].key == m.value
          && forall j :: i' < j < |apis| ==> Some(apis[j].name) != apiName;
        assert i == i';
      }
    }
  }

  /** `getRequestHeaderWithAuthData`: scans every entry, the last match winning. */
  method GetRequestHeaderWithAuthData(apiName: Option<string>, settings: CatalogView)
    returns (r: Result<map<string, string>>)
    ensures r == AuthHeaders(apiName, settings)
  {
    if settings.APIs.None? {
      return Failure(NO_API_LIST);
    }
    var apis := settings.APIs.value;
    var apikey: Option<string> := None;
    for i := 0 to |apis|
      invariant apikey == LastMatch(apis[..i], apiName)
    {
      assert apis[..i + 1][..i] == apis[..i];
      if Some(apis[i].name) == apiName {
        apikey := Some(apis[i].key);
      }
    }
    assert apis[..|apis|] == apis;
    if Falsy(apikey) {
      return Failure("Error: " + DAMAGED_SETTINGS);
    }
    return Success(HeaderMap(apikey.value, settings.userEmail));
  }

  // ---------------------------------------------------------------------------
  // Search

  /** The truthy `error` member of an object body; only an object can carry one. */
  function EmbeddedError(body: Body): Option<Json>
  {
    if body.Structured? && body.value.JObject? && "error" in body.value.fields && Truthy(body.value.fields["error"])
    then Some(body.value.fields["error"])
    else None
  }

  /** What the reply to the search GET gives: the stripped body, or the text the catch block shows. */
  function Answer(reply: SearchReply, parse: string -> Option<Json>, stringify: Json -> string): Result<Json>
  {
    match reply
    case Refused(dataError, statusText, text) => Failure(Or(dataError, Or(statusText, text)))
    case Answered(body) =>
      var embedded := EmbeddedError(body);
      if embedded.Some? then Failure("Error: " + stringify(embedded.value))
      else match RemoveDebugData(body, parse)
        case Success(v) => Success(v)
        case Failure(e) => Failure("Error: " + e)
  }

  /** The request a search sends, if it gets that far, and its outcome. */
  datatype SearchOutcome = SearchOutcome(request: Option<Request>, result: Result<Json>)

  /** One run of `search` from parameters `params` and the catalog as read from storage. */
  function SearchAttempt(params: Params, catalog: Result<CatalogView>, start: Option<int>, num: Option<int>,
                         reply: SearchReply, parse: string -> Option<Json>, stringify: Json -> string): SearchOutcome
  {
    match catalog
    case Failure(e) => SearchOutcome(None, Failure(e))
    case Success(settings) =>
      var headers := AuthHeaders(params.selectedAPI, settings);
      if headers.Failure? then SearchOutcome(None, Failure(headers.error))
      else
        var request := SearchGet(settings.apiUrl, params.searchPhrase,
                                 OrNumber(start, params.start), OrNumber(num, params.num), headers.value);
        SearchOutcome(Some(request), Answer(reply, parse, stringify))
  }

  /** The explicit window differs from the current one and both its bounds are truthy. */
  predicate WindowChanges(p: Params, start: Option<int>, num: Option<int>)
  {
    !FalsyNumber(start) && !FalsyNumber(num) && (start.value != p.start || num.value != p.num)
  }

  /** The parameters after a search. */
  function ParamsAfterSearch(p: Params, start: Option<int>, num: Option<int>, o: SearchOutcome): Params
  {
    if o.result.Failure? then p.(error := o.result.error)
    else if WindowChanges(p, start, num) then p.(start := start.value, num := num.value)
    else p
  }

  /** The hooks after a search that started from `s`. */
  function AfterSearch(s: Snapshot, start: Option<int>, num: Option<int>, o: SearchOutcome): Snapshot
  {
    s.(params := ParamsAfterSearch(s.params, start, num, o),
       showError := o.result.Failure?,
       showQuery := s.showQuery && o.request.None?,
       searchResults := if o.result.Success? then o.result.value else s.searchResults)
  }

  /** The value `search` returns. */
  function ResultOf(o: SearchOutcome): Json
  {
    if o.result.Success? then o.result.value else EMPTY_OBJECT
  }

  /** The requests a search puts on the network. */
  function SentBy(o: SearchOutcome): seq<Request>
  {
    if o.request.Some? then [o.request.value] else []
  }

  /**
   * A request goes out iff the catalog reads and yields headers; it names the
   * stored API URL and the current phrase, and an explicit bound that is
   * falsy falls back to the current one.
   */
  lemma {:induction false} SearchRequestShape(params: Params, catalog: Result<CatalogView>, start: Option<int>, num: Option<int>,
                                              reply: SearchReply, parse: string -> Option<Json>, stringify: Json -> string)
    ensures var o := SearchAttempt(params, catalog, start, num, reply, parse, stringify);
      && (o.request.Some? <==> catalog.Success? && AuthHeaders(params.selectedAPI, catalog.value).Success?)
      && (o.request.None? ==> o.result.Failure?)
      && (o.request.Some? ==>
            && o.request.value.SearchGet?
            && o.request.value.apiUrl == catalog.value.apiUrl
            && o.request.value.query == params.searchPhrase
            && o.request.value.start == (if FalsyNumber(start) then params.start else start.value)
            && o.request.value.num == (if FalsyNumber(num) then params.num else num.value)
            && o.request.value.headers[API_KEY_HEADER] != "")
  {
    var o := SearchAttempt(params, catalog, start, num, reply, parse, stringify);
    if o.request.Some? {
      AuthHeadersMeaning(params.selectedAPI, catalog.value);
    }
  }

  /**
   * A search succeeds iff its request was answered with a body that carries
   * no embedded error and survives debug stripping; an embedded error is
   * reported as the thrown `Error` of its JSON text.
   */
  lemma SearchSuccess(params: Params, catalog: Result<CatalogView>, start: Option<int>, num: Option<int>,
                      reply: SearchReply, parse: string -> Option<Json>, stringify: Json -> string)
    ensures var o := SearchAttempt(params, catalog, start, num, reply, parse, stringify);
      && (o.result.Success? <==>
            o.request.Some? && reply.Answered? && EmbeddedError(reply.body).None? && RemoveDebugData(reply.body, parse).Success?)
      && (o.result.Success? ==> o.result.value == RemoveDebugData(reply.body, parse).value)
      && (o.request.Some? && reply.Answered? && EmbeddedError(reply.body).Some? ==>
            o.result == Failure("Error: " + stringify(EmbeddedError(reply.body).value)))
      && (o.request.Some? && reply.Refused? ==>
            o.result == Failure(Or(reply.dataError, Or(reply.statusText, reply.text))))
  {
  }

  /**
   * A failed search changes only `error`; a successful one changes only the
   * window, and only when both explicit bounds are truthy and one differs.
   * When both bounds are given or both are left out, the parameters after a
   * success describe the window that was requested.
   */
  lemma {:induction false} SearchParamsRule(params: Params, catalog: Result<CatalogView>, start: Option<int>, num: Option<int>,
                                            reply: SearchReply, parse: string -> Option<Json>, stringify: Json -> string)
    ensures var o := SearchAttempt(params, catalog, start, num, reply, parse, stringify);
      var after := ParamsAfterSearch(params, start, num, o);
      && (o.result.Failure? ==> after == params.(error := after.error) && after.error == o.result.error)
      && (o.result.Success? ==> after == params.(start := after.start, num := after.num))
      && (o.result.Success? ==> (after != params <==> WindowChanges(params, start, num)))
      && (o.result.Success? && FalsyNumber(start) == FalsyNumber(num) ==>
            after.start == o.request.value.start && after.num == o.request.value.num)
  {
    var o := SearchAttempt(params, catalog, start, num, reply, parse, stringify);
    SearchRequestShape(params, catalog, start, num, reply, parse, stringify);
  }

  /** The catch block of `search`: only `error` changes, on a copy, and the error view opens. */
  method ReportSearchError(state: AppState, msg: string)
    modifies state`params, state`showError
    ensures state.Current() == old(state.Current()).(params := old(state.params).(error := msg), showError := true)
  {
    var newParams := state.params;
    newParams := newParams.(error := msg);
    state.params := newParams;
    state.showError := true;
  }

  /** The part of `search` from sending the request on: the reply is checked, stripped and stored. */
  method SendSearch(state: AppState, net: Network, request: Request, start: Option<int>, num: Option<int>,
                    reply: SearchReply, parse: string -> Option<Json>, stringify: Json -> string)
    returns (r: Json)
    modifies state`params, state`showError, state`showQuery, state`searchResults, net
    ensures var o := SearchOutcome(Some(request), Answer(reply, parse, stringify));
      && r == ResultOf(o)
      && net.sent == old(net.sent) + [request]
      && state.Current() == AfterSearch(old(state.Current()), start, num, o)
  {
    state.showQuery := false;
    net.Send(request);
    if reply.Refused? {
      ReportSearchError(state, Or(reply.dataError, Or(reply.statusText, reply.text)));
      return EMPTY_OBJECT;
    }
    var embedded := EmbeddedError(reply.body);
    if embedded.Some? {
      ReportSearchError(state, "Error: " + stringify(embedded.value));
      return EMPTY_OBJECT;
    }
    var apiResponse := RemoveDebugData(reply.body, parse);
    if apiResponse.Failure? {
      ReportSearchError(state, "Error: " + apiResponse.error);
      return EMPTY_OBJECT;
    }
    if WindowChanges(state.params, start, num) {
      state.params := state.params.(start := start.value, num := num.value);
    }
    state.showError := false;
    state.searchResults := apiResponse.value;
    return apiResponse.value;
  }

  /** `search(props, start, num)`; `reply` is what the search GET would return. */
  method Search(state: AppState, store: LocalStorage, net: Network, start: Option<int>, num: Option<int>,
                reply: SearchReply, parse: string -> Option<Json>, stringify: Json -> string)
    returns (r: Json)
    modifies state`params, state`showError, state`showQuery, state`searchResults, net
    ensures var o := SearchAttempt(old(state.params), ReadCatalog(store.items), start, num, reply, parse, stringify);
      && r == ResultOf(o)
      && net.sent == old(net.sent) + SentBy(o)
      && state.Current() == AfterSearch(old(state.Current()), start, num, o)
  {
    ghost var o := SearchAttempt(state.params, ReadCatalog(store.items), start, num, reply, parse, stringify);
    state.showError := false;
    var settings := ReadCatalog(store.items);
    if settings.Failure? {
      ReportSearchError(state, settings.error);
      return EMPTY_OBJECT;
    }
    var headers := GetRequestHeaderWithAuthData(state.params.selectedAPI, settings.value);
    if headers.Failure? {
      ReportSearchError(state, headers.error);
      return EMPTY_OBJECT;
    }
    var request := SearchGet(settings.value.apiUrl, state.params.searchPhrase,
                             OrNumber(start, state.params.start), OrNumber(num, state.params.num), headers.value);
    assert o == SearchOutcome(Some(request), Answer(reply, parse, stringify));
    r := SendSearch(state, net, request, start, num, reply, parse, stringify);
  }

  /** `nextPage`: moves the window forward on the shared parameters, then searches with them. */
  method NextPage(state: AppState, store: LocalStorage, net: Network, totalResults: int,
                  reply: SearchReply, parse: string -> Option<Json>, stringify: Json -> string)
    modifies state`params, state`showError, state`showQuery, state`searchResults, net
    ensures var p := NextPageParams(old(state.params), totalResults);
      var o := SearchAttempt(p, ReadCatalog(store.items), None, None, reply, parse, stringify);
      && net.sent == old(net.sent) + SentBy(o)
      && state.Current() == AfterSearch(old(state.Current()).(params := p), None, None, o)
  {
    state.params := NextPageParams(state.params, totalResults);
    var _ := Search(state, store, net, None, None, reply, parse, stringify);
  }

  /** `prevPage`: moves the window back on the shared parameters, then searches with them. */
  method PrevPage(state: AppState, store: LocalStorage, net: Network,
                  reply: SearchReply, parse: string -> Option<Json>, stringify: Json -> string)
    modifies state`params, state`showError, state`showQuery, state`searchResults, net
    ensures var p := PrevPageParams(old(state.params));
      var o := SearchAttempt(p, ReadCatalog(store.items), None, None, reply, parse, stringify);
      && net.sent == old(net.sent) + SentBy(o)
      && state.Current() == AfterSearch(old(state.Current()).(params := p), None, None, o)
  {
    state.params := PrevPageParams(state.params);
    var _ := Search(state, store, net, None, None, reply, parse, stringify);
  }
}
