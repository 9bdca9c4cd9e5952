/**
 * The application shell: capturing the start-up query, the one-time bootstrap
 * decision between a fresh initialisation, a resume from storage and the
 * "no credentials" error, and the two-call initialisation itself.
 */
module App {
  import opened Js
  import opened Constants
  import opened Records
  import opened Storage
  import opened Remote
  import opened UiState
  import opened Appycentric

  /** The sentinel that marks a required query value as absent. */
  const MISSING := "Required parameter missing [Error]"
  const NOT_USED := "Not used."
  const NO_CREDENTIALS :=
    "Neither initial nor saved access credentials and parameters are found. Please start the application from your AppyCentric user menu to have the params renewed."
  const REUSED := "Parameters reused from prior sessions."
  const NOT_CALLED := "This API is not called. Saved parameters are used."
  const SAVED_PREFIX := "These parameters were saved in prior sessions. Saved message:"
  const BAD_PARAMETERS := "Bad or missing initialization parameters: "

  // ---------------------------------------------------------------------------
  // Start-up query

  /** `query.get(key) || MISSING`: an absent or empty value becomes the sentinel. */
  function QueryValue(query: map<string, string>, key: string): string
  {
    if key in query && query[key] != "" then query[key] else MISSING
  }

  /** A query value that counts as supplied: present, non-empty and not the sentinel itself. */
  predicate Supplied(query: map<string, string>, key: string)
  {
    key in query && query[key] != "" && query[key] != MISSING
  }

  /** The five start-up values as the App component captures them from the URL query. */
  function CaptureQueryParams(query: map<string, string>): InitialSysAPIParams
  {
    InitialSysAPIParams(
      userEmail := QueryValue(query, "userEmail"),
      planId := QueryValue(query, "planId"),
      appId := QueryValue(query, "appId"),
      sysAPIUrl := QueryValue(query, "sysApiUrl"),
      initialAPIKey := QueryValue(query, "initialApiKey"))
  }

  /** Some required start-up value is the sentinel. */
  predicate ParamsMissing(q: InitialSysAPIParams)
  {
    || q.sysAPIUrl == MISSING
    || q.appId == MISSING
    || q.initialAPIKey == MISSING
    || q.planId == MISSING
    || q.userEmail == MISSING
  }

  /**
   * A captured field is the sentinel exactly when its query value is not
   * supplied, and otherwise it is that value; so a fresh initialisation is
   * attempted iff all five values are supplied.
   */
  lemma CapturedQuery(query: map<string, string>)
    ensures var q := CaptureQueryParams(query);
      && (q.userEmail == MISSING <==> !Supplied(query, "userEmail"))
      && (q.planId == MISSING <==> !Supplied(query, "planId"))
      && (q.appId == MISSING <==> !Supplied(query, "appId"))
      && (q.sysAPIUrl == MISSING <==> !Supplied(query, "sysApiUrl"))
      && (q.initialAPIKey == MISSING <==> !Supplied(query, "initialApiKey"))
      && (Supplied(query, "userEmail") ==> q.userEmail == query["userEmail"])
      && (Supplied(query, "planId") ==> q.planId == query["planId"])
      && (Supplied(query, "appId") ==> q.appId == query["appId"])
      && (Supplied(query, "sysApiUrl") ==> q.sysAPIUrl == query["sysApiUrl"])
      && (Supplied(query, "initialApiKey") ==> q.initialAPIKey == query["initialApiKey"])
      && (!ParamsMissing(q) <==>
            && Supplied(query, "userEmail") && Supplied(query, "planId") && Supplied(query, "appId")
            && Supplied(query, "sysApiUrl") && Supplied(query, "initialApiKey"))
  {
  }

  // ---------------------------------------------------------------------------
  // Bootstrap decision

  /** The branch the start-up effect takes. */
  datatype Boot =
    | FreshInit
    | NoCredentials
    | Resume(apis: seq<StoredApi>, session: Option<SysResults>)
    | Unreadable(parseError: string)

  /**
   * The start-up decision. The source also tests `APIs === []`, which compares
   * against a fresh array and is never true, so it plays no part here.
   */
  function BootDecision(q: InitialSysAPIParams, items: map<string, Stored>): (b: Boot)
    ensures b.FreshInit? <==> !ParamsMissing(q)
    ensures b.NoCredentials? <==>
      && ParamsMissing(q) && ReadCatalog(items).Success?
      && (ReadCatalog(items).value.APIs.None? || ReadCatalog(items).value.apiUrl.None? || ReadCatalog(items).value.userEmail.None?)
    ensures b.Resume? ==>
      && ParamsMissing(q) && ReadCatalog(items).Success? && ReadSession(items).Success?
      && ReadCatalog(items).value.APIs == Some(b.apis) && ReadSession(items).value == b.session
      && ReadCatalog(items).value.apiUrl.Some? && ReadCatalog(items).value.userEmail.Some?
    ensures b.Unreadable? <==>
      && ParamsMissing(q)
      && (|| ReadCatalog(items).Failure?
          || (&& ReadCatalog(items).value.APIs.Some? && ReadCatalog(items).value.apiUrl.Some?
              && ReadCatalog(items).value.userEmail.Some? && ReadSession(items).Failure?))
  {
    if !ParamsMissing(q) then FreshInit
    else match ReadCatalog(items)
      case Failure(e) => Unreadable(e)
      case Success(stored) =>
        if stored.APIs.None? || stored.apiUrl.None? || stored.userEmail.None? then NoCredentials
        else match ReadSession(items)
          case Failure(e) => Unreadable(e)
          case Success(session) => Resume(stored.APIs.value, session)
  }

  /**
   * A catalog written by the validator, with the session record before it, is
   * always resumed from when no start-up query is given: the written record
   * has all three fields, whatever they hold.
   */
  lemma {:induction false} ValidatedCatalogResumes(q: InitialSysAPIParams, items: map<string, Stored>, c: StoredCatalog, s: SysResults)
    requires ParamsMissing(q)
    ensures var written := items[COMPLETE_APP_SETTINGS := Session(s)][GOOGLE_API_SETTINGS := CatalogRecord(c)];
      BootDecision(q, written) == Resume(c.APIs, Some(s))
  {
    var written := items[COMPLETE_APP_SETTINGS := Session(s)][GOOGLE_API_SETTINGS := CatalogRecord(c)];
    CatalogReadsBack(items[COMPLETE_APP_SETTINGS := Session(s)], c);
    assert written[COMPLETE_APP_SETTINGS] == Session(s);
  }

  // ---------------------------------------------------------------------------
  // Resume from storage

  /** The parameters after resuming: the stored names appended in order, the first one selected. */
  function ResumedParams(p: Params, apis: seq<StoredApi>): (r: Params)
    ensures r == p.(error := REUSED, APINames := r.APINames, selectedAPI := r.selectedAPI)
    ensures |r.APINames| == |p.APINames| + |apis| && r.APINames[..|p.APINames|] == p.APINames
    ensures forall i :: 0 <= i < |apis| ==> r.APINames[|p.APINames| + i] == apis[i].name
    ensures r.selectedAPI == if apis == [] then p.selectedAPI else Some(apis[0].name)
  {
    p.(error := REUSED,
       APINames := p.APINames + Names(apis),
       selectedAPI := if apis == [] then p.selectedAPI else Some(apis[0].name))
  }

  /** The session record shown when resuming; a missing record shows only the two overwritten fields. */
  function SavedSession(session: Option<SysResults>): (r: SysResults)
    ensures r.usingSavedParameters
    ensures session.Some? ==>
      r.message == SAVED_PREFIX + session.value.message
      && r == session.value.(message := r.message, usingSavedParameters := true)
    ensures session.None? ==> r.message == SAVED_PREFIX + "undefined"
  {
    match session
    case Some(s) => s.(message := SAVED_PREFIX + s.message, usingSavedParameters := true)
    case None => EMPTY_SYS_RESULTS.(message := SAVED_PREFIX + "undefined", usingSavedParameters := true)
  }

  const NOT_USED_QUERY := InitialSysAPIParams(NOT_USED, NOT_USED, NOT_USED, NOT_USED, NOT_USED)
  const NOT_CALLED_INIT := InitResults(0, NOT_CALLED, NOT_USED, NOT_USED, NOT_USED, NOT_USED, NOT_USED)

  // ---------------------------------------------------------------------------
  // Initialisation from the start-up query

  /** An HTTP success status. */
  predicate Ok(status: int)
  {
    200 <= status < 300
  }

  /** The plan-API arguments read off the credential-exchange result. */
  function CredentialsOf(r: InitResults): SysAPIParams
  {
    SysAPIParams(Some(r.userEmail), Some(r.planId), Some(r.appId), Some(r.sysAPIUrl), Some(r.sysAPIKey))
  }

  /**
   * The hooks after `initializeAppFromProvidedParams`. A failed second call
   * sets `error` on a copy of the parameters the effect started from, so the
   * names the validator may have set are replaced by the earlier ones.
   */
  function AfterInitialize(s: Snapshot, initRes: InitResults, step: PlanStep): Snapshot
  {
    var s1 := s.(initResponse := initRes);
    if !Ok(initRes.status) then s1.(params := s.params.(error := initRes.message), showError := true)
    else
      var p1 := s.params.(error := NA);
      AfterPlanCall(s1.(params := p1), p1, step)
  }

  /** The hooks after the plan-API step, `captured` being the parameter object the closure holds. */
  function AfterPlanCall(s: Snapshot, captured: Params, step: PlanStep): Snapshot
  {
    var sysRes := PlanResult(step);
    if Ok(sysRes.status) then s.(params := ParamsAfterPlan(s.params, captured, step), sysResponse := sysRes, showError := false)
    else s.(params := captured.(error := sysRes.message), showError := true)
  }

  /** The storage after the initialisation: only the second call writes it. */
  function ItemsAfterInitialize(items: map<string, Stored>, initRes: InitResults, step: PlanStep): map<string, Stored>
  {
    if Ok(initRes.status) then ItemsAfterPlan(items, step) else items
  }

  /** The requests of the initialisation. */
  function SentByInitialize(q: InitialSysAPIParams, initRes: InitResults): seq<Request>
  {
    [CredentialsPost(q)] + if Ok(initRes.status) then [PlanPost(CredentialsOf(initRes))] else []
  }

  /**
   * The plan API is called iff the credential exchange succeeded; whichever
   * call fails puts its message into `error` and opens the error view, and
   * only a double success closes it and shows the plan record.
   */
  lemma InitializeOutcome(s: Snapshot, items: map<string, Stored>, q: InitialSysAPIParams,
                                             call1: Reply<InitData>, call2: Reply<PlanData>, renewedAt: string)
    ensures var initRes := NormalizeInitReply(call1);
      var step := NormalizePlanReply(call2, renewedAt);
      var t := AfterInitialize(s, initRes, step);
      && t.initResponse == initRes
      && (|SentByInitialize(q, initRes)| == 2 <==> Ok(initRes.status))
      && (!Ok(initRes.status) ==>
            && t.params.error == initRes.message && t.showError
            && ItemsAfterInitialize(items, initRes, step) == items && t.sysResponse == s.sysResponse)
      && (Ok(initRes.status) && !Ok(PlanResult(step).status) ==>
            t.params == s.params.(error := PlanResult(step).message) && t.showError)
      && (Ok(initRes.status) && Ok(PlanResult(step).status) ==>
            && !t.showError && t.sysResponse == PlanResult(step)
            && t.params.error == NA)
      && (!t.showError <==> Ok(initRes.status) && Ok(PlanResult(step).status))
  {
  }

  /** `initializeAppFromProvidedParams`: the credential exchange, then, on success, the plan API. */
  method InitializeAppFromProvidedParams(state: AppState, store: LocalStorage, net: Network, queryParams: InitialSysAPIParams,
                                         call1: Reply<InitData>, call2: Reply<PlanData>, renewedAt: string)
    modifies state`initResponse, state`params, state`showError, state`sysResponse, store`items, net
    ensures var initRes := NormalizeInitReply(call1);
      var step := NormalizePlanReply(call2, renewedAt);
      && state.Current() == AfterInitialize(old(state.Current()), initRes, step)
      && store.items == ItemsAfterInitialize(old(store.items), initRes, step)
      && net.sent == old(net.sent) + SentByInitialize(queryParams, initRes)
  {
    var params := state.params;  // the parameter object the closure captured
    var initRes := GetSystemApiCredentials(net, queryParams, call1);
    state.initResponse := initRes;
    if 200 <= initRes.status < 300 {
      params := params.(error := NA);
      state.params := params;
      PlanCall(state, store, net, params, CredentialsOf(initRes), call2, renewedAt);
    } else {
      params := params.(error := initRes.message);
      state.params := params;
      state.showError := true;
    }
  }

  /** The second step of the initialisation: the plan API, then the status branch. */
  method PlanCall(state: AppState, store: LocalStorage, net: Network, params: Params, query: SysAPIParams,
                  call2: Reply<PlanData>, renewedAt: string)
    modifies state`params, state`showError, state`sysResponse, store`items, net
    ensures var step := NormalizePlanReply(call2, renewedAt);
      && state.Current() == AfterPlanCall(old(state.Current()), params, step)
      && store.items == ItemsAfterPlan(old(store.items), step)
      && net.sent == old(net.sent) + [PlanPost(query)]
  {
    var sysRes := GetPlanAPIs(params, state, store, net, query, call2, renewedAt);
    if 200 <= sysRes.status < 300 {
      // `params.error = NA` once more: the captured object already has it
      state.sysResponse := sysRes;
      state.showError := false;
    } else {
      state.params := params.(error := sysRes.message);
      state.showError := true;
    }
  }

  // ---------------------------------------------------------------------------
  // The start-up effect

  /** The hooks after the start-up effect. */
  function AfterBoot(s: Snapshot, items: map<string, Stored>, call1: Reply<InitData>, call2: Reply<PlanData>, renewedAt: string): Snapshot
  {
    match BootDecision(s.queryParams, items)
    case FreshInit => AfterInitialize(s, NormalizeInitReply(call1), NormalizePlanReply(call2, renewedAt))
    case NoCredentials => s.(params := s.params.(error := NO_CREDENTIALS), showError := true)
    case Unreadable(e) => s.(params := s.params.(error := BAD_PARAMETERS + e), showError := true)
    case Resume(apis, session) =>
      s.(queryParams := NOT_USED_QUERY, initResponse := NOT_CALLED_INIT, sysResponse := SavedSession(session),
         params := ResumedParams(s.params, apis), showError := false)
  }

  /** The storage after the start-up effect. */
  function ItemsAfterBoot(q: InitialSysAPIParams, items: map<string, Stored>, call1: Reply<InitData>, call2: Reply<PlanData>, renewedAt: string): map<string, Stored>
  {
    if BootDecision(q, items).FreshInit? then ItemsAfterInitialize(items, NormalizeInitReply(call1), NormalizePlanReply(call2, renewedAt))
    else items
  }

  /** The requests of the start-up effect. */
  function SentByBoot(q: InitialSysAPIParams, items: map<string, Stored>, call1: Reply<InitData>): seq<Request>
  {
    if BootDecision(q, items).FreshInit? then SentByInitialize(q, NormalizeInitReply(call1)) else []
  }

  /**
   * Without a start-up query, nothing is sent and nothing is stored. Missing
   * stored credentials open the error view with the "neither" message and
   * change nothing else; a resume closes it and shows the stored record as
   * reused, with the query and the first call marked as unused.
   */
  lemma {:induction false} BootWithoutQuery(s: Snapshot, items: map<string, Stored>, call1: Reply<InitData>, call2: Reply<PlanData>, renewedAt: string)
    requires ParamsMissing(s.queryParams)
    ensures SentByBoot(s.queryParams, items, call1) == []
    ensures ItemsAfterBoot(s.queryParams, items, call1, call2, renewedAt) == items
    ensures var b := BootDecision(s.queryParams, items);
      var t := AfterBoot(s, items, call1, call2, renewedAt);
      && (b.NoCredentials? ==> t == s.(params := s.params.(error := NO_CREDENTIALS), showError := true))
      && (b.Unreadable? ==> t.showError && t.params == s.params.(error := t.params.error) && t.initResponse == s.initResponse)
      && (b.Resume? ==>
            && !t.showError && t.params.error == REUSED
            && t.initResponse.status == 0 && t.initResponse.message == NOT_CALLED
            && t.sysResponse == SavedSession(b.session) && t.sysResponse.usingSavedParameters
            && (b.session.Some? ==> t.sysResponse.message == SAVED_PREFIX + b.session.value.message)
            && (b.session.Some? ==> t.sysResponse == b.session.value.(message := t.sysResponse.message, usingSavedParameters := true))
            && t.params.APINames == s.params.APINames + Names(b.apis)
            && (b.apis != [] ==> t.params.selectedAPI == Some(b.apis[0].name)))
  {
    var b := BootDecision(s.queryParams, items);
    if b.Resume? {
      ghost var r := ResumedParams(s.params, b.apis);
      assert r.APINames == s.params.APINames + Names(b.apis);
    }
  }

  /** The resume branch: the stored names are pushed one by one, a flag selecting the first. */
  method ResumeFromStorage(state: AppState, apis: seq<StoredApi>, session: Option<SysResults>)
    modifies state`queryParams, state`initResponse, state`sysResponse, state`params, state`showError
    ensures state.Current() == old(state.Current()).(
      queryParams := NOT_USED_QUERY, initResponse := NOT_CALLED_INIT, sysResponse := SavedSession(session),
      params := ResumedParams(old(state.params), apis), showError := false)
  {
    state.queryParams := NOT_USED_QUERY;
    state.initResponse := NOT_CALLED_INIT;
    state.sysResponse := SavedSession(session);
    var newParams := state.params.(error := REUSED);
    var first := true;
    for i := 0 to |apis|
      invariant first <==> i == 0
      invariant newParams == old(state.params).(
        error := REUSED,
        APINames := old(state.params).APINames + Names(apis[..i]),
        selectedAPI := if i == 0 then old(state.params).selectedAPI else Some(apis[0].name))
    {
      assert apis[..i + 1][..i] == apis[..i];
      newParams := newParams.(APINames := newParams.APINames + [apis[i].name]);
      if first {
        newParams := newParams.(selectedAPI := Some(apis[i].name));
        first := false;
      }
    }
    assert apis[..|apis|] == apis;
    state.showError := false;
    state.params := newParams;
  }

  /** The rule of the `finally` block: cut the URL before its first `?` when that is not the first character. */
  function StripQuery(href: string): (r: string)
    ensures !Contains(href, "?") || IndexOf(href, "?") == 0 ==> r == href
    ensures IndexOf(href, "?") > 0 ==> r == href[..IndexOf(href, "?")] && !Contains(r, "?") && |r| > 0
  {
    var i := IndexOf(href, "?");
    if i > 0 then
      assert !Contains(href[..i], "?") by {
        forall j | 0 <= j < i ensures !OccursAt(href[..i], "?", j) {
          assert !OccursAt(href, "?", j);
          assert href[..i][j..j + 1] == href[j..j + 1];
        }
      }
      href[..i]
    else href
  }

  /** Stripping is idempotent: a URL that has been stripped once is left alone. */
  lemma {:induction false} StripQueryIdempotent(href: string)
    ensures StripQuery(StripQuery(href)) == StripQuery(href)
  {
    var r := StripQuery(href);
    if IndexOf(href, "?") > 0 {
      assert !Contains(r, "?");
    }
  }

  /**
   * The start-up effect: fresh initialisation, resume, or an error, and in
   * every case the URL query stripped afterwards.
   */
  method Bootstrap(state: AppState, store: LocalStorage, net: Network, href: string,
                   call1: Reply<InitData>, call2: Reply<PlanData>, renewedAt: string)
    returns (newHref: string)
    modifies state, store`items, net
    ensures state.Current() == AfterBoot(old(state.Current()), old(store.items), call1, call2, renewedAt)
    ensures store.items == ItemsAfterBoot(old(state.queryParams), old(store.items), call1, call2, renewedAt)
    ensures net.sent == old(net.sent) + SentByBoot(old(state.queryParams), old(store.items), call1)
    ensures newHref == StripQuery(href)
  {
    var decision := BootDecision(state.queryParams, store.items);
    match decision {
      case FreshInit =>
        InitializeAppFromProvidedParams(state, store, net, state.queryParams, call1, call2, renewedAt);
      case NoCredentials =>
        state.params := state.params.(error := NO_CREDENTIALS);
        state.showError := true;
      case Unreadable(e) =>
        state.params := state.params.(error := BAD_PARAMETERS + e);
        state.showError := true;
      case Resume(apis, session) =>
        ResumeFromStorage(state, apis, session);
    }
    newHref := StripQuery(href);
  }
}
