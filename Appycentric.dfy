/**
 * The platform client: the credential exchange, the plan-API call and its
 * normalisation, the API-catalog validator, renewal, and the removal of the
 * debug payload from downstream responses.
 */
module Appycentric {
  import opened Js
  import opened Constants
  import opened Records
  import opened Storage
  import opened Remote
  import opened UiState

  const DEBUG_DATA_SEPARATOR := "### DEBUG DATA AFTER THIS LINE ###"

  const EMAIL_NOT_VALID := "User email received from the system API is not valid."
  const API_URL_NOT_VALID := "API Url received from the system API is not valid."
  const NO_PRODUCT_APIS := "APIs received from the system API do not contain any product APIs."
  const NO_RECOGNIZED_APIS :=
    "No recognized APIs found. The application expects at least one of the following APIs: \""
    + GOOGLE_SEARCH_API_NAME_NORMAL + "\", \"" + GOOGLE_SEARCH_API_NAME_YELLOW + "\", \""
    + GOOGLE_SEARCH_API_NAME_NO_YELLOW + "\"."
  const VALIDATION_WARNING := "Validation warning (trying to ignore): "
  const PRIOR_PARAMETERS_NOT_VALID := "Prior parameters are not valid."

  // ---------------------------------------------------------------------------
  // Reply normalisation

  /**
   * The message for a delivered reply without a usable `data.data`: the
   * template literal renders an object as `[object Object]` and a missing one
   * as `undefined`.
   */
  function InvalidReplyMessage(dataPresent: bool, httpStatus: int): string
  {
    "Response not valid. Please try later. Reponse: ["
    + (if dataPresent then "[object Object]" else "undefined")
    + "]. Http response status: " + IntToString(httpStatus) + "."
  }

  /** `value` is what `supplied || NA` gives: the supplied text, or N/A when it is falsy. */
  predicate SuppliedOrNA(supplied: Option<string>, value: string)
  {
    if Falsy(supplied) then value == NA else supplied == Some(value)
  }

  /** The normalised result of the credential exchange. */
  function NormalizeInitReply(reply: Reply<InitData>): InitResults
  {
    match reply
    case Rejected(status, errorMessage, text) =>
      EMPTY_INIT_RESULTS.(status := status, message := Or(errorMessage, text))
    case Delivered(httpStatus, data) =>
      if data.None? || FalsyNumber(data.value.status) then
        EMPTY_INIT_RESULTS.(status := 403, message := InvalidReplyMessage(data.Some?, httpStatus))
      else
        var d := data.value;
        InitResults(
          status := d.status.value,
          message := Or(d.message, NA),
          planId := Or(d.planId, NA),
          appId := Or(d.appId, NA),
          userEmail := Or(d.userEmail, NA),
          sysAPIKey := Or(d.sysApiKey, NA),
          sysAPIUrl := Or(d.sysApiUrl, NA))
  }

  /**
   * A rejection keeps its status and message; a reply without data or with a
   * falsy status becomes 403 over the empty defaults; otherwise the status is
   * kept and every missing field becomes N/A.
   */
  lemma InitReplyNormalization(reply: Reply<InitData>)
    ensures reply.Rejected? ==>
      NormalizeInitReply(reply) == EMPTY_INIT_RESULTS.(status := reply.status, message := Or(reply.errorMessage, reply.text))
    ensures reply.Delivered? && (reply.data.None? || FalsyNumber(reply.data.value.status)) ==>
      NormalizeInitReply(reply) == EMPTY_INIT_RESULTS.(status := 403, message := InvalidReplyMessage(reply.data.Some?, reply.httpStatus))
    ensures reply.Delivered? && reply.data.Some? && !FalsyNumber(reply.data.value.status) ==>
      var d := reply.data.value;
      var r := NormalizeInitReply(reply);
      && Some(r.status) == d.status && r.status != 0
      && SuppliedOrNA(d.message, r.message)
      && SuppliedOrNA(d.userEmail, r.userEmail)
      && SuppliedOrNA(d.appId, r.appId)
      && SuppliedOrNA(d.planId, r.planId)
      && SuppliedOrNA(d.sysApiKey, r.sysAPIKey)
      && SuppliedOrNA(d.sysApiUrl, r.sysAPIUrl)
    ensures var r := NormalizeInitReply(reply);
      && (r.status == 403 || (reply.Rejected? && r.status == reply.status) || (reply.Delivered? && r.status != 0))
      && (reply.Delivered? ==> r.message != "" && r.userEmail != "" && r.sysAPIKey != "" && r.sysAPIUrl != "")
  {
  }

  /** `getSystemApiCredentials`: posts the one-time key and normalises the reply. */
  method GetSystemApiCredentials(net: Network, initParams: InitialSysAPIParams, reply: Reply<InitData>)
    returns (r: InitResults)
    modifies net
    ensures net.sent == old(net.sent) + [CredentialsPost(initParams)]
    ensures r == NormalizeInitReply(reply)
  {
    net.Send(CredentialsPost(initParams));
    r := NormalizeInitReply(reply);
  }

  /** What the plan-API call gives before validation: a result record, or a record to persist. */
  datatype PlanStep = NotPersisted(result: SysResults) | Persisted(record: SysResults)

  /** Every field of `rec` comes from `d`, with N/A and `[]` for what `d` lacks. */
  predicate NormalizedFrom(d: PlanData, rec: SysResults, renewedAt: string)
  {
    && Some(rec.status) == d.status
    && SuppliedOrNA(d.message, rec.message)
    && SuppliedOrNA(d.validationInfo, rec.validationInfo)
    && SuppliedOrNA(d.appId, rec.appId)
    && SuppliedOrNA(d.planId, rec.planId)
    && SuppliedOrNA(d.sysApiKey, rec.sysAPIKey)
    && SuppliedOrNA(d.userEmail, rec.userEmail)
    && SuppliedOrNA(d.userName, rec.userName)
    && SuppliedOrNA(d.sysApiUrl, rec.sysAPIUrl)
    && SuppliedOrNA(d.userCompany, rec.userCompany)
    && SuppliedOrNA(d.userCId, rec.userCId)
    && SuppliedOrNA(d.planName, rec.planName)
    && SuppliedOrNA(d.planStartTime, rec.planStartTime)
    && SuppliedOrNA(d.planEndTime, rec.planEndTime)
    && SuppliedOrNA(d.lang, rec.lang)
    && SuppliedOrNA(d.apiUrl, rec.apiUrl)
    && rec.APIs == (if d.APIs.Some? then d.APIs.value else [])
    && !rec.usingSavedParameters
    && rec.renewedAt == renewedAt
  }

  /** The normalisation of a plan-API reply; `renewedAt` is the clock reading. */
  function NormalizePlanReply(reply: Reply<PlanData>, renewedAt: string): PlanStep
  {
    match reply
    case Rejected(status, errorMessage, text) =>
      NotPersisted(EMPTY_SYS_RESULTS.(status := status, message := Or(errorMessage, text)))
    case Delivered(httpStatus, data) =>
      if data.None? || FalsyNumber(data.value.status) then
        NotPersisted(EMPTY_SYS_RESULTS.(status := 403, message := InvalidReplyMessage(data.Some?, httpStatus)))
      else
        var d := data.value;
        Persisted(SysResults(
          userEmail := Or(d.userEmail, NA),
          userName := Or(d.userName, NA),
          planId := Or(d.planId, NA),
          appId := Or(d.appId, NA),
          sysAPIUrl := Or(d.sysApiUrl, NA),
          sysAPIKey := Or(d.sysApiKey, NA),
          userCompany := Or(d.userCompany, NA),
          userCId := Or(d.userCId, NA),
          planName := Or(d.planName, NA),
          planStartTime := Or(d.planStartTime, NA),
          planEndTime := Or(d.planEndTime, NA),
          status := OrNumber(d.status, 0),
          message := Or(d.message, NA),
          validationInfo := Or(d.validationInfo, NA),
          lang := Or(d.lang, NA),
          apiUrl := Or(d.apiUrl, NA),
          APIs := if d.APIs.Some? then d.APIs.value else [],
          usingSavedParameters := false,
          renewedAt := renewedAt))
  }

  /**
   * Only a delivered reply with data and a truthy status yields a record to
   * persist; it keeps that status and takes every field from the reply, N/A
   * and `[]` standing in for what is missing. Anything else is 403 or the
   * rejection's status over the empty defaults.
   */
  lemma PlanReplyNormalization(reply: Reply<PlanData>, renewedAt: string)
    ensures var r := NormalizePlanReply(reply, renewedAt);
      && (r.Persisted? <==> reply.Delivered? && reply.data.Some? && !FalsyNumber(reply.data.value.status))
      && (reply.Rejected? ==>
            r.result == EMPTY_SYS_RESULTS.(status := reply.status, message := Or(reply.errorMessage, reply.text)))
      && (reply.Delivered? && r.NotPersisted? ==>
            r.result == EMPTY_SYS_RESULTS.(status := 403, message := InvalidReplyMessage(reply.data.Some?, reply.httpStatus)))
      && (r.Persisted? ==> r.record.status != 0 && NormalizedFrom(reply.data.value, r.record, renewedAt))
  {
  }

  // ---------------------------------------------------------------------------
  // API-catalog validation

  /** One of the three catalog names the application knows. */
  predicate Recognized(name: Option<string>)
  {
    || name == Some(GOOGLE_SEARCH_API_NAME_NORMAL)
    || name == Some(GOOGLE_SEARCH_API_NAME_NO_YELLOW)
    || name == Some(GOOGLE_SEARCH_API_NAME_YELLOW)
  }

  /** An entry the validator keeps: a recognised name, type "http" and a non-empty key. */
  predicate Kept(api: RawApi)
  {
    Recognized(api.apiName) && api.apiType == Some("http") && !Falsy(api.apiKey)
  }

  /** The stored form `{key, name}` of a kept entry. */
  function AsStored(api: RawApi): StoredApi
    requires Kept(api)
  {
    StoredApi(api.apiName.value, api.apiKey.value)
  }

  /** The kept entries of a platform API list, in their input order. */
  function Survivors(apis: seq<RawApi>): seq<StoredApi>
  {
    if apis == [] then []
    else
      var last := apis[|apis| - 1];
      Survivors(apis[..|apis| - 1]) + (if Kept(last) then [AsStored(last)] else [])
  }

  /** Filtering distributes over concatenation: entries are judged one by one and keep their order. */
  lemma {:induction false} SurvivorsConcat(a: seq<RawApi>, b: seq<RawApi>)
    ensures Survivors(a + b) == Survivors(a) + Survivors(b)
    decreases |b|
  {
    if b == [] {
      assert a + b == a;
    } else {
      var b' := b[..|b| - 1];
      assert (a + b)[..|a + b| - 1] == a + b';
      SurvivorsConcat(a, b');
    }
  }

  /** An entry is stored iff it is kept: a bad entry is skipped, never fatal. */
  lemma {:induction false} SurvivorsMembers(apis: seq<RawApi>, x: StoredApi)
    ensures x in Survivors(apis) <==> exists i :: 0 <= i < |apis| && Kept(apis[i]) && AsStored(apis[i]) == x
  {
    if apis != [] {
      var init := apis[..|apis| - 1];
      SurvivorsMembers(init, x);
      if exists i :: 0 <= i < |apis| && Kept(apis[i]) && AsStored(apis[i]) == x {
        var i :| 0 <= i < |apis| && Kept(apis[i]) && AsStored(apis[i]) == x;
        if i < |apis| - 1 { assert init[i] == apis[i]; }
      }
      if x in Survivors(init) {
        var i :| 0 <= i < |init| && Kept(init[i]) && AsStored(init[i]) == x;
        assert apis[i] == init[i];
      }
    }
  }

  /** No entry survives iff none is kept. */
  lemma {:induction false} SurvivorsEmpty(apis: seq<RawApi>)
    ensures Survivors(apis) == [] <==> forall i :: 0 <= i < |apis| ==> !Kept(apis[i])
  {
    if apis != [] {
      var init := apis[..|apis| - 1];
      SurvivorsEmpty(init);
      assert forall i :: 0 <= i < |init| ==> init[i] == apis[i];
    }
  }

  /** The invariant of a stored catalog: only recognised names, non-empty keys, email and URL. */
  predicate ValidCatalog(c: StoredCatalog)
  {
    && c.userEmail != ""
    && c.apiUrl != ""
    && |c.APIs| >= 1
    && forall x :: x in c.APIs ==> Recognized(Some(x.name)) && x.key != ""
  }

  /** The `APINames` and `selectedAPI` the validator hands to `setParams`. */
  datatype ApiSelection = ApiSelection(names: seq<string>, selected: Option<string>)

  /** What a validation pass decides: its status and message, the selection it sets (if it gets that far) and the catalog it writes (if any). */
  datatype Validation = Validation(status: int, message: string, selection: Option<ApiSelection>, written: Option<StoredCatalog>)

  /** The outcome of validating a session record. */
  function Validate(p: SysResults): Validation
  {
    var s := Survivors(p.APIs);
    if p.userEmail == "" then Validation(500, EMAIL_NOT_VALID, None, None)
    else if p.apiUrl == "" then Validation(500, API_URL_NOT_VALID, None, None)
    else if |p.APIs| < 1 then Validation(500, NO_PRODUCT_APIS, None, None)
    else
      var selection := ApiSelection(Names(s), if s == [] then None else Some(s[0].name));
      if s == [] then Validation(500, NO_RECOGNIZED_APIS, Some(selection), None)
      else Validation(200, "Ok", Some(selection), Some(StoredCatalog(p.userEmail, s, p.apiUrl)))
  }

  /**
   * The validator's contract: the checks stop at the first failure without a
   * selection or a write; otherwise the selection is the survivors' names
   * with the first survivor selected, and the catalog of the survivors is
   * written, with status 200, exactly when some entry survives.
   */
  lemma {:induction false} ValidateMeaning(p: SysResults)
    ensures var v := Validate(p);
      && (v.status == 200 || v.status == 500)
      && (v.written.Some? <==> v.status == 200)
      && (v.status == 200 <==>
            p.userEmail != "" && p.apiUrl != "" && exists i :: 0 <= i < |p.APIs| && Kept(p.APIs[i]))
      && (p.userEmail == "" ==> v == Validation(500, EMAIL_NOT_VALID, None, None))
      && (p.userEmail != "" && p.apiUrl == "" ==> v == Validation(500, API_URL_NOT_VALID, None, None))
      && (p.userEmail != "" && p.apiUrl != "" && p.APIs == [] ==> v == Validation(500, NO_PRODUCT_APIS, None, None))
      && (v.selection.None? <==> p.userEmail == "" || p.apiUrl == "" || p.APIs == [])
      && (v.selection.Some? && Survivors(p.APIs) == [] ==>
            v == Validation(500, NO_RECOGNIZED_APIS, Some(ApiSelection([], None)), None))
      && (v.selection.Some? && Survivors(p.APIs) != [] ==>
            v.selection.value == ApiSelection(Names(Survivors(p.APIs)), Some(Survivors(p.APIs)[0].name)))
      && (v.written.Some? ==>
            v.written.value == StoredCatalog(p.userEmail, Survivors(p.APIs), p.apiUrl) && ValidCatalog(v.written.value))
  {
    SurvivorsEmpty(p.APIs);
    var s := Survivors(p.APIs);
    forall x | x in s ensures Recognized(Some(x.name)) && x.key != "" {
      SurvivorsMembers(p.APIs, x);
    }
  }

  /** The parameters after a validation pass that started from `params`. */
  function ParamsAfterValidation(current: Params, params: Params, v: Validation): Params
  {
    if v.selection.Some? then
      params.(APINames := v.selection.value.names, selectedAPI := v.selection.value.selected)
    else current
  }

  /** The storage after a validation pass. */
  function ItemsAfterValidation(items: map<string, Stored>, v: Validation): map<string, Stored>
  {
    if v.written.Some? then items[GOOGLE_API_SETTINGS := CatalogRecord(v.written.value)] else items
  }

  /**
   * `validateAndStoreAPIParams`: checks the record, filters its API list,
   * hands the names to `setParams` and writes the catalog on success.
   */
  method ValidateAndStoreAPIParams(params: Params, state: AppState, store: LocalStorage, parameters: SysResults)
    returns (status: int, message: string)
    modifies state`params, store`items
    ensures var v := Validate(parameters);
      && status == v.status && message == v.message
      && state.params == ParamsAfterValidation(old(state.params), params, v)
      && store.items == ItemsAfterValidation(old(store.items), v)
  {
    if parameters.userEmail == "" {
      return 500, EMAIL_NOT_VALID;
    }
    var userEmail := parameters.userEmail;
    if parameters.apiUrl == "" {
      return 500, API_URL_NOT_VALID;
    }
    var apiUrl := parameters.apiUrl;
    if |parameters.APIs| < 1 {
      return 500, NO_PRODUCT_APIS;
    }

    var apis := parameters.APIs;
    var stored: seq<StoredApi> := [];
    var apiNames: seq<string> := [];
    var foundExpectedAPIs := 0;
    var selectedAPI: Option<string> := None;
    for i := 0 to |apis|
      invariant stored == Survivors(apis[..i])
      invariant apiNames == Names(stored)
      invariant foundExpectedAPIs == |stored|
      invariant selectedAPI == if foundExpectedAPIs == 0 then None else Some(stored[0].name)
    {
      var api := apis[i];
      assert apis[..i + 1][..i] == apis[..i];
      if Recognized(api.apiName) {
        // a `return` inside the forEach callback only skips this entry
        if api.apiType != Some("http") {
          continue;
        }
        if Falsy(api.apiKey) {
          continue;
        }
        if foundExpectedAPIs == 0 {
          selectedAPI := api.apiName;
        }
        foundExpectedAPIs := foundExpectedAPIs + 1;
        stored := stored + [StoredApi(api.apiName.value, api.apiKey.value)];
        apiNames := apiNames + [api.apiName.value];
      }
    }
    assert apis[..|apis|] == apis;

    state.params := params.(APINames := apiNames, selectedAPI := selectedAPI);

    if foundExpectedAPIs == 0 {
      return 500, NO_RECOGNIZED_APIS;
    }

    store.SetItem(GOOGLE_API_SETTINGS, CatalogRecord(StoredCatalog(userEmail, stored, apiUrl)));
    return 200, "Ok";
  }

  // ---------------------------------------------------------------------------
  // The plan-API call

  /** The record `getPlanAPIs` returns, given what its reply normalised to. */
  function PlanResult(step: PlanStep): SysResults
  {
    match step
    case NotPersisted(r) => r
    case Persisted(rec) =>
      var v := Validate(rec);
      if v.status != 200 then rec.(validationInfo := VALIDATION_WARNING + v.message) else rec
  }

  /** The storage after `getPlanAPIs`: the session record first, then whatever the validator writes. */
  function ItemsAfterPlan(items: map<string, Stored>, step: PlanStep): map<string, Stored>
  {
    match step
    case NotPersisted(_) => items
    case Persisted(rec) => ItemsAfterValidation(items[COMPLETE_APP_SETTINGS := Session(rec)], Validate(rec))
  }

  /** The parameters after `getPlanAPIs` called with `params`. */
  function ParamsAfterPlan(current: Params, params: Params, step: PlanStep): Params
  {
    match step
    case NotPersisted(_) => current
    case Persisted(rec) => ParamsAfterValidation(current, params, Validate(rec))
  }

  /**
   * `getPlanAPIs`: posts the durable credentials, persists the normalised
   * record, validates it, and only annotates `validationInfo` when validation fails.
   */
  method GetPlanAPIs(params: Params, state: AppState, store: LocalStorage, net: Network,
                     query: SysAPIParams, reply: Reply<PlanData>, renewedAt: string)
    returns (res: SysResults)
    modifies state`params, store`items, net
    ensures net.sent == old(net.sent) + [PlanPost(query)]
    ensures var step := NormalizePlanReply(reply, renewedAt);
      && res == PlanResult(step)
      && store.items == ItemsAfterPlan(old(store.items), step)
      && state.params == ParamsAfterPlan(old(state.params), params, step)
  {
    net.Send(PlanPost(query));
    var step := NormalizePlanReply(reply, renewedAt);
    if step.NotPersisted? {
      return step.result;
    }
    var sysAPIResponse := step.record;
    store.SetItem(COMPLETE_APP_SETTINGS, Session(sysAPIResponse));
    var status, message := ValidateAndStoreAPIParams(params, state, store, sysAPIResponse);
    if status != 200 {
      sysAPIResponse := sysAPIResponse.(validationInfo := VALIDATION_WARNING + message);
    }
    return sysAPIResponse;
  }

  /**
   * The record is persisted before it is validated: the stored session is the
   * normalised reply itself, without the validation warning, and a failed
   * validation changes nothing in the returned record but `validationInfo`.
   */
  lemma PersistedBeforeValidation(items: map<string, Stored>, reply: Reply<PlanData>, renewedAt: string)
    requires NormalizePlanReply(reply, renewedAt).Persisted?
    ensures var rec := NormalizePlanReply(reply, renewedAt).record;
      var res := PlanResult(NormalizePlanReply(reply, renewedAt));
      && ReadSession(ItemsAfterPlan(items, NormalizePlanReply(reply, renewedAt))) == Success(Some(rec))
      && res == rec.(validationInfo := res.validationInfo)
      && (Validate(rec).status != 200 ==> res.validationInfo == VALIDATION_WARNING + Validate(rec).message)
  {
  }

  /**
   * The email and URL checks of the validator never fire on a record coming
   * from `getPlanAPIs`: a missing or empty value has already become N/A there,
   * so a reply whose recognised APIs are valid is stored even without an email.
   */
  lemma {:induction false} NormalizedRecordPassesFieldChecks(reply: Reply<PlanData>, renewedAt: string)
    requires NormalizePlanReply(reply, renewedAt).Persisted?
    ensures var rec := NormalizePlanReply(reply, renewedAt).record;
      && rec.userEmail != "" && rec.apiUrl != ""
      && (Validate(rec).selection.Some? <==> rec.APIs != [])
      && (Validate(rec).status == 200 <==> exists i :: 0 <= i < |rec.APIs| && Kept(rec.APIs[i]))
      && (Falsy(reply.data.value.userEmail) ==> rec.userEmail == NA)
  {
    PlanReplyNormalization(reply, renewedAt);
    ValidateMeaning(NormalizePlanReply(reply, renewedAt).record);
  }

  /** The arguments of a renewal, read back from the stored session record. */
  function ReinitArgs(stored: Option<SysResults>): SysAPIParams
  {
    match stored
    case None => SysAPIParams(None, None, None, None, None)
    case Some(s) => SysAPIParams(Some(s.userEmail), Some(s.planId), Some(s.appId), Some(s.sysAPIUrl), Some(s.sysAPIKey))
  }

  /**
   * `renewParams`: recalls the plan API with the stored credentials; a stored
   * record that does not parse yields 403 and nothing else happens.
   */
  method RenewParams(state: AppState, store: LocalStorage, net: Network, reply: Reply<PlanData>, renewedAt: string)
    returns (res: SysResults)
    modifies state`params, store`items, net
    ensures ReadSession(old(store.items)).Failure? ==>
      && res == EMPTY_SYS_RESULTS.(status := 403, message := PRIOR_PARAMETERS_NOT_VALID)
      && net.sent == old(net.sent) && store.items == old(store.items) && state.params == old(state.params)
    ensures ReadSession(old(store.items)).Success? ==>
      var step := NormalizePlanReply(reply, renewedAt);
      && net.sent == old(net.sent) + [PlanPost(ReinitArgs(ReadSession(old(store.items)).value))]
      && res == PlanResult(step)
      && store.items == ItemsAfterPlan(old(store.items), step)
      && state.params == ParamsAfterPlan(old(state.params), old(state.params), step)
  {
    var storedParams := ReadSession(store.items);
    if storedParams.Failure? {
      return EMPTY_SYS_RESULTS.(status := 403, message := PRIOR_PARAMETERS_NOT_VALID);
    }
    var reinitArgs := ReinitArgs(storedParams.value);
    res := GetPlanAPIs(state.params, state, store, net, reinitArgs, reply, renewedAt);
  }

  /** `setError`: writes the error into the shared parameter object. */
  method SetError(state: AppState, newError: string)
    modifies state`params
    ensures state.params == old(state.params).(error := newError)
  {
    state.params := state.params.(error := newError);
  }

  // ---------------------------------------------------------------------------
  // Debug payload

  /** `JSON.parse(text)` wrapped so that a parse failure becomes the "invalid format" error. */
  function ParseWhole(text: string, parse: string -> Option<Json>): (r: Result<Json>)
    ensures r.Failure? <==> parse(text).None?
    ensures parse(text).Some? ==> r == Success(parse(text).value)
    ensures parse(text).None? ==>
      r.error == "Invalid API response format: \"" + text[..if |text| < 100 then |text| else 100] + "\"..."
  {
    match parse(text)
    case Some(v) => Success(v)
    case None =>
      Failure("Invalid API response format: \"" + text[..if |text| < 100 then |text| else 100] + "\"...")
  }

  /**
   * `removeDebugData`: an object passes through; a text is cut before the
   * first separator and the prefix parsed, falling back to the whole text.
   */
  function RemoveDebugData(body: Body, parse: string -> Option<Json>): (r: Result<Json>)
    ensures body.Structured? ==> r == Success(body.value)
    ensures body.Text? && !Contains(body.text, DEBUG_DATA_SEPARATOR) ==> r == ParseWhole(body.text, parse)
    ensures body.Text? && Contains(body.text, DEBUG_DATA_SEPARATOR) ==>
      var prefix := body.text[..IndexOf(body.text, DEBUG_DATA_SEPARATOR)];
      r == if parse(prefix).Some? then Success(parse(prefix).value) else ParseWhole(body.text, parse)
    ensures r.Failure? <==>
      && body.Text? && parse(body.text).None?
      && (!Contains(body.text, DEBUG_DATA_SEPARATOR)
          || parse(body.text[..IndexOf(body.text, DEBUG_DATA_SEPARATOR)]).None?)
  {
    match body
    case Structured(v) => Success(v)
    case Text(s) =>
      var i := IndexOf(s, DEBUG_DATA_SEPARATOR);
      if i > -1 && parse(s[..i]).Some? then Success(parse(s[..i]).value)
      else ParseWhole(s, parse)
  }

  /** `extractDebugData`: the parse of what follows the first separator, `{}` without one; `None` when the parse throws. */
  function ExtractDebugData(text: string, parse: string -> Option<Json>): (r: Option<Json>)
    ensures !Contains(text, DEBUG_DATA_SEPARATOR) ==> r == Some(EMPTY_OBJECT)
    ensures Contains(text, DEBUG_DATA_SEPARATOR) ==>
      r == parse(text[IndexOf(text, DEBUG_DATA_SEPARATOR) + |DEBUG_DATA_SEPARATOR|..])
  {
    var i := IndexOf(text, DEBUG_DATA_SEPARATOR);
    if i > -1 then parse(text[i + |DEBUG_DATA_SEPARATOR|..]) else Some(EMPTY_OBJECT)
  }

  /**
   * Appending a debug section to a payload and stripping it again is the same
   * as parsing the payload alone, and the section is what `extractDebugData`
   * recovers — provided the payload neither contains the separator nor ends
   * in a proper prefix of it (true of any JSON text without it).
   */
  lemma DebugDataRoundTrip(payload: string, debug: string, parse: string -> Option<Json>)
    requires !Contains(payload, DEBUG_DATA_SEPARATOR)
    requires forall k :: 0 < k < |DEBUG_DATA_SEPARATOR| ==> !EndsWith(payload, DEBUG_DATA_SEPARATOR[..k])
    requires parse(payload).Some?
    ensures RemoveDebugData(Text(payload + DEBUG_DATA_SEPARATOR + debug), parse) == Success(parse(payload).value)
    ensures RemoveDebugData(Text(payload), parse) == RemoveDebugData(Text(payload + DEBUG_DATA_SEPARATOR + debug), parse)
    ensures ExtractDebugData(payload + DEBUG_DATA_SEPARATOR + debug, parse) == parse(debug)
  {
    var s := payload + DEBUG_DATA_SEPARATOR + debug;
    IndexOfAfterPayload(payload, DEBUG_DATA_SEPARATOR, debug);
    assert s[..|payload|] == payload;
    assert s[|payload| + |DEBUG_DATA_SEPARATOR|..] == debug;
  }
}
