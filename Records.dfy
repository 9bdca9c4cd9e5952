/**
 * The record shapes the client exchanges with the platform and keeps in its
 * state, with their empty defaults.
 */
module Records {
  import opened Js
  import opened Constants

  /** The five values the platform passes in the URL query at start-up. */
  datatype InitialSysAPIParams = InitialSysAPIParams(
    userEmail: string,
    planId: string,
    appId: string,
    sysAPIUrl: string,
    initialAPIKey: string)

  /**
   * The arguments of the plan-API call. Its fields are possibly undefined,
   * because on renewal they are read back from a record that may be `{}`.
   */
  datatype SysAPIParams = SysAPIParams(
    userEmail: Option<string>,
    planId: Option<string>,
    appId: Option<string>,
    sysAPIUrl: Option<string>,
    sysAPIKey: Option<string>)

  /** Result of the credential exchange; status 200-299 ok, 400+ error, 0 not attempted. */
  datatype InitResults = InitResults(
    status: int,
    message: string,
    planId: string,
    appId: string,
    userEmail: string,
    sysAPIKey: string,
    sysAPIUrl: string)

  const EMPTY_INIT_RESULTS := InitResults(0, NA, NA, NA, NA, NA, NA)

  /** One entry of the platform's API list, with the platform's own field names. */
  datatype RawApi = RawApi(apiName: Option<string>, apiKey: Option<string>, apiType: Option<string>)

  /** The session record returned by the plan-API call. */
  datatype SysResults = SysResults(
    userEmail: string,
    userName: string,
    planId: string,
    appId: string,
    sysAPIUrl: string,
    sysAPIKey: string,
    userCompany: string,
    userCId: string,
    planName: string,
    planStartTime: string,
    planEndTime: string,
    status: int,
    message: string,
    validationInfo: string,
    lang: string,
    apiUrl: string,
    APIs: seq<RawApi>,
    usingSavedParameters: bool,
    renewedAt: string)

  const EMPTY_SYS_RESULTS :=
    SysResults(NA, NA, NA, NA, NA, NA, NA, NA, NA, NA, NA, 0, NA, NA, NA, NA, [], false, NA)

  /** One recognised API as it is kept in the stored catalog. */
  datatype StoredApi = StoredApi(name: string, key: string)

  /** The validated catalog the search reads its credentials from. */
  datatype StoredCatalog = StoredCatalog(userEmail: string, APIs: seq<StoredApi>, apiUrl: string)

  /** The names of a list of stored APIs, in order. */
  function Names(apis: seq<StoredApi>): (names: seq<string>)
    ensures |names| == |apis|
    ensures forall i :: 0 <= i < |apis| ==> names[i] == apis[i].name
  {
    if apis == [] then [] else Names(apis[..|apis| - 1]) + [apis[|apis| - 1].name]
  }

  /** The search parameters of the application state. */
  datatype Params = Params(
    key: string,
    error: string,
    selectedAPI: Option<string>,
    APINames: seq<string>,
    searchPhrase: string,
    start: int,
    num: int)

  const INITIAL_PARAMS := Params("", "", Some(""), [], "", 0, 0)
}
