/**
 * The state hooks of the App component. A React setter is modelled as an
 * immediate assignment to the corresponding field.
 */
module UiState {
  import opened Js
  import opened Records

  /** The values of all the hooks at one moment. */
  datatype Snapshot = Snapshot(
    queryParams: InitialSysAPIParams,
    params: Params,
    showError: bool,
    showQuery: bool,
    initResponse: InitResults,
    sysResponse: SysResults,
    searchResults: Json)

  class AppState {
    var queryParams: InitialSysAPIParams
    var params: Params
    var showError: bool
    var showQuery: bool
    var initResponse: InitResults
    var sysResponse: SysResults
    var searchResults: Json

    /** The initial values of the hooks, given the captured query parameters. */
    constructor(queryParams: InitialSysAPIParams)
      ensures this.queryParams == queryParams
      ensures params == INITIAL_PARAMS
      ensures showError && !showQuery
      ensures initResponse == EMPTY_INIT_RESULTS && sysResponse == EMPTY_SYS_RESULTS
      ensures searchResults == EMPTY_OBJECT
    {
      this.queryParams := queryParams;
      params := INITIAL_PARAMS;
      showError := true;
      showQuery := false;
      initResponse := EMPTY_INIT_RESULTS;
      sysResponse := EMPTY_SYS_RESULTS;
      searchResults := EMPTY_OBJECT;
    }

    /** The current values of the hooks. */
    function Current(): Snapshot
      reads this
    {
      Snapshot(queryParams, params, showError, showQuery, initResponse, sysResponse, searchResults)
    }
  }
}
