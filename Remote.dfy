/**
 * The remote services as the client sees them: the replies it may receive
 * (inputs of the model) and the requests it sends (recorded, in order, by a
 * `Network` object).
 */
module Remote {
  import opened Js
  import opened Records

  /** The `data` object of a credential-exchange reply; every field may be missing. */
  datatype InitData = InitData(
    status: Option<int>,
    message: Option<string>,
    userEmail: Option<string>,
    appId: Option<string>,
    planId: Option<string>,
    sysApiKey: Option<string>,
    sysApiUrl: Option<string>)

  /** The `data` object of a plan-API reply; every field may be missing. */
  datatype PlanData = PlanData(
    status: Option<int>,
    message: Option<string>,
    validationInfo: Option<string>,
    appId: Option<string>,
    planId: Option<string>,
    sysApiKey: Option<string>,
    userEmail: Option<string>,
    userName: Option<string>,
    sysApiUrl: Option<string>,
    userCompany: Option<string>,
    userCId: Option<string>,
    planName: Option<string>,
    planStartTime: Option<string>,
    planEndTime: Option<string>,
    lang: Option<string>,
    apiUrl: Option<string>,
    APIs: Option<seq<RawApi>>)

  /**
   * The outcome of a platform POST: a delivered response, whose nested
   * `data.data` may be missing, or a rejection carrying the response status,
   * the response's `data.error` and the error's text form.
   */
  datatype Reply<D> =
    | Delivered(httpStatus: int, data: Option<D>)
    | Rejected(status: int, errorMessage: Option<string>, text: string)

  /** A search response body: already an object, or text that still needs parsing. */
  datatype Body = Structured(value: Json) | Text(text: string)

  /**
   * The outcome of the search GET: a delivered body, or a failure carrying the
   * response's `data.error`, its (decoded) `statusText` and the error's text form.
   */
  datatype SearchReply =
    | Answered(body: Body)
    | Refused(dataError: Option<string>, statusText: Option<string>, text: string)

  /**
   * A request the client sends: the credential exchange (posted to
   * `sysAPIUrl` with the other four values as body), the plan-API call (posted
   * to `sysAPIUrl` with the other four, a missing one left out of the body),
   * and the search.
   */
  datatype Request =
    | CredentialsPost(init: InitialSysAPIParams)
    | PlanPost(args: SysAPIParams)
    | SearchGet(apiUrl: Option<string>, query: string, start: int, num: int, headers: map<string, string>)

  /** The network, as the log of the requests sent through it. */
  class Network {
    var sent: seq<Request>

    constructor()
      ensures sent == []
    {
      sent := [];
    }

    method Send(r: Request)
      modifies this
      ensures sent == old(sent) + [r]
    {
      sent := sent + [r];
    }
  }
}
