/** One request to a VPP service and the classification of its response:
    `Client#request` and `Client#raise_if_unsuccessful`. */
module Protocol {
  import opened Json

  /** A request as it goes on the wire: the service's URL (nil when the
      service is unknown) and the JSON body. */
  datatype Request = Request(url: Value, body: Body)

  /** A completed HTTP response: whether the transport reported success,
      the decoded JSON body, and the HTTP headers keyed by lower-cased name. */
  datatype RawResponse = RawResponse(success: bool, body: Body, headers: map<string, string>)

  /** The failures the client raises. */
  datatype Error =
    | ApiError(number: Value, message: Value)   // "Error <errorNumber>: <errorMessage>"
    | MissingKey(key: string)                   // `fetch` of an absent key raises KeyError
    | BadBatchCount(totalBatchCount: Value)     // `nil - 1` and the like raise NoMethodError
    | BadClientContext(context: Value)          // a context that is not a JSON object
    | ContextMismatch(hostname: Value, guid: Value)

  datatype Outcome = Pass | Fail(error: Error)

  datatype Result<+T> = Success(value: T) | Failure(error: Error)

  /** The success sentinel of the `status` field. */
  const StatusOk := 0

  /** The session-token parameter attached to every request. */
  const TokenKey := "sToken"

  /** `params.merge(sToken: @stoken)`: the caller's parameters with the
      session token added, overriding any `sToken` the caller passed. */
  function RequestBody(params: Body, stoken: string): (b: Body)
    ensures b.Keys == params.Keys + {TokenKey}
    ensures b[TokenKey] == Str(stoken)
    ensures forall k :: k in params && k != TokenKey ==> b[k] == params[k]
  {
    params[TokenKey := Str(stoken)]
  }

  /** `response.success? && response.body[:status] == 0`. */
  predicate IsSuccessful(r: RawResponse)
  {
    r.success && Get(r.body, "status") == Num(StatusOk)
  }

  /** The error raised for an unsuccessful response. The message is built by
      fetching `errorNumber` and then `errorMessage`; a missing one raises
      KeyError for that key instead. */
  function ErrorOf(r: RawResponse): (e: Error)
    ensures "errorNumber" !in r.body ==> e == MissingKey("errorNumber")
    ensures "errorNumber" in r.body && "errorMessage" !in r.body ==> e == MissingKey("errorMessage")
    ensures "errorNumber" in r.body && "errorMessage" in r.body ==>
              e == ApiError(r.body["errorNumber"], r.body["errorMessage"])
  {
    match FetchKey(r.body, "errorNumber")
    case None => MissingKey("errorNumber")
    case Some(number) =>
      match FetchKey(r.body, "errorMessage")
      case None => MissingKey("errorMessage")
      case Some(message) => ApiError(number, message)
  }

  /** `raise_if_unsuccessful`: passes exactly the successful responses. */
  function CheckSuccess(r: RawResponse): (o: Outcome)
    ensures o.Pass? <==> r.success && Get(r.body, "status") == Num(0)
    ensures o.Fail? ==> o.error == ErrorOf(r)
    ensures o.Fail? ==> (o.error.ApiError? <==> "errorNumber" in r.body && "errorMessage" in r.body)
  {
    if IsSuccessful(r) then Pass else Fail(ErrorOf(r))
  }

  /** `request(service, **params)` without `in_parallel`: validate, then
      return the body. */
  function Immediate(r: RawResponse): (res: Result<Body>)
    ensures res.Success? <==> IsSuccessful(r)
    ensures res.Success? ==> res.value == r.body
    ensures res.Failure? ==> res.error == ErrorOf(r)
  {
    match CheckSuccess(r)
    case Pass => Success(r.body)
    case Fail(e) => Failure(e)
  }
}
