/**
 * What one HTTP exchange with the appliance can come to, as the update and
 * control code sees it, and the exceptions that code can end in.
 */
module Http {

  import opened JsonValues

  /** The body of a response, as `await response.json()` finds it. */
  datatype Body =
    | Decoded(value: Json)   // an empty body decodes to JNull
    | WrongContentType       // not application/json: aiohttp's ContentTypeError
    | Malformed              // json.loads fails: a ValueError

  /** The outcome of one request on the session. */
  datatype Reply =
    | Answered(status: int, body: Body)
    | ClientFailure(err: ClientError)   // a transport-level aiohttp.ClientError
    | TimedOut                          // asyncio.TimeoutError from the 10 s limit

  /** The members of the aiohttp.ClientError family that the code meets. */
  datatype ClientError =
    | ConnectionFailed            // DNS failure, refused or reset connection
    | ResponseStatus(status: int) // ClientResponseError from raise_for_status
    | ContentType                 // ContentTypeError from response.json()

  /** What an UpdateFailed reports. */
  datatype Cause = ClientCause(err: ClientError) | StatusCause(status: int)

  /** The exceptions an update or a command can end in. */
  datatype Exc =
    | ConfigEntryAuthFailed
    | UpdateFailed(cause: Cause)
    | NameError
    | TimeoutError
    | ValueError
    | AttributeError
    | TypeError

  /** The value an update returns, or the exception it raises. */
  datatype Update<T> = Data(value: T) | Raised(exc: Exc)

  /**
   * The outcome of the body of a `try ... except aiohttp.ClientError` block:
   * it finished (returning or raising something the clause does not catch)
   * or a ClientError reached the except clause.
   */
  datatype Attempt<T> = Finished(outcome: Update<T>) | Caught(err: ClientError)

  /** `response.raise_for_status()` raises for every status from 400 up. */
  predicate IsErrorStatus(status: int) {
    status >= 400
  }

  /**
   * `data = await response.json()` followed by a `data.get(...)`: the body
   * must decode, and only a JSON object has a `get` method.
   */
  function ReadObject(body: Body): (a: Attempt<map<string, Json>>)
    ensures a.Finished? && a.outcome.Data? <==> body.Decoded? && body.value.JObject?
    ensures a.Finished? && a.outcome.Data? ==> a.outcome.value == body.value.fields
    ensures a.Caught? <==> body.WrongContentType?
    ensures a.Caught? ==> a.err == ContentType
    ensures body.Malformed? ==> a == Finished(Raised(ValueError))
    ensures body.Decoded? && !body.value.JObject? ==> a == Finished(Raised(AttributeError))
  {
    match body
    case WrongContentType => Caught(ContentType)
    case Malformed => Finished(Raised(ValueError))
    case Decoded(JObject(fields)) => Finished(Data(fields))
    case Decoded(_) => Finished(Raised(AttributeError))
  }
}
