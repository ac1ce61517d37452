/**
 * The request client shared by the three frontend service files: each
 * `fetchData(endpoint)` GETs `BASE + "/" + endpoint`, throws when the response
 * is not OK, and rethrows every error (network failure, unreadable JSON).
 * The network itself is a parameter: a function from URL to the reply the
 * server gives, `None` when the request never completes.
 */
module Http {
  import opened Wrappers

  const Host := "http://localhost:5000"
  /** `BASE_URL` of the feature service file. */
  const FeatureBase := Host + "/api/features"
  /** `BASE_METRIC_URL` of the model and model-metrics service files. */
  const ApiBase := Host + "/api"

  /** What the server sends back: a status code and, when the body is valid JSON, its value. */
  datatype Reply<J> = Reply(status: int, json: Option<J>)

  type Network<!J> = string -> Option<Reply<J>>

  datatype FetchError = NetworkFailure | NotOk(status: int) | BadJson

  /** `response.ok`: a 2xx status. */
  predicate IsOk(status: int) {
    200 <= status <= 299
  }

  function Url(base: string, endpoint: string): string {
    base + "/" + endpoint
  }

  /** `fetchData(endpoint)` of any of the three service files, against base URL `base`. */
  function FetchData<J>(net: Network<J>, base: string, endpoint: string): (r: Result<J, FetchError>)
    ensures r.Ok? <==> net(Url(base, endpoint)).Some?
                       && IsOk(net(Url(base, endpoint)).value.status)
                       && net(Url(base, endpoint)).value.json.Some?
    ensures r.Ok? ==> r.value == net(Url(base, endpoint)).value.json.value
    ensures r == Err(NetworkFailure) <==> net(Url(base, endpoint)).None?
  {
    match net(Url(base, endpoint))
    case None => Err(NetworkFailure)
    case Some(reply) =>
      if !IsOk(reply.status) then Err(NotOk(reply.status))
      else if reply.json.None? then Err(BadJson)
      else Ok(reply.json.value)
  }

  /**
   * A raw `fetch(url, {method: 'POST'})` followed by `result.json()`, as the
   * retraining page issues it: no status check, so only a network failure or
   * an unreadable body is an error.
   */
  function PostJson<J>(net: Network<J>, url: string): (r: Result<J, FetchError>)
    ensures r.Ok? <==> net(url).Some? && net(url).value.json.Some?
    ensures r.Ok? ==> r.value == net(url).value.json.value
  {
    match net(url)
    case None => Err(NetworkFailure)
    case Some(reply) => if reply.json.None? then Err(BadJson) else Ok(reply.json.value)
  }

  /**
   * What a handler gets when it reads the fields it uses out of a parsed
   * reply: those fields, or the `TypeError` a property access on `null` or
   * `undefined` throws, which sends the handler to its `catch`.
   */
  datatype Access<T> = Fields(value: T) | Throws
}
