/** The client configuration and the authenticated request executor (request.go, client.go). */
module Request {
  import opened Wrappers
  import opened Errors

  /** The fields of `Client` the core reads. The `*http.Client` is the transport oracle below. */
  datatype Client = Client(apiKey: string, baseURL: string)

  datatype Response<B> = Response(statusCode: int, body: B)

  /** What `http.Client.Do` gave back for one request: a response, or a transport error
      (network, timeout, or the request context's cancellation). */
  datatype Exchange<B> = Delivered(response: Response<B>) | TransportError(err: Error)

  /** The classified outcome of `MakeRequest`, as a tagged result. */
  datatype Outcome<B> =
    | Failed(err: Error)
    | Unauthorized(response: Response<B>)
    | Passed(response: Response<B>)
  {
    /** The first Go result: the response, nil on a transport error. */
    function Resp(): Option<Response<B>> {
      if Failed? then None else Some(response)
    }

    /** The second Go result: the error, nil when the response passes. */
    function Err(): Option<Error> {
      match this
      case Failed(e) => Some(e)
      case Unauthorized(_) => Some(NotAuthorized)
      case Passed(_) => None
    }
  }

  const StatusOK := 200
  const StatusBadRequest := 400
  const StatusUnauthorized := 401
  const StatusNotFound := 404

  /** How `MakeRequest` classifies what the transport gave back. */
  function Classify<B>(x: Exchange<B>): (r: Outcome<B>)
    ensures x.TransportError? ==> r.Resp() == None && r.Err() == Some(x.err)
    ensures x.Delivered? ==> r.Resp() == Some(x.response)
    ensures x.Delivered? ==> (r.Err() == Some(NotAuthorized) <==> x.response.statusCode == StatusUnauthorized)
    ensures x.Delivered? ==> (r.Err() == None <==> x.response.statusCode != StatusUnauthorized)
  {
    match x
    case TransportError(e) => Failed(e)
    case Delivered(resp) =>
      if resp.statusCode == StatusUnauthorized then Unauthorized(resp) else Passed(resp)
  }

  /** The `*url.Error` that `http.Client.Do` returns for a failed request: its text is
      `<Op> "<URL>": <cause>`, and `errors.Is` looks through it to the cause. A request whose
      context is done while it is in flight fails with one whose cause is `ctx.Err()`. */
  function UrlError(op: string, url: string, cause: Error): (e: Error)
    ensures Text(e) == op + " \"" + url + "\": " + Text(cause)
    ensures forall target :: Is(cause, target) ==> Is(e, target)
  {
    Wrapped(op + " \"" + url + "\": ", cause)
  }

  /** `http.Header`: each key holds a list of values. */
  type Header = map<string, seq<string>>

  /** `Header.Add(key, value)`: appends `value` to the values of `key`, touching no other key. */
  function HeaderAdd(h: Header, key: string, value: string): (r: Header)
    ensures r.Keys == h.Keys + {key}
    ensures r[key] == (if key in h then h[key] else []) + [value]
    ensures forall k :: k in h && k != key ==> r[k] == h[k]
  {
    h[key := (if key in h then h[key] else []) + [value]]
  }

  const AuthorizationKey := "Authorization"
  const BearerPrefix := "Bearer "

  function BearerToken(apiKey: string): string {
    BearerPrefix + apiKey
  }

  /** The API key can be recovered from the header value it produces. */
  lemma BearerTokenCarriesKey(apiKey: string)
    ensures BearerToken(apiKey)[..|BearerPrefix|] == BearerPrefix
    ensures BearerToken(apiKey)[|BearerPrefix|..] == apiKey
  {
  }

  /** An outgoing request; only its header is changed after creation. */
  class HttpRequest {
    const verb: string
    const url: string
    var header: Header

    constructor (verb: string, url: string)
      ensures this.verb == verb && this.url == url && header == map[]
    {
      this.verb := verb;
      this.url := url;
      header := map[];
    }
  }

  /** Adds the bearer header to `req`, then classifies what the transport returned. */
  method MakeRequest<B>(c: Client, req: HttpRequest, x: Exchange<B>)
    returns (resp: Option<Response<B>>, err: Option<Error>)
    modifies req
    ensures req.header == HeaderAdd(old(req.header), AuthorizationKey, BearerToken(c.apiKey))
    ensures resp == Classify(x).Resp() && err == Classify(x).Err()
  {
    req.header := HeaderAdd(req.header, AuthorizationKey, BearerToken(c.apiKey));
    match x {
      case TransportError(e) =>
        return None, Some(e);
      case Delivered(r) =>
        if r.statusCode == StatusUnauthorized {
          return Some(r), Some(NotAuthorized);
        }
        return Some(r), None;
    }
  }

  /** After `MakeRequest` the last Authorization value is the bearer token of the client's key,
      and every other header is as it was. */
  lemma MakeRequestAuthorizes(c: Client, h: Header)
    ensures var r := HeaderAdd(h, AuthorizationKey, BearerToken(c.apiKey));
      AuthorizationKey in r && |r[AuthorizationKey]| > 0
      && r[AuthorizationKey][|r[AuthorizationKey]| - 1] == "Bearer " + c.apiKey
      && (forall k :: k in h && k != AuthorizationKey ==> k in r && r[k] == h[k])
  {
  }
}
