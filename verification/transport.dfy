/** The client factory and `requestP`: the module-level configuration that every
    factory call overwrites, the normalisation of the base URL, the request
    descriptor built from a call, and the classification of the transport's
    answer. The HTTP transport itself is a parameter: a function from request
    descriptor to response. */
module Transport {
  import opened JsValues
  import opened Paths
  import opened Generators

  type Headers = map<string, string>

  /** The options handed to the HTTP client: method, absolute URI, headers and,
      only when the data argument is truthy, a body. */
  datatype Request = Request(verb: Verb, uri: string, headers: Headers, body: Option<Value>)

  /** What the transport reports: an error before any response, or a status and a
      body. `Failed` stands for a callback whose error argument is truthy; a
      callback with a falsy error and a response is `Received`. */
  datatype Response = Failed(err: Value) | Received(statusCode: int, body: Value)

  /** How the promise of `requestP` settles. */
  datatype Outcome =
    | Resolve(body: Value)
    | RejectStatus(statusCode: int, err: Value)
    | RejectTransport(err: Value)

  predicate EndsInSlash(u: string) {
    |u| > 0 && u[|u| - 1] == '/'
  }

  /** The factory's normalisation: the base URL, with a `/` appended unless its
      last character already is one. The result is the shortest extension of
      the input that ends in `/`. */
  function NormalizeBaseUrl(baseUrl: string): (r: string)
    ensures EndsInSlash(r)
    ensures baseUrl <= r && |r| <= |baseUrl| + 1
    ensures EndsInSlash(baseUrl) ==> r == baseUrl
  {
    if EndsInSlash(baseUrl) then baseUrl else baseUrl + "/"
  }

  /** Normalising twice is normalising once. */
  lemma NormalizeIdempotent(baseUrl: string)
    ensures NormalizeBaseUrl(NormalizeBaseUrl(baseUrl)) == NormalizeBaseUrl(baseUrl)
  {
  }

  /** A base URL with or without its trailing slash normalises to the same URL,
      and a URL already ending in `/` is left as it is. */
  lemma NormalizeSlashInsensitive(baseUrl: string)
    ensures NormalizeBaseUrl(baseUrl + "/") == NormalizeBaseUrl(baseUrl) <==> !EndsInSlash(baseUrl)
    ensures EndsInSlash(baseUrl) ==> NormalizeBaseUrl(baseUrl) == baseUrl
  {
    if EndsInSlash(baseUrl) {
      assert |NormalizeBaseUrl(baseUrl + "/")| == |baseUrl| + 1;
    }
  }

  /** The request options `requestP(verb, uri, data)` builds under a given configuration. */
  function Descriptor(baseUrl: string, headers: Headers, call: Call): Request
  {
    Request(call.verb, baseUrl + call.uri, headers,
            if Truthy(call.data) then Some(call.data) else None)
  }

  /** The absolute URI is the base URL followed by the path, and the body is
      the data argument, attached exactly when that argument is truthy. */
  lemma DescriptorShape(baseUrl: string, headers: Headers, call: Call)
    ensures var req := Descriptor(baseUrl, headers, call);
      && req.verb == call.verb && req.headers == headers
      && |req.uri| == |baseUrl| + |call.uri|
      && req.uri[..|baseUrl|] == baseUrl && req.uri[|baseUrl|..] == call.uri
      && (req.body.Some? <==> Truthy(call.data))
      && (req.body.Some? ==> req.body.value == call.data)
  {
  }

  /** The settlement of `requestP`: a transport error rejects with that error,
      a status in 200..299 resolves with the body, any other status rejects with
      the status and the body. */
  function Classify(response: Response): (o: Outcome)
    ensures response.Failed? ==> o == RejectTransport(response.err)
    ensures response.Received? ==> (o.Resolve? <==> 200 <= response.statusCode <= 299)
    ensures response.Received? && o.Resolve? ==> o.body == response.body
    ensures response.Received? && !o.Resolve? ==>
      o == RejectStatus(response.statusCode, response.body)
  {
    match response
    case Failed(err) => RejectTransport(err)
    case Received(statusCode, body) =>
      if 200 <= statusCode && statusCode <= 299 then Resolve(body)
      else RejectStatus(statusCode, body)
  }

  /** The module-level `config` object: one per program, overwritten by every
      call of the factory and read by every request when it is sent. */
  class Config {
    var baseUrl: string
    var headers: Headers

    /** The object as the module creates it, before any factory call. */
    constructor ()
      ensures baseUrl == "" && headers == map[]
    {
      baseUrl := "";
      headers := map[];
    }

    /** The factory's writes: the normalised base URL and the headers. */
    method Configure(baseUrl: string, headers: Headers)
      modifies this
      ensures this.baseUrl == NormalizeBaseUrl(baseUrl)
      ensures this.headers == headers
    {
      var last := if baseUrl == "" then "" else baseUrl[|baseUrl| - 1..];  // baseUrl.slice(-1)
      this.baseUrl := if last == "/" then baseUrl else baseUrl + "/";
      this.headers := headers;
    }

    /** The option-building step of `requestP`: method, absolute URI and
        headers, then a body only when the data argument is truthy. */
    method RequestOptions(call: Call) returns (req: Request)
      ensures req.verb == call.verb && req.headers == headers
      ensures req.uri == baseUrl + call.uri
      ensures req.body.Some? <==> Truthy(call.data)
      ensures req.body.Some? ==> req.body.value == call.data
      ensures req == Descriptor(baseUrl, headers, call)
    {
      req := Request(call.verb, baseUrl + call.uri, headers, None);
      if Truthy(call.data) {
        req := req.(body := Some(call.data));
      }
    }

    /** `requestP`: build the options from the current configuration, hand
        them to the transport, and settle on what it answers. */
    method RequestP(call: Call, send: Request -> Response) returns (o: Outcome)
      ensures o == Classify(send(Descriptor(baseUrl, headers, call)))
    {
      var req := RequestOptions(call);
      var response := send(req);
      o := Classify(response);
    }
  }

  /** The factory `brckt(baseUrl, headers)`: overwrite the shared configuration
      and return the surface, whose functions read that configuration when they
      send. */
  method Brckt(config: Config, baseUrl: string, headers: Headers) returns (client: Client)
    modifies config
    ensures config.baseUrl == NormalizeBaseUrl(baseUrl) && config.headers == headers
    ensures client == Surface()
  {
    config.Configure(baseUrl, headers);
    client := Surface();
  }

  /** The configuration is shared: after a second factory call, a function
      taken from the first client sends to the second base URL with the second
      headers. */
  method SecondFactoryRetargetsFirstClient(
    config: Config, url1: string, headers1: Headers, url2: string, headers2: Headers,
    args: seq<Value>, send: Request -> Response)
    returns (o: Outcome)
    modifies config
    ensures config.baseUrl == NormalizeBaseUrl(url2) && config.headers == headers2
    ensures o == Classify(send(Request(Get, NormalizeBaseUrl(url2) + ResourceIdPath(args), headers2, None)))
  {
    var first := Brckt(config, url1, headers1);
    var second := Brckt(config, url2, headers2);
    o := config.RequestP(first.getObject(args), send);
  }
}
