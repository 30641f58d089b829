/** BaseApiCaller: URL composition, outbound requests carrying the Bridge-Session header,
    and reading the session token back from a response. */
module ApiCalls {
  import opened Wrappers
  import opened Text
  import BridgeConfig
  import opened Provider

  const SessionHeader: string := "Bridge-Session"

  /** A header; Apache accepts a null value, which is what a null session token becomes. */
  datatype Header = Header(name: string, value: Option<string>)

  /** The index of the first header named name, ignoring case, as HeaderGroup looks it up. */
  function FirstIndex(headers: seq<Header>, name: string): (r: Option<nat>)
    ensures r.None? <==> forall j :: 0 <= j < |headers| ==> !EqualsIgnoreCase(headers[j].name, name)
    ensures r.Some? ==> (r.value < |headers| && EqualsIgnoreCase(headers[r.value].name, name) &&
      forall j :: 0 <= j < r.value ==> !EqualsIgnoreCase(headers[j].name, name))
  {
    if headers == [] then None
    else if EqualsIgnoreCase(headers[0].name, name) then Some(0)
    else match FirstIndex(headers[1..], name)
      case None => None
      case Some(i) => Some(i + 1)
  }

  /** HttpResponse.containsHeader. */
  predicate ContainsHeader(headers: seq<Header>, name: string): (r: bool)
    ensures r <==> exists j :: 0 <= j < |headers| && EqualsIgnoreCase(headers[j].name, name)
  {
    FirstIndex(headers, name).Some?
  }

  /** HttpResponse.getFirstHeader. */
  function FirstHeader(headers: seq<Header>, name: string): (r: Option<Header>)
    ensures r.Some? <==> ContainsHeader(headers, name)
    ensures r.Some? ==> r.value in headers && EqualsIgnoreCase(r.value.name, name)
    ensures r.Some? ==>
      (exists i :: 0 <= i < |headers| && r.value == headers[i] &&
        (forall j :: 0 <= j < i ==> !EqualsIgnoreCase(headers[j].name, name)))
  {
    match FirstIndex(headers, name)
    case None => None
    case Some(i) => Some(headers[i])
  }

  /** setHeader: the first header with the same name is replaced; with none, the header is appended. */
  function UpdateHeader(headers: seq<Header>, h: Header): (r: seq<Header>)
    ensures h in r && |headers| <= |r| <= |headers| + 1
  {
    match FirstIndex(headers, h.name)
    case None => headers + [h]
    case Some(i) => assert headers[i := h][i] == h; headers[i := h]
  }

  /** After setHeader(n, v) the first header named n is (n, v), and every header of any other name is where it was. */
  lemma UpdateHeaderThenFirst(headers: seq<Header>, h: Header)
    ensures FirstHeader(UpdateHeader(headers, h), h.name) == Some(h)
    ensures forall j :: 0 <= j < |headers| && !EqualsIgnoreCase(headers[j].name, h.name) ==>
      UpdateHeader(headers, h)[j] == headers[j]
    ensures |UpdateHeader(headers, h)| == if ContainsHeader(headers, h.name) then |headers| else |headers| + 1
    ensures forall j :: FirstIndex(headers, h.name).Some? && FirstIndex(headers, h.name).value < j < |headers| ==>
      UpdateHeader(headers, h)[j] == headers[j]
    ensures FirstIndex(UpdateHeader(headers, h), h.name) ==
      if ContainsHeader(headers, h.name) then FirstIndex(headers, h.name) else Some(|headers|)
  {
    var updated := UpdateHeader(headers, h);
    EqualsIgnoreCaseReflexive(h.name);
    match FirstIndex(headers, h.name)
    case None =>
      FirstMatchIs(updated, h.name, |headers|);
    case Some(i) =>
      FirstMatchIs(updated, h.name, i);
  }

  /** FirstIndex finds the one index that matches with no match before it. */
  lemma FirstMatchIs(headers: seq<Header>, name: string, i: nat)
    requires i < |headers| && EqualsIgnoreCase(headers[i].name, name)
    requires forall j :: 0 <= j < i ==> !EqualsIgnoreCase(headers[j].name, name)
    ensures FirstIndex(headers, name) == Some(i)
  {
    var r := FirstIndex(headers, name);
    assert r.Some?;
    assert !(r.value < i);
  }

  /** On a fresh request, setHeader adds the one header. */
  lemma UpdateHeaderOnNone(h: Header)
    ensures UpdateHeader([], h) == [h]
  {
  }

  datatype Verb = Get | Post

  /** A request body with its content type (mime type and charset). */
  datatype Body = Body(text: string, mimeType: string, charset: string)

  /** ContentType.APPLICATION_JSON. */
  const ApplicationJson: (string, string) := ("application/json", "UTF-8")

  /** A request as it is handed to the executor. */
  datatype RequestData = RequestData(verb: Verb, uri: string, headers: seq<Header>, body: Option<Body>)

  /** The fluent Request: built for one verb and URI, then decorated in place. */
  class Request {
    const verb: Verb
    const uri: string
    var headers: seq<Header>
    var body: Option<Body>

    constructor (verb: Verb, uri: string)
      ensures this.verb == verb && this.uri == uri && headers == [] && body == None
    {
      this.verb := verb;
      this.uri := uri;
      headers := [];
      body := None;
    }

    function Data(): RequestData
      reads this
    {
      RequestData(verb, uri, headers, body)
    }

    method SetHeader(name: string, value: Option<string>)
      modifies this
      ensures headers == UpdateHeader(old(headers), Header(name, value)) && body == old(body)
    {
      headers := UpdateHeader(headers, Header(name, value));
    }

    method BodyString(text: string, contentType: (string, string))
      modifies this
      ensures body == Some(Body(text, contentType.0, contentType.1)) && headers == old(headers)
    {
      body := Some(Body(text, contentType.0, contentType.1));
    }
  }

  datatype StatusLine = StatusLine(code: int, reason: string)

  /** The message behind a fluent Response. */
  datatype HttpResponse = HttpResponse(statusLine: StatusLine, headers: seq<Header>)

  /** A fluent Response; content is None when returnResponse() fails with an IOException. */
  datatype Response = Response(content: Option<HttpResponse>)

  /** What executing a request does: the network is not part of this model. */
  datatype ExecOutcome = Delivered(response: Response) | IoFailure | ProtocolFailure

  /** The shared Executor: records every request it is handed, in order. */
  class Executor {
    var sent: seq<RequestData>

    constructor ()
      ensures sent == []
    {
      sent := [];
    }

    method Execute(request: Request, outcome: ExecOutcome) returns (r: ExecOutcome)
      modifies this
      ensures sent == old(sent) + [request.Data()] && r == outcome
    {
      sent := sent + [request.Data()];
      r := outcome;
    }
  }

  datatype ApiError =
    | IllegalArgument(message: string)
    | ServerException(statusLine: Option<StatusLine>, url: string)  // BridgeServerException
    | AssertionFailure(message: string)

  /** The response a call hands back: null when execution threw. */
  function Received(outcome: ExecOutcome): (r: Option<Response>)
    ensures r.Some? <==> outcome.Delivered?
    ensures r.Some? ==> r.value == outcome.response
  {
    if outcome.Delivered? then Some(outcome.response) else None
  }

  function FullUrl(host: string, url: string): (r: string)
    ensures |r| == |host| + |url| && r[..|host|] == host && r[|host|..] == url
  {
    host + url
  }

  /** With a host that ends in "/" and a path that does not start with one, the two meet at exactly one "/". */
  lemma FullUrlSingleSeparator(host: string, url: string)
    requires EndsWith(host, "/") && !StartsWith(url, "/")
    ensures var r := FullUrl(host, url); r[|host| - 1] == '/' && (|url| > 0 ==> r[|host|] != '/')
  {
    if |url| > 0 {
      assert url[..1] == [url[0]];
    }
  }

  lemma FullUrlExample()
    ensures FullUrl("https://x.org/", "v1/profile") == "https://x.org/v1/profile"
  {
  }

  class BaseApiCaller {
    const provider: ClientProvider
    const exec: Executor

    constructor (provider: ClientProvider)
      ensures this.provider == provider && fresh(exec) && exec.sent == []
    {
      this.provider := provider;
      exec := new Executor();
    }

    function GetProvider(): (p: ClientProvider)
      ensures p == provider
    {
      provider
    }

    /** The provider's configuration has a host, as every constructed configuration has. */
    ghost predicate Valid()
      reads provider.config
    {
      BridgeConfig.AllPresent(provider.config.config)
    }

    function Host(): string
      reads provider.config
      requires Valid()
    {
      provider.config.Get(BridgeConfig.Host)
    }

    /** getFullUrl: the configured host followed by the path, nothing inserted or removed. */
    function GetFullUrl(url: string): (r: string)
      reads provider.config
      requires Valid()
      ensures r == FullUrl(Host(), url)
    {
      Host() + url
    }

    /** get: unauthenticated, so no Bridge-Session header. */
    method Get(url: string, outcome: ExecOutcome) returns (response: Option<Response>)
      requires Valid()
      modifies exec
      ensures exec.sent == old(exec.sent) + [RequestData(Verb.Get, GetFullUrl(url), [], None)]
      ensures response == Received(outcome)
    {
      var request := new Request(Verb.Get, GetFullUrl(url));
      var r := exec.Execute(request, outcome);
      response := if r.Delivered? then Some(r.response) else None;
    }

    method AuthorizedGet(url: string, outcome: ExecOutcome) returns (response: Option<Response>)
      requires Valid()
      modifies exec
      ensures exec.sent == old(exec.sent) +
        [RequestData(Verb.Get, GetFullUrl(url), [Header(SessionHeader, provider.sessionToken)], None)]
      ensures response == Received(outcome)
    {
      var request := new Request(Verb.Get, GetFullUrl(url));
      request.SetHeader(SessionHeader, provider.sessionToken);
      UpdateHeaderOnNone(Header(SessionHeader, provider.sessionToken));
      var r := exec.Execute(request, outcome);
      response := if r.Delivered? then Some(r.response) else None;
    }

    /** post(url): no body. */
    method Post(url: string, outcome: ExecOutcome) returns (response: Option<Response>)
      requires Valid()
      modifies exec
      ensures exec.sent == old(exec.sent) +
        [RequestData(Verb.Post, GetFullUrl(url), [Header(SessionHeader, provider.sessionToken)], None)]
      ensures response == Received(outcome)
    {
      var request := new Request(Verb.Post, GetFullUrl(url));
      request.SetHeader(SessionHeader, provider.sessionToken);
      UpdateHeaderOnNone(Header(SessionHeader, provider.sessionToken));
      var r := exec.Execute(request, outcome);
      response := if r.Delivered? then Some(r.response) else None;
    }

    /** post(url, json): the JSON text as an application/json body. */
    method PostJson(url: string, json: string, outcome: ExecOutcome) returns (response: Option<Response>)
      requires Valid()
      modifies exec
      ensures exec.sent == old(exec.sent) +
        [RequestData(Verb.Post, GetFullUrl(url), [Header(SessionHeader, provider.sessionToken)],
                     Some(Body(json, "application/json", "UTF-8")))]
      ensures response == Received(outcome)
    {
      var request := new Request(Verb.Post, GetFullUrl(url));
      request.BodyString(json, ApplicationJson);
      request.SetHeader(SessionHeader, provider.sessionToken);
      UpdateHeaderOnNone(Header(SessionHeader, provider.sessionToken));
      var r := exec.Execute(request, outcome);
      response := if r.Delivered? then Some(r.response) else None;
    }

    /** getSessionToken: a null response, a response that cannot be read, or the first Bridge-Session header. */
    function GetSessionToken(response: Option<Response>, url: string): (r: Result<Option<string>, ApiError>)
      reads provider.config
      requires Valid()
      ensures response.None? ==> r == Failure(IllegalArgument("HttpResponse object is null."))
      ensures response.Some? && response.value.content.None? ==> r == Failure(ServerException(None, GetFullUrl(url)))
      ensures response.Some? && response.value.content.Some? ==>
        var headers := response.value.content.value.headers;
        && (r.Success? <==> ContainsHeader(headers, SessionHeader))
        && (r.Success? ==> r.value == FirstHeader(headers, SessionHeader).value.value)
        && (r.Failure? ==> r.error == AssertionFailure("Session Token does not exist in this response."))
    {
      if response.None? then Failure(IllegalArgument("HttpResponse object is null."))
      else match response.value.content
        case None => Failure(ServerException(None, GetFullUrl(url)))
        case Some(hr) =>
          match FirstIndex(hr.headers, SessionHeader)
          case Some(i) => Success(hr.headers[i].value)
          case None => Failure(AssertionFailure("Session Token does not exist in this response."))
    }
  }

  /** A response whose Bridge-Session header was set to t yields t. */
  lemma SessionTokenRoundTrip(c: BaseApiCaller, status: StatusLine, headers: seq<Header>, t: Option<string>, url: string)
    requires c.Valid()
    ensures c.GetSessionToken(Some(Response(Some(HttpResponse(status, UpdateHeader(headers, Header(SessionHeader, t)))))), url)
      == Success(t)
  {
    UpdateHeaderThenFirst(headers, Header(SessionHeader, t));
  }
}
