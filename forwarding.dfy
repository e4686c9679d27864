/**
 * `forward_webhook`: how one delivery to one target is prepared (the target's
 * own Host header first, then every inbound header except the inbound Host)
 * and how the target's answer is classified. Sending the request is network
 * I/O: the answer it produced is a parameter.
 */
module Forwarding {
  import opened Wrappers
  import opened Text
  import opened Urls
  import opened Seqs
  import opened Registry

  /** One HTTP header, name and value. */
  datatype Header = Header(name: string, value: string)

  /**
   * `WebhookEvent`: the inbound payload value (its serialised form is not
   * modelled) and the inbound headers in the iteration order of the source's
   * `HashMap`.
   */
  datatype WebhookEvent = WebhookEvent(payload: string, headers: seq<Header>)

  /** The request `forward_webhook` sends with `POST`. */
  datatype OutboundRequest = OutboundRequest(url: string, body: string, headers: seq<Header>)

  /** Why a delivery did not succeed. */
  datatype DeliveryError =
    | UrlParseFailed(detail: string)             // "Failed to parse URL: ..."
    | NoHost                                     // "URL has no host"
    | SendFailed(detail: string)                 // "Failed to send request: ..."
    | ErrorStatus(status: StatusCode, body: string)  // "Endpoint returned error status ..."

  /** An HTTP status code as `reqwest::StatusCode` admits it. */
  type StatusCode = s: int | 100 <= s < 1000 witness 200

  /** What came back from sending the request: a transport error or a response. */
  datatype Reply =
    | TransportError(detail: string)
    | Response(status: StatusCode, body: Option<string>)  // `None`: the body could not be read

  const UNREADABLE_BODY := "Unable to read error response"

  /**
   * `header_name.to_lowercase() == "host"`: the header names skipped when the
   * inbound headers are copied are the sixteen spellings of "host" in any case.
   */
  predicate IsHostName(name: string)
    ensures IsHostName(name) <==>
      |name| == 4 && name[0] in "Hh" && name[1] in "Oo" && name[2] in "Ss" && name[3] in "Tt"
  {
    var lower := Lower(name);
    assert |name| == 4 ==>
      (lower[0] == LowerChar(name[0]) && lower[1] == LowerChar(name[1])
       && lower[2] == LowerChar(name[2]) && lower[3] == LowerChar(name[3]));
    lower == "host"
  }

  /** The inbound headers that are copied onto the outbound request. */
  predicate Forwardable(h: Header) {
    !IsHostName(h.name)
  }

  /**
   * The value of the outbound Host header: the host, followed, when the URL
   * names a port, by ':' and the port in decimal.
   */
  function HostHeader(host: string, port: Option<Port>): (r: string)
    ensures |r| >= |host| && r[..|host|] == host
    ensures port.None? <==> |r| == |host|
    ensures port.Some? ==>
      && r[|host|] == ':'
      && AllDigits(r[|host| + 1..])
      && DigitsValue(r[|host| + 1..]) == port.value
      && (|r| > |host| + 2 ==> r[|host| + 1] != '0')
  {
    if port.Some? then
      var d := Decimal(port.value);
      DecimalRoundTrip(port.value);
      var r := host + ":" + d;
      assert r[|host| + 1..] == d;
      r
    else host
  }

  /**
   * Reading a Host header value back: when it ends in ':' and a non-empty run
   * of digits, those digits are the port and what precedes the colon the host.
   */
  function ParseHostHeader(s: string): (string, Option<nat>) {
    match LastColon(s)
    case Some(i) =>
      if i + 1 < |s| && AllDigits(s[i + 1..]) then (s[..i], Some(DigitsValue(s[i + 1..]))) else (s, None)
    case None => (s, None)
  }

  /** The Host header value determines the URL's host and port: reading it back gives both. */
  lemma HostHeaderRoundTrip(host: string, port: Option<Port>)
    requires WellFormedHost(host)
    ensures ParseHostHeader(HostHeader(host, port)).0 == host
    ensures ParseHostHeader(HostHeader(host, port)).1 == if port.Some? then Some(port.value as nat) else None
  {
    var s := HostHeader(host, port);
    if port.Some? {
      var d := Decimal(port.value);
      ColonBeforeDigits(host, d);
      LastColonAt(s, |host|);
      assert s[|host| + 1..] == d;
      assert s[..|host|] == host;
      DecimalRoundTrip(port.value);
    } else if ':' in host {
      var i := LastColon(s).value;
      assert !IsDigit(s[|s| - 1]);
      assert s[|s| - 1] == s[i + 1..][|s| - 1 - (i + 1)];
    }
  }

  /** The inbound headers copied onto the outbound request, in the inbound order. */
  function ForwardedHeaders(inbound: seq<Header>): (r: seq<Header>)
    ensures forall i | 0 <= i < |r| :: r[i] in inbound && !IsHostName(r[i].name)
    ensures forall i | 0 <= i < |inbound| && !IsHostName(inbound[i].name) :: inbound[i] in r
  {
    Filter(inbound, Forwardable)
  }

  /**
   * Lines 147-172 of `forward_webhook` as a function: parse the target URL,
   * derive the Host header from its host and port, then add the inbound headers
   * that are not a Host header.
   */
  function PrepareRequest(target: Endpoint, event: WebhookEvent, parse: Parser): (r: Result<OutboundRequest, DeliveryError>)
    ensures !Parses(parse, target.url) ==> r == Failure(UrlParseFailed(parse(target.url).error))
    ensures Parses(parse, target.url) && parse(target.url).value.host.None? ==> r == Failure(NoHost)
    ensures r.Success? <==> Parses(parse, target.url) && parse(target.url).value.host.Some?
    ensures r.Success? ==>
      var url := parse(target.url).value;
      && r.value.url == target.url
      && r.value.body == event.payload
      && r.value.headers == [Header("Host", HostHeader(url.host.value, url.port))] + ForwardedHeaders(event.headers)
  {
    match parse(target.url)
    case Failure(e) => Failure(UrlParseFailed(e))
    case Success(url) =>
      if url.host.None? then Failure(NoHost)
      else
        var host := Header("Host", HostHeader(url.host.value, url.port));
        Success(OutboundRequest(target.url, event.payload, [host] + ForwardedHeaders(event.headers)))
  }

  /**
   * Strip the inbound Host, inject the target's: among the headers added by
   * `forward_webhook` there is exactly one Host header, first, and it names the
   * target's authority; every other inbound header is added with its value, and
   * no other header is added by these lines.
   */
  lemma HostRewrite(target: Endpoint, event: WebhookEvent, parse: Parser)
    requires PrepareRequest(target, event, parse).Success?
    ensures var out := PrepareRequest(target, event, parse).value.headers;
      var url := parse(target.url).value;
      && out[0] == Header("Host", HostHeader(url.host.value, url.port))
      && (forall i | 0 <= i < |out| :: IsHostName(out[i].name) <==> i == 0)
      && (forall i | 1 <= i < |out| :: out[i] in event.headers)
      && (forall h | h in event.headers && !IsHostName(h.name) :: h in out[1..])
  {
    var out := PrepareRequest(target, event, parse).value.headers;
    assert Lower("Host") == "host";
    assert out[1..] == ForwardedHeaders(event.headers);
  }

  /** `forward_webhook`'s header loop, rebinding the request's header list once per inbound header. */
  method BuildRequest(target: Endpoint, event: WebhookEvent, parse: Parser) returns (r: Result<OutboundRequest, DeliveryError>)
    ensures r == PrepareRequest(target, event, parse)
  {
    var parsed := parse(target.url);
    if parsed.Failure? {
      return Failure(UrlParseFailed(parsed.error));
    }
    var url := parsed.value;
    if url.host.None? {
      return Failure(NoHost);
    }
    var headers := [Header("Host", HostHeader(url.host.value, url.port))];
    var inbound := event.headers;
    for i := 0 to |inbound|
      invariant headers == [Header("Host", HostHeader(url.host.value, url.port))] + Filter(inbound[..i], Forwardable)
    {
      assert inbound[..i + 1][..i] == inbound[..i];
      if !IsHostName(inbound[i].name) {
        headers := headers + [inbound[i]];
      }
    }
    assert inbound[..|inbound|] == inbound;
    r := Success(OutboundRequest(target.url, event.payload, headers));
  }

  /** `status.is_success()`: the 2xx codes; any other status carries the code and the body text. */
  function ClassifyResponse(status: StatusCode, body: Option<string>): (r: Result<(), DeliveryError>)
    ensures r.Success? <==> 200 <= status <= 299
    ensures r.Failure? ==> r.error == ErrorStatus(status, if body.Some? then body.value else UNREADABLE_BODY)
  {
    if 200 <= status < 300 then Success(())
    else Failure(ErrorStatus(status, match body case Some(text) => text case None => UNREADABLE_BODY))
  }

  /**
   * The result of `forward_webhook` for one target, given what sending the
   * prepared request gave back.
   */
  function ForwardOutcome(target: Endpoint, event: WebhookEvent, parse: Parser, reply: Reply): (r: Result<(), DeliveryError>)
    ensures r.Success? <==>
      PrepareRequest(target, event, parse).Success? && reply.Response? && 200 <= reply.status <= 299
    ensures PrepareRequest(target, event, parse).Failure? ==> r == Failure(PrepareRequest(target, event, parse).error)
    ensures PrepareRequest(target, event, parse).Success? && reply.TransportError? ==> r == Failure(SendFailed(reply.detail))
    ensures PrepareRequest(target, event, parse).Success? && reply.Response? ==> r == ClassifyResponse(reply.status, reply.body)
  {
    match PrepareRequest(target, event, parse)
    case Failure(e) => Failure(e)
    case Success(_) =>
      match reply
      case TransportError(detail) => Failure(SendFailed(detail))
      case Response(status, body) => ClassifyResponse(status, body)
  }

  /** A target accepted at registration never fails delivery for an unparsable URL. */
  lemma RegisteredUrlParses(req: CreateRequest, id: string, event: WebhookEvent, parse: Parser)
    requires Validate(req, parse).Success?
    ensures !PrepareRequest(Endpoint(id, req.url, req.name, req.isActive), event, parse).Failure?
        || PrepareRequest(Endpoint(id, req.url, req.name, req.isActive), event, parse).error == NoHost
  {
  }
}
