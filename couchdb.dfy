/**
 * The CouchDB client: base-URL normalisation, the forwarding of a proxied request
 * (URL, method, classification and timeout, outbound headers, the mapping of transport
 * errors to responses, the copy of the backend's answer) and the repository operations
 * whose outcome depends only on the backend's status (database existence and creation,
 * saving a document, replication).
 *
 * Every exchange with the backend is a parameter: the status it answers with or the
 * transport error the HTTP client reports, and what parsing its body gives.
 */
module CouchDb {
  import opened Common
  import opened Models
  import opened Utils
  import opened Http

  /** The client's configuration; the HTTP connection pool itself is not modelled. */
  datatype Client = Client(baseUrl: string, username: string, password: string)

  /** `new`: the base URL gets a trailing '/' unless it has one; the credentials are kept. */
  function NewClient(baseUrl: string, username: string, password: string): (c: Client)
    ensures EndsWith(c.baseUrl, "/")
    ensures StartsWith(c.baseUrl, baseUrl) && |c.baseUrl| <= |baseUrl| + 1
    ensures EndsWith(baseUrl, "/") ==> c.baseUrl == baseUrl
    ensures c.username == username && c.password == password
  {
    Client(WithTrailingSlash(baseUrl), username, password)
  }

  // ---------------------------------------------------------------------------------
  // Forwarding a request

  /** The forwarded URL: base URL, then path, then '?' and the query when there is one. */
  function ForwardUrl(baseUrl: string, path: string, query: Option<string>): (r: string)
    ensures StartsWith(r, baseUrl + path)
    ensures query.None? ==> r == baseUrl + path
    ensures query.Some? ==> r[|baseUrl + path|..] == "?" + query.value
  {
    baseUrl + path + (if query.Some? then "?" + query.value else "")
  }

  /** A long-poll request: a changes feed asked for with `feed=longpoll` in the query. */
  predicate IsLongpoll(path: string, query: Option<string>) {
    Contains(path, "/_changes") && query.Some? && Contains(query.value, "feed=longpoll")
  }

  /** Any request to a changes feed, long-poll or not. */
  predicate IsChangesRequest(path: string) {
    Contains(path, "/_changes")
  }

  /** The HTTP client's overall timeout, in seconds, chosen by the request's class. */
  function RequestTimeout(path: string, query: Option<string>): (r: nat)
    ensures r == 60 || r == 90 || r == 120
  {
    if IsLongpoll(path, query) then 120 else if IsChangesRequest(path) then 90 else 60
  }

  /**
   * The classes nest (long-poll requests are changes requests) and each class has its own
   * timeout: 120 s for long-poll, 90 s for other changes requests, 60 s for the rest.
   */
  lemma ClassificationAndTimeout(path: string, query: Option<string>)
    ensures IsLongpoll(path, query) ==> IsChangesRequest(path)
    ensures RequestTimeout(path, query) == 120 <==> IsLongpoll(path, query)
    ensures RequestTimeout(path, query) == 90 <==> IsChangesRequest(path) && !IsLongpoll(path, query)
    ensures RequestTimeout(path, query) == 60 <==> !IsChangesRequest(path)
    ensures query.None? ==> !IsLongpoll(path, query)
  {
  }

  /** A `tchar` of RFC 9110: the characters an HTTP token (method, header name) is made of. */
  predicate IsTokenChar(c: char) {
    || 'a' <= c <= 'z' || 'A' <= c <= 'Z' || '0' <= c <= '9'
    || c in {'!', '#', '$', '%', '&', '\'', '*', '+', '-', '.', '^', '_', '`', '|', '~'}
  }

  predicate IsToken(s: string) {
    |s| > 0 && forall i :: 0 <= i < |s| ==> IsTokenChar(s[i])
  }

  /** `Method::from_str(..).unwrap_or(GET)`: a well-formed method is kept, anything else is GET. */
  function ParseMethod(m: string): (r: string)
    ensures IsToken(r)
    ensures IsToken(m) ==> r == m
    ensures !IsToken(m) ==> r == "GET"
  {
    if IsToken(m) then m else "GET"
  }

  /** The `Authorization` value of HTTP basic authentication. */
  function BasicAuth(username: string, password: string): string {
    "Basic " + Base64Encode(username + ":" + password)
  }

  /** The client sends credentials only when both the user name and the password are set. */
  predicate HasCredentials(c: Client) {
    c.username != "" && c.password != ""
  }

  /** Whether an inbound header is passed on: everything but `host` and `authorization`. */
  predicate Forwardable(h: Header) {
    ToLowerAscii(h.name) != "host" && ToLowerAscii(h.name) != "authorization"
  }

  /** The inbound headers that are passed on, in their order (built from the end, as the loop appends). */
  function ForwardableHeaders(hs: seq<Header>): (r: seq<Header>)
    ensures |r| <= |hs|
  {
    if hs == [] then []
    else ForwardableHeaders(hs[..|hs| - 1]) + (if Forwardable(hs[|hs| - 1]) then [hs[|hs| - 1]] else [])
  }

  /**
   * The headers of the outbound request, in the order they are added: the two keep-alive
   * headers of a changes request, then basic authentication, then the inbound headers.
   */
  function OutboundHeaders(c: Client, path: string, inbound: seq<Header>): (r: seq<Header>)
    ensures |ForwardableHeaders(inbound)| <= |r| <= |ForwardableHeaders(inbound)| + 3
    ensures r[|r| - |ForwardableHeaders(inbound)|..] == ForwardableHeaders(inbound)
  {
    (if IsChangesRequest(path) then [Header("connection", "keep-alive"), Header("accept", "application/json")] else [])
    + (if HasCredentials(c) then [Header("authorization", BasicAuth(c.username, c.password))] else [])
    + ForwardableHeaders(inbound)
  }

  /** The request builder: the changes-request pair, then authentication, then the inbound headers. */
  method BuildOutboundHeaders(c: Client, path: string, inbound: seq<Header>) returns (out: seq<Header>)
    ensures out == OutboundHeaders(c, path, inbound)
  {
    out := [];
    if IsChangesRequest(path) {
      out := [Header("connection", "keep-alive"), Header("accept", "application/json")];
    }
    if HasCredentials(c) {
      out := out + [Header("authorization", BasicAuth(c.username, c.password))];
    }
    out := AppendForwardable(out, inbound);
  }

  /** The request builder's header loop: appends every forwardable inbound header, in order. */
  method AppendForwardable(prefix: seq<Header>, inbound: seq<Header>) returns (out: seq<Header>)
    ensures out == prefix + ForwardableHeaders(inbound)
  {
    out := prefix;
    var i := 0;
    while i < |inbound|
      invariant 0 <= i <= |inbound|
      invariant out == prefix + ForwardableHeaders(inbound[..i])
    {
      var h := inbound[i];
      ForwardableStep(inbound, i);
      if Forwardable(h) {
        out := out + [h];
      }
      i := i + 1;
    }
    assert inbound[..i] == inbound;
  }

  lemma ForwardableStep(hs: seq<Header>, i: nat)
    requires i < |hs|
    ensures ForwardableHeaders(hs[..i + 1]) == ForwardableHeaders(hs[..i]) + (if Forwardable(hs[i]) then [hs[i]] else [])
  {
    assert hs[..i + 1][..i] == hs[..i];
  }

  /** An inbound header is forwarded exactly when it is neither `host` nor `authorization`. */
  lemma {:induction false} ForwardableIff(hs: seq<Header>, h: Header)
    ensures h in ForwardableHeaders(hs) <==> h in hs && Forwardable(h)
    decreases |hs|
  {
    if hs != [] {
      var init := hs[..|hs| - 1];
      ForwardableIff(init, h);
      assert hs == init + [hs[|hs| - 1]];
    }
  }

  /**
   * What the backend sees: the keep-alive pair first on a changes request, no inbound
   * `host` or `authorization` header ever, an `authorization` header of the client's own
   * making exactly when both credentials are set, and every other inbound header.
   */
  lemma OutboundHeadersProperties(c: Client, path: string, inbound: seq<Header>)
    ensures var out := OutboundHeaders(c, path, inbound);
      && (IsChangesRequest(path) ==> out[..2] == [Header("connection", "keep-alive"), Header("accept", "application/json")])
      && (forall h :: h in out ==> ToLowerAscii(h.name) != "host")
      && (forall h :: h in out && ToLowerAscii(h.name) == "authorization" ==>
            HasCredentials(c) && h.value == BasicAuth(c.username, c.password))
      && (HasCredentials(c) <==> Header("authorization", BasicAuth(c.username, c.password)) in out)
      && (forall h :: h in inbound && Forwardable(h) ==> h in out)
  {
    var out := OutboundHeaders(c, path, inbound);
    var special := if IsChangesRequest(path) then [Header("connection", "keep-alive"), Header("accept", "application/json")] else [];
    var auth := if HasCredentials(c) then [Header("authorization", BasicAuth(c.username, c.password))] else [];
    var fwd := ForwardableHeaders(inbound);
    assert out == special + auth + fwd;
    LowerKnownNames();
    forall h | h in out
      ensures ToLowerAscii(h.name) != "host"
      ensures ToLowerAscii(h.name) == "authorization" ==> HasCredentials(c) && h.value == BasicAuth(c.username, c.password)
    {
      if h in fwd {
        ForwardableIff(inbound, h);
      }
    }
    forall h | h in inbound && Forwardable(h) ensures h in out {
      ForwardableIff(inbound, h);
    }
    var a := Header("authorization", BasicAuth(c.username, c.password));
    if a in fwd {
      ForwardableIff(inbound, a);
    }
  }

  lemma LowerKnownNames()
    ensures ToLowerAscii("connection") == "connection"
    ensures ToLowerAscii("accept") == "accept"
    ensures ToLowerAscii("authorization") == "authorization"
    ensures "connection" != "host" && "accept" != "host" && "authorization" != "host"
  {
  }

  /** The request handed to the HTTP client. */
  datatype OutboundRequest = OutboundRequest(
    verb: string,
    url: string,
    timeoutSeconds: nat,
    headers: seq<Header>,
    body: Option<seq<byte>>)

  /** The request built for a forwarded call; an empty body is not attached. */
  function ForwardedRequest(c: Client, verb: string, path: string, query: Option<string>,
                            inbound: seq<Header>, body: seq<byte>): (r: OutboundRequest)
    ensures IsToken(r.verb) && StartsWith(r.url, c.baseUrl + path)
    ensures r.timeoutSeconds == 60 || r.timeoutSeconds == 90 || r.timeoutSeconds == 120
    ensures r.body.None? <==> |body| == 0
    ensures forall h :: h in inbound && Forwardable(h) ==> h in r.headers
  {
    ForwardableIff(inbound, Header("", ""));
    ghost var out := OutboundHeaders(c, path, inbound);
    assert forall h :: h in ForwardableHeaders(inbound) ==> h in out by {
      forall h | h in ForwardableHeaders(inbound) ensures h in out {
        var i :| 0 <= i < |ForwardableHeaders(inbound)| && ForwardableHeaders(inbound)[i] == h;
        assert out[|out| - |ForwardableHeaders(inbound)| + i] == h;
      }
    }
    forall h | h in inbound && Forwardable(h) ensures h in out {
      ForwardableIff(inbound, h);
    }
    OutboundRequest(ParseMethod(verb), ForwardUrl(c.baseUrl, path, query), RequestTimeout(path, query),
      OutboundHeaders(c, path, inbound), if |body| > 0 then Some(body) else None)
  }

  /** A failed send as the HTTP client reports it: its message and its kind. */
  datatype TransportError = TransportError(message: string, isTimeout: bool, isConnect: bool)

  /** What the backend does with a request: no answer, or a status, headers and a body read. */
  datatype BackendOutcome =
    | Unanswered(error: TransportError)
    | Answered(status: StatusCode, headers: seq<Header>, body: Result<seq<byte>, string>)

  /** The long-poll answer for a request the client abandoned. */
  const AbortedBody: string := "{\"ok\":true,\"reason\":\"request_aborted\"}"

  function TimeoutBody(seconds: nat): string {
    "{\"error\":\"Request timed out after " + NatToString(seconds) + " seconds\",\"reason\":\"timeout\"}"
  }

  const ConnectFailedBody: string := "{\"error\":\"Failed to connect to CouchDB\",\"reason\":\"connection_failed\"}"

  function UnexpectedErrorBody(message: string): string {
    "{\"error\":\"Connection to CouchDB failed: " + message + "\",\"reason\":\"unexpected_error\"}"
  }

  predicate IsAbort(e: TransportError) {
    Contains(e.message, "aborted") || Contains(e.message, "canceled")
  }

  /**
   * The response for a failed send, as written: the timeout text names 120 seconds for a
   * long-poll request and 30 seconds for every other request.
   */
  function SendErrorResponseAsWritten(longpoll: bool, e: TransportError): (r: Response)
    ensures r.headers == [Header("content-type", "application/json")]
    ensures r.status == 204 <==> longpoll && IsAbort(e)
    ensures r.status == 504 <==> !(longpoll && IsAbort(e)) && e.isTimeout
    ensures r.status == 502 <==> !(longpoll && IsAbort(e)) && !e.isTimeout
    ensures r.status == 204 ==> r.body == Text(AbortedBody)
    ensures r.status == 504 ==> r.body == Text(TimeoutBody(if longpoll then 120 else 30))
    ensures r.status == 502 && e.isConnect ==> r.body == Text(ConnectFailedBody)
    ensures r.status == 502 && !e.isConnect ==> r.body == Text(UnexpectedErrorBody(e.message))
  {
    if longpoll && IsAbort(e) then JsonResponse(NO_CONTENT, AbortedBody)
    else if e.isTimeout then JsonResponse(GATEWAY_TIMEOUT, TimeoutBody(if longpoll then 120 else 30))
    else if e.isConnect then JsonResponse(BAD_GATEWAY, ConnectFailedBody)
    else JsonResponse(BAD_GATEWAY, UnexpectedErrorBody(e.message))
  }

  /**
   * The response for a failed send, with the timeout text naming the timeout the request
   * actually ran under. The cases are tried in order: an abandoned long-poll, a timeout, a
   * failed connection, anything else.
   */
  function SendErrorResponse(path: string, query: Option<string>, e: TransportError): (r: Response)
    ensures ContentTypeJson in r.headers
  {
    var longpoll := IsLongpoll(path, query);
    if longpoll && IsAbort(e) then JsonResponse(NO_CONTENT, AbortedBody)
    else if e.isTimeout then JsonResponse(GATEWAY_TIMEOUT, TimeoutBody(RequestTimeout(path, query)))
    else if e.isConnect then JsonResponse(BAD_GATEWAY, ConnectFailedBody)
    else JsonResponse(BAD_GATEWAY, UnexpectedErrorBody(e.message))
  }

  /** The error mapping is ordered: the earlier kind wins when a failure has several. */
  lemma SendErrorMapping(path: string, query: Option<string>, e: TransportError)
    ensures var r := SendErrorResponse(path, query, e);
      && (r.status == 204 <==> IsLongpoll(path, query) && IsAbort(e))
      && (r.status == 504 <==> !(IsLongpoll(path, query) && IsAbort(e)) && e.isTimeout)
      && (r.status == 502 <==> !(IsLongpoll(path, query) && IsAbort(e)) && !e.isTimeout)
      && (r.status == 502 && e.isConnect ==> r.body == Text(ConnectFailedBody))
      && (r.status == 502 && !e.isConnect ==> r.body == Text(UnexpectedErrorBody(e.message)))
      && r.headers == [Header("content-type", "application/json")]
  {
  }

  /**
   * The timeout text as written agrees with the request's timeout only for long-poll
   * requests: any other request that times out (for instance a GET of `/notes/doc1`, whose
   * timeout is 60 s) is told it waited 30 seconds.
   */
  lemma TimeoutTextAsWritten(path: string, query: Option<string>, e: TransportError)
    ensures IsLongpoll(path, query) ==>
      SendErrorResponseAsWritten(true, e) == SendErrorResponse(path, query, e)
    ensures !IsLongpoll(path, query) && e.isTimeout ==>
      && SendErrorResponseAsWritten(false, e) == JsonResponse(GATEWAY_TIMEOUT, TimeoutBody(30))
      && SendErrorResponse(path, query, e) == JsonResponse(GATEWAY_TIMEOUT, TimeoutBody(RequestTimeout(path, query)))
      && RequestTimeout(path, query) in {60, 90}
      && SendErrorResponseAsWritten(false, e) != SendErrorResponse(path, query, e)
  {
    if !IsLongpoll(path, query) && e.isTimeout {
      TimeoutBodyFirstDigit(30);
      TimeoutBodyFirstDigit(60);
      TimeoutBodyFirstDigit(90);
      assert NatToString(30) == NatToString(3) + [DigitChar(0)];
      assert NatToString(60) == NatToString(6) + [DigitChar(0)];
      assert NatToString(90) == NatToString(9) + [DigitChar(0)];
    }
  }

  lemma TimeoutBodyFirstDigit(n: nat)
    ensures |TimeoutBody(n)| > 34 && TimeoutBody(n)[34] == NatToString(n)[0]
  {
    var p := "{\"error\":\"Request timed out after ";
    assert |p| == 34;
    assert TimeoutBody(n) == p + (NatToString(n) + " seconds\",\"reason\":\"timeout\"}");
  }

  /** Header validity as the response builder checks it: a token name, and a value without controls. */
  predicate ValidHeader(h: Header) {
    IsToken(h.name) && forall i :: 0 <= i < |h.value| ==> h.value[i] == '\t' || (' ' <= h.value[i] && h.value[i] != '\U{7F}')
  }

  /** The headers that convert, in their order (built from the end, as the loop appends). */
  function ValidHeaders(hs: seq<Header>): (r: seq<Header>)
    ensures |r| <= |hs|
  {
    if hs == [] then []
    else ValidHeaders(hs[..|hs| - 1]) + (if ValidHeader(hs[|hs| - 1]) then [hs[|hs| - 1]] else [])
  }

  /** Headers that all pass the check are copied unchanged and in order. */
  lemma {:induction false} ValidHeadersKeepsValid(hs: seq<Header>)
    requires forall h :: h in hs ==> ValidHeader(h)
    ensures ValidHeaders(hs) == hs
    decreases |hs|
  {
    if hs != [] {
      var init := hs[..|hs| - 1];
      assert hs == init + [hs[|hs| - 1]];
      ValidHeadersKeepsValid(init);
    }
  }

  /** The response builder's header loop: copies every header that converts. */
  method CopyResponseHeaders(hs: seq<Header>) returns (out: seq<Header>)
    ensures out == ValidHeaders(hs)
  {
    out := [];
    var i := 0;
    while i < |hs|
      invariant 0 <= i <= |hs|
      invariant out == ValidHeaders(hs[..i])
    {
      assert hs[..i + 1][..i] == hs[..i];
      if ValidHeader(hs[i]) {
        out := out + [hs[i]];
      }
      i := i + 1;
    }
    assert hs[..i] == hs;
  }

  /**
   * The gateway's response to a forwarded request, given what the backend did: an answer
   * with a readable body passes through, anything else is one of the JSON error responses.
   */
  function ForwardedResponse(path: string, query: Option<string>, outcome: BackendOutcome): (r: Response)
    ensures outcome.Answered? && outcome.body.Ok? ==> r.status == outcome.status && r.body == Bytes(outcome.body.value)
    ensures !(outcome.Answered? && outcome.body.Ok?) ==>
      ContentTypeJson in r.headers && (r.status == 204 || r.status == 502 || r.status == 504)
  {
    match outcome
    case Unanswered(e) => SendErrorResponseAsWritten(IsLongpoll(path, query), e)
    case Answered(status, headers, body) =>
      match body
      case Err(msg) => JsonResponse(BAD_GATEWAY, "{\"error\":\"Failed to read response body: " + msg + "\"}")
      case Ok(bytes) => Response(status, ValidHeaders(headers), Bytes(bytes))
  }

  /** The gateway's response with the corrected timeout text. */
  function ForwardedResponseCorrected(path: string, query: Option<string>, outcome: BackendOutcome): Response {
    match outcome
    case Unanswered(e) => SendErrorResponse(path, query, e)
    case Answered(_, _, _) => ForwardedResponse(path, query, outcome)
  }

  /**
   * The correction changes exactly one answer: the timeout text of a request that is not
   * long-poll. Every other outcome is answered as the source answers it.
   */
  lemma CorrectionOnlyChangesTimeoutText(path: string, query: Option<string>, outcome: BackendOutcome)
    ensures ForwardedResponseCorrected(path, query, outcome) != ForwardedResponse(path, query, outcome)
      <==> outcome.Unanswered? && outcome.error.isTimeout && !IsLongpoll(path, query)
  {
    if outcome.Unanswered? {
      TimeoutTextAsWritten(path, query, outcome.error);
      if !IsLongpoll(path, query) && !outcome.error.isTimeout {
        assert SendErrorResponseAsWritten(false, outcome.error) == SendErrorResponse(path, query, outcome.error);
      }
    }
  }

  /**
   * `http_forward_request`: builds the request, lets the backend answer it, and turns the
   * answer (or the failure) into the gateway's response.
   */
  method HttpForwardRequest(c: Client, verb: string, path: string, query: Option<string>,
                            inbound: seq<Header>, body: seq<byte>, backend: OutboundRequest -> BackendOutcome)
    returns (sent: OutboundRequest, r: Response)
    ensures sent == ForwardedRequest(c, verb, path, query, inbound, body)
    ensures r == ForwardedResponse(path, query, backend(sent))
  {
    var url := ForwardUrl(c.baseUrl, path, query);
    var m := ParseMethod(verb);
    var headers := BuildOutboundHeaders(c, path, inbound);
    sent := OutboundRequest(m, url, RequestTimeout(path, query), headers, if |body| > 0 then Some(body) else None);
    var outcome := backend(sent);
    match outcome {
      case Unanswered(e) =>
        r := SendErrorResponseAsWritten(IsLongpoll(path, query), e);
      case Answered(status, responseHeaders, bodyRead) =>
        var copied := CopyResponseHeaders(responseHeaders);
        match bodyRead {
          case Err(msg) =>
            r := JsonResponse(BAD_GATEWAY, "{\"error\":\"Failed to read response body: " + msg + "\"}");
          case Ok(bytes) =>
            r := Response(status, copied, Bytes(bytes));
        }
    }
  }

  /**
   * An answered request is passed through: same status, the backend's (valid) headers and
   * its body; a body that cannot be read gives 502.
   */
  lemma AnsweredPassThrough(path: string, query: Option<string>, status: StatusCode, headers: seq<Header>, body: Result<seq<byte>, string>)
    requires forall h :: h in headers ==> ValidHeader(h)
    ensures var r := ForwardedResponse(path, query, Answered(status, headers, body));
      && (body.Ok? ==> r == Response(status, headers, Bytes(body.value)))
      && (body.Err? ==> r.status == 502 && ContentTypeJson in r.headers)
  {
    ValidHeadersKeepsValid(headers);
  }

  /** `forward_request`: the response builder cannot fail on these inputs, so the result is always Ok. */
  method ForwardRequest(c: Client, verb: string, path: string, query: Option<string>,
                        inbound: seq<Header>, body: seq<byte>, backend: OutboundRequest -> BackendOutcome)
    returns (r: Result<Response, DomainError>)
    ensures r == Ok(ForwardedResponse(path, query, backend(ForwardedRequest(c, verb, path, query, inbound, body))))
  {
    var sent, response := HttpForwardRequest(c, verb, path, query, inbound, body, backend);
    r := Ok(response);
  }

  // ---------------------------------------------------------------------------------
  // Repository operations over the backend's status

  /** The URL of a database: note the base URL already ends with '/', so it is doubled. */
  function DatabaseUrl(c: Client, db: string): (r: string)
    ensures StartsWith(r, c.baseUrl) && EndsWith(r, "/" + db)
  {
    assert (c.baseUrl + "/" + db)[|c.baseUrl| + 1..] == db;
    c.baseUrl + "/" + db
  }

  /** `database_exists`: true exactly on status 200; a failed send is an error. */
  function DatabaseExists(sent: Result<StatusCode, TransportError>): (r: Result<bool, string>)
    ensures r.Ok? <==> sent.Ok?
    ensures r == Ok(true) <==> sent == Ok(200)
  {
    match sent
    case Ok(status) => Ok(status == OK)
    case Err(e) => Err(e.message)
  }

  /** `create_database`: 201 (created) and 412 (already there) succeed; any other status fails. */
  function CreateDatabase(sent: Result<StatusCode, TransportError>): (r: Result<(), string>)
    ensures r.Ok? <==> sent.Ok? && (sent.value == 201 || sent.value == 412)
    ensures sent.Ok? && r.Err? ==> r.error == "Failed to create database with status: " + StatusDisplay(sent.value)
  {
    match sent
    case Ok(status) =>
      if status == CREATED || status == PRECONDITION_FAILED then Ok(())
      else Err("Failed to create database with status: " + StatusDisplay(status))
    case Err(e) => Err(e.message)
  }

  /** A backend call: its HTTP method and URL. */
  datatype Call = Call(verb: string, url: string)

  /**
   * `ensure_database`: checks existence and creates the database only when it is missing.
   * Returns the result and the calls made, in order.
   */
  function EnsureDatabase(c: Client, db: string, existsSent: Result<StatusCode, TransportError>,
                          createSent: Result<StatusCode, TransportError>): (r: (Result<(), DomainError>, seq<Call>))
    ensures 1 <= |r.1| <= 2 && r.1[0] == Call("HEAD", DatabaseUrl(c, db))
    ensures r.0.Ok? ==> existsSent.Ok?
  {
    match DatabaseExists(existsSent)
    case Ok(true) => (Ok(()), [Call("HEAD", DatabaseUrl(c, db))])
    case Ok(false) =>
      var created := match CreateDatabase(createSent)
        case Ok(_) => Ok(())
        case Err(msg) => Err(CouchDbError("Failed to create database: " + msg));
      (created, [Call("HEAD", DatabaseUrl(c, db)), Call("PUT", DatabaseUrl(c, db))])
    case Err(msg) => (Err(CouchDbError("Failed to check database existence: " + msg)), [Call("HEAD", DatabaseUrl(c, db))])
  }

  /**
   * Creation is attempted exactly when the existence check answered with a status other
   * than 200; success means the database was there or could be created (201 or 412).
   */
  lemma EnsureDatabaseCalls(c: Client, db: string, existsSent: Result<StatusCode, TransportError>,
                            createSent: Result<StatusCode, TransportError>)
    ensures var (r, calls) := EnsureDatabase(c, db, existsSent, createSent);
      && calls[0] == Call("HEAD", DatabaseUrl(c, db))
      && (|calls| == 2 <==> existsSent.Ok? && existsSent.value != 200)
      && (|calls| == 2 ==> calls[1] == Call("PUT", DatabaseUrl(c, db)))
      && (r.Ok? <==> existsSent == Ok(200) || (existsSent.Ok? && createSent.Ok? && (createSent.value == 201 || createSent.value == 412)))
      && (existsSent.Err? ==> r == Err(CouchDbError("Failed to check database existence: " + existsSent.error.message)))
  {
  }

  /**
   * `save_document`: a failed send, a non-2xx status, or a reply without a `rev` is an
   * error; otherwise the document comes back with the backend's revision.
   */
  function SaveDocument(doc: CouchDbDocument, sent: Result<StatusCode, TransportError>,
                        replyRev: Result<string, string>): (r: Result<CouchDbDocument, DomainError>)
    ensures r.Ok? <==> sent.Ok? && IsSuccess(sent.value) && replyRev.Ok?
    ensures r.Ok? ==> r.value == doc.(rev := Some(replyRev.value))
    ensures sent.Err? ==> r == Err(CouchDbError("Failed to save document: " + sent.error.message))
    ensures sent.Ok? && !IsSuccess(sent.value) ==>
      r == Err(CouchDbError("Failed to save document with status: " + StatusDisplay(sent.value)))
    ensures sent.Ok? && IsSuccess(sent.value) && replyRev.Err? ==>
      r == Err(InvalidMessage("Failed to parse save response: " + replyRev.error))
  {
    match sent
    case Err(e) => Err(CouchDbError("Failed to save document: " + e.message))
    case Ok(status) =>
      if !IsSuccess(status) then Err(CouchDbError("Failed to save document with status: " + StatusDisplay(status)))
      else
        match replyRev
        case Err(msg) => Err(InvalidMessage("Failed to parse save response: " + msg))
        case Ok(rev) => Ok(doc.(rev := Some(rev)))
  }

  /** A saved document keeps its id and data; only the revision changes, and it is set. */
  lemma SaveKeepsIdAndData(doc: CouchDbDocument, status: StatusCode, rev: string)
    requires IsSuccess(status)
    ensures var r := SaveDocument(doc, Ok(status), Ok(rev));
      r.Ok? && r.value.id == doc.id && r.value.data == doc.data && r.value.rev == Some(rev)
  {
  }

  /** The replication request body: source and target, overridden by the options' own keys. */
  function ReplicationBody(source: string, target: string, options: Json): (r: Json)
    ensures r.JObject? && "source" in r.fields && "target" in r.fields
  {
    JObject(map["source" := JString(source), "target" := JString(target)]
      + (if options.JObject? then options.fields else map[]))
  }

  /** `replicate`'s merge loop: inserts every option key into the body. */
  method MergeReplicationOptions(source: string, target: string, options: Json) returns (body: Json)
    ensures body == ReplicationBody(source, target, options)
  {
    var fields := map["source" := JString(source), "target" := JString(target)];
    if options.JObject? {
      fields := InsertAll(fields, options.fields);
    }
    body := JObject(fields);
  }

  /** Inserts the entries of `extra` one key at a time, each overwriting what was there. */
  method InsertAll(fields: map<string, Json>, extra: map<string, Json>) returns (r: map<string, Json>)
    ensures r == fields + extra
  {
    r := fields;
    var keys := extra.Keys;
    ghost var done: set<string> := {};
    while keys != {}
      invariant keys + done == extra.Keys && keys !! done
      invariant r == fields + (map k | k in done :: extra[k])
      decreases keys
    {
      var k :| k in keys;
      r := r[k := extra[k]];
      keys := keys - {k};
      done := done + {k};
    }
    assert done == extra.Keys;
  }

  /**
   * The merged body always names a source and a target, every option key is present with
   * the option's value (overriding `source`/`target` too), and nothing else is added.
   */
  lemma ReplicationBodyContents(source: string, target: string, options: Json)
    ensures var b := ReplicationBody(source, target, options);
      && b.JObject? && "source" in b.fields && "target" in b.fields
      && (options.JObject? ==> forall k :: k in options.fields ==> k in b.fields && b.fields[k] == options.fields[k])
      && (options.JObject? ==> b.fields.Keys == options.fields.Keys + {"source", "target"})
      && (!options.JObject? ==> b.fields == map["source" := JString(source), "target" := JString(target)])
      && ("source" !in (if options.JObject? then options.fields else map[]) ==> b.fields["source"] == JString(source))
  {
  }

  /** `replicate`'s answer: the backend's JSON reply, or the error for its failure. */
  function ReplicateResult(sent: Result<StatusCode, TransportError>, reply: Result<Json, string>): (r: Result<Json, DomainError>)
    ensures r.Ok? <==> sent.Ok? && IsSuccess(sent.value) && reply.Ok?
    ensures r.Ok? ==> r.value == reply.value
    ensures sent.Err? ==> r == Err(CouchDbError("Failed to start replication: " + sent.error.message))
    ensures sent.Ok? && !IsSuccess(sent.value) ==>
      r == Err(CouchDbError("Failed to replicate with status: " + StatusDisplay(sent.value)))
    ensures sent.Ok? && IsSuccess(sent.value) && reply.Err? ==>
      r == Err(InvalidMessage("Failed to parse replication response: " + reply.error))
  {
    match sent
    case Err(e) => Err(CouchDbError("Failed to start replication: " + e.message))
    case Ok(status) =>
      if !IsSuccess(status) then Err(CouchDbError("Failed to replicate with status: " + StatusDisplay(status)))
      else
        match reply
        case Err(msg) => Err(InvalidMessage("Failed to parse replication response: " + msg))
        case Ok(v) => Ok(v)
  }

  /** `get_auth_credentials`: this client always has credentials to report, even empty ones. */
  function GetAuthCredentials(c: Client): (r: Option<(string, string)>)
    ensures r == Some((c.username, c.password))
  {
    Some((c.username, c.password))
  }
}
