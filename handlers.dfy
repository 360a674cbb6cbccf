/**
 * The HTTP handlers of the gateway: the proxy handler mounted under `/db`, which maps the
 * request path onto the backend's path space, builds the target URI and answers with a
 * canned CouchDB-shaped response, and the status handler.
 */
module Handlers {
  import opened Common
  import opened Models
  import opened Http
  import opened Health
  import Metrics

  /** The mapped path as `stripped` would be rendered: "/" for nothing, otherwise "/" and the rest. */
  function Rooted(stripped: string): (r: string)
    ensures |r| > 0 && r[0] == '/'
  {
    if stripped == "" then "/" else "/" + stripped
  }

  /**
   * The path mapping as written: every leading repetition of "/db" is removed, then every
   * leading '/'. A database whose name starts with "db" loses that part.
   */
  function MapPathAsWritten(uriPath: string): (r: string)
    ensures |r| > 0 && r[0] == '/'
    ensures !StartsWith(uriPath, "/db") && (|uriPath| == 0 || uriPath[0] != '/') ==> r == Rooted(uriPath)
  {
    Rooted(TrimStartChar(TrimStartMatches(uriPath, "/db"), '/'))
  }

  /** The path mapping: the "/db" mount prefix is removed once, then every leading '/'. */
  function MapPath(uriPath: string): (r: string)
    ensures |r| > 0 && r[0] == '/'
    ensures !StartsWith(uriPath, "/db") && (|uriPath| == 0 || uriPath[0] != '/') ==> r == Rooted(uriPath)
  {
    var rest := if StartsWith(uriPath, "/db") then uriPath[3..] else uriPath;
    Rooted(TrimStartChar(rest, '/'))
  }

  /** Both mappings give a path that starts with exactly one '/'. */
  lemma MappedPathRooted(uriPath: string)
    ensures var r := MapPath(uriPath); r[0] == '/' && (|r| > 1 ==> r[1] != '/')
    ensures var r := MapPathAsWritten(uriPath); r[0] == '/' && (|r| > 1 ==> r[1] != '/')
  {
    var rest := if StartsWith(uriPath, "/db") then uriPath[3..] else uriPath;
  }

  /**
   * Under the mount point the mapping removes exactly the mount: `/db` and `/db/` are the
   * root, and `/db/<rest>` is `/<rest>` for any rest not starting with '/'.
   */
  lemma MapPathStripsMountOnce(rest: string)
    requires |rest| == 0 || rest[0] != '/'
    ensures MapPath("/db") == "/"
    ensures MapPath("/db/" + rest) == Rooted(rest)
  {
    assert ("/db/" + rest)[..3] == "/db";
    assert ("/db/" + rest)[3..] == "/" + rest;
    assert ("/" + rest)[1..] == rest;
    assert TrimStartChar("/" + rest, '/') == TrimStartChar(rest, '/') == rest;
    assert "/db"[..3] == "/db";
  }

  /** The rooted path without its leading '/' is what was rooted. */
  lemma RootedTail(stripped: string)
    ensures Rooted(stripped)[1..] == stripped
  {
  }

  /**
   * The mapping as written removes a whole number of leading "/db", then a run of '/', and
   * keeps the rest: what is removed by the second step no longer starts with "/db", and
   * what is kept does not start with '/'. This fixes the mapped path for every input.
   */
  lemma MapPathAsWrittenStripsAll(uriPath: string)
    ensures var r := MapPathAsWritten(uriPath);
      exists k: nat, j: nat :: uriPath == Repeat("/db", k) + (Repeat("/", j) + r[1..])
        && !StartsWith(Repeat("/", j) + r[1..], "/db")
    ensures var r := MapPathAsWritten(uriPath); |r| > 1 ==> r[1] != '/'
  {
    var m := TrimStartMatches(uriPath, "/db");
    var t := TrimStartChar(m, '/');
    TrimStartMatchesDecomposes(uriPath, "/db");
    TrimStartCharDecomposes(m, '/');
    RootedTail(t);
    var k := TrimmedCount(uriPath, "/db");
    var j := TrimmedRun(m, '/');
    assert uriPath == Repeat("/db", k) + (Repeat("/", j) + MapPathAsWritten(uriPath)[1..]);
  }

  /**
   * Under the mount, a path whose rest neither starts with '/' nor with "db" is mapped as
   * written exactly as by the corrected mapping: `/db/<rest>` is `/<rest>`.
   */
  lemma MapPathAsWrittenUnderMount(rest: string)
    requires (|rest| == 0 || rest[0] != '/') && !StartsWith(rest, "db")
    ensures MapPathAsWritten("/db/" + rest) == Rooted(rest) == MapPath("/db/" + rest)
  {
    var p := "/db/" + rest;
    assert p[..3] == "/db" && p[3..] == "/" + rest;
    if |rest| >= 2 {
      assert ("/" + rest)[..3] == "/" + rest[..2];
    }
    assert !StartsWith("/" + rest, "/db");
    assert TrimStartMatches("/" + rest, "/db") == "/" + rest;
    assert ("/" + rest)[1..] == rest;
    MapPathStripsMountOnce(rest);
  }

  /**
   * The mapping as written also strips a database name's own "db" prefix: `/db/db<rest>`
   * is `/<rest>`, where the corrected mapping keeps `/db<rest>`.
   */
  lemma MapPathAsWrittenLosesDbPrefix(rest: string)
    requires |rest| == 0 || rest[0] != '/'
    ensures MapPathAsWritten("/db/db" + rest) == Rooted(rest)
    ensures MapPath("/db/db" + rest) == "/db" + rest
  {
    var p := "/db/db" + rest;
    assert p[..3] == "/db" && p[3..] == "/db" + rest;
    assert ("/db" + rest)[..3] == "/db" && ("/db" + rest)[3..] == rest;
    assert !StartsWith(rest, "/db") by {
      if |rest| >= 3 { assert rest[..3][0] == rest[0]; }
    }
    assert TrimStartMatches(rest, "/db") == rest;
    assert TrimStartMatches("/db" + rest, "/db") == rest;
    assert TrimStartMatches(p, "/db") == rest;
    assert ("/db" + rest)[1..] == "db" + rest;
    assert TrimStartChar("db" + rest, '/') == "db" + rest;
    assert Rooted("db" + rest) == "/db" + rest;
  }

  /** The target URI: the backend URL without trailing '/', the mapped path, and the query if any. */
  function TargetUri(couchdbUrl: string, mappedPath: string, query: Option<string>): (r: string)
    ensures StartsWith(r, TrimEndChar(couchdbUrl, '/') + mappedPath)
    ensures query.None? ==> r == TrimEndChar(couchdbUrl, '/') + mappedPath
    ensures query.Some? ==> r == TrimEndChar(couchdbUrl, '/') + mappedPath + "?" + query.value
  {
    var base := TrimEndChar(couchdbUrl, '/') + mappedPath;
    match query
    case Some(q) => assert base + "?" + q == base + ("?" + q); base + "?" + q
    case None => base
  }

  lemma {:induction false} TrimEndCharNoTrail(s: string, c: char)
    ensures var r := TrimEndChar(s, c); |r| > 0 ==> r[|r| - 1] != c
    ensures StartsWith(s, TrimEndChar(s, c))
    decreases |s|
  {
    if |s| > 0 && s[|s| - 1] == c {
      TrimEndCharNoTrail(s[..|s| - 1], c);
    }
  }

  /**
   * The target URI never doubles the slash between the backend URL and the mapped path:
   * the character before the path is not a '/', and the path itself starts with one.
   */
  lemma TargetUriSingleSlash(couchdbUrl: string, uriPath: string, query: Option<string>)
    ensures var base := TrimEndChar(couchdbUrl, '/'); var r := TargetUri(couchdbUrl, MapPathAsWritten(uriPath), query);
      && StartsWith(couchdbUrl, base)
      && r[|base|] == '/'
      && (|base| > 0 ==> r[|base| - 1] != '/')
    ensures var base := TrimEndChar(couchdbUrl, '/'); var r := TargetUri(couchdbUrl, MapPath(uriPath), query);
      && r[|base|] == '/'
      && (|base| > 0 ==> r[|base| - 1] != '/')
  {
    TrimEndCharNoTrail(couchdbUrl, '/');
    MappedPathRooted(uriPath);
  }

  const WelcomeBody: string := "{\"couchdb\":\"Welcome\",\"version\":\"3.2.1\"}"
  const SessionBody: string := "{\"ok\":true,\"userCtx\":{\"name\":null,\"roles\":[\"_admin\"]}}"
  const AllDbsBody: string := "[]"
  const UpBody: string := "{\"status\":\"ok\"}"
  const DefaultBody: string := "{\"ok\":true}"

  /** The canned body for a mapped path: four known endpoints, `{"ok":true}` for every other path. */
  function CannedBody(mappedPath: string): (r: string)
    ensures mappedPath !in {"/", "/_session", "/_all_dbs", "/_up"} ==> r == DefaultBody
    ensures r in {WelcomeBody, SessionBody, AllDbsBody, UpBody, DefaultBody}
  {
    if mappedPath == "/" then WelcomeBody
    else if mappedPath == "/_session" then SessionBody
    else if mappedPath == "/_all_dbs" then AllDbsBody
    else if mappedPath == "/_up" then UpBody
    else DefaultBody
  }

  /** The metrics call the handler makes: path, method and status. */
  datatype RecordedRequest = RecordedRequest(path: string, verb: string, status: u16)

  /** What the proxy handler does: its response, the URI it would target, and what it records. */
  datatype ProxyOutcome = ProxyOutcome(response: Response, targetUri: string, recorded: RecordedRequest)

  /** `http_proxy_handler`: the path is mapped as written, every leading "/db" stripped. */
  function ProxyHandler(verb: string, uriPath: string, query: Option<string>, couchdbUrl: string): (r: ProxyOutcome)
    ensures r.response == JsonResponse(OK, CannedBody(MapPathAsWritten(uriPath)))
    ensures StartsWith(r.targetUri, TrimEndChar(couchdbUrl, '/') + MapPathAsWritten(uriPath))
    ensures r.recorded == RecordedRequest(uriPath, verb, 200)
  {
    var mapped := MapPathAsWritten(uriPath);
    ProxyOutcome(JsonResponse(OK, CannedBody(mapped)), TargetUri(couchdbUrl, mapped, query),
      RecordedRequest(uriPath, verb, 200))
  }

  /**
   * Every proxied request is answered 200 with a JSON body, the five canned bodies go to
   * their paths, and the metrics see the original, unmapped path with status 200.
   */
  lemma ProxyHandlerAnswers(verb: string, uriPath: string, query: Option<string>, couchdbUrl: string)
    ensures var r := ProxyHandler(verb, uriPath, query, couchdbUrl);
      && r.response.status == 200 && ContentTypeJson in r.response.headers
      && r.recorded == RecordedRequest(uriPath, verb, 200)
      && (MapPathAsWritten(uriPath) == "/" <==> r.response.body == Text(WelcomeBody))
      && (MapPathAsWritten(uriPath) == "/_session" <==> r.response.body == Text(SessionBody))
      && (MapPathAsWritten(uriPath) == "/_all_dbs" <==> r.response.body == Text(AllDbsBody))
      && (MapPathAsWritten(uriPath) == "/_up" <==> r.response.body == Text(UpBody))
      && (MapPathAsWritten(uriPath) !in {"/", "/_session", "/_all_dbs", "/_up"} <==> r.response.body == Text(DefaultBody))
  {
    assert |WelcomeBody| == 39 && |SessionBody| == 54 && |AllDbsBody| == 2 && |UpBody| == 15 && |DefaultBody| == 11;
  }

  /**
   * The handler as written answers `/db/db_session` with the session document and targets
   * the backend's `/_session`; the corrected mapping would answer `{"ok":true}` for `/db_session`.
   */
  lemma ProxyHandlerDbSession(verb: string, query: Option<string>, couchdbUrl: string)
    ensures var r := ProxyHandler(verb, "/db/db_session", query, couchdbUrl);
      && r.response.body == Text(SessionBody)
      && r.targetUri == TargetUri(couchdbUrl, "/_session", query)
    ensures ProxyHandlerCorrected(verb, "/db/db_session", query, couchdbUrl).response.body == Text(DefaultBody)
  {
    MapPathAsWrittenLosesDbPrefix("_session");
    assert "/db/db" + "_session" == "/db/db_session";
    assert MapPathAsWritten("/db/db_session") == "/_session";
    assert MapPath("/db/db_session") == "/db_session";
    assert |SessionBody| == 54 && |DefaultBody| == 11;
    assert "/db_session" !in {"/", "/_session", "/_all_dbs", "/_up"} by {
      assert |"/db_session"| == 11 && |"/_session"| == 9 && |"/_all_dbs"| == 9 && |"/_up"| == 4;
    }
  }

  /**
   * For a path under the mount whose rest neither starts with '/' nor with "db" (such as
   * `/db/_all_dbs` or `/db/notes`), the handler targets `/<rest>` and answers as the corrected
   * handler does.
   */
  lemma ProxyHandlerUnderMount(verb: string, rest: string, query: Option<string>, couchdbUrl: string)
    requires (|rest| == 0 || rest[0] != '/') && !StartsWith(rest, "db")
    ensures var r := ProxyHandler(verb, "/db/" + rest, query, couchdbUrl);
      && r.targetUri == TargetUri(couchdbUrl, Rooted(rest), query)
      && r.response == JsonResponse(OK, CannedBody(Rooted(rest)))
      && r == ProxyHandlerCorrected(verb, "/db/" + rest, query, couchdbUrl)
  {
    MapPathAsWrittenUnderMount(rest);
  }

  /** The handler with the corrected mapping, which strips the "/db" mount once. */
  function ProxyHandlerCorrected(verb: string, uriPath: string, query: Option<string>, couchdbUrl: string): (r: ProxyOutcome)
    ensures r.response == JsonResponse(OK, CannedBody(MapPath(uriPath)))
    ensures r.recorded == ProxyHandler(verb, uriPath, query, couchdbUrl).recorded
    ensures MapPath(uriPath) == MapPathAsWritten(uriPath) ==> r == ProxyHandler(verb, uriPath, query, couchdbUrl)
  {
    var mapped := MapPath(uriPath);
    ProxyOutcome(JsonResponse(OK, CannedBody(mapped)), TargetUri(couchdbUrl, mapped, query),
      RecordedRequest(uriPath, verb, 200))
  }

  /**
   * What the handler records is always a success: the success counter moves, the error
   * counters do not, whatever the path.
   */
  lemma ProxyRecordsSuccess(verb: string, uriPath: string, query: Option<string>, couchdbUrl: string, t: Metrics.Tally)
    requires Metrics.Consistent(t)
    ensures var rec := ProxyHandler(verb, uriPath, query, couchdbUrl).recorded;
      var u := Metrics.Record(t, rec.path, rec.status);
      && Metrics.Consistent(u)
      && u.success == t.success + 1 && u.error == t.error
      && u.longpollErrors == t.longpollErrors && u.bulkDocsErrors == t.bulkDocsErrors
  {
    var rec := ProxyHandler(verb, uriPath, query, couchdbUrl).recorded;
    Metrics.RecordKeepsConsistent(t, rec.path, rec.status);
  }

  /** `status_handler`: "ok" or "degraded" after availability, and the recorded status echoed. */
  function StatusReport(snapshot: CouchDbStatus, version: string): (r: Json)
    ensures r.JObject? && "status" in r.fields && "services" in r.fields
    ensures r.fields["status"] == JString(if snapshot.available then "ok" else "degraded")
  {
    JObject(map[
      "status" := JString(if snapshot.available then "ok" else "degraded"),
      "version" := JString(version),
      "services" := JObject(map[
        "couchdb" := JObject(map[
          "available" := JBool(snapshot.available),
          "last_checked" := JNumber(SecondsSince(0, snapshot.lastChecked)),
          "error" := match snapshot.errorMessage case Some(m) => JString(m) case None => JNull])])])
  }

  /** The status report echoes availability and error, and says "ok" exactly when available. */
  lemma StatusReportEchoes(snapshot: CouchDbStatus, version: string)
    ensures var r := StatusReport(snapshot, version);
      var backend := r.fields["services"].fields["couchdb"].fields;
      && (r.fields["status"] == JString("ok") <==> snapshot.available)
      && backend["available"] == JBool(snapshot.available)
      && (snapshot.errorMessage.None? <==> backend["error"] == JNull)
      && (snapshot.errorMessage.Some? ==> backend["error"] == JString(snapshot.errorMessage.value))
  {
    assert "ok" != "degraded";
  }
}
