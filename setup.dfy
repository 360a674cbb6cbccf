/**
 * The setup endpoint: it hands the LiveSync plugin a setup URI that embeds the backend's
 * credentials and the gateway's external host and port.
 *
 * The `HOST_PROXY_PORT` variable is looked up in an environment map, and URL validation is
 * a parameter.
 */
module Setup {
  import opened Common
  import opened Models
  import opened Http
  import CouchDb
  import Services

  const DefaultHost: string := "localhost"
  const DefaultExternalPort: u16 := 3000

  const MissingCredentials: string := "Authentication credentials not available"
  const InvalidSetupUri: string := "Failed to generate valid setup URI"

  /** The endpoint's success payload, with its fields in declaration order. */
  datatype SetupUriResponse = SetupUriResponse(username: string, password: string, remoteUri: string, setupUri: string)

  /** `serde_json::to_string` of the payload. */
  function SetupJson(r: SetupUriResponse): (s: string)
    ensures StartsWith(s, "{\"username\":" + JsonQuote(r.username)) && s[|s| - 1] == '}'
  {
    var head := "{\"username\":" + JsonQuote(r.username);
    var tail := ",\"password\":" + JsonQuote(r.password) + ",\"remote_uri\":" + JsonQuote(r.remoteUri)
      + ",\"setup_uri\":" + JsonQuote(r.setupUri) + "}";
    assert (head + tail)[..|head|] == head;
    head + tail
  }

  /** The default external port: `HOST_PROXY_PORT` when it parses as a 16-bit number, else 3000. */
  function DefaultPort(env: map<string, string>): (r: u16)
    ensures "HOST_PROXY_PORT" in env && ParseU16(env["HOST_PROXY_PORT"]).Some? ==> r == ParseU16(env["HOST_PROXY_PORT"]).value
    ensures ("HOST_PROXY_PORT" !in env || ParseU16(env["HOST_PROXY_PORT"]).None?) ==> r == DefaultExternalPort
  {
    if "HOST_PROXY_PORT" in env then ParseU16(env["HOST_PROXY_PORT"]).GetOr(DefaultExternalPort) else DefaultExternalPort
  }

  /** The setup URI: credentials, then host and port, then the `/db` mount. */
  function SetupUri(username: string, password: string, host: string, port: u16): (r: string)
    ensures StartsWith(r, "http://" + username + ":" + password + "@" + host + ":")
    ensures EndsWith(r, NatToString(port) + "/db")
  {
    var head := "http://" + username + ":" + password + "@" + host + ":";
    assert head + NatToString(port) + "/db" == head + (NatToString(port) + "/db");
    head + NatToString(port) + "/db"
  }

  /** `setup_uri_handler`. */
  function SetupUriHandler(hostParam: Option<string>, portParam: Option<u16>,
                           auth: Option<(string, string)>, couchdbUrl: string,
                           env: map<string, string>, isValidUrl: string -> bool): (r: Response)
    ensures r.status == 200 || r.status == 500
    ensures r.status == 200 <==>
      auth.Some? && isValidUrl(SetupUri(auth.value.0, auth.value.1, hostParam.GetOr(DefaultHost), portParam.GetOr(DefaultPort(env))))
  {
    match auth
    case None => Response(INTERNAL_SERVER_ERROR, [], Text(MissingCredentials))
    case Some((username, password)) =>
      var host := hostParam.GetOr(DefaultHost);
      var port := portParam.GetOr(DefaultPort(env));
      var uri := SetupUri(username, password, host, port);
      if !isValidUrl(uri) then Response(INTERNAL_SERVER_ERROR, [], Text(InvalidSetupUri))
      else Response(OK, [ContentTypeJson], Text(SetupJson(SetupUriResponse(username, password, couchdbUrl, uri))))
  }

  /**
   * Without credentials the answer is 500 with its message; with them, 500 when the URI
   * does not validate and otherwise 200 JSON echoing the credentials, the backend URL as
   * the remote URI and the setup URI, whose host and port take their defaults when absent.
   */
  lemma SetupOutcomes(hostParam: Option<string>, portParam: Option<u16>,
                      auth: Option<(string, string)>, couchdbUrl: string,
                      env: map<string, string>, isValidUrl: string -> bool)
    ensures var r := SetupUriHandler(hostParam, portParam, auth, couchdbUrl, env, isValidUrl);
      && (auth.None? ==> r == Response(500, [], Text(MissingCredentials)))
      && (auth.Some? ==>
            var uri := SetupUri(auth.value.0, auth.value.1, hostParam.GetOr("localhost"), portParam.GetOr(DefaultPort(env)));
            && (!isValidUrl(uri) ==> r == Response(500, [], Text(InvalidSetupUri)))
            && (isValidUrl(uri) ==>
                  (r.status == 200 && r.headers == [ContentTypeJson]
                   && r.body == Text(SetupJson(SetupUriResponse(auth.value.0, auth.value.1, couchdbUrl, uri))))))
  {
  }

  /** The port written into the setup URI can be read back from it. */
  lemma SetupUriPortReadsBack(username: string, password: string, host: string, port: u16)
    ensures var r := SetupUri(username, password, host, port);
      var digits := NatToString(port);
      r[|r| - 3 - |digits|..|r| - 3] == digits && ParseU16(digits) == Some(port)
  {
    ParseU16OfNatToString(port);
  }

  /**
   * Served by the CouchDB client, which always reports credentials, the endpoint never
   * answers "credentials not available".
   */
  lemma SetupOverClient(c: CouchDb.Client, hostParam: Option<string>, portParam: Option<u16>,
                        env: map<string, string>, isValidUrl: string -> bool)
    ensures SetupUriHandler(hostParam, portParam, Services.CouchDbAuth(c), Services.CouchDbUrl(c), env, isValidUrl).body
      != Text(MissingCredentials)
  {
    var r := SetupUriHandler(hostParam, portParam, Services.CouchDbAuth(c), Services.CouchDbUrl(c), env, isValidUrl);
    var uri := SetupUri(c.username, c.password, hostParam.GetOr(DefaultHost), portParam.GetOr(DefaultPort(env)));
    if isValidUrl(uri) {
      assert r.body.text[0] == '{';
    } else {
      assert |InvalidSetupUri| != |MissingCredentials|;
    }
  }
}
