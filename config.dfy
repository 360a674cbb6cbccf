/**
 * The gateway's configuration as read from the environment (`AppConfig::from_env`): the
 * CouchDB URL and credentials, with credentials embedded in the URL taking precedence,
 * and the listening host and port.
 *
 * The environment is a map from variable name to value; URL parsing is a parameter.
 */
module Config {
  import opened Common
  import Utils

  datatype ServerConfig = ServerConfig(host: string, port: u16)
  datatype CouchDbConfig = CouchDbConfig(url: string, username: string, password: string)
  datatype AppConfig = AppConfig(server: ServerConfig, couchdb: CouchDbConfig)

  type Environment = map<string, string>

  const DefaultCouchDbUrl: string := "http://couchdb:5984"
  const DefaultUsername: string := "admin"
  const DefaultPassword: string := "secret"
  const DefaultHost: string := "0.0.0.0"
  const DefaultPort: u16 := 3000

  /** `env::var(name).unwrap_or_else(..)`: the variable's value, or the default when unset. */
  function EnvOr(env: Environment, name: string, default: string): (r: string)
    ensures name in env ==> r == env[name]
    ensures name !in env ==> r == default
  {
    if name in env then env[name] else default
  }

  /** The listening port: `PORT` when it parses as a 16-bit number, 3000 otherwise. */
  function PortFromEnv(env: Environment): (r: u16)
    ensures "PORT" in env && ParseU16(env["PORT"]).Some? ==> r == ParseU16(env["PORT"]).value
    ensures ("PORT" !in env || ParseU16(env["PORT"]).None?) ==> r == DefaultPort
  {
    if "PORT" in env then ParseU16(env["PORT"]).GetOr(DefaultPort) else DefaultPort
  }

  /** Whether the URL's own credentials are consulted: it contains '@' and parses. */
  predicate HasUrlCredentials(url: string, parse: string -> Option<UrlParts>) {
    '@' in url && parse(url).Some?
  }

  /**
   * The configuration `from_env` produces: credentials from the URL when it has a user
   * name (its password only when it has one), the URL re-serialised without credentials
   * when it contains '@' and parses, and a trailing '/' in every case.
   */
  function ConfigFromEnv(env: Environment, parse: string -> Option<UrlParts>): AppConfig {
    var url := EnvOr(env, "COUCHDB_URL", DefaultCouchDbUrl);
    var envUser := EnvOr(env, "COUCHDB_USER", DefaultUsername);
    var envPass := EnvOr(env, "COUCHDB_PASSWORD", DefaultPassword);
    var fromUrl := HasUrlCredentials(url, parse) && parse(url).value.username != "";
    var username := if fromUrl then parse(url).value.username else envUser;
    var password := if fromUrl && parse(url).value.password.Some? then parse(url).value.password.value else envPass;
    var clean := if HasUrlCredentials(url, parse) then parse(url).value.withoutCredentials else url;
    AppConfig(ServerConfig(EnvOr(env, "HOST", DefaultHost), PortFromEnv(env)),
              CouchDbConfig(WithTrailingSlash(clean), username, password))
  }

  /** `from_env`, step by step as the source reassigns its locals. */
  method FromEnv(env: Environment, parse: string -> Option<UrlParts>) returns (config: AppConfig)
    ensures config == ConfigFromEnv(env, parse)
  {
    var couchdbUrl := if "COUCHDB_URL" in env then env["COUCHDB_URL"] else DefaultCouchDbUrl;
    var username := if "COUCHDB_USER" in env then env["COUCHDB_USER"] else DefaultUsername;
    var password := if "COUCHDB_PASSWORD" in env then env["COUCHDB_PASSWORD"] else DefaultPassword;
    if '@' in couchdbUrl {
      var parsed := parse(couchdbUrl);
      if parsed.Some? && parsed.value.username != "" {
        username := parsed.value.username;
        if parsed.value.password.Some? {
          password := parsed.value.password.value;
        }
      }
    }
    assert couchdbUrl == EnvOr(env, "COUCHDB_URL", DefaultCouchDbUrl);
    var cleanUrl := couchdbUrl;
    if '@' in couchdbUrl {
      var parsed := parse(couchdbUrl);
      if parsed.Some? {
        cleanUrl := parsed.value.withoutCredentials;
      }
    }
    ghost var spec := ConfigFromEnv(env, parse);
    assert username == spec.couchdb.username && password == spec.couchdb.password;
    assert cleanUrl == if HasUrlCredentials(couchdbUrl, parse) then parse(couchdbUrl).value.withoutCredentials else couchdbUrl;
    var urlWithSlash := if EndsWith(cleanUrl, "/") then cleanUrl else cleanUrl + "/";
    assert urlWithSlash == spec.couchdb.url;
    var host := if "HOST" in env then env["HOST"] else DefaultHost;
    var port := DefaultPort;
    if "PORT" in env {
      var p := ParseU16(env["PORT"]);
      if p.Some? {
        port := p.value;
      }
    }
    config := AppConfig(ServerConfig(host, port), CouchDbConfig(urlWithSlash, username, password));
  }

  lemma NoAtInDefaultUrl()
    ensures '@' !in DefaultCouchDbUrl
  {
    var u := DefaultCouchDbUrl;
    forall i | 0 <= i < |u| ensures u[i] != '@' {
    }
  }

  /** With nothing set, every setting takes its default, the URL gaining a trailing '/'. */
  lemma Defaults(parse: string -> Option<UrlParts>)
    ensures ConfigFromEnv(map[], parse) ==
      AppConfig(ServerConfig("0.0.0.0", 3000), CouchDbConfig("http://couchdb:5984/", "admin", "secret"))
  {
    NoAtInDefaultUrl();
    assert !EndsWith(DefaultCouchDbUrl, "/") by {
      assert DefaultCouchDbUrl[|DefaultCouchDbUrl| - 1] == '4';
    }
  }

  /** The configured URL always ends with '/', and one that already did is kept as it is. */
  lemma UrlEndsWithSlash(env: Environment, parse: string -> Option<UrlParts>)
    ensures EndsWith(ConfigFromEnv(env, parse).couchdb.url, "/")
    ensures var url := EnvOr(env, "COUCHDB_URL", DefaultCouchDbUrl);
      '@' !in url ==> ConfigFromEnv(env, parse).couchdb.url == WithTrailingSlash(url)
    ensures var url := EnvOr(env, "COUCHDB_URL", DefaultCouchDbUrl);
      '@' !in url && EndsWith(url, "/") ==> ConfigFromEnv(env, parse).couchdb.url == url
  {
  }

  /**
   * The user name comes from the URL exactly when the URL contains '@' and
   * `extract_auth_from_url` finds a user in it; the password does so only when the URL
   * also carries one. Otherwise the environment's (or default) credentials stand.
   */
  lemma CredentialsPrecedence(env: Environment, parse: string -> Option<UrlParts>)
    ensures var url := EnvOr(env, "COUCHDB_URL", DefaultCouchDbUrl);
      var c := ConfigFromEnv(env, parse).couchdb;
      var auth := Utils.ExtractAuthFromUrl(url, parse);
      && ('@' in url && auth.Some? ==> c.username == auth.value.0)
      && (!('@' in url && auth.Some?) ==> c.username == EnvOr(env, "COUCHDB_USER", DefaultUsername))
      && ('@' in url && auth.Some? && parse(url).value.password.Some? ==> c.password == auth.value.1)
      && (!('@' in url && auth.Some? && parse(url).value.password.Some?) ==>
            c.password == EnvOr(env, "COUCHDB_PASSWORD", DefaultPassword))
  {
  }
}
