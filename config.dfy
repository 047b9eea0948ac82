/** The frontend's base URLs, chosen from where the code runs. */
module Config {
  import opened Wrappers

  const DevelopmentBase: string := "http://localhost:3000"

  /** Where the code runs: in a browser on a page, or on the server with
      the `API_BASE_URL` environment variable. */
  datatype Environment = Browser(hostname: string, origin: string) | Server(apiBaseUrl: Option<string>)

  /** `getApiBaseUrl`. */
  function ApiBaseUrl(env: Environment): (url: string)
    ensures env.Browser? && env.hostname == "localhost" ==> url == DevelopmentBase
    ensures env.Browser? && env.hostname != "localhost" ==> url == env.origin
    ensures env.Server? && TruthyString(env.apiBaseUrl) ==> url == env.apiBaseUrl.value
    ensures env.Server? && !TruthyString(env.apiBaseUrl) ==> url == DevelopmentBase
  {
    match env
    case Browser(hostname, origin) => if hostname == "localhost" then DevelopmentBase else origin
    case Server(v) => OrString(v, DevelopmentBase)
  }

  datatype AppConfig = AppConfig(apiBaseUrl: string, authBaseUrl: string, apiEndpoint: string)

  /** `config`: the base URL and the two URLs derived from it. */
  function MakeConfig(env: Environment): (c: AppConfig)
    ensures c.apiBaseUrl == ApiBaseUrl(env)
    ensures c.apiEndpoint == c.apiBaseUrl + "/api"
    ensures c.authBaseUrl == c.apiEndpoint + "/auth"
  {
    var base := ApiBaseUrl(env);
    AppConfig(base, base + "/api/auth", base + "/api")
  }

  /** On the server the base URL is never empty. */
  lemma ServerBaseNonEmpty(v: Option<string>)
    ensures ApiBaseUrl(Server(v)) != ""
  {
  }
}
