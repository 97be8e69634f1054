/**
 * The frontend's configuration helpers (`config.ts`): the backend's base
 * URL, URLs of backend paths, and the HTTPS and certificate settings.
 * Environment variables and the page's location are parameters.
 */
module AppConfig {
  import opened Wrappers
  import opened Text

  /** `process.env.NEXT_PUBLIC_API_URL || 'http://localhost:8080'`. */
  function BaseUrl(env: Option<string>): (url: string)
    ensures env.Some? && env.value != "" ==> url == env.value
    ensures !(env.Some? && env.value != "") ==> url == "http://localhost:8080"
  {
    if env.Some? && env.value != "" then env.value else "http://localhost:8080"
  }

  /** `nodeRejectUnauthorized`: certificates are checked only in production. */
  function NodeRejectUnauthorized(nodeEnv: Option<string>): (reject: bool)
    ensures reject <==> nodeEnv == Some("production")
  {
    nodeEnv == Some("production")
  }

  /** `detectHttpsMode`: the page is served over HTTPS, or the backend URL is an HTTPS one. */
  function DetectHttpsMode(protocol: string, baseUrl: string): (https: bool)
    ensures https <==> protocol == "https:" || StartsWith(baseUrl, "https://")
  {
    protocol == "https:" || (|baseUrl| >= 8 && baseUrl[..8] == "https://")
  }

  /** `getApiUrl(path)`: the base without one trailing slash, then the path with a leading slash. */
  function GetApiUrl(baseUrl: string, path: string): (url: string)
    ensures StartsWith(path, "/") ==> url == DropTrailingSlash(baseUrl) + path
    ensures !StartsWith(path, "/") ==> url == DropTrailingSlash(baseUrl) + "/" + path
  {
    var base := if EndsWith(baseUrl, "/") then baseUrl[..|baseUrl| - 1] else baseUrl;
    var formattedPath := if StartsWith(path, "/") then path else "/" + path;
    base + formattedPath
  }

  /** `getApiUrl()` is the base followed by one slash, whether or not the base ends in one. */
  lemma GetApiUrlOfEmptyPath(baseUrl: string)
    ensures GetApiUrl(baseUrl, "") == DropTrailingSlash(baseUrl) + "/"
    ensures !EndsWith(baseUrl, "/") ==> GetApiUrl(baseUrl + "/", "") == baseUrl + "/"
  {
    if !EndsWith(baseUrl, "/") {
      var b := baseUrl + "/";
      assert EndsWith(b, "/") by { assert b[|b| - 1..] == "/"; }
      assert b[..|b| - 1] == baseUrl;
    }
  }

  /** A leading slash on the path makes no difference, and the slash after the base is always there. */
  lemma GetApiUrlSlash(baseUrl: string, path: string)
    requires !StartsWith(path, "/")
    ensures GetApiUrl(baseUrl, "/" + path) == GetApiUrl(baseUrl, path)
    ensures GetApiUrl(baseUrl, path)[|DropTrailingSlash(baseUrl)|] == '/'
  {
    assert StartsWith("/" + path, "/") by { assert ("/" + path)[..1] == "/"; }
    assert DropTrailingSlash(baseUrl) + "/" + path == DropTrailingSlash(baseUrl) + ("/" + path);
  }
}
