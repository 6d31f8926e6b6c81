/**
 * The client's base URL choice and the endpoint-to-URL helper used by every API call.
 */
module ApiConfig {
  import opened Wrappers

  /** The development server's URL; defined beside the production one but never selected. */
  const LOCAL_API_URL := "http://localhost:8000/api"

  /** The URL used when no environment value is set. */
  const PRODUCTION_API_URL := "https://count-gear-chance-instant.trycloudflare.com/api"

  /** `process.env.EXPO_PUBLIC_API_URL || PRODUCTION_API_URL`, the environment value given as a parameter. */
  function ApiBaseUrl(env: Option<string>): (base: string)
    ensures env.Some? && env.value != "" ==> base == env.value
    ensures env.None? || env.value == "" ==> base == PRODUCTION_API_URL
  {
    match env
    case Some(url) => if url != "" then url else PRODUCTION_API_URL
    case None => PRODUCTION_API_URL
  }

  /**
   * `endpoint.startsWith('/') ? endpoint.slice(1) : endpoint`: at most one leading slash is
   * removed, and only when there is one.
   */
  function CleanEndpoint(endpoint: string): (r: string)
    ensures endpoint == r || endpoint == "/" + r
    ensures r == endpoint <==> endpoint == [] || endpoint[0] != '/'
  {
    if |endpoint| > 0 && endpoint[0] == '/' then endpoint[1..] else endpoint
  }

  /** `s.endsWith('/') ? s : s + '/'`: the result ends in a slash, added only when missing. */
  function WithTrailingSlash(s: string): (r: string)
    ensures r == s || r == s + "/"
    ensures |r| > 0 && r[|r| - 1] == '/'
    ensures r == s <==> |s| > 0 && s[|s| - 1] == '/'
  {
    if |s| > 0 && s[|s| - 1] == '/' then s else s + "/"
  }

  /**
   * `getApiUrl(endpoint)` with `API_BASE_URL` as `base`: the base, one slash, the endpoint
   * without one leading slash, and a trailing slash unless it already ends in one.
   */
  function GetApiUrl(base: string, endpoint: string): (url: string)
    ensures |url| >= |base| + 2
    ensures url[..|base| + 1] == base + "/"
    ensures url[|url| - 1] == '/'
    ensures |url| <= |base| + |endpoint| + 2
  {
    base + "/" + WithTrailingSlash(CleanEndpoint(endpoint))
  }

  /**
   * The URL is the base, a slash, a core and a slash, where the endpoint is that core with
   * or without one leading and one trailing slash.
   */
  lemma {:induction false} GetApiUrlParts(base: string, endpoint: string)
    ensures exists core :: && GetApiUrl(base, endpoint) == base + "/" + core + "/"
                           && endpoint in {core, "/" + core, core + "/", "/" + core + "/"}
  {
    var c := CleanEndpoint(endpoint);
    var w := WithTrailingSlash(c);
    var core := w[..|w| - 1];
    assert w == core + "/";
    assert c == core || c == core + "/";
    assert GetApiUrl(base, endpoint) == base + "/" + core + "/";
    if c == core + "/" {
      assert endpoint == core + "/" || endpoint == "/" + (core + "/");
      assert "/" + (core + "/") == "/" + core + "/";
    }
    assert endpoint in {core, "/" + core, core + "/", "/" + core + "/"};
  }

  /** `"/recipes"` and `"recipes"` give the same URL: one leading slash is dropped. */
  lemma {:induction false} LeadingSlashIgnored(base: string, endpoint: string)
    requires endpoint == [] || endpoint[0] != '/'
    ensures GetApiUrl(base, "/" + endpoint) == GetApiUrl(base, endpoint)
  {
    assert ("/" + endpoint)[1..] == endpoint;
  }

  /** `"recipes/"` and `"recipes"` give the same URL: the trailing slash is never doubled. */
  lemma {:induction false} TrailingSlashNotDoubled(base: string, endpoint: string)
    requires endpoint == [] || endpoint[|endpoint| - 1] != '/'
    ensures GetApiUrl(base, endpoint + "/") == GetApiUrl(base, endpoint)
  {
    var c := CleanEndpoint(endpoint);
    if endpoint == [] {
      assert endpoint + "/" == "/" && CleanEndpoint("/") == [];
    } else {
      if endpoint[0] == '/' {
        assert (endpoint + "/")[1..] == endpoint[1..] + "/";
      }
      assert CleanEndpoint(endpoint + "/") == c + "/";
      assert c == [] || c[|c| - 1] != '/';
      assert WithTrailingSlash(c + "/") == c + "/" == WithTrailingSlash(c);
    }
  }

  /** Interior slashes are kept: `"recipes/5"` gives the base, then `"/recipes/5/"`. */
  lemma {:induction false} RecipeFiveUrl(base: string)
    ensures GetApiUrl(base, "recipes/5") == base + "/recipes/5/"
  {
    assert CleanEndpoint("recipes/5") == "recipes/5";
    assert WithTrailingSlash("recipes/5") == "recipes/5/";
    assert "/" + "recipes/5/" == "/recipes/5/";
  }

  /** Only one leading slash is removed: `"//recipes"` keeps the second. */
  lemma {:induction false} OneLeadingSlashRemoved(base: string)
    ensures GetApiUrl(base, "//recipes") == base + "//recipes/"
  {
    assert CleanEndpoint("//recipes") == "/recipes";
    assert WithTrailingSlash("/recipes") == "/recipes/";
    assert "/" + "/recipes/" == "//recipes/";
  }
}
