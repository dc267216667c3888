/**
 * mangadex/routes/base.py: the request parameters every route builds, and the
 * `headers` dict that all routes share because it is a class attribute.
 */
module Routes {
  import opened Wrappers
  import opened Python

  /** `BaseRoute.BASE_URL` */
  const BaseUrl: string := "https://api.mangadex.org"

  /** The four method subclasses. */
  datatype HttpMethod = Get | Post | Put | Delete

  /** The `method` class attribute of each subclass. */
  function MethodName(m: HttpMethod): (name: string)
    ensures name in {"GET", "POST", "PUT", "DELETE"}
  {
    match m
    case Get => "GET"
    case Post => "POST"
    case Put => "PUT"
    case Delete => "DELETE"
  }

  /** The keyword arguments handed to the session's `request`: `method`, `url`, `headers`, and the
      `params` or `json` entry a route adds. */
  datatype RequestParams = RequestParams(
    verb: string,
    url: string,
    headers: map<string, string>,
    params: Option<map<string, PyValue>>,
    json: Option<map<string, PyValue>>)

  /** `BaseRoute.build_request(path)` with the current contents of the shared headers. */
  function BuildRequest(m: HttpMethod, path: string, headers: map<string, string>): (p: RequestParams)
    ensures p.verb == MethodName(m) && p.headers == headers
    ensures BaseUrl <= p.url && p.url[|BaseUrl|..] == path
    ensures p.params.None? && p.json.None?
  {
    RequestParams(MethodName(m), BaseUrl + path, headers, None, None)
  }

  /** Each subclass sends its own method name, and the URL determines the path. */
  lemma BuildRequestDistinguishes(m1: HttpMethod, m2: HttpMethod, path1: string, path2: string, h: map<string, string>)
    ensures BuildRequest(m1, path1, h).verb == BuildRequest(m2, path2, h).verb <==> m1 == m2
    ensures BuildRequest(m1, path1, h).url == BuildRequest(m2, path2, h).url <==> path1 == path2
  {
    var u1, u2 := BuildRequest(m1, path1, h).url, BuildRequest(m2, path2, h).url;
    if u1 == u2 {
      assert path1 == u1[|BaseUrl|..] == u2[|BaseUrl|..] == path2;
    }
  }

  /** The class-level `headers` dict: one object read by every route's `build_request` and
      written by `set_auth_token` whichever route calls it. */
  class SharedHeaders {
    var entries: map<string, string>

    /** `headers = {"User-Agent": user_agent}`; the agent text depends on installed versions. */
    constructor (userAgent: string)
      ensures entries == map["User-Agent" := userAgent]
    {
      entries := map["User-Agent" := userAgent];
    }

    /** `RequireLogin.set_auth_token`: a non-string token raises before anything changes;
        otherwise the bearer header is set or replaced and every other entry is kept. */
    method SetAuthToken(token: PyValue) returns (err: Option<PyError>)
      modifies this
      ensures !token.PStr? ==> err == Some(ValueError("token must be str")) && entries == old(entries)
      ensures token.PStr? ==> err.None? && entries == old(entries)["Authorization" := "Bearer " + token.s]
    {
      if !token.PStr? {
        return Some(ValueError("token must be str"));
      }
      entries := entries["Authorization" := "Bearer " + token.s];
      err := None;
    }
  }

  /** After a token is set the headers carry it in the `Bearer` form it can be read back from,
      and the user agent survives. */
  lemma AuthorizationHeader(entries: map<string, string>, token: string)
    requires "User-Agent" in entries
    ensures var h := entries["Authorization" := "Bearer " + token];
            && "Authorization" in h && h["Authorization"][..7] == "Bearer "
            && h["Authorization"][7..] == token
            && h["User-Agent"] == entries["User-Agent"]
  {
  }
}
