/**
 * The work item (spider/common/request.go): a target URL plus the transport
 * context the downloader needs. The engine imports the package of the same
 * name under src/spider/common, which is not part of this model; this
 * constructor stands in for it.
 */
module Common {
  import opened Wrappers

  /** The prepared `*http.Request`: its HTTP method and target; its body is always nil. */
  datatype HttpRequest = HttpRequest(verb: string, url: string)

  /** An opaque `*cookiejar.Jar`. */
  datatype CookieJar = CookieJar

  /** `prepared` is the struct's `Request` field; `jar` its `Jar` field. */
  datatype Request = Request(
    prepared: Option<HttpRequest>,
    url: string,
    proxyUrl: string,
    jar: Option<CookieJar>)

  /** The one scheme for which a prepared request is built. */
  const HttpScheme: string := "http://"

  /** `strings.HasPrefix`. */
  predicate HasPrefix(s: string, prefix: string)
  {
    |prefix| <= |s| && s[..|prefix|] == prefix
  }

  /**
   * Builds a work item for `url`: the URL is stored verbatim, and a GET request
   * for it is prepared only when it begins with exactly `http://`.
   */
  function NewRequest(url: string): (r: Request)
    ensures r.url == url
    ensures r.prepared.Some? <==> HasPrefix(url, HttpScheme)
    ensures r.prepared.Some? ==> r.prepared.value == HttpRequest("GET", url)
    ensures r.proxyUrl == "" && r.jar == None
  {
    if HasPrefix(url, HttpScheme) then
      Request(Some(HttpRequest("GET", url)), url, "", None)
    else
      Request(None, url, "", None)
  }

  /** `https://` URLs do not match the `http://` prefix, so they get no prepared request. */
  lemma HttpsHasNoHandle(rest: string)
    ensures NewRequest("https://" + rest).prepared == None
  {
    var u := "https://" + rest;
    assert u[4] == 's' != HttpScheme[4];
    assert u[..|HttpScheme|] != HttpScheme;
  }
}
