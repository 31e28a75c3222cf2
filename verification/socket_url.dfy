/** Where the socket connects: `socket.js` derives it from its own reading of the API URL,
    whose default differs from the one the HTTP client falls back to (`axios.js`). A missing
    build-time variable reads as the empty string, which `||` treats like `undefined`. */
module SocketUrl {

  const DefaultSocketUrl: string := "http://localhost:5000"
  /** "http://localhost:5000/api". */
  const DefaultApiUrl: string := DefaultSocketUrl + "/api"
  const HostedOrigin: string := "https://vibely-backend-bwry.onrender.com"
  const HttpDefaultApiUrl: string := HostedOrigin + "/api"

  /** `s` ends with `suffix`. */
  predicate EndsWith(s: string, suffix: string) {
    |suffix| <= |s| && s[|s| - |suffix|..] == suffix
  }

  /** `VITE_API_URL || "http://localhost:5000/api"`. */
  function ApiUrl(apiEnv: string): (r: string)
    ensures apiEnv != "" ==> r == apiEnv
    ensures apiEnv == "" ==> r == DefaultApiUrl
  {
    if apiEnv != "" then apiEnv else DefaultApiUrl
  }

  /** The HTTP client's base URL: `VITE_API_URL || "https://vibely-backend-bwry.onrender.com/api"`.
      It agrees with `ApiUrl` exactly when the variable is set. */
  function HttpBaseUrl(apiEnv: string): (r: string)
    ensures apiEnv != "" ==> r == apiEnv && r == ApiUrl(apiEnv)
    ensures apiEnv == "" ==> r == HttpDefaultApiUrl && r != ApiUrl(apiEnv)
  {
    if apiEnv != "" then apiEnv else HttpDefaultApiUrl
  }

  /** `url.replace(/\/api\/?$/, "")`: one trailing "/api" or "/api/" is cut off. */
  function StripApiSuffix(url: string): (r: string)
    ensures r <= url
    ensures EndsWith(url, "/api/") ==> r + "/api/" == url
    ensures !EndsWith(url, "/api/") && EndsWith(url, "/api") ==> r + "/api" == url
    ensures !EndsWith(url, "/api/") && !EndsWith(url, "/api") ==> r == url
  {
    if EndsWith(url, "/api/") then url[..|url| - 5]
    else if EndsWith(url, "/api") then url[..|url| - 4]
    else url
  }

  /** `VITE_SOCKET_URL || apiUrl.replace(/\/api\/?$/, "") || "http://localhost:5000"`. */
  function SocketUrl(socketEnv: string, apiEnv: string): (r: string)
    ensures r != ""
    ensures socketEnv != "" ==> r == socketEnv
  {
    if socketEnv != "" then socketEnv
    else
      var stripped := StripApiSuffix(ApiUrl(apiEnv));
      if stripped != "" then stripped else DefaultSocketUrl
  }

  /** The suffix strip undoes appending "/api" or "/api/" to any base. */
  lemma StripUndoesSuffix(base: string)
    ensures StripApiSuffix(base + "/api") == base
    ensures StripApiSuffix(base + "/api/") == base
  {
    var a := base + "/api";
    assert a[|a| - 4..] == "/api";
    assert a[|a| - 1] == 'i';
    assert a[..|a| - 4] == base;
    var b := base + "/api/";
    assert b[|b| - 5..] == "/api/";
    assert b[..|b| - 5] == base;
  }

  /** Only one suffix is cut: "/api/api" keeps its first "/api". */
  lemma StripsOnce(base: string)
    ensures StripApiSuffix(base + "/api/api") == base + "/api"
  {
    StripUndoesSuffix(base + "/api");
    assert base + "/api/api" == (base + "/api") + "/api";
  }

  /** With a socket variable, the API variable is irrelevant; without any variable the socket
      goes to the local server; with only an API URL ending in "/api" the socket goes to its
      origin; an API URL without either suffix is used as is; a URL that is nothing but "/api"
      or "/api/" falls back to the local server. */
  lemma SocketUrlCases(socketEnv: string, apiEnv: string, origin: string)
    requires origin != ""
    ensures SocketUrl("", "") == DefaultSocketUrl
    ensures SocketUrl("", origin + "/api") == origin
    ensures SocketUrl("", origin + "/api/") == origin
    ensures apiEnv != "" && StripApiSuffix(apiEnv) == apiEnv ==> SocketUrl("", apiEnv) == apiEnv
    ensures SocketUrl("", "/api") == DefaultSocketUrl
    ensures SocketUrl("", "/api/") == DefaultSocketUrl
    ensures socketEnv != "" ==> SocketUrl(socketEnv, apiEnv) == socketEnv
  {
    StripUndoesSuffix("http://localhost:5000");
    assert DefaultApiUrl == "http://localhost:5000" + "/api";
    StripUndoesSuffix(origin);
    StripUndoesSuffix("");
    assert "" + "/api" == "/api";
    assert "" + "/api/" == "/api/";
  }

  /** As written, without build-time variables the socket and the HTTP client disagree on the
      server: the socket goes to the local server while requests go to the hosted API, so the
      socket's origin plus "/api" is not the HTTP base URL. With an API variable ending in
      "/api" they agree. */
  lemma DefaultOriginsDiffer(origin: string)
    requires origin != ""
    ensures SocketUrl("", "") + "/api" != HttpBaseUrl("")
    ensures SocketUrl("", "") != StripApiSuffix(HttpBaseUrl(""))
    ensures SocketUrl("", origin + "/api") + "/api" == HttpBaseUrl(origin + "/api")
  {
    StripUndoesSuffix(DefaultSocketUrl);
    StripUndoesSuffix(HostedOrigin);
    StripUndoesSuffix(origin);
    assert DefaultSocketUrl[4] != HostedOrigin[4];
    assert (DefaultSocketUrl + "/api")[4] == DefaultSocketUrl[4];
    assert (HostedOrigin + "/api")[4] == HostedOrigin[4];
    assert origin + "/api" != "";
  }

  /** The socket URL derived from the HTTP client's own base URL, so both reach one origin. */
  function SameOriginSocketUrl(socketEnv: string, apiEnv: string): (r: string)
    ensures r != ""
    ensures socketEnv != "" ==> r == socketEnv
  {
    if socketEnv != "" then socketEnv
    else
      var stripped := StripApiSuffix(HttpBaseUrl(apiEnv));
      if stripped != "" then stripped else DefaultSocketUrl
  }

  /** Without a socket variable, the corrected socket URL is the origin of the HTTP base URL:
      appending the stripped suffix gives the base URL back, defaults included. */
  lemma SocketSharesApiOrigin(apiEnv: string)
    ensures var base := HttpBaseUrl(apiEnv);
      EndsWith(base, "/api") && |base| > 4 ==> SameOriginSocketUrl("", apiEnv) + "/api" == base
    ensures var base := HttpBaseUrl(apiEnv);
      EndsWith(base, "/api/") && |base| > 5 ==> SameOriginSocketUrl("", apiEnv) + "/api/" == base
    ensures SameOriginSocketUrl("", "") + "/api" == HttpBaseUrl("")
  {
    var base := HttpBaseUrl(apiEnv);
    if EndsWith(base, "/api") {
      assert base[|base| - 1] == 'i';
      assert !EndsWith(base, "/api/");
    }
    StripUndoesSuffix(HostedOrigin);
    assert HostedOrigin != "";
  }
}
