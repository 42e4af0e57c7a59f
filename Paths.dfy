/**
 * The client's relative URL builders: an API path under `/api/` and a
 * websocket endpoint under `/ws/`, each dropping at most one leading slash
 * of its argument.
 */
module Paths {

  const ApiPrefix: string := "/api/"
  const WsPrefix: string := "/ws/"

  /** `s.startsWith('/') ? s.slice(1) : s`. */
  function DropLeadingSlash(s: string): (r: string)
    ensures r == s || (s != [] && s[0] == '/' && r == s[1..])
    ensures s != [] && s[0] == '/' ==> r == s[1..]
  {
    if |s| > 0 && s[0] == '/' then s[1..] else s
  }

  /** `getApiUrl`. */
  function GetApiUrl(path: string): (url: string)
    ensures ApiPrefix <= url
    ensures url[|ApiPrefix|..] == path || (path != [] && url[|ApiPrefix|..] == path[1..])
  {
    ApiPrefix + DropLeadingSlash(path)
  }

  /** `getWsUrl`. */
  function GetWsUrl(endpoint: string): (url: string)
    ensures WsPrefix <= url
    ensures url[|WsPrefix|..] == endpoint || (endpoint != [] && url[|WsPrefix|..] == endpoint[1..])
  {
    WsPrefix + DropLeadingSlash(endpoint)
  }

  /** A path with or without its leading slash names the same API URL. */
  lemma ApiUrlIgnoresOneSlash(p: string)
    requires p == [] || p[0] != '/'
    ensures GetApiUrl("/" + p) == GetApiUrl(p) == ApiPrefix + p
  {
    assert ("/" + p)[1..] == p;
  }

  /** The same for websocket endpoints. */
  lemma WsUrlIgnoresOneSlash(p: string)
    requires p == [] || p[0] != '/'
    ensures GetWsUrl("/" + p) == GetWsUrl(p) == WsPrefix + p
  {
    assert ("/" + p)[1..] == p;
  }

  /** Only the first slash goes: `getApiUrl('//x') == '/api//x'`. */
  lemma ApiUrlKeepsSecondSlash(p: string)
    ensures GetApiUrl("//" + p) == ApiPrefix + "/" + p
  {
    assert ("//" + p)[1..] == "/" + p;
  }

  /** The same for websocket endpoints. */
  lemma WsUrlKeepsSecondSlash(p: string)
    ensures GetWsUrl("//" + p) == WsPrefix + "/" + p
  {
    assert ("//" + p)[1..] == "/" + p;
  }
}
