/** The WebSocket url with the access token (src/core/connection/url.ts). */
module Url {
  import opened Base
  import opened Config

  const TokenParameter := "access_token="

  /** A token that is `undefined` or empty leaves the url as it is; otherwise
      the token is appended as a query parameter, after `&` when the url
      already has a query and after `?` when it has none. */
  function BuildWebSocketUrl(c: ConnectionConfig): (r: string)
    ensures StartsWith(r, c.url)
    ensures c.token.None? || c.token.value == "" ==> r == c.url
    ensures c.token.Some? && c.token.value != "" ==>
      && |r| == |c.url| + 1 + |TokenParameter| + |c.token.value|
      && r[|c.url|] == (if '?' in c.url then '&' else '?')
      && r[|c.url| + 1..|c.url| + 1 + |TokenParameter|] == TokenParameter
      && r[|c.url| + 1 + |TokenParameter|..] == c.token.value
  {
    if c.token.Some? && c.token.value != "" then
      var separator := if '?' in c.url then "&" else "?";
      var r := c.url + separator + TokenParameter + c.token.value;
      assert r[..|c.url|] == c.url;
      r
    else c.url
  }

  /** With a token, the result always carries a query. */
  lemma {:induction false} TokenUrlHasQuery(c: ConnectionConfig)
    requires c.token.Some? && c.token.value != ""
    ensures '?' in BuildWebSocketUrl(c)
  {
    var r := BuildWebSocketUrl(c);
    if '?' in c.url {
      var i :| 0 <= i < |c.url| && c.url[i] == '?';
      assert r[i] == '?';
    } else {
      assert r[|c.url|] == '?';
    }
  }
}
