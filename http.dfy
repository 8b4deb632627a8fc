/**
  What the handlers and middlewares share: the status codes of net/http they
  send, the Authorization header check every guard opens with, the cache key
  of a request path, and the outcome of a guard.
 */
module Http {
  import Text
  import Jwt
  import opened Errors

  const StatusOK := 200
  const StatusBadRequest := 400
  const StatusUnauthorized := 401
  const StatusForbidden := 403
  const StatusNotFound := 404
  const StatusMethodNotAllowed := 405
  const StatusInternalServerError := 500

  const BearerPrefix := "Bearer "

  /** The header check: empty, not a bearer token, or the token after the prefix. */
  datatype Authorization = MissingToken | BadFormat | Bearer(token: string)

  /**
    `authHeader == ""` is a missing token; `strings.TrimPrefix(authHeader,
    "Bearer ")` leaving the header unchanged is a bad format.
   */
  function CheckAuthorization(header: string): (r: Authorization)
    ensures r == MissingToken <==> header == ""
    ensures r == BadFormat <==> header != "" && !Text.HasPrefix(header, BearerPrefix)
  {
    if header == "" then MissingToken
    else
      var token := Text.TrimPrefix(header, BearerPrefix);
      if token == header then BadFormat else Bearer(token)
  }

  /** A header yields a bearer token exactly when it is the prefix followed by that token. */
  lemma BearerIff(header: string, token: string)
    ensures CheckAuthorization(header) == Bearer(token) <==> header == BearerPrefix + token
  {
    if header == BearerPrefix + token {
      assert header[..|BearerPrefix|] == BearerPrefix;
      assert header[|BearerPrefix|..] == token;
    }
    if CheckAuthorization(header) == Bearer(token) {
      assert Text.HasPrefix(header, BearerPrefix);
      assert BearerPrefix + token == header;
    }
  }

  /** The bearer token of the header verifies against `key`, whatever its signing method. */
  predicate Verified(lib: Jwt.Library, key: string, header: string)
  {
    CheckAuthorization(header).Bearer? &&
    Jwt.ParseWithKey(lib, CheckAuthorization(header).token, key).Ok?
  }

  function VerifiedClaims(lib: Jwt.Library, key: string, header: string): Jwt.Claims
    requires Verified(lib, key, header)
  {
    Jwt.ParseWithKey(lib, CheckAuthorization(header).token, key).value
  }

  /** Where a guard leaves the request. */
  datatype GuardOutcome =
    | Next(barcode: Option<Jwt.ClaimValue>)   // the wrapped handler runs, with this barcode in the context
    | Rejected(status: int, text: string)      // http.Error was sent and the handler does not run
    | Aborted                                  // the handler panicked: it renders nothing and next does not run

  /** The cache key of a request: `cache:` followed by the URL path. */
  function CacheKey(path: string): (key: string)
    ensures Text.HasPrefix(key, "cache:") && key[|"cache:"|..] == path
  {
    "cache:" + path
  }

  /** Distinct paths never share a cache entry. */
  lemma CacheKeyInjective(p: string, q: string)
    requires CacheKey(p) == CacheKey(q)
    ensures p == q
  {
    assert p == CacheKey(p)[6..];
  }
}
