/**
  internal/lib/jwt/generateJWT.go: the administrator's token, signed with
  HS256 and a key written into the source.
 */
module AdminToken {
  import Jwt
  import opened Errors

  /** The signing key, the same literal the role guard verifies with. */
  const AdminSecret := "a-string-secret-at-least-256-bits-long"

  /** The fields of domain.Admin the token carries. */
  datatype Admin = Admin(id: int, username: string, role: string)

  /** The claims: exactly id, username, role and an expiry one day after `now`. */
  function AdminClaims(admin: Admin, now: int): (c: Jwt.Claims)
    ensures c.Keys == {"id", "username", "role", "exp"}
    ensures c["id"] == Jwt.Num(admin.id) && c["username"] == Jwt.Str(admin.username)
    ensures c["role"] == Jwt.Str(admin.role) && c["exp"] == Jwt.Num(now + Jwt.Day)
  {
    map["id" := Jwt.Num(admin.id), "username" := Jwt.Str(admin.username),
        "role" := Jwt.Str(admin.role), "exp" := Jwt.Num(now + Jwt.Day)]
  }

  function GenerateJWT(lib: Jwt.Library, admin: Admin, now: int): string
  {
    lib.sign(Jwt.HS256, AdminClaims(admin, now), AdminSecret)
  }

  /** The token decodes to HS256 and the admin's claims, and verifies against the fixed key. */
  lemma GeneratedTokenVerifies(lib: Jwt.Library, admin: Admin, now: int)
    requires Jwt.RoundTrips(lib, Jwt.HS256, AdminClaims(admin, now), AdminSecret)
    ensures Jwt.ParseWithKey(lib, GenerateJWT(lib, admin, now), AdminSecret) == Ok(AdminClaims(admin, now))
    ensures lib.decode(GenerateJWT(lib, admin, now)).value.alg == Jwt.HS256
  {
  }
}
