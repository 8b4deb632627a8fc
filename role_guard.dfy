/**
  internal/http-server/middleware/admin_only/adminOnly.go: the guard that
  admits a request whose token, verified against the administrator key,
  carries the role `admin`.
 */
module RoleGuard {
  import opened Errors
  import Text
  import Jwt
  import AdminToken
  import opened Http

  /** AdminOnlyMiddleware on one request. */
  function AdminOnly(lib: Jwt.Library, header: string): (r: GuardOutcome)
    ensures header == "" ==> r == Rejected(StatusUnauthorized, "Missing token")
    ensures header != "" && !Text.HasPrefix(header, BearerPrefix) ==> r == Rejected(StatusUnauthorized, "Invalid token format")
    ensures CheckAuthorization(header).Bearer? && !Verified(lib, AdminToken.AdminSecret, header) ==>
      r == Rejected(StatusUnauthorized, "Invalid token")
    ensures r.Next? <==>
      Verified(lib, AdminToken.AdminSecret, header) &&
      "role" in VerifiedClaims(lib, AdminToken.AdminSecret, header) && VerifiedClaims(lib, AdminToken.AdminSecret, header)["role"] == Jwt.Str("admin")
    ensures Verified(lib, AdminToken.AdminSecret, header) && !r.Next? ==> r == Rejected(StatusForbidden, "Forbidden")
    ensures r.Next? ==>
      r.barcode == (if "barcode" in VerifiedClaims(lib, AdminToken.AdminSecret, header) then Some(VerifiedClaims(lib, AdminToken.AdminSecret, header)["barcode"]) else None)
    ensures r != Aborted
  {
    match CheckAuthorization(header)
    case MissingToken => Rejected(StatusUnauthorized, "Missing token")
    case BadFormat => Rejected(StatusUnauthorized, "Invalid token format")
    case Bearer(token) =>
      match Jwt.ParseWithKey(lib, token, AdminToken.AdminSecret)
      case Err(_) => Rejected(StatusUnauthorized, "Invalid token")
      case Ok(claims) =>
        if !("role" in claims && claims["role"].Str? && claims["role"].s == "admin") then
          Rejected(StatusForbidden, "Forbidden")
        else
          Next(if "barcode" in claims then Some(claims["barcode"]) else None)
  }

  /**
    A token issued for an administrator whose role is `admin` passes the
    guard; it carries no barcode claim, so the context's barcode is nil.
   */
  lemma AdminTokenAdmitted(lib: Jwt.Library, admin: AdminToken.Admin, now: int)
    requires admin.role == "admin"
    requires Jwt.RoundTrips(lib, Jwt.HS256, AdminToken.AdminClaims(admin, now), AdminToken.AdminSecret)
    ensures AdminOnly(lib, BearerPrefix + AdminToken.GenerateJWT(lib, admin, now)) == Next(None)
  {
    var token := AdminToken.GenerateJWT(lib, admin, now);
    BearerIff(BearerPrefix + token, token);
    AdminToken.GeneratedTokenVerifies(lib, admin, now);
  }

  /** A token issued for any other role is refused with 403. */
  lemma OtherRoleForbidden(lib: Jwt.Library, admin: AdminToken.Admin, now: int)
    requires admin.role != "admin"
    requires Jwt.RoundTrips(lib, Jwt.HS256, AdminToken.AdminClaims(admin, now), AdminToken.AdminSecret)
    ensures AdminOnly(lib, BearerPrefix + AdminToken.GenerateJWT(lib, admin, now)) == Rejected(StatusForbidden, "Forbidden")
  {
    var token := AdminToken.GenerateJWT(lib, admin, now);
    BearerIff(BearerPrefix + token, token);
    AdminToken.GeneratedTokenVerifies(lib, admin, now);
  }
}
