/**
  internal/delivery/http/middleware/admin/adminOnly.go: the guard that
  admits a request when its token's barcode belongs to an administrator.

  The token is parsed with the configured secret for every signing method.
  The barcode claim is read with a float64 type assertion, and every log
  call after it asserts the same claim to be a string: on each of those
  paths the handler goroutine panics, so a lookup error or a non-admin is
  never answered with 401 or 405.
 */
module DeliveryAdminGuard {
  import opened Errors
  import Text
  import Jwt
  import opened Http

  /**
    AdminOnlyMiddleware on one request; `isAdmin` is AdminService.IsAdmin.
    The barcode is converted with strconv.Atoi(strconv.Itoa(int(f))), which
    gives back int(f) for every float.
   */
  function AdminOnly(lib: Jwt.Library, jwtSecret: string, header: string, isAdmin: int -> Result<bool>): (r: GuardOutcome)
    ensures header == "" ==> r == Rejected(StatusUnauthorized, "Missing token")
    ensures header != "" && !Text.HasPrefix(header, BearerPrefix) ==> r == Rejected(StatusUnauthorized, "Invalid token format")
    ensures CheckAuthorization(header).Bearer? && !Verified(lib, jwtSecret, header) ==>
      r == Rejected(StatusUnauthorized, "Invalid token")
    ensures r.Next? <==>
      Verified(lib, jwtSecret, header) &&
      "barcode" in VerifiedClaims(lib, jwtSecret, header) &&
      VerifiedClaims(lib, jwtSecret, header)["barcode"].Num? &&
      isAdmin(Text.FloatToInt(VerifiedClaims(lib, jwtSecret, header)["barcode"].n)) == Ok(true)
    ensures r.Next? ==> r.barcode == Some(VerifiedClaims(lib, jwtSecret, header)["barcode"])
    ensures Verified(lib, jwtSecret, header) && !r.Next? ==> r == Aborted
    ensures r != Rejected(StatusUnauthorized, "Invalid token barcode")
  {
    match CheckAuthorization(header)
    case MissingToken => Rejected(StatusUnauthorized, "Missing token")
    case BadFormat => Rejected(StatusUnauthorized, "Invalid token format")
    case Bearer(token) =>
      match Jwt.ParseWithKey(lib, token, jwtSecret)
      case Err(_) => Rejected(StatusUnauthorized, "Invalid token")
      case Ok(claims) =>
        if !("barcode" in claims && claims["barcode"].Num?) then Aborted
        else
          var n := Text.FloatToInt(claims["barcode"].n);
          Text.AtoiItoa(n);
          match Text.Atoi(Text.Itoa(n))
          case None => Rejected(StatusUnauthorized, "Invalid token barcode")
          case Some(bcode) =>
            match isAdmin(bcode)
            case Err(_) => Aborted
            case Ok(false) => Aborted
            case Ok(true) => Next(Some(claims["barcode"]))
  }
}
