/**
  internal/http-server/handlers/complaints/deleteByOwner/delete.go: a
  student deletes their own complaint. The token's barcode must be numeric,
  the ownership check must succeed, and only then is the row deleted and
  the two cached listings it appears in removed.

  The handler calls the service methods CanUserDeleteComplaintById and
  DeleteComplaintById, which are not part of this model; they are taken to
  be the repository's IsOwnerOfComplaint and DeleteComplaint.
 */
module OwnerDelete {
  import opened Errors
  import opened Domain
  import Text
  import Jwt
  import opened Http
  import opened Storage
  import opened CacheStore
  import opened SharedResponse

  /** The id the pipeline goes on with: the parsed path id, or the zero id when it does not parse. */
  function ComplaintIdOf(idParam: string): int
  {
    match Text.ParseDecimal(idParam)
    case Some(id) => id
    case None => NilId
  }

  /** The token verifies and its barcode claim is a number. */
  predicate Authenticated(lib: Jwt.Library, jwtSecret: string, header: string)
  {
    Verified(lib, jwtSecret, header) &&
    "barcode" in VerifiedClaims(lib, jwtSecret, header) &&
    VerifiedClaims(lib, jwtSecret, header)["barcode"].Num?
  }

  function TokenBarcode(lib: Jwt.Library, jwtSecret: string, header: string): int
    requires Authenticated(lib, jwtSecret, header)
  {
    Text.FloatToInt(VerifiedClaims(lib, jwtSecret, header)["barcode"].n)
  }

  /** The cached entries the handler removes after a delete. */
  function InvalidatedKeys(idParam: string): set<string>
  {
    {CacheKey("/complaints/" + idParam), CacheKey("/complaints")}
  }

  /**
    The handler on one request. `replies` are the responses rendered, in
    order; `aborted` says the goroutine panicked after them. `deleteFails`
    says the DELETE fails after the ownership check succeeded (the
    connection lost between the two).
   */
  method DeleteByOwner(db: Database, redis: Redis, lib: Jwt.Library, jwtSecret: string, header: string, idParam: string,
                       deleteFails: bool)
    returns (replies: seq<Reply>, aborted: bool)
    requires db.Valid()
    modifies db, redis
    ensures db.Valid()
    ensures db.categories == old(db.categories) && db.online == old(db.online) && redis.online == old(redis.online)
    ensures header == "" ==> replies == [PlainError(StatusUnauthorized, "Missing token")] && !aborted
    ensures header != "" && !Text.HasPrefix(header, BearerPrefix) ==>
      replies == [PlainError(StatusUnauthorized, "Invalid token format")] && !aborted
    ensures CheckAuthorization(header).Bearer? && !Verified(lib, jwtSecret, header) ==>
      replies == [PlainError(StatusUnauthorized, "Invalid token")] && !aborted
    ensures Verified(lib, jwtSecret, header) && !Authenticated(lib, jwtSecret, header) ==>
      replies == [Json(Response(StatusForbidden, "Invalid token barcode", NoData))] && !aborted
    // The row and the cache change exactly when the caller owns the complaint and the DELETE succeeds.
    ensures var owns := Authenticated(lib, jwtSecret, header) &&
                        old(db.IsOwnerOfComplaint(ComplaintIdOf(idParam), TokenBarcode(lib, jwtSecret, header))) == Ok(true);
      (owns && !deleteFails ==>
        db.complaints == old(db.complaints) - {ComplaintIdOf(idParam)} && !aborted &&
        replies == [Json(Response(StatusOK, "Complaint successfully deleted", NoData))] &&
        redis.entries == (if redis.online then old(redis.entries) - InvalidatedKeys(idParam) else old(redis.entries))) &&
      (owns && deleteFails ==>
        !aborted && replies == [Json(Response(StatusInternalServerError, "Error on deleting complaint", NoData))]) &&
      (!(owns && !deleteFails) ==> db.complaints == old(db.complaints) && redis.entries == old(redis.entries))
    ensures Authenticated(lib, jwtSecret, header) ==>
      var can := old(db.IsOwnerOfComplaint(ComplaintIdOf(idParam), TokenBarcode(lib, jwtSecret, header)));
      var invalidId := if Text.ParseDecimal(idParam).None? then [Json(Response(StatusForbidden, "Invalid complaint id", NoData))] else [];
      (can.Err? && Is(can.error, Sentinel(ComplaintNotFound)) ==> aborted && replies == invalidId) &&
      (can.Err? && !Is(can.error, Sentinel(ComplaintNotFound)) ==>
         !aborted && replies == invalidId + [Json(Response(StatusNotFound, "Error on finding owner", NoData))]) &&
      (can == Ok(false) ==>
         !aborted && replies == invalidId + [Json(Response(StatusForbidden, "User is not owner of complaint", NoData))])
    // A malformed id is rendered as 403 and the check goes on with the zero id, which no row has.
    ensures Authenticated(lib, jwtSecret, header) && Text.ParseDecimal(idParam).None? && old(db.online) ==>
      aborted && replies == [Json(Response(StatusForbidden, "Invalid complaint id", NoData))]
  {
    var auth := CheckAuthorization(header);
    if auth.MissingToken? {
      return [PlainError(StatusUnauthorized, "Missing token")], false;
    }
    if auth.BadFormat? {
      return [PlainError(StatusUnauthorized, "Invalid token format")], false;
    }
    var parsed := Jwt.ParseWithKey(lib, auth.token, jwtSecret);
    if parsed.Err? {
      return [PlainError(StatusUnauthorized, "Invalid token")], false;
    }
    var claims := parsed.value;
    if !("barcode" in claims && claims["barcode"].Num?) {
      return [Json(Response(StatusForbidden, "Invalid token barcode", NoData))], false;
    }
    var barcode := Text.FloatToInt(claims["barcode"].n);

    replies := [];
    var complaintId := ComplaintIdOf(idParam);
    if Text.ParseDecimal(idParam).None? {
      // No return follows this response.
      replies := [Json(Response(StatusForbidden, "Invalid complaint id", NoData))];
    }
    var can := db.IsOwnerOfComplaint(complaintId, barcode);
    if can.Err? && Is(can.error, Sentinel(ComplaintNotFound)) {
      // The log call asserts the numeric barcode claim to be a string and panics.
      return replies, true;
    }
    if can.Err? {
      return replies + [Json(Response(StatusNotFound, "Error on finding owner", NoData))], false;
    }
    if !can.value {
      return replies + [Json(Response(StatusForbidden, "User is not owner of complaint", NoData))], false;
    }
    var err := db.DeleteComplaint(complaintId, deleteFails);
    if err.Some? {
      return replies + [Json(Response(StatusInternalServerError, "Error on deleting complaint", NoData))], false;
    }
    var delItem := redis.Del(CacheKey("/complaints/" + idParam));
    var delList := redis.Del(CacheKey("/complaints"));
    assert redis.online ==> redis.entries == old(redis.entries) - InvalidatedKeys(idParam);
    return replies + [Json(Response(StatusOK, "Complaint successfully deleted", NoData))], false;
  }
}
