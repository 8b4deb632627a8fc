/**
  internal/http-server/handlers/complaints/update/update.go: overwrite a
  complaint from the request body; after a successful update the cached
  complaint listing is removed, and a failure to remove it is only logged.
 */
module ComplaintUpdate {
  import opened Errors
  import opened Domain
  import Text
  import opened Http
  import opened Storage
  import Tables
  import opened CacheStore
  import opened SharedResponse
  import ComplaintService

  const ListingKey := "cache:/complaints"

  /**
    The handler on one request: `idParam` is the path id and `body` the
    decoded request, None when the body does not decode. `rereadFails` says
    the repository's read-back after its UPDATE fails: the row is then
    changed, the reply is 500 and the cached listing is left as it was.
   */
  method Update(svc: ComplaintService.Service, redis: Redis, idParam: string, body: Option<Complaint>, now: int,
                rereadFails: bool)
    returns (reply: Response)
    requires svc.storage.Valid()
    modifies svc.storage, redis
    ensures svc.storage.Valid()
    ensures svc.storage.categories == old(svc.storage.categories) && svc.storage.online == old(svc.storage.online)
    ensures redis.online == old(redis.online)
    ensures Text.Atoi(idParam).None? ==> reply == Response(StatusBadRequest, "invalid complaint ID", NoData)
    ensures Text.Atoi(idParam).Some? && body.None? ==> reply == Response(StatusBadRequest, "failed to decode request", NoData)
    ensures reply.statusCode != StatusOK ==> redis.entries == old(redis.entries)
    // The UPDATE runs exactly when id, body, database and target category are all there.
    ensures var written := Text.Atoi(idParam).Some? && body.Some? && old(svc.storage.online) &&
                           Text.Atoi(idParam).value in old(svc.storage.complaints) &&
                           body.value.category.id in svc.storage.categories;
      (written ==>
        var id := Text.Atoi(idParam).value;
        svc.storage.complaints == old(svc.storage.complaints)[id := UpdatedRow(old(svc.storage.complaints)[id], body.value, now)]) &&
      (!written ==> svc.storage.complaints == old(svc.storage.complaints)) &&
      (reply.statusCode == StatusOK <==> written && !rereadFails) &&
      (written && rereadFails ==> reply == Response(StatusInternalServerError, "failed to update complaint", NoData))
    ensures reply.statusCode == StatusOK ==>
      var id := Text.Atoi(idParam).value;
      var c := body.value;
      reply == Response(StatusOK, idParam, ComplaintData(
        Complaint(id, c.barcode, c.message, c.status, old(svc.storage.complaints)[id].createdAt, Some(now),
                  Some(AnswerText(c.answer)), Tables.CategoryOf(c.category.id, svc.storage.categories[c.category.id])))) &&
      redis.entries == (if redis.online then old(redis.entries) - {ListingKey} else old(redis.entries))
    ensures reply.statusCode !in {StatusOK, StatusBadRequest} ==>
      reply == Response(StatusInternalServerError, "failed to update complaint", NoData)
  {
    var parsed := Text.Atoi(idParam);
    if parsed.None? {
      return Response(StatusBadRequest, "invalid complaint ID", NoData);
    }
    if body.None? {
      return Response(StatusBadRequest, "failed to decode request", NoData);
    }
    var updated := svc.UpdateComplaint(parsed.value, body.value, now, rereadFails);
    if updated.Err? {
      return Response(StatusInternalServerError, "failed to update complaint", NoData);
    }
    var err := redis.Del(ListingKey);
    // A failed Del is only logged.
    return Response(StatusOK, idParam, ComplaintData(updated.value));
  }
}
