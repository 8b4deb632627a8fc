/**
  internal/http-server/handlers/complaints/delete/delete.go: an
  administrator deletes a complaint by its path id; after a successful
  delete the cached complaint listing is removed (twice, which is the same
  as once).

  The handler calls the service method DeleteComplaintById, which is not
  part of this model; it is taken to be ComplaintService.DeleteComplaint.
 */
module AdminDelete {
  import opened Errors
  import Text
  import opened Http
  import opened Storage
  import opened CacheStore
  import opened SharedResponse
  import ComplaintService

  const ListingKey := "cache:/complaints"

  /** The handler on one request; `execFails` says the DELETE statement itself fails. */
  method Delete(svc: ComplaintService.Service, redis: Redis, idParam: string, execFails: bool) returns (reply: Response)
    requires svc.storage.Valid()
    modifies svc.storage, redis
    ensures svc.storage.Valid()
    ensures svc.storage.categories == old(svc.storage.categories) && svc.storage.online == old(svc.storage.online)
    ensures redis.online == old(redis.online)
    ensures idParam == "" ==> reply == Response(StatusBadRequest, "Complaint ID is required", NoData)
    ensures idParam != "" && Text.ParseDecimal(idParam).None? ==> reply == Response(StatusBadRequest, "Invalid complaint ID format", NoData)
    ensures Text.ParseDecimal(idParam).Some? ==>
      var id := Text.ParseDecimal(idParam).value;
      (old(svc.storage.online) && !execFails && id in old(svc.storage.complaints) ==>
         reply == Response(StatusOK, "Complaint successfully deleted", NoData) &&
         svc.storage.complaints == old(svc.storage.complaints) - {id} &&
         redis.entries == (if redis.online then old(redis.entries) - {ListingKey} else old(redis.entries))) &&
      (!(old(svc.storage.online) && !execFails && id in old(svc.storage.complaints)) ==>
         reply == Response(StatusNotFound, "Complaint not found", NoData))
    ensures reply.statusCode != StatusOK ==>
      svc.storage.complaints == old(svc.storage.complaints) && redis.entries == old(redis.entries)
    ensures reply.statusCode == StatusOK && redis.online ==> ListingKey !in redis.entries
  {
    if idParam == "" {
      return Response(StatusBadRequest, "Complaint ID is required", NoData);
    }
    var parsed := Text.ParseDecimal(idParam);
    if parsed.None? {
      return Response(StatusBadRequest, "Invalid complaint ID format", NoData);
    }
    var err := svc.DeleteComplaint(parsed.value, execFails);
    if err.Some? && Is(err.value, Sentinel(ComplaintNotFound)) {
      return Response(StatusNotFound, "Complaint not found", NoData);
    }
    if err.Some? {
      return Response(StatusInternalServerError, "Internal error while deleting complaint", NoData);
    }
    var first := redis.Del(ListingKey);
    var second := redis.Del(ListingKey);
    return Response(StatusOK, "Complaint successfully deleted", NoData);
  }
}
