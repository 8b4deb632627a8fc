/**
  internal/http-server/handlers/complaints/update_complaint_status/updateComplaintStatus.go:
  set a complaint's status and answer. The status is matched without regard
  to case against "approved" and "rejected" and stored as domain's
  StatusApproved or StatusRejected.
 */
module StatusUpdate {
  import opened Errors
  import opened Domain
  import Text
  import opened Http
  import opened Storage
  import LibResponse
  import ComplaintService

  /** The `switch strings.ToLower(req.Status)`: the status to store, or None for any other string. */
  function ParseStatus(s: string): (r: Option<string>)
    ensures r == Some(StatusApproved) <==> Text.ToLower(s) == "approved"
    ensures r == Some(StatusRejected) <==> Text.ToLower(s) == "rejected"
    ensures r.None? <==> Text.ToLower(s) != "approved" && Text.ToLower(s) != "rejected"
  {
    match Text.ToLower(s)
    case "approved" => Some(StatusApproved)
    case "rejected" => Some(StatusRejected)
    case _ => None
  }

  /** Lowering ASCII letters twice is lowering them once. */
  lemma ToLowerIdempotent(s: string)
    ensures Text.ToLower(Text.ToLower(s)) == Text.ToLower(s)
  {
    var once := Text.ToLower(s);
    assert forall i :: 0 <= i < |once| ==> Text.LowerChar(once[i]) == once[i];
  }

  /** Case does not matter: a status and its lower-case form parse alike. */
  lemma ParseStatusIgnoresCase(s: string)
    ensures ParseStatus(Text.ToLower(s)) == ParseStatus(s)
  {
    ToLowerIdempotent(s);
  }

  /** The stored statuses parse back to themselves, the capitalised "Rejected" included. */
  lemma ParseStatusOfStored(s: string)
    requires ParseStatus(s).Some?
    ensures ParseStatus(ParseStatus(s).value) == ParseStatus(s)
  {
    assert Text.ToLower(StatusApproved) == "approved";
    assert Text.ToLower(StatusRejected) == "rejected";
  }

  /** The decoded request body. */
  datatype StatusRequest = StatusRequest(status: string, answer: string)

  method UpdateStatus(svc: ComplaintService.Service, idParam: string, body: Option<StatusRequest>, now: int)
    returns (reply: LibResponse.Response)
    requires svc.storage.Valid()
    modifies svc.storage
    ensures svc.storage.Valid()
    ensures svc.storage.categories == old(svc.storage.categories) && svc.storage.online == old(svc.storage.online)
    ensures Text.Atoi(idParam).None? ==> reply == LibResponse.Error("invalid complaint ID", StatusBadRequest)
    ensures Text.Atoi(idParam).Some? && body.None? ==> reply == LibResponse.Error("failed to decode request", StatusBadRequest)
    ensures Text.Atoi(idParam).Some? && body.Some? && ParseStatus(body.value.status).None? ==>
      reply == LibResponse.Error("invalid status", StatusBadRequest)
    ensures reply.status == StatusOK <==>
      Text.Atoi(idParam).Some? && body.Some? && ParseStatus(body.value.status).Some? &&
      old(svc.storage.online) && Text.Atoi(idParam).value in old(svc.storage.complaints)
    ensures reply.status == StatusOK ==>
      var id := Text.Atoi(idParam).value;
      reply == LibResponse.Response(StatusOK, "") &&
      svc.storage.complaints == old(svc.storage.complaints)[id :=
        old(svc.storage.complaints)[id].(status := ParseStatus(body.value.status).value,
                                         answer := Some(body.value.answer), updatedAt := now)]
    ensures reply.status != StatusOK ==> svc.storage.complaints == old(svc.storage.complaints)
    ensures reply.status !in {StatusOK, StatusBadRequest} ==>
      reply == LibResponse.Error("failed to update complaint status", StatusInternalServerError)
  {
    var parsed := Text.Atoi(idParam);
    if parsed.None? {
      return LibResponse.Error("invalid complaint ID", StatusBadRequest);
    }
    if body.None? {
      return LibResponse.Error("failed to decode request", StatusBadRequest);
    }
    var status := ParseStatus(body.value.status);
    if status.None? {
      return LibResponse.Error("invalid status", StatusBadRequest);
    }
    var err := svc.UpdateComplaintStatus(parsed.value, status.value, body.value.answer, now);
    if err.Some? {
      return LibResponse.Error("failed to update complaint status", StatusInternalServerError);
    }
    return LibResponse.Response(StatusOK, "");
  }
}
