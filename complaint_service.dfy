/**
  internal/service/complaint/complaints.go: ComplaintService, the rate-gated
  create and the calls it forwards to the repository.
 */
module ComplaintService {
  import opened Errors
  import opened Domain
  import opened Tables
  import opened Storage
  import Text

  class Service {
    const storage: Database

    constructor (strg: Database)
      ensures storage == strg
    {
      storage := strg;
    }

    /**
      CreateComplaint: consults the rate gate and saves only when it allows.
      A gate error is wrapped (errors.Is still finds ErrLimitOneComplaintInOneHour
      through the wrap); a save error is wrapped; success returns the store's
      id and answer unchanged. A failed read of the answer after the INSERT
      reports an error although the complaint is stored.
     */
    method CreateComplaint(barcode: int, categoryId: int, message: string, now: int, answerReadFails: bool)
      returns (r: Result<(int, string)>)
      requires storage.Valid()
      modifies storage
      ensures storage.Valid()
      ensures var gate := old(storage.CheckComplaintLimit(barcode, now));
        gate.1.Some? ==> r == Err(Wrapped("failed to check complaint limit", gate.1.value)) && unchanged(storage)
      ensures (old(storage.online) &&
               exists id :: OwnedBy(old(storage.complaints), barcode, id) && now - old(storage.complaints)[id].createdAt < Hour) ==>
        r.Err? && Is(r.error, Sentinel(LimitOneComplaintInOneHour)) && unchanged(storage)
      ensures old(storage.CheckComplaintLimit(barcode, now)).0 ==>
        storage.categories == old(storage.categories) && storage.online == old(storage.online) &&
        storage.nextCategoryId == old(storage.nextCategoryId) &&
        storage.nextComplaintId == old(storage.nextComplaintId) + 1 &&
        (categoryId !in storage.categories ==>
          r == Err(Wrapped("failed to save complaint", Wrapped("failed to save complaint", Driver(ForeignKeyViolation)))) &&
          storage.complaints == old(storage.complaints)) &&
        (categoryId in storage.categories ==>
          storage.complaints == old(storage.complaints)[old(storage.nextComplaintId) := NewComplaintRow(barcode, categoryId, message, now)] &&
          (!answerReadFails ==> r == Ok((old(storage.nextComplaintId), storage.categories[categoryId].answer))) &&
          (answerReadFails ==>
            r == Err(Wrapped("failed to save complaint", Wrapped("failed to get categories answer", Driver(ConnectionFailure))))))
      ensures r.Ok? ==> old(storage.CheckComplaintLimit(barcode, now)) == (true, None)
    {
      var (canSubmit, err) := storage.CheckComplaintLimit(barcode, now);
      if err.Some? {
        return Err(Wrapped("failed to check complaint limit", err.value));
      }
      if !canSubmit {
        // CheckComplaintLimit never denies without an error.
        return Err(Sentinel(LimitOneComplaintInOneHour));
      }
      var saved := storage.SaveComplaint(barcode, categoryId, message, now, answerReadFails);
      if saved.Err? {
        return Err(Wrapped("failed to save complaint", saved.error));
      }
      return saved;
    }

    /** GetComplaintById forwards the repository's lookup. */
    function GetComplaintById(complaintId: int): (r: Result<Complaint>)
      reads storage
      requires storage.Valid()
      ensures r == storage.GetComplaintByUUID(complaintId)
      ensures r.Ok? ==> r.value.id == complaintId
    {
      storage.GetComplaintByUUID(complaintId)
    }

    /** GetAllComplaints: ErrComplaintNotFound on an empty table, any other error returned as it is. */
    method GetAllComplaints() returns (r: Result<seq<Complaint>>)
      requires storage.Valid()
      ensures storage.online && storage.complaints == map[] ==> r == Err(Sentinel(ComplaintNotFound))
      ensures !storage.online ==> r == Err(Wrapped("storage.postgres.GetComplaints", Driver(ConnectionFailure)))
      ensures storage.online && storage.complaints != map[] ==>
        r == Ok(SelectBelow(storage.complaints, storage.categories, All, storage.nextComplaintId))
    {
      var complaints := storage.GetComplaints();
      if complaints.Err? && Is(complaints.error, Sentinel(ComplaintNotFound)) {
        return Err(Sentinel(ComplaintNotFound));
      }
      if complaints.Err? {
        return Err(complaints.error);
      }
      return complaints;
    }

    /** GetComplaintsByCategoryId forwards the repository's query. */
    method GetComplaintsByCategoryId(categoryId: int) returns (r: Result<seq<Complaint>>)
      requires storage.Valid()
      ensures !storage.online ==> r == Err(Wrapped("storage.postgres.GetComplaintsByCategory", Driver(ConnectionFailure)))
      ensures storage.online ==> r == Ok(SelectBelow(storage.complaints, storage.categories, ByCategory(categoryId), storage.nextComplaintId))
    {
      r := storage.GetComplaintsByCategoryId(categoryId);
    }

    /** UpdateComplaintStatus forwards its arguments and the repository's result. */
    method UpdateComplaintStatus(complaintId: int, status: string, answer: string, now: int) returns (err: Option<Error>)
      requires storage.Valid()
      modifies storage
      ensures storage.Valid()
      ensures storage.categories == old(storage.categories) && storage.online == old(storage.online)
      ensures err.None? <==> old(storage.online) && complaintId in old(storage.complaints)
      ensures !old(storage.online) ==> err == Some(Wrapped("storage.postgres.UpdateComplaintStatus", Driver(ConnectionFailure)))
      ensures old(storage.online) && complaintId !in old(storage.complaints) ==> err == Some(Sentinel(ComplaintNotFound))
      ensures err.Some? ==> storage.complaints == old(storage.complaints)
      ensures err.None? ==>
        storage.complaints == old(storage.complaints)[complaintId :=
          old(storage.complaints)[complaintId].(status := status, answer := Some(answer), updatedAt := now)]
    {
      err := storage.UpdateComplaintStatus(complaintId, status, answer, now);
    }

    /** UpdateComplaint forwards its arguments and the repository's result. */
    method UpdateComplaint(complaintId: int, complaint: Complaint, now: int, rereadFails: bool) returns (r: Result<Complaint>)
      requires storage.Valid()
      modifies storage
      ensures storage.Valid()
      ensures storage.categories == old(storage.categories) && storage.online == old(storage.online)
      ensures r.Ok? <==>
        old(storage.online) && complaintId in old(storage.complaints) && complaint.category.id in storage.categories && !rereadFails
      ensures !old(storage.online) ==>
        r == Err(Wrapped("storage.postgres.UpdateComplaint", Driver(ConnectionFailure))) &&
        storage.complaints == old(storage.complaints)
      ensures old(storage.online) && complaintId !in old(storage.complaints) ==>
        r == Err(Sentinel(ComplaintNotFound)) && storage.complaints == old(storage.complaints)
      ensures old(storage.online) && complaintId in old(storage.complaints) && complaint.category.id !in storage.categories ==>
        r == Err(Plain("categories with id " + Text.Itoa(complaint.category.id) + " does not exist")) &&
        storage.complaints == old(storage.complaints)
      ensures old(storage.online) && complaintId in old(storage.complaints) && complaint.category.id in storage.categories ==>
        storage.complaints == old(storage.complaints)[complaintId := UpdatedRow(old(storage.complaints)[complaintId], complaint, now)] &&
        (rereadFails ==> r == Err(Wrapped("storage.postgres.UpdateComplaint", Driver(ConnectionFailure)))) &&
        (!rereadFails ==>
          r == Ok(Complaint(complaintId, complaint.barcode, complaint.message, complaint.status,
                            old(storage.complaints)[complaintId].createdAt, Some(now), Some(AnswerText(complaint.answer)),
                            CategoryOf(complaint.category.id, storage.categories[complaint.category.id]))))
    {
      r := storage.UpdateComplaint(complaintId, complaint, now, rereadFails);
    }

    /** DeleteComplaint forwards its argument and the repository's result. */
    method DeleteComplaint(complaintId: int, execFails: bool) returns (err: Option<Error>)
      requires storage.Valid()
      modifies storage
      ensures storage.Valid()
      ensures storage.categories == old(storage.categories) && storage.online == old(storage.online)
      ensures err.None? <==> old(storage.online) && !execFails && complaintId in old(storage.complaints)
      ensures err.Some? ==> err == Some(Sentinel(ComplaintNotFound)) && storage.complaints == old(storage.complaints)
      ensures err.None? ==> storage.complaints == old(storage.complaints) - {complaintId}
    {
      err := storage.DeleteComplaint(complaintId, execFails);
    }
  }
}
